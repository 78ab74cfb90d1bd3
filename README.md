# UsbCameraController action state, modelled in Dafny

This project models the session controller of the ExCamera USB camera SDK:
the class `UsbCameraController`. The controller keeps one mutually
exclusive action state: `Normal`, `Photographing` or `Recording`. Only
`updateActionState` writes that state. The controller takes photo and
record requests from the application. It takes callbacks from the device
command layer, the photo saver and the video recorder. It answers with
calls on three optional listeners (control, photograph, record) and with
commands to its collaborators (saver, recorder, media scanner). Preview
start and stop are not passed on at once. They are posted to an Android
`Handler` and passed on when the Handler delivers them.

The model has four modules:

- `CameraTypes` (`camera_types.dfy`) holds the shared values. It has the
  action state, the emitted events and a snapshot of the controller's
  state. The snapshot (`Config`) holds the action state, which listeners
  are registered, and the Handler's queue of message codes.
- `Handlers` (`handlers.dfy`) has one transition function per handler.
  Each one maps the current state, and the answers its collaborators give,
  to the new state and the events emitted in source order. Their contracts
  say what each handler's branches promise.
- `Controller` (`controller.dfy`) has the class `UsbCameraController`.
  Its fields are updated in place, and its log holds every emitted event.
  There is one method per handler, and each is proved to do exactly what
  its transition function says. The file also has usage scenarios, each
  stated about a fresh controller.
- `Traces` (`traces.dfy`) covers runs: any sequence of requests and
  callbacks, applied in order. It proves what holds over every run: the
  transition table, faithful state reports, preview order, one "done" per
  saver outcome, and how Recording and Photographing can be entered.

A registered listener is a boolean flag; a null listener suppresses its
calls. A collaborator's answer is a parameter of the handler that asks for
it: `isPreviewing()`, the settings' availability and current resolution,
and the recorder's `isRecording()`.

Behaviour of the code worth noting:

- A record request leaves the state at `Normal`. The state becomes
  `Recording` only on the recorder's start-success callback.
- A setup or start error does not touch the state. It only reports
  `onRecordStartFail`.
- A disconnect does not reset the state. It only stops the recorder, when
  the state is `Recording` and the recorder says it is recording. The state
  stays `Recording` until the recorder reports an outcome.
  `Controller.RecordScenario` shows this.
- On a saver outcome, `onTakePhotoDone` is emitted before
  `onTakePhotoSuccess` or `onTakePhotoFail`.
- The state stays `Normal` while the recorder is being set up, so a photo
  request in that window is accepted. `Controller.PhotoDuringRecorderSetup`
  shows it.

## Model

| member | source | states |
|---|---|---|
| Handlers.SetOnControlListener | libexcamera/src/main/java/com/convergence/excamera/sdk/usb/core/UsbCameraController.java:116-118 | only the control listener's registration changes, to the given value; the action state, the queue and the other registrations are kept, and nothing is emitted |
| Handlers.SetOnCameraPhotographListener | libexcamera/src/main/java/com/convergence/excamera/sdk/usb/core/UsbCameraController.java:123-125 | only the photograph listener's registration changes, to the given value; the action state, the queue and the other registrations are kept, and nothing is emitted |
| Handlers.SetOnCameraRecordListener | libexcamera/src/main/java/com/convergence/excamera/sdk/usb/core/UsbCameraController.java:130-132 | only the record listener's registration changes, to the given value; the action state, the queue and the other registrations are kept, and nothing is emitted |
| Handlers.UpdateActionState | libexcamera/src/main/java/com/convergence/excamera/sdk/usb/core/UsbCameraController.java:381-390 | setting the current state again emits nothing; a real change assigns the state and emits exactly one onActionStateUpdate(new state), to the control listener only |
| Handlers.UpdateActionStateIdempotent | libexcamera/src/main/java/com/convergence/excamera/sdk/usb/core/UsbCameraController.java:381-390 | applying the same state a second time is a silent no-op |
| Handlers.TakePhoto | libexcamera/src/main/java/com/convergence/excamera/sdk/usb/core/UsbCameraController.java:162-186 | not previewing: only onTakePhotoFail, state unchanged; Normal: Photographing, then the path goes to the saver, then onTakePhotoStart; Photographing: silent no-op; Recording: onTakePhotoFail, state unchanged; the saver gets a task exactly when previewing from Normal |
| Handlers.StartRecord | libexcamera/src/main/java/com/convergence/excamera/sdk/usb/core/UsbCameraController.java:199-228 | never changes the state; onRecordStartFail when not previewing, when Photographing, or when the settings are unavailable in Normal; nothing at all when Recording; otherwise exactly one recorder setup with the path and the current width and height |
| Handlers.StopRecord | libexcamera/src/main/java/com/convergence/excamera/sdk/usb/core/UsbCameraController.java:234-236 | forwards stop to the recorder in every state, state unchanged |
| Handlers.OnStateUpdate | libexcamera/src/main/java/com/convergence/excamera/sdk/usb/core/UsbCameraController.java:392-397 | the connection state reaches the control listener, nothing else changes |
| Handlers.OnLoadFrame | libexcamera/src/main/java/com/convergence/excamera/sdk/usb/core/UsbCameraController.java:399-409 | the frame goes to the control listener; while Photographing it is given to the saver and the state returns to Normal; in other states the state is untouched; the saver gets the frame exactly when Photographing |
| Handlers.OnUsbConnect | libexcamera/src/main/java/com/convergence/excamera/sdk/usb/core/UsbCameraController.java:411-416 | re-published to the control listener, state unchanged |
| Handlers.OnUsbDisConnect | libexcamera/src/main/java/com/convergence/excamera/sdk/usb/core/UsbCameraController.java:418-426 | the state does not change; exactly one recorder stop when Recording and the recorder is recording, none otherwise; onUsbDisConnect comes after it |
| Handlers.OnCameraOpen | libexcamera/src/main/java/com/convergence/excamera/sdk/usb/core/UsbCameraController.java:428-433 | re-published to the control listener, state unchanged |
| Handlers.OnCameraClose | libexcamera/src/main/java/com/convergence/excamera/sdk/usb/core/UsbCameraController.java:435-440 | re-published to the control listener, state unchanged |
| Handlers.OnPreviewStart | libexcamera/src/main/java/com/convergence/excamera/sdk/usb/core/UsbCameraController.java:442-448 | emits nothing directly; the start message joins the back of the Handler queue |
| Handlers.OnPreviewStop | libexcamera/src/main/java/com/convergence/excamera/sdk/usb/core/UsbCameraController.java:450-454 | emits nothing directly; the stop message joins the back of the Handler queue |
| Handlers.OnSavePhotoSuccess | libexcamera/src/main/java/com/convergence/excamera/sdk/usb/core/UsbCameraController.java:456-463 | the file goes to the media scanner; then exactly onTakePhotoDone followed by onTakePhotoSuccess(path) |
| Handlers.OnSavePhotoFail | libexcamera/src/main/java/com/convergence/excamera/sdk/usb/core/UsbCameraController.java:465-471 | exactly onTakePhotoDone followed by onTakePhotoFail |
| Handlers.OnSetupRecordSuccess | libexcamera/src/main/java/com/convergence/excamera/sdk/usb/core/UsbCameraController.java:473-476 | issues recorder start, state unchanged |
| Handlers.OnSetupRecordError | libexcamera/src/main/java/com/convergence/excamera/sdk/usb/core/UsbCameraController.java:478-483 | onRecordStartFail with no state change |
| Handlers.OnStartRecordSuccess | libexcamera/src/main/java/com/convergence/excamera/sdk/usb/core/UsbCameraController.java:485-491 | the state is Recording (announced if it changed) before onRecordStartSuccess is emitted |
| Handlers.OnStartRecordError | libexcamera/src/main/java/com/convergence/excamera/sdk/usb/core/UsbCameraController.java:493-498 | onRecordStartFail with no state change |
| Handlers.OnRecordProgress | libexcamera/src/main/java/com/convergence/excamera/sdk/usb/core/UsbCameraController.java:500-505 | the elapsed time reaches the record listener, state unchanged |
| Handlers.OnRecordSuccess | libexcamera/src/main/java/com/convergence/excamera/sdk/usb/core/UsbCameraController.java:507-513 | the state is Normal (announced if it changed) before onRecordSuccess(path) |
| Handlers.OnRecordError | libexcamera/src/main/java/com/convergence/excamera/sdk/usb/core/UsbCameraController.java:515-521 | the state is Normal (announced if it changed) before onRecordFail |
| Handlers.HandleMessage | libexcamera/src/main/java/com/convergence/excamera/sdk/usb/core/UsbCameraController.java:548-565 | code 100 becomes onPreviewStart, code 101 onPreviewStop, any other code is ignored; the state is unchanged |
| Handlers.DispatchNext | libexcamera/src/main/java/com/convergence/excamera/sdk/usb/core/UsbCameraController.java:446-453 | the Handler takes its oldest message off the queue and passes it to handleMessage; an empty queue does nothing |
| Controller.UsbCameraController.constructor | libexcamera/src/main/java/com/convergence/excamera/sdk/usb/core/UsbCameraController.java:56-74 | a new controller is Normal, with no listener, an empty Handler queue and nothing emitted |
| Controller.UsbCameraController.SetOnControlListener | libexcamera/src/main/java/com/convergence/excamera/sdk/usb/core/UsbCameraController.java:116-118 | the fields and the log change exactly as Handlers.SetOnControlListener says |
| Controller.UsbCameraController.SetOnCameraPhotographListener | libexcamera/src/main/java/com/convergence/excamera/sdk/usb/core/UsbCameraController.java:123-125 | the fields and the log change exactly as Handlers.SetOnCameraPhotographListener says |
| Controller.UsbCameraController.SetOnCameraRecordListener | libexcamera/src/main/java/com/convergence/excamera/sdk/usb/core/UsbCameraController.java:130-132 | the fields and the log change exactly as Handlers.SetOnCameraRecordListener says |
| Controller.UsbCameraController.UpdateActionState | libexcamera/src/main/java/com/convergence/excamera/sdk/usb/core/UsbCameraController.java:381-390 | the fields and the log change exactly as Handlers.UpdateActionState says |
| Controller.UsbCameraController.TakePhoto | libexcamera/src/main/java/com/convergence/excamera/sdk/usb/core/UsbCameraController.java:162-186 | the fields and the log change exactly as Handlers.TakePhoto says |
| Controller.UsbCameraController.StartRecord | libexcamera/src/main/java/com/convergence/excamera/sdk/usb/core/UsbCameraController.java:199-228 | the fields and the log change exactly as Handlers.StartRecord says |
| Controller.UsbCameraController.StopRecord | libexcamera/src/main/java/com/convergence/excamera/sdk/usb/core/UsbCameraController.java:234-236 | the fields and the log change exactly as Handlers.StopRecord says |
| Controller.UsbCameraController.OnStateUpdate | libexcamera/src/main/java/com/convergence/excamera/sdk/usb/core/UsbCameraController.java:392-397 | the fields and the log change exactly as Handlers.OnStateUpdate says |
| Controller.UsbCameraController.OnLoadFrame | libexcamera/src/main/java/com/convergence/excamera/sdk/usb/core/UsbCameraController.java:399-409 | the fields and the log change exactly as Handlers.OnLoadFrame says |
| Controller.UsbCameraController.OnUsbConnect | libexcamera/src/main/java/com/convergence/excamera/sdk/usb/core/UsbCameraController.java:411-416 | the fields and the log change exactly as Handlers.OnUsbConnect says |
| Controller.UsbCameraController.OnUsbDisConnect | libexcamera/src/main/java/com/convergence/excamera/sdk/usb/core/UsbCameraController.java:418-426 | the fields and the log change exactly as Handlers.OnUsbDisConnect says |
| Controller.UsbCameraController.OnCameraOpen | libexcamera/src/main/java/com/convergence/excamera/sdk/usb/core/UsbCameraController.java:428-433 | the fields and the log change exactly as Handlers.OnCameraOpen says |
| Controller.UsbCameraController.OnCameraClose | libexcamera/src/main/java/com/convergence/excamera/sdk/usb/core/UsbCameraController.java:435-440 | the fields and the log change exactly as Handlers.OnCameraClose says |
| Controller.UsbCameraController.OnPreviewStart | libexcamera/src/main/java/com/convergence/excamera/sdk/usb/core/UsbCameraController.java:442-448 | the fields and the log change exactly as Handlers.OnPreviewStart says |
| Controller.UsbCameraController.OnPreviewStop | libexcamera/src/main/java/com/convergence/excamera/sdk/usb/core/UsbCameraController.java:450-454 | the fields and the log change exactly as Handlers.OnPreviewStop says |
| Controller.UsbCameraController.OnSavePhotoSuccess | libexcamera/src/main/java/com/convergence/excamera/sdk/usb/core/UsbCameraController.java:456-463 | the fields and the log change exactly as Handlers.OnSavePhotoSuccess says |
| Controller.UsbCameraController.OnSavePhotoFail | libexcamera/src/main/java/com/convergence/excamera/sdk/usb/core/UsbCameraController.java:465-471 | the fields and the log change exactly as Handlers.OnSavePhotoFail says |
| Controller.UsbCameraController.OnSetupRecordSuccess | libexcamera/src/main/java/com/convergence/excamera/sdk/usb/core/UsbCameraController.java:473-476 | the fields and the log change exactly as Handlers.OnSetupRecordSuccess says |
| Controller.UsbCameraController.OnSetupRecordError | libexcamera/src/main/java/com/convergence/excamera/sdk/usb/core/UsbCameraController.java:478-483 | the fields and the log change exactly as Handlers.OnSetupRecordError says |
| Controller.UsbCameraController.OnStartRecordSuccess | libexcamera/src/main/java/com/convergence/excamera/sdk/usb/core/UsbCameraController.java:485-491 | the fields and the log change exactly as Handlers.OnStartRecordSuccess says |
| Controller.UsbCameraController.OnStartRecordError | libexcamera/src/main/java/com/convergence/excamera/sdk/usb/core/UsbCameraController.java:493-498 | the fields and the log change exactly as Handlers.OnStartRecordError says |
| Controller.UsbCameraController.OnRecordProgress | libexcamera/src/main/java/com/convergence/excamera/sdk/usb/core/UsbCameraController.java:500-505 | the fields and the log change exactly as Handlers.OnRecordProgress says |
| Controller.UsbCameraController.OnRecordSuccess | libexcamera/src/main/java/com/convergence/excamera/sdk/usb/core/UsbCameraController.java:507-513 | the fields and the log change exactly as Handlers.OnRecordSuccess says |
| Controller.UsbCameraController.OnRecordError | libexcamera/src/main/java/com/convergence/excamera/sdk/usb/core/UsbCameraController.java:515-521 | the fields and the log change exactly as Handlers.OnRecordError says |
| Controller.UsbCameraController.HandleMessage | libexcamera/src/main/java/com/convergence/excamera/sdk/usb/core/UsbCameraController.java:548-565 | never reports the message as handled; the fields and the log change exactly as Handlers.HandleMessage says |
| Controller.UsbCameraController.DispatchNext | libexcamera/src/main/java/com/convergence/excamera/sdk/usb/core/UsbCameraController.java:446-453 | the fields and the log change exactly as Handlers.DispatchNext says |
| Controller.PhotoScenario | libexcamera/src/main/java/com/convergence/excamera/sdk/usb/core/UsbCameraController.java:456-463 | from Normal while previewing: Photographing, saver task, onTakePhotoStart; the next frame goes to the saver and the state returns to Normal; the saver's success gives a media scan, then onTakePhotoDone, then onTakePhotoSuccess(path) |
| Controller.NotPreviewingScenario | libexcamera/src/main/java/com/convergence/excamera/sdk/usb/core/UsbCameraController.java:163-168 | with no preview a photo request gives only onTakePhotoFail and the state stays Normal |
| Controller.RecordScenario | libexcamera/src/main/java/com/convergence/excamera/sdk/usb/core/UsbCameraController.java:418-426 | setup with the path and resolution, start on setup success, Recording and onRecordStartSuccess on start success; a disconnect then stops the recorder but the state stays Recording, so a later photo request is refused |
| Controller.PhotoDuringRecorderSetup | libexcamera/src/main/java/com/convergence/excamera/sdk/usb/core/UsbCameraController.java:207-217 | while the recorder is being set up the state is still Normal and a photo is accepted; once recording starts, the state is Recording and the next frame is not given to the saver |
| Controller.PreviewScenario | libexcamera/src/main/java/com/convergence/excamera/sdk/usb/core/UsbCameraController.java:442-454 | preview start and stop are queued; one delivery passes on the start only, and the stop is still waiting |
| Traces.ActionStateTable | libexcamera/src/main/java/com/convergence/excamera/sdk/usb/core/UsbCameraController.java:162-521 | over every input, the action state moves exactly as an independent table says: Normal to Photographing on a photo request while previewing, Photographing to Normal on a frame, to Recording on start success, to Normal on a record outcome; only the registrations change the listeners |
| Traces.ControlListenerTracksActionState | libexcamera/src/main/java/com/convergence/excamera/sdk/usb/core/UsbCameraController.java:381-390 | over any run with the control listener kept registered, no state report repeats the one before it and the last report names the current state |
| Traces.KnownMessagesKept | libexcamera/src/main/java/com/convergence/excamera/sdk/usb/core/UsbCameraController.java:442-454 | the Handler queue only ever holds the two preview message codes |
| Traces.ApplyKeepsPreviewOrder | libexcamera/src/main/java/com/convergence/excamera/sdk/usb/core/UsbCameraController.java:442-454 | one input: what it posts joins the back of the queue, and what it delivers comes off the front |
| Traces.PreviewEventsKeepOrder | libexcamera/src/main/java/com/convergence/excamera/sdk/usb/core/UsbCameraController.java:442-454 | over any run with the control listener registered, preview start and stop are delivered in the order they were posted; delivered messages followed by the waiting ones are the initial queue followed by everything posted |
| Traces.PhotoDoneOncePerOutcome | libexcamera/src/main/java/com/convergence/excamera/sdk/usb/core/UsbCameraController.java:456-471 | over any run with the photograph listener registered, onTakePhotoDone fires exactly once per saver outcome |
| Traces.RecordingOnlyAfterStartSuccess | libexcamera/src/main/java/com/convergence/excamera/sdk/usb/core/UsbCameraController.java:485-491 | Recording is entered only through the recorder's start-success callback |
| Traces.PhotographingOnlyAfterCapture | libexcamera/src/main/java/com/convergence/excamera/sdk/usb/core/UsbCameraController.java:169-176 | Photographing is entered only by a photo request made while previewing, and that request gave its path to the saver |

## Left out

- Frame-rate observation (`FrameRateObserver`, `onObserveStart`, `onObserveFPS`, `onObserveStop`, `onLoadFPS`) is left out. It uses timing and floating-point averages and never touches the action state.
- Logging through `CameraLogger` is left out, because it has no effect on behaviour.
- Bitmap contents are left out. A frame is only its identity (`Frame`). `provideBitmap` is left out, because it only returns the device layer's latest bitmap.
- The photo saver's file I/O, the media scanner and the recorder's encoding are left out. They appear only as command events (`SaverAddTask`, `SaverProvideFrame`, `ScanFile`, `RecorderSetup`, `RecorderStart`, `RecorderStop`).
- The parameter and configuration passthroughs (lines 262-358), `updateResolution` and `updateFlip` are left out. They only delegate to the device command layer, which is not part of this model.
- Tele-focus (`startTeleFocus`, `stopTeleFocus`) is left out, because it only delegates to its helper.
- The lifecycle calls `registerUsb`, `unregisterUsb`, `startPreview`, `stopPreview` and `release` are left out. They only delegate to collaborators and never touch the action state.
- `takePhoto()` and `startRecord()` with random paths are left out. They only generate a path and call the path-taking forms, which are modelled.
- The getters `isPreviewing` and `getCurActionState` are not modelled as calls. Their answers are the `previewing` parameter and the `curActionState` field.
- `getCurUsbState` is left out, because it only queries the device command layer; the controller keeps no connection state of its own.
- The `UsbCameraSetting` singleton is not modelled. Its availability and current resolution are parameters of `StartRecord`.
- Threads are not modelled. Every handler runs to completion before the next begins, and the Handler's looper is the explicit input `DispatchNext`.
- Integer widths are not modelled. Widths, heights and record times are unbounded `int`s, because the controller only passes them through.
