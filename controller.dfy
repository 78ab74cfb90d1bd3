/** The controller object itself: the action state and the listener
    registrations as fields updated in place, the Handler's queue as a
    field, and the events it has emitted as a log. Each method is proved
    to do exactly what the matching transition function of Handlers says. */
module Controller {
  import opened CameraTypes
  import H = Handlers

  class UsbCameraController {
    /** The action state; written only by UpdateActionState. */
    var curActionState: ActionState
    /** Whether each listener field is set (non-null). */
    var onControlListener: bool
    var onCameraPhotographListener: bool
    var onCameraRecordListener: bool
    /** Message codes waiting in the Handler, oldest first. */
    var messages: seq<int>
    /** Every listener call and collaborator command so far, in order. */
    var log: seq<Event>

    /** The fields as the value the transition functions work on. */
    function Snapshot(): Config
      reads this
    {
      Config(curActionState, Listeners(onControlListener, onCameraPhotographListener, onCameraRecordListener), messages)
    }

    /** A new controller starts Normal, with no listener and an empty Handler. */
    constructor()
      ensures Snapshot() == Initial() && log == []
    {
      curActionState := Normal;
      onControlListener := false;
      onCameraPhotographListener := false;
      onCameraRecordListener := false;
      messages := [];
      log := [];
    }

    /** A listener call behind its null check. */
    method Deliver(registered: bool, e: Event)
      modifies this
      ensures Snapshot() == old(Snapshot()) && log == old(log) + Notify(registered, e)
    {
      if registered {
        log := log + [e];
      }
    }

    /** A command to a collaborator, issued unconditionally. */
    method Issue(e: Event)
      modifies this
      ensures Snapshot() == old(Snapshot()) && log == old(log) + [e]
    {
      log := log + [e];
    }

    method SetOnControlListener(registered: bool)
      modifies this
      ensures Snapshot() == H.SetOnControlListener(old(Snapshot()), registered).next
      ensures log == old(log) + H.SetOnControlListener(old(Snapshot()), registered).out
    {
      onControlListener := registered;
    }

    method SetOnCameraPhotographListener(registered: bool)
      modifies this
      ensures Snapshot() == H.SetOnCameraPhotographListener(old(Snapshot()), registered).next
      ensures log == old(log) + H.SetOnCameraPhotographListener(old(Snapshot()), registered).out
    {
      onCameraPhotographListener := registered;
    }

    method SetOnCameraRecordListener(registered: bool)
      modifies this
      ensures Snapshot() == H.SetOnCameraRecordListener(old(Snapshot()), registered).next
      ensures log == old(log) + H.SetOnCameraRecordListener(old(Snapshot()), registered).out
    {
      onCameraRecordListener := registered;
    }

    method UpdateActionState(state: ActionState)
      modifies this
      ensures Snapshot() == H.UpdateActionState(old(Snapshot()), state).next
      ensures log == old(log) + H.UpdateActionState(old(Snapshot()), state).out
    {
      if curActionState == state {
        return;
      }
      curActionState := state;
      Deliver(onControlListener, ActionStateUpdated(state));
    }

    /** `previewing` is the device-command collaborator's answer to isPreviewing. */
    method TakePhoto(path: Path, previewing: bool)
      modifies this
      ensures Snapshot() == H.TakePhoto(old(Snapshot()), path, previewing).next
      ensures log == old(log) + H.TakePhoto(old(Snapshot()), path, previewing).out
    {
      if !previewing {
        Deliver(onCameraPhotographListener, PhotoFail);
        return;
      }
      match curActionState
      case Normal =>
        UpdateActionState(Photographing);
        Issue(SaverAddTask(path));
        Deliver(onCameraPhotographListener, PhotoStart);
      case Photographing =>
      case Recording =>
        Deliver(onCameraPhotographListener, PhotoFail);
    }

    /** `settingsAvailable` and `resolution` are what the camera settings hold
        when the request is made. */
    method StartRecord(path: Path, previewing: bool, settingsAvailable: bool, resolution: Resolution)
      modifies this
      ensures Snapshot() == H.StartRecord(old(Snapshot()), path, previewing, settingsAvailable, resolution).next
      ensures log == old(log) + H.StartRecord(old(Snapshot()), path, previewing, settingsAvailable, resolution).out
    {
      if !previewing {
        Deliver(onCameraRecordListener, RecordStartFail);
        return;
      }
      match curActionState
      case Normal =>
        if !settingsAvailable {
          Deliver(onCameraRecordListener, RecordStartFail);
        } else {
          Issue(RecorderSetup(path, resolution.width, resolution.height));
        }
      case Photographing =>
        Deliver(onCameraRecordListener, RecordStartFail);
      case Recording =>
    }

    method StopRecord()
      modifies this
      ensures Snapshot() == H.StopRecord(old(Snapshot())).next
      ensures log == old(log) + H.StopRecord(old(Snapshot())).out
    {
      Issue(RecorderStop);
    }

    method OnStateUpdate(usb: UsbState)
      modifies this
      ensures Snapshot() == H.OnStateUpdate(old(Snapshot()), usb).next
      ensures log == old(log) + H.OnStateUpdate(old(Snapshot()), usb).out
    {
      Deliver(onControlListener, UsbStateUpdated(usb));
    }

    method OnLoadFrame(frame: Frame)
      modifies this
      ensures Snapshot() == H.OnLoadFrame(old(Snapshot()), frame).next
      ensures log == old(log) + H.OnLoadFrame(old(Snapshot()), frame).out
    {
      Deliver(onControlListener, FrameLoaded(frame));
      if curActionState == Photographing {
        Issue(SaverProvideFrame(frame));
        UpdateActionState(Normal);
      }
    }

    method OnUsbConnect()
      modifies this
      ensures Snapshot() == H.OnUsbConnect(old(Snapshot())).next
      ensures log == old(log) + H.OnUsbConnect(old(Snapshot())).out
    {
      Deliver(onControlListener, UsbConnected);
    }

    /** `recorderIsRecording` is the recorder's answer to isRecording. */
    method OnUsbDisConnect(recorderIsRecording: bool)
      modifies this
      ensures Snapshot() == H.OnUsbDisConnect(old(Snapshot()), recorderIsRecording).next
      ensures log == old(log) + H.OnUsbDisConnect(old(Snapshot()), recorderIsRecording).out
    {
      if curActionState == Recording && recorderIsRecording {
        StopRecord();
      }
      Deliver(onControlListener, UsbDisconnected);
    }

    method OnCameraOpen()
      modifies this
      ensures Snapshot() == H.OnCameraOpen(old(Snapshot())).next
      ensures log == old(log) + H.OnCameraOpen(old(Snapshot())).out
    {
      Deliver(onControlListener, CameraOpened);
    }

    method OnCameraClose()
      modifies this
      ensures Snapshot() == H.OnCameraClose(old(Snapshot())).next
      ensures log == old(log) + H.OnCameraClose(old(Snapshot())).out
    {
      Deliver(onControlListener, CameraClosed);
    }

    method OnPreviewStart()
      modifies this
      ensures Snapshot() == H.OnPreviewStart(old(Snapshot())).next
      ensures log == old(log) + H.OnPreviewStart(old(Snapshot())).out
    {
      messages := messages + [MsgPreviewStart];
    }

    method OnPreviewStop()
      modifies this
      ensures Snapshot() == H.OnPreviewStop(old(Snapshot())).next
      ensures log == old(log) + H.OnPreviewStop(old(Snapshot())).out
    {
      messages := messages + [MsgPreviewStop];
    }

    method OnSavePhotoSuccess(path: Path)
      modifies this
      ensures Snapshot() == H.OnSavePhotoSuccess(old(Snapshot()), path).next
      ensures log == old(log) + H.OnSavePhotoSuccess(old(Snapshot()), path).out
    {
      Issue(ScanFile(path));
      if onCameraPhotographListener {
        log := log + [PhotoDone];
        log := log + [PhotoSuccess(path)];
      }
    }

    method OnSavePhotoFail()
      modifies this
      ensures Snapshot() == H.OnSavePhotoFail(old(Snapshot())).next
      ensures log == old(log) + H.OnSavePhotoFail(old(Snapshot())).out
    {
      if onCameraPhotographListener {
        log := log + [PhotoDone];
        log := log + [PhotoFail];
      }
    }

    method OnSetupRecordSuccess()
      modifies this
      ensures Snapshot() == H.OnSetupRecordSuccess(old(Snapshot())).next
      ensures log == old(log) + H.OnSetupRecordSuccess(old(Snapshot())).out
    {
      Issue(RecorderStart);
    }

    method OnSetupRecordError()
      modifies this
      ensures Snapshot() == H.OnSetupRecordError(old(Snapshot())).next
      ensures log == old(log) + H.OnSetupRecordError(old(Snapshot())).out
    {
      Deliver(onCameraRecordListener, RecordStartFail);
    }

    method OnStartRecordSuccess()
      modifies this
      ensures Snapshot() == H.OnStartRecordSuccess(old(Snapshot())).next
      ensures log == old(log) + H.OnStartRecordSuccess(old(Snapshot())).out
    {
      UpdateActionState(Recording);
      Deliver(onCameraRecordListener, RecordStartSuccess);
    }

    method OnStartRecordError()
      modifies this
      ensures Snapshot() == H.OnStartRecordError(old(Snapshot())).next
      ensures log == old(log) + H.OnStartRecordError(old(Snapshot())).out
    {
      Deliver(onCameraRecordListener, RecordStartFail);
    }

    method OnRecordProgress(recordTime: int)
      modifies this
      ensures Snapshot() == H.OnRecordProgress(old(Snapshot()), recordTime).next
      ensures log == old(log) + H.OnRecordProgress(old(Snapshot()), recordTime).out
    {
      Deliver(onCameraRecordListener, RecordProgress(recordTime));
    }

    method OnRecordSuccess(videoPath: Path)
      modifies this
      ensures Snapshot() == H.OnRecordSuccess(old(Snapshot()), videoPath).next
      ensures log == old(log) + H.OnRecordSuccess(old(Snapshot()), videoPath).out
    {
      UpdateActionState(Normal);
      Deliver(onCameraRecordListener, RecordSuccess(videoPath));
    }

    method OnRecordError()
      modifies this
      ensures Snapshot() == H.OnRecordError(old(Snapshot())).next
      ensures log == old(log) + H.OnRecordError(old(Snapshot())).out
    {
      UpdateActionState(Normal);
      Deliver(onCameraRecordListener, RecordFail);
    }

    /** handleMessage: never claims the message as handled. */
    method HandleMessage(what: int) returns (handled: bool)
      modifies this
      ensures !handled
      ensures Snapshot() == H.HandleMessage(old(Snapshot()), what).next
      ensures log == old(log) + H.HandleMessage(old(Snapshot()), what).out
    {
      if what == MsgPreviewStart {
        Deliver(onControlListener, PreviewStarted);
      } else if what == MsgPreviewStop {
        Deliver(onControlListener, PreviewStopped);
      }
      handled := false;
    }

    /** The Handler's looper delivering its oldest message, if there is one. */
    method DispatchNext()
      modifies this
      ensures Snapshot() == H.DispatchNext(old(Snapshot())).next
      ensures log == old(log) + H.DispatchNext(old(Snapshot())).out
    {
      if messages != [] {
        var what := messages[0];
        messages := messages[1..];
        var _ := HandleMessage(what);
      }
    }
  }

  // ---- usage scenarios, each on a fresh controller -------------------------

  /** Preview active, Normal: a photo request, the next frame, then the
      saver's success. The state goes to Photographing and back to Normal;
      onTakePhotoDone comes before onTakePhotoSuccess. */
  method PhotoScenario(path: Path, frame: Frame) returns (events: seq<Event>, final: ActionState)
    ensures final == Normal
    ensures events == [ActionStateUpdated(Photographing), SaverAddTask(path), PhotoStart,
                       FrameLoaded(frame), SaverProvideFrame(frame), ActionStateUpdated(Normal),
                       ScanFile(path), PhotoDone, PhotoSuccess(path)]
  {
    var ctl := new UsbCameraController();
    ctl.SetOnControlListener(true);
    ctl.SetOnCameraPhotographListener(true);
    assert ctl.log == [] && ctl.Snapshot() == Config(Normal, Listeners(true, true, false), []);
    ctl.TakePhoto(path, true);
    ctl.OnLoadFrame(frame);
    ctl.OnSavePhotoSuccess(path);
    events, final := ctl.log, ctl.curActionState;
  }

  /** Preview inactive: a photo request fails at once and the state stays Normal. */
  method NotPreviewingScenario(path: Path) returns (events: seq<Event>, final: ActionState)
    ensures final == Normal
    ensures events == [PhotoFail]
  {
    var ctl := new UsbCameraController();
    ctl.SetOnCameraPhotographListener(true);
    ctl.TakePhoto(path, false);
    events, final := ctl.log, ctl.curActionState;
  }

  /** Preview active, Normal, settings available: the recorder is set up with
      the path and the current resolution, started on setup success, and only
      on start success does the state become Recording. A disconnect then
      stops the recorder but leaves the state Recording, so a photo request
      made afterwards is refused. */
  method RecordScenario(path: Path, photoPath: Path, width: int, height: int)
    returns (events: seq<Event>, final: ActionState)
    ensures final == Recording
    ensures events == [RecorderSetup(path, width, height), RecorderStart,
                       ActionStateUpdated(Recording), RecordStartSuccess,
                       RecorderStop, UsbDisconnected, PhotoFail]
  {
    var ctl := new UsbCameraController();
    ctl.SetOnControlListener(true);
    ctl.SetOnCameraPhotographListener(true);
    ctl.SetOnCameraRecordListener(true);
    assert ctl.log == [] && ctl.Snapshot() == Config(Normal, Listeners(true, true, true), []);
    ctl.StartRecord(path, true, true, Resolution(width, height));
    ctl.OnSetupRecordSuccess();
    ctl.OnStartRecordSuccess();
    ctl.OnUsbDisConnect(true);
    ctl.TakePhoto(photoPath, true);
    events, final := ctl.log, ctl.curActionState;
  }

  /** The state stays Normal while the recorder is being set up, so a photo
      request in that window is accepted. When the recorder then starts, the
      state becomes Recording with the capture still waiting for a frame, and
      the next frame is not handed to the photo saver. */
  method PhotoDuringRecorderSetup(path: Path, photoPath: Path, res: Resolution, frame: Frame)
    returns (events: seq<Event>, final: ActionState)
    ensures final == Recording
    ensures events == [RecorderSetup(path, res.width, res.height),
                       ActionStateUpdated(Photographing), SaverAddTask(photoPath), PhotoStart,
                       RecorderStart, ActionStateUpdated(Recording), RecordStartSuccess,
                       FrameLoaded(frame)]
    ensures SaverProvideFrame(frame) !in events
  {
    var ctl := new UsbCameraController();
    ctl.SetOnControlListener(true);
    ctl.SetOnCameraPhotographListener(true);
    ctl.SetOnCameraRecordListener(true);
    assert ctl.log == [] && ctl.Snapshot() == Config(Normal, Listeners(true, true, true), []);
    ctl.StartRecord(path, true, true, res);
    ctl.TakePhoto(photoPath, true);
    ctl.OnSetupRecordSuccess();
    ctl.OnStartRecordSuccess();
    ctl.OnLoadFrame(frame);
    events, final := ctl.log, ctl.curActionState;
  }

  /** Preview start and stop reach the control listener only when the Handler
      delivers them, and in the order they were posted. */
  method PreviewScenario() returns (events: seq<Event>, waiting: seq<int>)
    ensures events == [PreviewStarted] && waiting == [MsgPreviewStop]
  {
    var ctl := new UsbCameraController();
    ctl.SetOnControlListener(true);
    ctl.OnPreviewStart();
    ctl.OnPreviewStop();
    ctl.DispatchNext();
    events, waiting := ctl.log, ctl.messages;
  }
}
