/** The controller's handlers as transition functions: each takes the current
    state (and the answers of the collaborators it queries) and gives the new
    state with the events emitted, in the order the source emits them. */
module Handlers {
  import opened CameraTypes

  /** setOnControlListener: only the control listener's registration changes. */
  function SetOnControlListener(c: Config, registered: bool): (r: Step)
    ensures r.next.action == c.action && r.next.pending == c.pending && r.out == []
    ensures r.next.listeners.control == registered
    ensures r.next.listeners.photo == c.listeners.photo && r.next.listeners.record == c.listeners.record
  {
    Step(c.(listeners := c.listeners.(control := registered)), [])
  }

  /** setOnCameraPhotographListener: only the photograph listener's registration changes. */
  function SetOnCameraPhotographListener(c: Config, registered: bool): (r: Step)
    ensures r.next.action == c.action && r.next.pending == c.pending && r.out == []
    ensures r.next.listeners.photo == registered
    ensures r.next.listeners.control == c.listeners.control && r.next.listeners.record == c.listeners.record
  {
    Step(c.(listeners := c.listeners.(photo := registered)), [])
  }

  /** setOnCameraRecordListener: only the record listener's registration changes. */
  function SetOnCameraRecordListener(c: Config, registered: bool): (r: Step)
    ensures r.next.action == c.action && r.next.pending == c.pending && r.out == []
    ensures r.next.listeners.record == registered
    ensures r.next.listeners.control == c.listeners.control && r.next.listeners.photo == c.listeners.photo
  {
    Step(c.(listeners := c.listeners.(record := registered)), [])
  }

  /** updateActionState: the only writer of the action state. Setting the
      current state again is silent; a real change assigns the state and
      reports the new state exactly once to the control listener. */
  function UpdateActionState(c: Config, state: ActionState): (r: Step)
    ensures r.next == c.(action := state)
    ensures c.action == state ==> r.out == []
    ensures c.action != state ==> r.out == Notify(c.listeners.control, ActionStateUpdated(state))
  {
    if c.action == state then Step(c, [])
    else Step(c.(action := state), Notify(c.listeners.control, ActionStateUpdated(state)))
  }

  /** Re-applying updateActionState with the state it just set changes
      nothing and emits nothing. */
  lemma UpdateActionStateIdempotent(c: Config, state: ActionState)
    ensures UpdateActionState(UpdateActionState(c, state).next, state) == Step(UpdateActionState(c, state).next, [])
  {
  }

  /** takePhoto(path): gated by previewing, then by the action state. */
  function TakePhoto(c: Config, path: Path, previewing: bool): (r: Step)
    ensures r.next.listeners == c.listeners && r.next.pending == c.pending
    // not previewing: exactly one onTakePhotoFail, state unchanged
    ensures !previewing ==> r.next == c && r.out == Notify(c.listeners.photo, PhotoFail)
    // from Normal: Photographing, the path goes to the saver, then onTakePhotoStart
    ensures previewing && c.action == Normal ==>
      && r.next.action == Photographing
      && r.out == Notify(c.listeners.control, ActionStateUpdated(Photographing))
                  + [SaverAddTask(path)] + Notify(c.listeners.photo, PhotoStart)
    // while Photographing: a silent no-op
    ensures previewing && c.action == Photographing ==> r == Step(c, [])
    // while Recording: onTakePhotoFail, state unchanged
    ensures previewing && c.action == Recording ==> r.next == c && r.out == Notify(c.listeners.photo, PhotoFail)
    // a capture is handed to the saver exactly when the request is accepted
    ensures SaverAddTask(path) in r.out <==> previewing && c.action == Normal
  {
    if !previewing then Step(c, Notify(c.listeners.photo, PhotoFail))
    else match c.action
      case Normal =>
        var u := UpdateActionState(c, Photographing);
        Step(u.next, u.out + [SaverAddTask(path)] + Notify(c.listeners.photo, PhotoStart))
      case Photographing => Step(c, [])
      case Recording => Step(c, Notify(c.listeners.photo, PhotoFail))
  }

  /** startRecord(path): gated by previewing, the action state and the
      availability of the camera settings. It never changes the state itself:
      the state stays Normal until the recorder reports a successful start. */
  function StartRecord(c: Config, path: Path, previewing: bool, settingsAvailable: bool, resolution: Resolution): (r: Step)
    ensures r.next == c
    ensures !previewing || c.action == Photographing || (c.action == Normal && !settingsAvailable) ==>
      r.out == Notify(c.listeners.record, RecordStartFail)
    ensures previewing && c.action == Recording ==> r.out == []
    ensures previewing && c.action == Normal && settingsAvailable ==>
      r.out == [RecorderSetup(path, resolution.width, resolution.height)]
  {
    if !previewing then Step(c, Notify(c.listeners.record, RecordStartFail))
    else match c.action
      case Normal =>
        if !settingsAvailable then Step(c, Notify(c.listeners.record, RecordStartFail))
        else Step(c, [RecorderSetup(path, resolution.width, resolution.height)])
      case Photographing => Step(c, Notify(c.listeners.record, RecordStartFail))
      case Recording => Step(c, [])
  }

  /** stopRecord: forwarded to the recorder whatever the state. */
  function StopRecord(c: Config): (r: Step)
    ensures r.next == c && r.out == [RecorderStop]
  {
    Step(c, [RecorderStop])
  }

  /** onStateUpdate: the connection state is passed to the control listener. */
  function OnStateUpdate(c: Config, usb: UsbState): (r: Step)
    ensures r.next == c && r.out == Notify(c.listeners.control, UsbStateUpdated(usb))
  {
    Step(c, Notify(c.listeners.control, UsbStateUpdated(usb)))
  }

  /** onLoadFrame: the frame is shown to the control listener; while
      Photographing it is also handed to the saver and the state returns to
      Normal. In any other state the state is untouched. */
  function OnLoadFrame(c: Config, frame: Frame): (r: Step)
    ensures r.next == c.(action := if c.action == Photographing then Normal else c.action)
    ensures c.action == Photographing ==>
      r.out == Notify(c.listeners.control, FrameLoaded(frame)) + [SaverProvideFrame(frame)]
               + Notify(c.listeners.control, ActionStateUpdated(Normal))
    ensures c.action != Photographing ==> r.out == Notify(c.listeners.control, FrameLoaded(frame))
    ensures SaverProvideFrame(frame) in r.out <==> c.action == Photographing
  {
    var shown := Notify(c.listeners.control, FrameLoaded(frame));
    if c.action == Photographing then
      var u := UpdateActionState(c, Normal);
      Step(u.next, shown + [SaverProvideFrame(frame)] + u.out)
    else Step(c, shown)
  }

  /** onUsbConnect: re-published to the control listener. */
  function OnUsbConnect(c: Config): (r: Step)
    ensures r.next == c && r.out == Notify(c.listeners.control, UsbConnected)
  {
    Step(c, Notify(c.listeners.control, UsbConnected))
  }

  /** onUsbDisConnect: one stop is issued to the recorder, and only when the
      state is Recording and the recorder says it is recording; the state is
      not changed here. The control listener is told last. */
  function OnUsbDisConnect(c: Config, recorderIsRecording: bool): (r: Step)
    ensures r.next == c
    ensures CountOf(r.out, RecorderStop) == if c.action == Recording && recorderIsRecording then 1 else 0
    ensures r.out == (if c.action == Recording && recorderIsRecording then [RecorderStop] else [])
                     + Notify(c.listeners.control, UsbDisconnected)
  {
    var stop := if c.action == Recording && recorderIsRecording then StopRecord(c).out else [];
    var told := Notify(c.listeners.control, UsbDisconnected);
    CountOfAppend(stop, told, RecorderStop);
    Step(c, stop + told)
  }

  /** onCameraOpen: re-published to the control listener. */
  function OnCameraOpen(c: Config): (r: Step)
    ensures r.next == c && r.out == Notify(c.listeners.control, CameraOpened)
  {
    Step(c, Notify(c.listeners.control, CameraOpened))
  }

  /** onCameraClose: re-published to the control listener. */
  function OnCameraClose(c: Config): (r: Step)
    ensures r.next == c && r.out == Notify(c.listeners.control, CameraClosed)
  {
    Step(c, Notify(c.listeners.control, CameraClosed))
  }

  /** onPreviewStart: not re-published directly; a message is posted to the
      Handler behind the ones already waiting. */
  function OnPreviewStart(c: Config): (r: Step)
    ensures r.next == c.(pending := c.pending + [MsgPreviewStart]) && r.out == []
  {
    Step(c.(pending := c.pending + [MsgPreviewStart]), [])
  }

  /** onPreviewStop: as onPreviewStart, with the stop message. */
  function OnPreviewStop(c: Config): (r: Step)
    ensures r.next == c.(pending := c.pending + [MsgPreviewStop]) && r.out == []
  {
    Step(c.(pending := c.pending + [MsgPreviewStop]), [])
  }

  /** onSavePhotoSuccess: the file goes to the media scanner; then
      onTakePhotoDone, followed by onTakePhotoSuccess(path). */
  function OnSavePhotoSuccess(c: Config, path: Path): (r: Step)
    ensures r.next == c
    ensures r.out == [ScanFile(path)] + (if c.listeners.photo then [PhotoDone, PhotoSuccess(path)] else [])
  {
    Step(c, [ScanFile(path)] + (if c.listeners.photo then [PhotoDone, PhotoSuccess(path)] else []))
  }

  /** onSavePhotoFail: onTakePhotoDone, followed by onTakePhotoFail. */
  function OnSavePhotoFail(c: Config): (r: Step)
    ensures r.next == c
    ensures r.out == (if c.listeners.photo then [PhotoDone, PhotoFail] else [])
  {
    Step(c, if c.listeners.photo then [PhotoDone, PhotoFail] else [])
  }

  /** onSetupRecordSuccess: the recorder is told to start. */
  function OnSetupRecordSuccess(c: Config): (r: Step)
    ensures r.next == c && r.out == [RecorderStart]
  {
    Step(c, [RecorderStart])
  }

  /** onSetupRecordError: onRecordStartFail, state unchanged. */
  function OnSetupRecordError(c: Config): (r: Step)
    ensures r.next == c && r.out == Notify(c.listeners.record, RecordStartFail)
  {
    Step(c, Notify(c.listeners.record, RecordStartFail))
  }

  /** onStartRecordSuccess: the state becomes Recording, and only then is
      onRecordStartSuccess emitted. */
  function OnStartRecordSuccess(c: Config): (r: Step)
    ensures r.next == c.(action := Recording)
    ensures r.out == (if c.action != Recording then Notify(c.listeners.control, ActionStateUpdated(Recording)) else [])
                     + Notify(c.listeners.record, RecordStartSuccess)
  {
    var u := UpdateActionState(c, Recording);
    Step(u.next, u.out + Notify(c.listeners.record, RecordStartSuccess))
  }

  /** onStartRecordError: onRecordStartFail, state unchanged. */
  function OnStartRecordError(c: Config): (r: Step)
    ensures r.next == c && r.out == Notify(c.listeners.record, RecordStartFail)
  {
    Step(c, Notify(c.listeners.record, RecordStartFail))
  }

  /** onRecordProgress: the elapsed time goes to the record listener. */
  function OnRecordProgress(c: Config, recordTime: int): (r: Step)
    ensures r.next == c && r.out == Notify(c.listeners.record, RecordProgress(recordTime))
  {
    Step(c, Notify(c.listeners.record, RecordProgress(recordTime)))
  }

  /** onRecordSuccess: back to Normal, then onRecordSuccess(path). */
  function OnRecordSuccess(c: Config, videoPath: Path): (r: Step)
    ensures r.next == c.(action := Normal)
    ensures r.out == (if c.action != Normal then Notify(c.listeners.control, ActionStateUpdated(Normal)) else [])
                     + Notify(c.listeners.record, RecordSuccess(videoPath))
  {
    var u := UpdateActionState(c, Normal);
    Step(u.next, u.out + Notify(c.listeners.record, RecordSuccess(videoPath)))
  }

  /** onRecordError: back to Normal, then onRecordFail. */
  function OnRecordError(c: Config): (r: Step)
    ensures r.next == c.(action := Normal)
    ensures r.out == (if c.action != Normal then Notify(c.listeners.control, ActionStateUpdated(Normal)) else [])
                     + Notify(c.listeners.record, RecordFail)
  {
    var u := UpdateActionState(c, Normal);
    Step(u.next, u.out + Notify(c.listeners.record, RecordFail))
  }

  /** handleMessage: a message taken from the Handler is re-published to the
      control listener by its code; any other code is ignored. */
  function HandleMessage(c: Config, what: int): (r: Step)
    ensures r.next == c
    ensures what == MsgPreviewStart ==> r.out == Notify(c.listeners.control, PreviewStarted)
    ensures what == MsgPreviewStop ==> r.out == Notify(c.listeners.control, PreviewStopped)
    ensures what != MsgPreviewStart && what != MsgPreviewStop ==> r.out == []
  {
    if what == MsgPreviewStart then Step(c, Notify(c.listeners.control, PreviewStarted))
    else if what == MsgPreviewStop then Step(c, Notify(c.listeners.control, PreviewStopped))
    else Step(c, [])
  }

  /** The Handler's looper: the oldest waiting message, if any, is removed
      and passed to handleMessage. */
  function DispatchNext(c: Config): (r: Step)
    ensures c.pending == [] ==> r == Step(c, [])
    ensures c.pending != [] ==> r.next == c.(pending := c.pending[1..])
    ensures c.pending != [] ==> r.out == HandleMessage(c, c.pending[0]).out
  {
    if c.pending == [] then Step(c, [])
    else HandleMessage(c.(pending := c.pending[1..]), c.pending[0])
  }
}
