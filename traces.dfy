/** Runs of the controller: a sequence of calls and collaborator callbacks,
    applied one after another, and what holds of every such run. */
module Traces {
  import opened CameraTypes
  import H = Handlers

  /** One entry into the controller: a request from the application, a
      listener registration, or a callback from a collaborator. Each carries
      the answers the controller obtains from collaborators on that path. */
  datatype Input =
    | SetOnControlListener(registered: bool)
    | SetOnCameraPhotographListener(registered: bool)
    | SetOnCameraRecordListener(registered: bool)
    | TakePhoto(path: Path, previewing: bool)
    | StartRecord(path: Path, previewing: bool, settingsAvailable: bool, resolution: Resolution)
    | StopRecord
    | OnStateUpdate(usb: UsbState)
    | OnLoadFrame(frame: Frame)
    | OnUsbConnect
    | OnUsbDisConnect(recorderIsRecording: bool)
    | OnCameraOpen
    | OnCameraClose
    | OnPreviewStart
    | OnPreviewStop
    | OnSavePhotoSuccess(path: Path)
    | OnSavePhotoFail
    | OnSetupRecordSuccess
    | OnSetupRecordError
    | OnStartRecordSuccess
    | OnStartRecordError
    | OnRecordProgress(recordTime: int)
    | OnRecordSuccess(path: Path)
    | OnRecordError
    | DispatchNext

  /** An application request or a listener registration. */
  predicate IsRequest(i: Input) {
    || i.SetOnControlListener? || i.SetOnCameraPhotographListener? || i.SetOnCameraRecordListener?
    || i.TakePhoto? || i.StartRecord? || i == StopRecord
  }

  /** A photo-saver or recorder callback. */
  predicate IsWorkerCallback(i: Input) {
    || i.OnSavePhotoSuccess? || i == OnSavePhotoFail
    || i == OnSetupRecordSuccess || i == OnSetupRecordError
    || i == OnStartRecordSuccess || i == OnStartRecordError
    || i.OnRecordProgress? || i.OnRecordSuccess? || i == OnRecordError
  }

  /** The handler that an input reaches. */
  function Apply(c: Config, i: Input): Step {
    if IsRequest(i) then ApplyRequest(c, i)
    else if IsWorkerCallback(i) then ApplyWorkerCallback(c, i)
    else ApplyDeviceEvent(c, i)
  }

  function ApplyRequest(c: Config, i: Input): Step
    requires IsRequest(i)
  {
    match i
    case SetOnControlListener(on) => H.SetOnControlListener(c, on)
    case SetOnCameraPhotographListener(on) => H.SetOnCameraPhotographListener(c, on)
    case SetOnCameraRecordListener(on) => H.SetOnCameraRecordListener(c, on)
    case TakePhoto(path, previewing) => H.TakePhoto(c, path, previewing)
    case StartRecord(path, previewing, available, resolution) => H.StartRecord(c, path, previewing, available, resolution)
    case StopRecord => H.StopRecord(c)
  }

  function ApplyDeviceEvent(c: Config, i: Input): Step
    requires !IsRequest(i) && !IsWorkerCallback(i)
  {
    match i
    case OnStateUpdate(usb) => H.OnStateUpdate(c, usb)
    case OnLoadFrame(frame) => H.OnLoadFrame(c, frame)
    case OnUsbConnect => H.OnUsbConnect(c)
    case OnUsbDisConnect(recording) => H.OnUsbDisConnect(c, recording)
    case OnCameraOpen => H.OnCameraOpen(c)
    case OnCameraClose => H.OnCameraClose(c)
    case OnPreviewStart => H.OnPreviewStart(c)
    case OnPreviewStop => H.OnPreviewStop(c)
    case DispatchNext => H.DispatchNext(c)
  }

  function ApplyWorkerCallback(c: Config, i: Input): Step
    requires IsWorkerCallback(i)
  {
    match i
    case OnSavePhotoSuccess(path) => H.OnSavePhotoSuccess(c, path)
    case OnSavePhotoFail => H.OnSavePhotoFail(c)
    case OnSetupRecordSuccess => H.OnSetupRecordSuccess(c)
    case OnSetupRecordError => H.OnSetupRecordError(c)
    case OnStartRecordSuccess => H.OnStartRecordSuccess(c)
    case OnStartRecordError => H.OnStartRecordError(c)
    case OnRecordProgress(t) => H.OnRecordProgress(c, t)
    case OnRecordSuccess(path) => H.OnRecordSuccess(c, path)
    case OnRecordError => H.OnRecordError(c)
  }

  /** The inputs applied in order; the events of each follow those of the one before. */
  function Run(c: Config, ins: seq<Input>): Step
    decreases |ins|
  {
    if ins == [] then Step(c, [])
    else
      var s := Apply(c, ins[0]);
      var t := Run(s.next, ins[1..]);
      Step(t.next, s.out + t.out)
  }

  /** The control listener is never unregistered. */
  predicate KeepsControlListener(ins: seq<Input>) {
    forall k :: 0 <= k < |ins| ==> ins[k] != SetOnControlListener(false)
  }

  /** Starting from `prev`, every reported state differs from the one before
      it, and the last one reported (or `prev` if none) is `current`. */
  predicate Faithful(prev: ActionState, reported: seq<ActionState>, current: ActionState)
    decreases |reported|
  {
    if reported == [] then prev == current
    else reported[0] != prev && Faithful(reported[0], reported[1..], current)
  }


  /** The Handler only ever holds the two preview messages. */
  predicate KnownMessages(q: seq<int>) {
    forall k :: 0 <= k < |q| ==> q[k] == MsgPreviewStart || q[k] == MsgPreviewStop
  }

  /** The preview message an input posts, if any. */
  function PostedBy(i: Input): seq<int> {
    if i == OnPreviewStart then [MsgPreviewStart]
    else if i == OnPreviewStop then [MsgPreviewStop]
    else []
  }

  /** The preview messages that a sequence of inputs posts, in order. */
  function Posted(ins: seq<Input>): seq<int>
    decreases |ins|
  {
    if ins == [] then [] else PostedBy(ins[0]) + Posted(ins[1..])
  }

  /** A photo-saver outcome callback. */
  predicate IsSaverOutcome(i: Input) {
    i.OnSavePhotoSuccess? || i == OnSavePhotoFail
  }

  // ---- what one handler shows the three observers --------------------------

  /** The observations below distribute over concatenation. */
  lemma AppendObserved(a: seq<Event>, b: seq<Event>)
    ensures Announcements(a + b) == Announcements(a) + Announcements(b)
    ensures PreviewDelivered(a + b) == PreviewDelivered(a) + PreviewDelivered(b)
    ensures CountOf(a + b, PhotoDone) == CountOf(a, PhotoDone) + CountOf(b, PhotoDone)
  {
    AnnouncementsAppend(a, b);
    PreviewDeliveredAppend(a, b);
    CountOfAppend(a, b, PhotoDone);
  }

  /** Nothing in `s` reports an action state, a preview event or a finished photo. */
  predicate Quiet(s: seq<Event>) {
    Announcements(s) == [] && PreviewDelivered(s) == [] && CountOf(s, PhotoDone) == 0
  }

  /** What the observers see of a single guarded listener call. */
  lemma NotifyObserved(b: bool, e: Event)
    ensures Announcements(Notify(b, e)) == if b && e.ActionStateUpdated? then [e.state] else []
    ensures PreviewDelivered(Notify(b, e)) ==
      if b && e == PreviewStarted then [MsgPreviewStart] else if b && e == PreviewStopped then [MsgPreviewStop] else []
    ensures CountOf(Notify(b, e), PhotoDone) == if b && e == PhotoDone then 1 else 0
  {
  }

  lemma NotifyQuiet(b: bool, e: Event)
    requires !e.ActionStateUpdated? && e != PreviewStarted && e != PreviewStopped && e != PhotoDone
    ensures Quiet(Notify(b, e))
  {
  }

  /** One input, seen by the three observers: a change of action state is
      reported once to a registered control listener and an unchanged state
      not at all; onTakePhotoDone comes only from a photo-saver outcome; the
      oldest Handler message is delivered only by the looper, and only the
      two preview callbacks post one. */
  predicate Observed(c: Config, i: Input, r: Step) {
    Reports(c, r) && DoneReports(c, i, r) && Delivers(c, i, r) && Queues(c, i, r)
  }

  /** A change of action state is reported once, to a registered control listener. */
  predicate Reports(c: Config, r: Step) {
    Announcements(r.out) == (if r.next.action == c.action || !c.listeners.control then [] else [r.next.action])
  }

  /** onTakePhotoDone comes exactly from a photo-saver outcome, to a registered photograph listener. */
  predicate DoneReports(c: Config, i: Input, r: Step) {
    CountOf(r.out, PhotoDone) == (if c.listeners.photo && IsSaverOutcome(i) then 1 else 0)
  }

  /** Only the looper delivers a preview event, and it delivers the oldest message. */
  predicate Delivers(c: Config, i: Input, r: Step) {
    PreviewDelivered(r.out) == (if i == DispatchNext && c.pending != [] && c.listeners.control then [c.pending[0]] else [])
  }

  /** The looper takes the oldest message off the queue; the preview callbacks post at its back. */
  predicate Queues(c: Config, i: Input, r: Step) {
    r.next.pending == (if i == DispatchNext && c.pending != [] then c.pending[1..] else c.pending + PostedBy(i))
  }

  /** A handler that keeps the state and emits nothing the observers see. */
  lemma QuietObserved(c: Config, i: Input, r: Step)
    requires r.next == c && Quiet(r.out)
    requires !IsSaverOutcome(i) && i != DispatchNext && PostedBy(i) == []
    ensures Observed(c, i, r)
  {
  }

  /** Events the observers do not see, appended after `a`, change nothing they see. */
  lemma QuietTailObserved(a: seq<Event>, q1: seq<Event>, q2: seq<Event>)
    requires Quiet(q1) && Quiet(q2)
    ensures Announcements(a + q1 + q2) == Announcements(a)
    ensures PreviewDelivered(a + q1 + q2) == PreviewDelivered(a)
    ensures CountOf(a + q1 + q2, PhotoDone) == CountOf(a, PhotoDone)
  {
    AppendObserved(a, q1);
    AppendObserved(a + q1, q2);
  }

  /** An accepted photo request: the state update, the saver task and onTakePhotoStart. */
  lemma PhotoAcceptedObserved(c: Config, path: Path, r: Step)
    requires c.action == Normal && r.next == c.(action := Photographing)
    requires r.out == Notify(c.listeners.control, ActionStateUpdated(Photographing))
                      + [SaverAddTask(path)] + Notify(c.listeners.photo, PhotoStart)
    ensures Observed(c, TakePhoto(path, true), r)
  {
    NotifyQuiet(true, SaverAddTask(path));
    NotifyQuiet(c.listeners.photo, PhotoStart);
    QuietTailObserved(Notify(c.listeners.control, ActionStateUpdated(Photographing)),
                      Notify(true, SaverAddTask(path)), Notify(c.listeners.photo, PhotoStart));
    NotifyObserved(c.listeners.control, ActionStateUpdated(Photographing));
  }

  lemma TakePhotoObserved(c: Config, path: Path, previewing: bool)
    ensures Observed(c, TakePhoto(path, previewing), H.TakePhoto(c, path, previewing))
  {
    var r := H.TakePhoto(c, path, previewing);
    if previewing && c.action == Normal {
      PhotoAcceptedObserved(c, path, r);
    } else if !previewing || c.action == Recording {
      assert r == Step(c, Notify(c.listeners.photo, PhotoFail));
      NotifyQuiet(c.listeners.photo, PhotoFail);
    } else {
      assert r == Step(c, []);
    }
  }

  lemma StartRecordObserved(c: Config, path: Path, previewing: bool, available: bool, resolution: Resolution)
    ensures Observed(c, StartRecord(path, previewing, available, resolution), H.StartRecord(c, path, previewing, available, resolution))
  {
    NotifyQuiet(c.listeners.record, RecordStartFail);
    NotifyQuiet(true, RecorderSetup(path, resolution.width, resolution.height));
    QuietObserved(c, StartRecord(path, previewing, available, resolution), H.StartRecord(c, path, previewing, available, resolution));
  }

  /** Events the observers do not see, placed before `a`, change nothing they see. */
  lemma QuietHeadObserved(q1: seq<Event>, q2: seq<Event>, a: seq<Event>)
    requires Quiet(q1) && Quiet(q2)
    ensures Announcements(q1 + q2 + a) == Announcements(a)
    ensures PreviewDelivered(q1 + q2 + a) == PreviewDelivered(a)
    ensures CountOf(q1 + q2 + a, PhotoDone) == CountOf(a, PhotoDone)
  {
    AppendObserved(q1, q2);
    AppendObserved(q1 + q2, a);
  }

  /** A frame taken for the pending capture: shown, handed to the saver, back to Normal. */
  lemma FrameTakenObserved(c: Config, frame: Frame, r: Step)
    requires c.action == Photographing && r.next == c.(action := Normal)
    requires r.out == Notify(c.listeners.control, FrameLoaded(frame)) + [SaverProvideFrame(frame)]
                      + Notify(c.listeners.control, ActionStateUpdated(Normal))
    ensures Observed(c, OnLoadFrame(frame), r)
  {
    NotifyQuiet(c.listeners.control, FrameLoaded(frame));
    NotifyQuiet(true, SaverProvideFrame(frame));
    QuietHeadObserved(Notify(c.listeners.control, FrameLoaded(frame)), Notify(true, SaverProvideFrame(frame)),
                      Notify(c.listeners.control, ActionStateUpdated(Normal)));
    NotifyObserved(c.listeners.control, ActionStateUpdated(Normal));
  }

  lemma LoadFrameObserved(c: Config, frame: Frame)
    ensures Observed(c, OnLoadFrame(frame), H.OnLoadFrame(c, frame))
  {
    var r := H.OnLoadFrame(c, frame);
    if c.action == Photographing {
      FrameTakenObserved(c, frame, r);
    } else {
      NotifyQuiet(c.listeners.control, FrameLoaded(frame));
      QuietObserved(c, OnLoadFrame(frame), r);
    }
  }

  lemma UsbDisConnectObserved(c: Config, recording: bool)
    ensures Observed(c, OnUsbDisConnect(recording), H.OnUsbDisConnect(c, recording))
  {
    var stop := Notify(c.action == Recording && recording, RecorderStop);
    var told := Notify(c.listeners.control, UsbDisconnected);
    assert H.OnUsbDisConnect(c, recording).out == stop + told;
    NotifyQuiet(c.action == Recording && recording, RecorderStop);
    NotifyQuiet(c.listeners.control, UsbDisconnected);
    AppendObserved(stop, told);
    QuietObserved(c, OnUsbDisConnect(recording), H.OnUsbDisConnect(c, recording));
  }

  /** A photo-saver outcome: unseen events, then onTakePhotoDone (if the
      photograph listener is registered), then unseen events. */
  lemma OutcomeObserved(c: Config, i: Input, r: Step, pre: seq<Event>, done: seq<Event>, post: seq<Event>)
    requires IsSaverOutcome(i) && r.next == c && r.out == pre + done + post
    requires Quiet(pre) && Quiet(post)
    requires Announcements(done) == [] && PreviewDelivered(done) == []
    requires CountOf(done, PhotoDone) == if c.listeners.photo then 1 else 0
    ensures Observed(c, i, r)
  {
    AppendObserved(pre, done);
    AppendObserved(pre + done, post);
  }

  lemma SavePhotoSuccessObserved(c: Config, path: Path)
    ensures Observed(c, OnSavePhotoSuccess(path), H.OnSavePhotoSuccess(c, path))
  {
    var scan := Notify(true, ScanFile(path));
    var done := Notify(c.listeners.photo, PhotoDone);
    var success := Notify(c.listeners.photo, PhotoSuccess(path));
    assert H.OnSavePhotoSuccess(c, path).out == scan + done + success;
    NotifyQuiet(true, ScanFile(path));
    NotifyObserved(c.listeners.photo, PhotoDone);
    NotifyQuiet(c.listeners.photo, PhotoSuccess(path));
    OutcomeObserved(c, OnSavePhotoSuccess(path), H.OnSavePhotoSuccess(c, path), scan, done, success);
  }

  lemma SavePhotoFailObserved(c: Config)
    ensures Observed(c, OnSavePhotoFail, H.OnSavePhotoFail(c))
  {
    var none := Notify(false, PhotoFail);
    var done := Notify(c.listeners.photo, PhotoDone);
    var fail := Notify(c.listeners.photo, PhotoFail);
    assert H.OnSavePhotoFail(c).out == none + done + fail;
    NotifyQuiet(false, PhotoFail);
    NotifyObserved(c.listeners.photo, PhotoDone);
    NotifyQuiet(c.listeners.photo, PhotoFail);
    OutcomeObserved(c, OnSavePhotoFail, H.OnSavePhotoFail(c), none, done, fail);
  }

  /** An update of the action state followed by one record-listener call. */
  lemma UpdateThenNotifyObserved(c: Config, i: Input, r: Step, state: ActionState, e: Event)
    requires !e.ActionStateUpdated? && e != PreviewStarted && e != PreviewStopped && e != PhotoDone
    requires r == Step(c.(action := state), H.UpdateActionState(c, state).out + Notify(c.listeners.record, e))
    requires !IsSaverOutcome(i) && i != DispatchNext && PostedBy(i) == []
    ensures Observed(c, i, r)
  {
    NotifyQuiet(c.listeners.record, e);
    AppendObserved(H.UpdateActionState(c, state).out, Notify(c.listeners.record, e));
  }

  lemma DispatchObserved(c: Config)
    requires KnownMessages(c.pending)
    ensures Observed(c, DispatchNext, H.DispatchNext(c))
  {
    if c.pending != [] {
      NotifyObserved(c.listeners.control, PreviewStarted);
      NotifyObserved(c.listeners.control, PreviewStopped);
    }
  }

  lemma RequestObserved(c: Config, i: Input)
    requires IsRequest(i)
    ensures Observed(c, i, Apply(c, i))
  {
    var r := Apply(c, i);
    match i
    case SetOnControlListener(_) =>
    case SetOnCameraPhotographListener(_) =>
    case SetOnCameraRecordListener(_) =>
    case TakePhoto(path, previewing) => TakePhotoObserved(c, path, previewing);
    case StartRecord(path, previewing, available, resolution) =>
      StartRecordObserved(c, path, previewing, available, resolution);
    case StopRecord => NotifyQuiet(true, RecorderStop); QuietObserved(c, i, r);
  }

  lemma DeviceEventObserved(c: Config, i: Input)
    requires KnownMessages(c.pending) && !IsRequest(i) && !IsWorkerCallback(i)
    ensures Observed(c, i, Apply(c, i))
  {
    var r := Apply(c, i);
    match i
    case OnStateUpdate(usb) => NotifyQuiet(c.listeners.control, UsbStateUpdated(usb)); QuietObserved(c, i, r);
    case OnLoadFrame(frame) => LoadFrameObserved(c, frame);
    case OnUsbConnect => NotifyQuiet(c.listeners.control, UsbConnected); QuietObserved(c, i, r);
    case OnUsbDisConnect(recording) => UsbDisConnectObserved(c, recording);
    case OnCameraOpen => NotifyQuiet(c.listeners.control, CameraOpened); QuietObserved(c, i, r);
    case OnCameraClose => NotifyQuiet(c.listeners.control, CameraClosed); QuietObserved(c, i, r);
    case OnPreviewStart =>
    case OnPreviewStop =>
    case DispatchNext => DispatchObserved(c);
  }

  lemma RecorderCallbackObserved(c: Config, i: Input)
    requires IsWorkerCallback(i) && !IsSaverOutcome(i)
    ensures Observed(c, i, Apply(c, i))
  {
    var r := Apply(c, i);
    match i
    case OnSetupRecordSuccess => NotifyQuiet(true, RecorderStart); QuietObserved(c, i, r);
    case OnSetupRecordError => NotifyQuiet(c.listeners.record, RecordStartFail); QuietObserved(c, i, r);
    case OnStartRecordSuccess => UpdateThenNotifyObserved(c, i, r, Recording, RecordStartSuccess);
    case OnStartRecordError => NotifyQuiet(c.listeners.record, RecordStartFail); QuietObserved(c, i, r);
    case OnRecordProgress(t) => NotifyQuiet(c.listeners.record, RecordProgress(t)); QuietObserved(c, i, r);
    case OnRecordSuccess(path) => UpdateThenNotifyObserved(c, i, r, Normal, RecordSuccess(path));
    case OnRecordError => UpdateThenNotifyObserved(c, i, r, Normal, RecordFail);
  }

  lemma ApplyObserved(c: Config, i: Input)
    requires KnownMessages(c.pending)
    ensures Observed(c, i, Apply(c, i))
  {
    if IsRequest(i) {
      RequestObserved(c, i);
    } else if i.OnSavePhotoSuccess? {
      SavePhotoSuccessObserved(c, i.path);
    } else if i == OnSavePhotoFail {
      SavePhotoFailObserved(c);
    } else if IsWorkerCallback(i) {
      RecorderCallbackObserved(c, i);
    } else {
      DeviceEventObserved(c, i);
    }
  }

  // ---- the transition table of the action state --------------------------

  /** The inputs that move the action state out of `from`, as a table
      independent of the handlers. */
  predicate Moves(from: ActionState, i: Input) {
    || (from == Normal && i.TakePhoto? && i.previewing)
    || (from == Photographing && i.OnLoadFrame?)
    || (from != Recording && i == OnStartRecordSuccess)
    || (from != Normal && (i.OnRecordSuccess? || i == OnRecordError))
  }

  /** Where a moving input takes the action state. */
  function Target(i: Input): ActionState {
    if i.TakePhoto? then Photographing
    else if i == OnStartRecordSuccess then Recording
    else Normal
  }

  /** The listener registrations after `i`: each registration sets its own
      listener, and no other input touches them. */
  function ListenersAfter(l: Listeners, i: Input): Listeners {
    match i
    case SetOnControlListener(on) => l.(control := on)
    case SetOnCameraPhotographListener(on) => l.(photo := on)
    case SetOnCameraRecordListener(on) => l.(record := on)
    case _ => l
  }

  /** Every input follows the table: the action state moves exactly when the
      table says so, and then to the table's target. Only the three
      registrations change the listeners, each its own. */
  lemma ActionStateTable(c: Config, i: Input)
    ensures Apply(c, i).next.action == if Moves(c.action, i) then Target(i) else c.action
    ensures Apply(c, i).next.listeners == ListenersAfter(c.listeners, i)
  {
    if IsRequest(i) {
      RequestTable(c, i);
    } else if IsWorkerCallback(i) {
      WorkerCallbackTable(c, i);
    } else {
      DeviceEventTable(c, i);
    }
  }

  lemma RequestTable(c: Config, i: Input)
    requires IsRequest(i)
    ensures Apply(c, i).next.action == if Moves(c.action, i) then Target(i) else c.action
    ensures Apply(c, i).next.listeners == ListenersAfter(c.listeners, i)
  {
    match i
    case SetOnControlListener(_) =>
    case SetOnCameraPhotographListener(_) =>
    case SetOnCameraRecordListener(_) =>
    case TakePhoto(path, previewing) => assert Apply(c, i) == H.TakePhoto(c, path, previewing);
    case StartRecord(path, previewing, available, resolution) =>
      assert Apply(c, i) == H.StartRecord(c, path, previewing, available, resolution);
    case StopRecord =>
  }

  lemma DeviceEventTable(c: Config, i: Input)
    requires !IsRequest(i) && !IsWorkerCallback(i)
    ensures Apply(c, i).next.action == if Moves(c.action, i) then Target(i) else c.action
    ensures Apply(c, i).next.listeners == ListenersAfter(c.listeners, i)
  {
    match i
    case OnStateUpdate(usb) =>
    case OnLoadFrame(frame) => assert Apply(c, i) == H.OnLoadFrame(c, frame);
    case OnUsbConnect =>
    case OnUsbDisConnect(recording) => assert Apply(c, i) == H.OnUsbDisConnect(c, recording);
    case OnCameraOpen =>
    case OnCameraClose =>
    case OnPreviewStart =>
    case OnPreviewStop =>
    case DispatchNext =>
  }

  lemma WorkerCallbackTable(c: Config, i: Input)
    requires IsWorkerCallback(i)
    ensures Apply(c, i).next.action == if Moves(c.action, i) then Target(i) else c.action
    ensures Apply(c, i).next.listeners == ListenersAfter(c.listeners, i)
  {
    match i
    case OnSavePhotoSuccess(path) =>
    case OnSavePhotoFail =>
    case OnSetupRecordSuccess =>
    case OnSetupRecordError =>
    case OnStartRecordSuccess =>
    case OnStartRecordError =>
    case OnRecordProgress(t) =>
    case OnRecordSuccess(path) =>
    case OnRecordError =>
  }

  /** Dropping the first input keeps a property of every input. */
  lemma TailKeeps(ins: seq<Input>, banned: Input)
    requires ins != [] && forall k :: 0 <= k < |ins| ==> ins[k] != banned
    ensures forall k :: 0 <= k < |ins[1..]| ==> ins[1..][k] != banned
  {
    forall k | 0 <= k < |ins[1..]| ensures ins[1..][k] != banned {
      assert ins[1..][k] == ins[k + 1];
    }
  }

  // ---- properties of every run ---------------------------------------------

  /** Over any run in which the control listener stays registered, what it
      hears through onActionStateUpdate is exact: no notification repeats the
      state before it, and the last one names the current action state. */
  lemma {:induction false} ControlListenerTracksActionState(c: Config, ins: seq<Input>)
    requires c.listeners.control && KeepsControlListener(ins) && KnownMessages(c.pending)
    ensures Faithful(c.action, Announcements(Run(c, ins).out), Run(c, ins).next.action)
    decreases |ins|
  {
    if ins != [] {
      var s := Apply(c, ins[0]);
      var t := Run(s.next, ins[1..]);
      TailKeeps(ins, SetOnControlListener(false));
      ApplyReports(c, ins[0]);
      ActionStateTable(c, ins[0]);
      KnownMessagesKept(c, ins[0]);
      ControlListenerTracksActionState(s.next, ins[1..]);
      AnnouncementsAppend(s.out, t.out);
      if s.next.action == c.action {
        assert Announcements(s.out) + Announcements(t.out) == Announcements(t.out);
      } else {
        var a := [s.next.action] + Announcements(t.out);
        assert a[0] == s.next.action && a[1..] == Announcements(t.out);
      }
    }
  }

  lemma ApplyReports(c: Config, i: Input)
    requires KnownMessages(c.pending)
    ensures Reports(c, Apply(c, i))
  {
    ApplyObserved(c, i);
  }

  lemma ApplyDoneReports(c: Config, i: Input)
    requires KnownMessages(c.pending)
    ensures DoneReports(c, i, Apply(c, i))
  {
    ApplyObserved(c, i);
  }

  lemma ApplyQueues(c: Config, i: Input)
    requires KnownMessages(c.pending)
    ensures Delivers(c, i, Apply(c, i)) && Queues(c, i, Apply(c, i))
  {
    ApplyObserved(c, i);
  }

  /** The Handler never holds a message other than the two preview messages. */
  lemma KnownMessagesKept(c: Config, i: Input)
    requires KnownMessages(c.pending)
    ensures KnownMessages(Apply(c, i).next.pending)
  {
    ApplyQueues(c, i);
    StepKnownMessages(c, i, Apply(c, i));
  }

  lemma StepKnownMessages(c: Config, i: Input, r: Step)
    requires KnownMessages(c.pending) && Queues(c, i, r)
    ensures KnownMessages(r.next.pending)
  {
    if i == DispatchNext && c.pending != [] {
      forall k | 0 <= k < |r.next.pending|
        ensures r.next.pending[k] == MsgPreviewStart || r.next.pending[k] == MsgPreviewStop
      {
        assert r.next.pending[k] == c.pending[k + 1];
      }
    }
  }

  /** One input: what it posts joins the back of the Handler's queue, and
      what it delivers comes off the front. */
  lemma ApplyKeepsPreviewOrder(c: Config, i: Input)
    requires c.listeners.control && KnownMessages(c.pending)
    ensures PreviewDelivered(Apply(c, i).out) + Apply(c, i).next.pending == c.pending + PostedBy(i)
  {
    ApplyQueues(c, i);
    StepKeepsPreviewOrder(c, i, Apply(c, i));
  }

  lemma StepKeepsPreviewOrder(c: Config, i: Input, r: Step)
    requires c.listeners.control && Delivers(c, i, r) && Queues(c, i, r)
    ensures PreviewDelivered(r.out) + r.next.pending == c.pending + PostedBy(i)
  {
    if i == DispatchNext && c.pending != [] {
      assert c.pending == [c.pending[0]] + c.pending[1..];
    } else if i == OnPreviewStart || i == OnPreviewStop {
      assert PreviewDelivered(r.out) == [];
    } else {
      assert PostedBy(i) == [] && r.next.pending == c.pending;
      assert c.pending + [] == c.pending;
    }
  }

  /** Over any run in which the control listener stays registered, preview
      start and stop reach it in the order the device reported them: what
      has been delivered, followed by what still waits in the Handler, is
      what was waiting at first followed by everything posted since. */
  lemma {:induction false} PreviewEventsKeepOrder(c: Config, ins: seq<Input>)
    requires c.listeners.control && KeepsControlListener(ins) && KnownMessages(c.pending)
    ensures PreviewDelivered(Run(c, ins).out) + Run(c, ins).next.pending == c.pending + Posted(ins)
    decreases |ins|
  {
    if ins != [] {
      var s := Apply(c, ins[0]);
      var t := Run(s.next, ins[1..]);
      TailKeeps(ins, SetOnControlListener(false));
      ActionStateTable(c, ins[0]);
      ApplyKeepsPreviewOrder(c, ins[0]);
      KnownMessagesKept(c, ins[0]);
      PreviewEventsKeepOrder(s.next, ins[1..]);
      PreviewDeliveredAppend(s.out, t.out);
      QueueChain(PreviewDelivered(s.out), PreviewDelivered(t.out), s.next.pending, t.next.pending,
                 c.pending, PostedBy(ins[0]), Posted(ins[1..]));
    }
  }

  /** Two consecutive stretches of the Handler's queue compose: the first
      stretch's deliveries and the second's, then what is left, are the
      starting queue followed by both stretches' postings. */
  lemma QueueChain(d1: seq<int>, d2: seq<int>, q1: seq<int>, q2: seq<int>,
                   q0: seq<int>, p1: seq<int>, p2: seq<int>)
    requires d1 + q1 == q0 + p1 && d2 + q2 == q1 + p2
    ensures (d1 + d2) + q2 == q0 + (p1 + p2)
  {
    calc {
      (d1 + d2) + q2;
      d1 + (d2 + q2);
      d1 + (q1 + p2);
      (d1 + q1) + p2;
      (q0 + p1) + p2;
    }
  }

  /** A registered photograph listener stays registered unless it is unregistered. */
  lemma PhotoListenerKept(l: Listeners, i: Input)
    requires l.photo && i != SetOnCameraPhotographListener(false)
    ensures ListenersAfter(l, i).photo
  {
  }

  /** Over any run in which the photo listener stays registered,
      onTakePhotoDone fires exactly once per photo-saver outcome. */
  lemma {:induction false} PhotoDoneOncePerOutcome(c: Config, ins: seq<Input>)
    requires c.listeners.photo && KnownMessages(c.pending)
    requires forall k :: 0 <= k < |ins| ==> ins[k] != SetOnCameraPhotographListener(false)
    ensures CountOf(Run(c, ins).out, PhotoDone) == |SaverOutcomes(ins)|
    decreases |ins|
  {
    if ins != [] {
      var s := Apply(c, ins[0]);
      var t := Run(s.next, ins[1..]);
      assert ins[0] != SetOnCameraPhotographListener(false);
      TailKeeps(ins, SetOnCameraPhotographListener(false));
      ApplyDoneReports(c, ins[0]);
      ActionStateTable(c, ins[0]);
      PhotoListenerKept(c.listeners, ins[0]);
      assert s.next.listeners.photo;
      KnownMessagesKept(c, ins[0]);
      PhotoDoneOncePerOutcome(s.next, ins[1..]);
      CountOfAppend(s.out, t.out, PhotoDone);
      var n := if IsSaverOutcome(ins[0]) then 1 else 0;
      assert CountOf(s.out, PhotoDone) == n;
      assert |SaverOutcomes(ins)| == n + |SaverOutcomes(ins[1..])|;
    }
  }

  /** The photo-saver outcomes among a sequence of inputs. */
  function SaverOutcomes(ins: seq<Input>): seq<Input>
    decreases |ins|
  {
    if ins == [] then []
    else (if IsSaverOutcome(ins[0]) then [ins[0]] else []) + SaverOutcomes(ins[1..])
  }

  /** Recording is entered only through the recorder's start-success callback. */
  lemma {:induction false} RecordingOnlyAfterStartSuccess(c: Config, ins: seq<Input>)
    ensures c.action != Recording && Run(c, ins).next.action == Recording ==>
              exists k :: 0 <= k < |ins| && ins[k] == OnStartRecordSuccess
    decreases |ins|
  {
    if ins != [] && c.action != Recording {
      var s := Apply(c, ins[0]);
      ActionStateTable(c, ins[0]);
      if s.next.action == Recording {
        assert Moves(c.action, ins[0]) && Target(ins[0]) == Recording;
      } else if Run(c, ins).next.action == Recording {
        RecordingOnlyAfterStartSuccess(s.next, ins[1..]);
        var k :| 0 <= k < |ins[1..]| && ins[1..][k] == OnStartRecordSuccess;
        assert ins[k + 1] == OnStartRecordSuccess;
      }
    }
  }

  /** Photographing is entered only by a photo request made while previewing,
      and that request handed its path to the photo saver. */
  lemma {:induction false} PhotographingOnlyAfterCapture(c: Config, ins: seq<Input>)
    ensures c.action != Photographing && Run(c, ins).next.action == Photographing ==>
              exists k :: 0 <= k < |ins| && ins[k].TakePhoto? && ins[k].previewing
                          && SaverAddTask(ins[k].path) in Run(c, ins).out
    decreases |ins|
  {
    if ins != [] && c.action != Photographing {
      var s := Apply(c, ins[0]);
      var t := Run(s.next, ins[1..]);
      ActionStateTable(c, ins[0]);
      if s.next.action == Photographing {
        assert Moves(c.action, ins[0]) && Target(ins[0]) == Photographing;
        assert ins[0].TakePhoto? && ins[0].previewing && c.action == Normal;
        assert s == H.TakePhoto(c, ins[0].path, ins[0].previewing);
        assert SaverAddTask(ins[0].path) in s.out;
        assert SaverAddTask(ins[0].path) in s.out + t.out;
      } else if Run(c, ins).next.action == Photographing {
        PhotographingOnlyAfterCapture(s.next, ins[1..]);
        var k :| 0 <= k < |ins[1..]| && ins[1..][k].TakePhoto? && ins[1..][k].previewing
                 && SaverAddTask(ins[1..][k].path) in t.out;
        assert ins[k + 1] == ins[1..][k];
        assert SaverAddTask(ins[k + 1].path) in s.out + t.out;
      }
    }
  }
}
