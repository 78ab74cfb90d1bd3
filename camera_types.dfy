/** Values shared by the model of the USB camera session controller
    (UsbCameraController): its action state, the events it emits towards
    listeners and collaborators, and a snapshot of its mutable fields. */
module CameraTypes {

  /** ActionState: the controller's single, mutually exclusive mode. */
  datatype ActionState = Normal | Photographing | Recording

  /** Paths are opaque to the controller. */
  type Path = string

  /** The identity of a delivered preview frame; bitmap contents are not modelled. */
  type Frame = nat

  /** The device-command collaborator's connection state, passed through by name. */
  type UsbState = string

  /** The current resolution held by the camera settings. */
  datatype Resolution = Resolution(width: int, height: int)

  /** Message codes posted to the controller's Handler. */
  const MsgPreviewStart: int := 100
  const MsgPreviewStop: int := 101

  /** Everything the controller does that is visible from outside: a call on
      one of the three listeners, or a command to a collaborator. */
  datatype Event =
    // OnControlListener
    | UsbConnected
    | UsbDisconnected
    | CameraOpened
    | CameraClosed
    | PreviewStarted
    | PreviewStopped
    | UsbStateUpdated(usb: UsbState)
    | ActionStateUpdated(state: ActionState)
    | FrameLoaded(frame: Frame)
    // OnCameraPhotographListener
    | PhotoStart
    | PhotoSuccess(photoPath: Path)
    | PhotoFail
    | PhotoDone
    // OnCameraRecordListener
    | RecordStartSuccess
    | RecordStartFail
    | RecordProgress(seconds: int)
    | RecordSuccess(videoPath: Path)
    | RecordFail
    // commands to the photo saver, the recorder and the media scanner
    | SaverAddTask(taskPath: Path)
    | SaverProvideFrame(provided: Frame)
    | RecorderSetup(recordPath: Path, width: int, height: int)
    | RecorderStart
    | RecorderStop
    | ScanFile(scanPath: Path)

  /** Which listeners are registered (a Java listener field that is not null). */
  datatype Listeners = Listeners(control: bool, photo: bool, record: bool)

  /** The controller's mutable state: the action state, the listener
      registrations and the messages posted to its Handler, oldest first. */
  datatype Config = Config(action: ActionState, listeners: Listeners, pending: seq<int>)

  /** The effect of one handler: the new state and the events emitted, in order. */
  datatype Step = Step(next: Config, out: seq<Event>)

  /** A freshly constructed controller: Normal, no listener, no message. */
  function Initial(): Config {
    Config(Normal, Listeners(false, false, false), [])
  }

  /** A listener call guarded by a null check: nothing when no listener is registered. */
  function Notify(registered: bool, e: Event): seq<Event> {
    if registered then [e] else []
  }

  /** The number of occurrences of `e` in `s`. */
  function CountOf(s: seq<Event>, e: Event): nat {
    if s == [] then 0 else (if s[0] == e then 1 else 0) + CountOf(s[1..], e)
  }

  /** The states reported through onActionStateUpdate, in order. */
  function Announcements(s: seq<Event>): seq<ActionState> {
    if s == [] then []
    else (if s[0].ActionStateUpdated? then [s[0].state] else []) + Announcements(s[1..])
  }

  /** The Handler message code that an event passes on to the control listener, if any. */
  function DeliveredBy(e: Event): seq<int> {
    if e == PreviewStarted then [MsgPreviewStart]
    else if e == PreviewStopped then [MsgPreviewStop]
    else []
  }

  /** The Handler messages that reached the control listener, as message codes, in order. */
  function PreviewDelivered(s: seq<Event>): seq<int> {
    if s == [] then [] else DeliveredBy(s[0]) + PreviewDelivered(s[1..])
  }

  lemma {:induction false} CountOfAppend(a: seq<Event>, b: seq<Event>, e: Event)
    ensures CountOf(a + b, e) == CountOf(a, e) + CountOf(b, e)
    decreases |a|
  {
    if a == [] {
      assert a + b == b;
    } else {
      assert (a + b)[1..] == a[1..] + b;
      CountOfAppend(a[1..], b, e);
    }
  }

  lemma {:induction false} AnnouncementsAppend(a: seq<Event>, b: seq<Event>)
    ensures Announcements(a + b) == Announcements(a) + Announcements(b)
    decreases |a|
  {
    if a == [] {
      assert a + b == b;
    } else {
      assert (a + b)[0] == a[0];
      assert (a + b)[1..] == a[1..] + b;
      AnnouncementsAppend(a[1..], b);
    }
  }

  lemma {:induction false} PreviewDeliveredAppend(a: seq<Event>, b: seq<Event>)
    ensures PreviewDelivered(a + b) == PreviewDelivered(a) + PreviewDelivered(b)
    decreases |a|
  {
    if a == [] {
      assert a + b == b;
    } else {
      assert (a + b)[0] == a[0];
      assert (a + b)[1..] == a[1..] + b;
      PreviewDeliveredAppend(a[1..], b);
      calc {
        PreviewDelivered(a + b);
        DeliveredBy(a[0]) + PreviewDelivered(a[1..] + b);
        DeliveredBy(a[0]) + (PreviewDelivered(a[1..]) + PreviewDelivered(b));
      }
    }
  }
}
