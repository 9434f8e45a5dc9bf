/** The three tasks, the ring, the signal, the mailbox and the camera as one
    transition system.  The clock is the camera system's; task 2 is its only
    client. */
module Pipeline {
  import opened Bytes
  import opened Sensor
  import opened RingModel
  import Task1
  import Cam = Camera
  import opened CaptureControl
  import opened Handoff
  import D = Detection
  import ColorPpm
  import Stdio
  import Storage
  import Telemetry

  datatype Pc1 = Sampling | Analysing | Freezing | Signalling | Ended(detected: bool)

  /** `samples`: everything task 1 has written since main's reset.  `froze`: its LOCK
      worked. */
  datatype Sensing = Sensing(pc: Pc1, samples: seq<RawSample>, tracker: Task1.Tracker, froze: bool)

  datatype Pc2 = AwaitingSignal | Calling | InCall | Posting | Posted | GaveUp

  /** `latencyValid` is false once the "invalid camera latency" branch was taken. */
  datatype Capturing = Capturing(pc: Pc2, latencyStart: nat, detection: nat,
                                 captured: bool, image: Image, latencyValid: bool)

  datatype Pc3 = AwaitingData | Locking | Snapshotting | CopyingOut | SavingTelemetry
               | SavingImage | SavingPreview | Unlocking(ok: bool) | Finished(saved: bool)

  /** `telemetry` is what read() delivered and `seen` what the preview's unpacking has
      read of the secure memory; the three files are what was saved, the telemetry with
      `details` in its header; `complete` says that every fprintf succeeded.  `locked`
      and `unlocks`: its LOCK and its UNLOCK worked. */
  datatype Storing = Storing(pc: Pc3, detection: nat, captured: bool, image: Image,
                             locked: bool, unlocks: bool,
                             count: nat, tail: nat, telemetry: seq<RawSample>,
                             details: Telemetry.Details, complete: bool, telemetryFile: seq<byte>, imageFile: seq<byte>,
                             seen: seq<byte>, previewFile: seq<byte>)

  datatype System = System(
    ring: Ring<RawSample>,
    t1: Sensing, latencyStart: nat, detection: nat, signal: bool,
    t2: Capturing, mailbox: Mailbox,
    t3: Storing,
    cam: Cam.State)

  // ----- Actions; a Boolean says whether the system call fails -----

  datatype Action1 =
    | WriteSample(raw: RawSample)
    | StopSampling                      // sensor, clock or write error
    | Analyse(sleepFails: bool)
    | Freeze(fails: bool)
    | Kill(fails: bool)

  datatype Action2 =
    | TakeSignal
    | SigwaitFails
    | EnterSnapshot(clockWorks: bool)
    | LeaveWait(wait: Wait)
    | Post

  datatype Action3 =
    | TakeMail
    | LockRing(fails: bool)
    | SnapshotRing
    | CopyRing
    | SaveTelemetry(details: Telemetry.Details, io: Stdio.Io)
    | SaveByte
    | ImageDone
    | UnpackByte
    | PreviewDone(works: bool)          // a preview that fails is only reported
    | GiveUp                            // any other failing call
    | UnlockRing(fails: bool)

  datatype Action =
    | By1(a1: Action1)
    | By2(a2: Action2)
    | By3(a3: Action3)
    | ByCameraThread(thread: Cam.ThreadAction)
    | ByDriver(driver: Cam.DriverAction)
    | ByMain(owner: Cam.OwnerAction)    // deinit after the joins

  // ----- Task 1 -----

  /** A monotonic clock, read some time before the write. */
  predicate Stamps(samples: seq<RawSample>, stamp: nat, now: nat) {
    0 < stamp <= now && (samples != [] ==> samples[|samples| - 1].timestampNs <= stamp)
  }

  predicate Enabled1(s: System, a: Action1) {
    match a
    case WriteSample(raw) => s.t1.pc.Sampling? && Stamps(s.t1.samples, raw.timestampNs, s.cam.now) && WellFormed(s.ring)
    case StopSampling => s.t1.pc.Sampling?
    case Analyse(_) => s.t1.pc.Analysing? && s.t1.samples != []
    case Freeze(_) => s.t1.pc.Freezing? && WellFormed(s.ring)
    case Kill(_) => s.t1.pc.Signalling?
  }

  function Analysed(m: D.Trig, s: System, sleepFails: bool): System
    requires s.t1.samples != []
  {
    var raw := s.t1.samples[|s.t1.samples| - 1];
    var event := Task1.EventOf(m, s.t1.tracker, raw);
    var tracker := Task1.Observe(m, s.t1.tracker, raw);
    if event == D.NO_EVENT then
      s.(t1 := s.t1.(tracker := tracker, pc := if sleepFails then Ended(false) else Sampling))
    else
      s.(t1 := s.t1.(tracker := tracker, pc := Freezing),
      detection := raw.timestampNs,
      latencyStart := Task1.LatencyStart(event, tracker, raw.timestampNs))
  }

  function Next1(m: D.Trig, s: System, a: Action1): System
    requires Enabled1(s, a)
  {
    match a
    case WriteSample(raw) =>
      s.(ring := Step(s.ring, Write(raw)), t1 := s.t1.(pc := Analysing, samples := s.t1.samples + [raw]))
    case StopSampling => s.(t1 := s.t1.(pc := Ended(false)))
    case Analyse(sleepFails) => Analysed(m, s, sleepFails)
    case Freeze(fails) =>
      s.(t1 := s.t1.(pc := Signalling, froze := !fails), ring := if fails then s.ring else Step(s.ring, Lock))
    case Kill(fails) => s.(t1 := s.t1.(pc := Ended(true)), signal := !fails)
  }

  // ----- Task 2 -----

  predicate Enabled2(s: System, a: Action2) {
    match a
    case TakeSignal => s.t2.pc.AwaitingSignal? && s.signal
    case SigwaitFails => s.t2.pc.AwaitingSignal?
    case EnterSnapshot(works) => s.t2.pc.Calling? && Cam.CallEnabled(s.cam, Cam.Enter(0, works))
    case LeaveWait(w) => s.t2.pc.InCall? && Cam.CallEnabled(s.cam, Cam.Return(0, w))
    case Post => s.t2.pc.Posting?
  }

  /** What the caller slot says after a camera step of task 2. */
  function AfterCall(t2: Capturing, c: Cam.Caller): Capturing {
    match c
    case Waiting(_, _, _) => t2.(pc := InCall)
    case Idle => t2.(pc := Posting, captured := false, image := NO_IMAGE)
    case Holding(image, _, _, _, _, _, _) =>
      t2.(pc := Posting, captured := true, image := image,
      latencyValid := image.firstByteNs >= t2.latencyStart)
  }

  function Called(s: System, a: Cam.CallAction): System
    requires a.i == 0 && Cam.CallEnabled(s.cam, a)
  {
    var cam := Cam.CallNext(s.cam, a);
    CallersKept(s.cam, a);
    s.(cam := cam, t2 := AfterCall(s.t2, cam.callers[0]))
  }

  lemma CallersKept(s: Cam.State, a: Cam.CallAction)
    requires Cam.CallEnabled(s, a)
    ensures |Cam.CallNext(s, a).callers| == |s.callers|
  {
    match a
    case Enter(_, _) =>
    case Return(_, w) =>
      if ResumeOutcome(s.flags, w).Captured? {
      } else {
      }
  }

  function Next2(s: System, a: Action2): System
    requires Enabled2(s, a)
  {
    match a
    case TakeSignal =>
      s.(signal := false,
      t2 := s.t2.(pc := Calling, latencyStart := s.latencyStart, detection := s.detection))
    case SigwaitFails => s.(t2 := s.t2.(pc := GaveUp))
    case EnterSnapshot(works) => Called(s, Cam.Enter(0, works))
    case LeaveWait(w) => Called(s, Cam.Return(0, w))
    case Post =>
      s.(t2 := s.t2.(pc := Posted),
      mailbox := Filled(s.t2.detection, s.t2.captured, s.t2.image))
  }

  // ----- Task 3 -----

  predicate HasImage(t3: Storing) { t3.captured && t3.image.size > 0 }

  /** The whole image has been read and passes the preview's guards. */
  predicate CanPreview(t3: Storing) {
    var picture := Storage.PictureOf(t3.image, t3.seen);
    HasImage(t3) && |t3.seen| == t3.image.size
    && ColorPpm.Acceptable(picture) && ColorPpm.LongEnough(picture)
  }

  predicate Enabled3(s: System, a: Action3) {
    match a
    case TakeMail => s.t3.pc.AwaitingData? && s.mailbox.ready
    case LockRing(_) => s.t3.pc.Locking? && WellFormed(s.ring)
    case SnapshotRing => s.t3.pc.Snapshotting?
    case CopyRing => s.t3.pc.CopyingOut? && 0 < |s.ring.slots|
    case SaveTelemetry(_, _) => s.t3.pc.SavingTelemetry?
    case SaveByte =>
      s.t3.pc.SavingImage? && HasImage(s.t3) && |s.t3.imageFile| < s.t3.image.size
      && |s.t3.imageFile| < |s.cam.memory|
    case ImageDone =>
      s.t3.pc.SavingImage? && (HasImage(s.t3) ==> |s.t3.imageFile| == s.t3.image.size)
    case UnpackByte =>
      s.t3.pc.SavingPreview? && HasImage(s.t3) && |s.t3.seen| < s.t3.image.size
      && |s.t3.seen| < |s.cam.memory|
    case PreviewDone(works) => s.t3.pc.SavingPreview? && (works ==> CanPreview(s.t3))
    case GiveUp => !s.t3.pc.AwaitingData? && !s.t3.pc.SavingPreview? && !s.t3.pc.Unlocking? && !s.t3.pc.Finished?
    case UnlockRing(_) => s.t3.pc.Unlocking? && WellFormed(s.ring)
  }

  function Next3(s: System, a: Action3): System
    requires Enabled3(s, a)
  {
    var t := s.t3;
    match a
    case TakeMail =>
      s.(t3 := t.(pc := Locking, detection := s.mailbox.detection, captured := s.mailbox.captured,
      image := s.mailbox.image))
    case LockRing(fails) =>
      s.(t3 := t.(pc := Snapshotting, locked := !fails), ring := if fails then s.ring else Step(s.ring, Lock))
    case SnapshotRing =>
      s.(t3 := t.(count := s.ring.count, tail := s.ring.tail,
      pc := if s.ring.count == 0 then SavingTelemetry else CopyingOut))
    case CopyRing => s.(t3 := t.(telemetry := Entries(s.ring, t.tail, t.count), pc := SavingTelemetry))
    case SaveTelemetry(details, io) =>
      var texts := Telemetry.Texts(t.telemetry, details);
      s.(t3 := t.(details := details, complete := Stdio.Complete(texts, io),
      telemetryFile := Stdio.Written(texts, io),
      pc := if Stdio.Succeeds(io) then SavingImage else Unlocking(false)))
    case SaveByte => s.(t3 := t.(imageFile := t.imageFile + [s.cam.memory[|t.imageFile|]]))
    case ImageDone => s.(t3 := t.(pc := SavingPreview))
    case UnpackByte => s.(t3 := t.(seen := t.seen + [s.cam.memory[|t.seen|]]))
    case PreviewDone(works) =>
      s.(t3 := t.(pc := Unlocking(true),
      previewFile := if works then ColorPpm.Preview(Storage.PictureOf(t.image, t.seen)) else []))
    case GiveUp => s.(t3 := t.(pc := Unlocking(false)))
    case UnlockRing(fails) =>
      s.(t3 := t.(pc := Finished(t.pc.ok), unlocks := !fails),
      ring := if t.locked && !fails then Step(s.ring, Unlock) else s.ring)
  }

  // ----- The system -----

  predicate AllJoined(s: System) { s.t1.pc.Ended? && (s.t2.pc.Posted? || s.t2.pc.GaveUp?) && s.t3.pc.Finished? }

  predicate Enabled(s: System, a: Action) {
    match a
    case By1(a1) => Enabled1(s, a1)
    case By2(a2) => Enabled2(s, a2)
    case By3(a3) => Enabled3(s, a3)
    case ByCameraThread(t) => Cam.ThreadEnabled(s.cam, t)
    case ByDriver(d) => Cam.DriverEnabled(s.cam, d)
    case ByMain(o) => AllJoined(s) && !o.Initialise? && Cam.OwnerEnabled(s.cam, o)
  }

  function Next(m: D.Trig, s: System, a: Action): System
    requires Enabled(s, a)
  {
    match a
    case By1(a1) => Next1(m, s, a1)
    case By2(a2) => Next2(s, a2)
    case By3(a3) => Next3(s, a3)
    case ByCameraThread(t) => s.(cam := Cam.ThreadNext(s.cam, t))
    case ByDriver(d) => s.(cam := Cam.DriverNext(s.cam, d))
    case ByMain(o) => s.(cam := Cam.OwnerNext(s.cam, o))
  }

  /** When the tasks start: main has reset the ring, whatever it held, and the
      camera has been initialised or is disabled. */
  ghost predicate Starts(s: System, cap: nat) {
    && (exists r :: WellFormed(r) && |r.slots| == cap && s.ring == Step(r, Unlock))
    && s.t1 == Sensing(Sampling, [], Task1.Start(), false) && s.latencyStart == 0 && s.detection == 0 && !s.signal
    && s.t2 == Capturing(AwaitingSignal, 0, 0, false, NO_IMAGE, true)
    && s.mailbox == EMPTY
    && s.t3 == Storing(AwaitingData, 0, false, NO_IMAGE, false, false, 0, 0, [], Telemetry.NO_FLOATS, false,
                      [], [], [], [])
    && 0 < s.cam.now
    && (s.cam == Cam.Boot(1, s.cam.now) || Initialised(s.cam))
  }

  ghost predicate Initialised(c: Cam.State) {
    exists o :: o == Cam.Initialise(c.buffers, c.memory, c.geometry)
      && Cam.OwnerEnabled(Cam.Boot(1, c.now), o) && c == Cam.OwnerNext(Cam.Boot(1, c.now), o)
  }

  ghost predicate Legal(m: D.Trig, s: System, actions: seq<Action>)
    decreases |actions|
  {
    actions == [] || (Enabled(s, actions[0]) && Legal(m, Next(m, s, actions[0]), actions[1..]))
  }

  ghost function Run(m: D.Trig, s: System, actions: seq<Action>): System
    requires Legal(m, s, actions)
    decreases |actions|
  {
    if actions == [] then s else Run(m, Next(m, s, actions[0]), actions[1..])
  }
}
