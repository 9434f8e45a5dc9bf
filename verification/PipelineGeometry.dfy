/** Every image that travels through the pipeline carries the geometry that the
    camera was initialised with before the tasks started. */
module PipelineGeometry {
  import opened CaptureControl
  import opened Pipeline
  import opened PipelineInvariant
  import D = Detection
  import Stdio
  import Telemetry
  import R = RingModel
  import Cam = Camera
  import CG = CameraGeometry
  import CI = CameraInvariant

  ghost predicate ImagesOk(s: System, g: Geometry) {
    && CG.GeometryOk(s.cam)
    && (Live(s.t3) ==> s.cam.geometry == g)
    && (s.t2.captured ==> s.t2.image.geometry == g)
    && (s.mailbox.ready && s.mailbox.captured ==> s.mailbox.image.geometry == g)
    && (s.t3.captured ==> s.t3.image.geometry == g)
  }

  lemma Images1(m: D.Trig, s: System, a: Action1, g: Geometry)
    requires ImagesOk(s, g) && GatesOk(s) && Enabled1(s, a)
    ensures ImagesOk(Next1(m, s, a), g)
  {
    hide CG.GeometryOk;
    GatesStep1(m, s, a);
  }

  lemma CallImages(s: System, a: Cam.CallAction, g: Geometry)
    requires ImagesOk(s, g) && s.t3.pc.AwaitingData? && CI.FlagsOk(s.cam)
    requires a.i == 0 && Cam.CallEnabled(s.cam, a)
    ensures ImagesOk(Called(s, a), g)
  {
    hide CI.FlagsOk, CG.GeometryOk, Cam.CallNext;
    CG.CallKeepsGeometry(s.cam, a);
    CallersKept(s.cam, a);
  }

  lemma Images2(s: System, a: Action2, g: Geometry)
    requires ImagesOk(s, g) && GatesOk(s) && CI.FlagsOk(s.cam) && Enabled2(s, a)
    ensures ImagesOk(Next2(s, a), g)
  {
    hide CI.FlagsOk, CG.GeometryOk, Called, Cam.CallEnabled;
    match a
    case TakeSignal =>
    case SigwaitFails =>
    case EnterSnapshot(works) => CallImages(s, Cam.Enter(0, works), g);
    case LeaveWait(w) => CallImages(s, Cam.Return(0, w), g);
    case Post =>
  }

  lemma Images3(s: System, a: Action3, g: Geometry)
    requires ImagesOk(s, g) && Enabled3(s, a)
    ensures ImagesOk(Next3(s, a), g)
  {
    hide CG.GeometryOk, R.Step, R.Entries, Telemetry.Texts, Stdio.Complete, Stdio.Written, CanPreview;
    match a
    case TakeMail =>
    case LockRing(_) =>
    case SnapshotRing =>
    case CopyRing =>
    case SaveTelemetry(_, _) =>
    case SaveByte =>
    case ImageDone =>
    case UnpackByte =>
    case PreviewDone(_) =>
    case GiveUp =>
    case UnlockRing(_) =>
  }

  lemma StepKeepsImages(m: D.Trig, cap: nat, s: System, a: Action, g: Geometry)
    requires Inv(m, cap, s) && ImagesOk(s, g) && Enabled(s, a)
    ensures ImagesOk(Next(m, s, a), g)
  {
    assert GatesOk(s) && CI.Inv(s.cam) && CI.FlagsOk(s.cam) && CI.HoldersOk(s.cam);
    hide Inv, GatesOk, CI.Inv, CI.FlagsOk, CI.HoldersOk, CG.GeometryOk;
    hide Next1, Next2, Next3, Enabled1, Enabled2, Enabled3;
    hide Cam.ThreadNext, Cam.DriverNext, Cam.OwnerNext, Cam.ThreadEnabled, Cam.DriverEnabled, Cam.OwnerEnabled;
    match a
    case By1(a1) => Images1(m, s, a1, g);
    case By2(a2) => Images2(s, a2, g);
    case By3(a3) => Images3(s, a3, g);
    case ByCameraThread(t) => CG.ThreadKeepsGeometry(s.cam, t);
    case ByDriver(d) => CG.DriverKeepsGeometry(s.cam, d);
    case ByMain(o) => CG.OwnerKeepsGeometry(s.cam, o);
  }

  lemma {:induction false} RunKeepsImages(m: D.Trig, cap: nat, s: System, actions: seq<Action>, g: Geometry)
    requires Inv(m, cap, s) && ImagesOk(s, g) && Legal(m, s, actions)
    ensures ImagesOk(Run(m, s, actions), g)
    decreases |actions|
  {
    hide Inv, ImagesOk, Next, Enabled;
    if actions != [] {
      StepKeepsInv(m, cap, s, actions[0]);
      StepKeepsImages(m, cap, s, actions[0], g);
      RunKeepsImages(m, cap, Next(m, s, actions[0]), actions[1..], g);
    }
  }

  /** The image that task 2 captured, the mail and the image that task 3 saves have the
      geometry of the camera at the start of the tasks, and until task 3 is done the
      camera still has it. */
  lemma ImageIsAsConfigured(m: D.Trig, cap: nat, s: System, actions: seq<Action>)
    requires Starts(s, cap) && Legal(m, s, actions)
    ensures var s', g := Run(m, s, actions), s.cam.geometry;
      && (s'.t2.captured ==> s'.t2.image.geometry == g)
      && (s'.mailbox.ready && s'.mailbox.captured ==> s'.mailbox.image.geometry == g)
      && (s'.t3.captured ==> s'.t3.image.geometry == g)
      && (Live(s'.t3) ==> s'.cam.geometry == g)
  {
    StartOk(m, cap, s);
    CameraStarts(s.cam);
    hide Inv;
    assert s.cam.callers == [Cam.Idle];
    RunKeepsImages(m, cap, s, actions, s.cam.geometry);
  }
}
