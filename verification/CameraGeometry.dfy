/** The geometry that a delivered image carries is the one its init configured. */
module CameraGeometry {
  import opened CaptureControl
  import opened Camera
  import opened CameraInvariant

  /** Of the image that is ready, and of every image handed over since the memory was
      last released. */
  ghost predicate GeometryOk(s: State) {
    && (s.flags.ready ==> s.flags.captured.geometry == s.geometry)
    && (forall c :: c in s.callers && c.Holding? && c.releases == s.releases ==>
          s.mapped && c.image.geometry == s.geometry)
    && (!s.mapped ==> s.geometry == NO_GEOMETRY)
  }

  lemma DriverKeepsGeometry(s: State, a: DriverAction)
    requires GeometryOk(s) && DriverEnabled(s, a)
    ensures GeometryOk(DriverNext(s, a)) && DriverNext(s, a).geometry == s.geometry
  {}

  lemma ThreadKeepsGeometry(s: State, a: ThreadAction)
    requires GeometryOk(s) && ThreadEnabled(s, a)
    ensures GeometryOk(ThreadNext(s, a)) && ThreadNext(s, a).geometry == s.geometry
    ensures ThreadNext(s, a).mapped == s.mapped
  {
    match a
    case Dequeue(_) =>
    case Stamp(_) =>
    case CopyByte =>
    case PublishCopy(_) =>
    case Report =>
    case Requeue =>
    case RequeueFails(_) =>
    case _ =>
  }

  lemma CallKeepsGeometry(s: State, a: CallAction)
    requires FlagsOk(s) && GeometryOk(s) && CallEnabled(s, a)
    ensures GeometryOk(CallNext(s, a)) && CallNext(s, a).geometry == s.geometry
    ensures var c := CallNext(s, a).callers[a.i]; c.Holding? ==> c.image.geometry == s.geometry
  {
    match a
    case Enter(_, _) =>
    case Return(_, w) =>
      if ResumeOutcome(s.flags, w).Captured? {
      } else {
      }
  }

  lemma OwnerKeepsGeometry(s: State, a: OwnerAction)
    requires FlagsOk(s) && HoldersOk(s) && GeometryOk(s) && OwnerEnabled(s, a)
    ensures GeometryOk(OwnerNext(s, a))
    ensures !a.Initialise? && !a.DeinitRelease? ==> OwnerNext(s, a).geometry == s.geometry
  {}

  lemma StepKeepsGeometry(s: State, a: Action)
    requires Inv(s) && GeometryOk(s) && Enabled(s, a)
    ensures GeometryOk(Next(s, a))
  {
    assert FlagsOk(s) && HoldersOk(s);
    hide Inv, FlagsOk, HoldersOk, GeometryOk, DriverNext, ThreadNext, CallNext, OwnerNext;
    match a
    case ByDriver(d) => DriverKeepsGeometry(s, d);
    case ByThread(t) => ThreadKeepsGeometry(s, t);
    case ByCaller(c) => CallKeepsGeometry(s, c);
    case ByOwner(o) => OwnerKeepsGeometry(s, o);
  }

  /** What the last init of the run configured, or `g` if there was none. */
  ghost function Configured(g: Geometry, actions: seq<Action>): Geometry
    decreases |actions|
  {
    if actions == [] then g
    else Configured(AfterAction(g, actions[0]), actions[1..])
  }

  function AfterAction(g: Geometry, a: Action): Geometry {
    if a.ByOwner? && a.owner.Initialise? then a.owner.geometry else g
  }

  lemma StepConfigures(s: State, a: Action, g: Geometry)
    requires Enabled(s, a) && (s.mapped ==> s.geometry == g)
    ensures Next(s, a).mapped ==> Next(s, a).geometry == AfterAction(g, a)
  {
    match a
    case ByDriver(d) =>
    case ByThread(t) => ThreadStaysConfigured(s, t);
    case ByCaller(c) => CallStaysConfigured(s, c);
    case ByOwner(o) =>
  }

  lemma ThreadStaysConfigured(s: State, a: ThreadAction)
    requires ThreadEnabled(s, a)
    ensures ThreadNext(s, a).geometry == s.geometry && ThreadNext(s, a).mapped == s.mapped
  {
    match a
    case Dequeue(_) =>
    case Stamp(_) =>
    case CopyByte =>
    case PublishCopy(_) =>
    case Report =>
    case Requeue =>
    case RequeueFails(_) =>
    case _ =>
  }

  lemma CallStaysConfigured(s: State, a: CallAction)
    requires CallEnabled(s, a)
    ensures CallNext(s, a).geometry == s.geometry && CallNext(s, a).mapped == s.mapped
  {
    match a
    case Enter(_, _) =>
    case Return(_, w) =>
      if ResumeOutcome(s.flags, w).Captured? {
      } else {
      }
  }

  lemma {:induction false} RunConfigures(s: State, actions: seq<Action>, g: Geometry)
    requires Inv(s) && GeometryOk(s) && Legal(s, actions) && (s.mapped ==> s.geometry == g)
    ensures var s' := Run(s, actions);
      Inv(s') && GeometryOk(s') && (s'.mapped ==> s'.geometry == Configured(g, actions))
    decreases |actions|
  {
    hide Inv, GeometryOk, Next, Enabled;
    if actions != [] {
      var a := actions[0];
      StepConfigures(s, a, g);
      StepKeepsInv(s, a);
      StepKeepsGeometry(s, a);
      RunConfigures(Next(s, a), actions[1..], AfterAction(g, a));
    }
  }

  /** After any run with any number of callers: the image that is ready, and every
      image handed over since the last release, carry the width, height, stride and
      pixel format that the last init of the run configured. */
  lemma ImagesAreAsConfigured(callers: nat, now: nat, actions: seq<Action>, i: nat)
    requires Legal(Boot(callers, now), actions)
    ensures var s := Run(Boot(callers, now), actions);
      && (s.flags.ready ==> s.flags.captured.geometry == Configured(NO_GEOMETRY, actions))
      && (i < |s.callers| && s.callers[i].Holding? && s.callers[i].releases == s.releases ==>
          s.callers[i].image.geometry == Configured(NO_GEOMETRY, actions))
      && (!s.mapped ==> s.geometry == NO_GEOMETRY)
  {
    BootOk(callers, now);
    RunConfigures(Boot(callers, now), actions, NO_GEOMETRY);
    assert FlagsOk(Run(Boot(callers, now), actions));
    hide Inv;
  }
}
