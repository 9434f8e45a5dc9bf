/** Until a task gives up the pipeline can always complete: whatever has happened so
    far, some continuation detects, signals and saves.  So no guard of the model, and
    no lost hand-off, leaves a task waiting for something that cannot come. */
module PipelineProgress {
  import opened CaptureControl
  import opened Sensor
  import opened Pipeline
  import opened PipelineInvariant
  import D = Detection
  import R = RingModel
  import Stdio
  import Telemetry
  import CI = CameraInvariant
  import PH = PipelineHistory
  import Task1

  lemma Prepend(m: D.Trig, s: System, a: Action, rest: seq<Action>)
    requires Enabled(s, a) && Legal(m, Next(m, s, a), rest)
    ensures Legal(m, s, [a] + rest) && Run(m, s, [a] + rest) == Run(m, Next(m, s, a), rest)
  {
    assert ([a] + rest)[1..] == rest;
  }

  lemma {:induction false} Concat(m: D.Trig, s: System, first: seq<Action>, second: seq<Action>)
    requires Legal(m, s, first) && Legal(m, Run(m, s, first), second)
    ensures Legal(m, s, first + second)
    ensures Run(m, s, first + second) == Run(m, Run(m, s, first), second)
    decreases |first|
  {
    hide Enabled, Next;
    if first == [] {
      assert first + second == second;
    } else {
      assert (first + second)[1..] == first[1..] + second;
      Concat(m, Next(m, s, first[0]), first[1..], second);
    }
  }

  // ----- From task 1 to the signal -----

  /** Task 1 has detected, or still can if `raw` is at or above 4 g. */
  ghost predicate CanSignal(m: D.Trig, t1: Sensing, raw: RawSample) {
    match t1.pc
    case Sampling => D.AboveImpact(m, Physical(raw))
    case Analysing => Task1.Detects(m, t1.samples) || D.AboveImpact(m, Physical(raw))
    case Freezing => true
    case Signalling => true
    case Ended(_) => false
  }

  function Move1(t1: Sensing, raw: RawSample): Action1 {
    match t1.pc
    case Sampling =>
      var n := |t1.samples|;
      WriteSample(raw.(timestampNs := if n == 0 then 1 else t1.samples[n - 1].timestampNs))
    case Analysing => Analyse(false)
    case Freezing => Freeze(false)
    case _ => Kill(false)
  }

  /** The impact counter reaches 1, then 2, unless the detector fires before. */
  ghost function Stage1(m: D.Trig, t1: Sensing): nat {
    match t1.pc
    case Sampling => if t1.tracker.detector.impact.samples == 0 then 5 else 3
    case Analysing =>
      if t1.samples == [] || Task1.Detects(m, t1.samples) then 2
      else if D.AboveImpact(m, Physical(t1.samples[|t1.samples| - 1])) then 4 else 6
    case Freezing => 1
    case Signalling => 0
    case Ended(_) => 0
  }

  /** What task 1 leaves alone. */
  predicate OnlyTask1(s: System, s': System) {
    s'.t2 == s.t2 && s'.mailbox == s.mailbox && s'.t3 == s.t3 && s'.cam == s.cam
  }

  /** The detector's answer on the sample in hand. */
  lemma AnalysisSettles(m: D.Trig, s: System)
    requires SensorOk(m, s.t1, s.latencyStart, s.detection) && s.t1.pc.Analysing?
    ensures s.t1.samples != []
    ensures var s' := Analysed(m, s, false);
      if Task1.Detects(m, s.t1.samples) then s'.t1.pc.Freezing?
      else s'.t1.pc.Sampling? && Stage1(m, s'.t1) < Stage1(m, s.t1)
  {
    hide Task1.LatencyStart, Task1.Track, D.AboveImpact, D.AboveRollover;
    var samples := s.t1.samples;
    var before, raw := samples[..|samples| - 1], samples[|samples| - 1];
    assert before + [raw] == samples;
    Task1.Append(m, before, raw, Task1.EventOf(m, s.t1.tracker, raw), Task1.Observe(m, s.t1.tracker, raw));
    Task1.QuietCounters(m, before);
  }

  /** A sample at or above 4 g, with the counter at 1, detects. */
  lemma SecondStrikeDetects(m: D.Trig, before: seq<RawSample>, raw: RawSample)
    requires Task1.Quiet(m, before) && D.AboveImpact(m, Physical(raw))
    requires 0 < Task1.Track(m, before).detector.impact.samples
    ensures Task1.Detects(m, before + [raw])
  {
    hide Task1.Track, D.AboveImpact, D.AboveRollover;
    var t := Task1.Track(m, before);
    Task1.Append(m, before, raw, Task1.EventOf(m, t, raw), Task1.Observe(m, t, raw));
    Task1.QuietCounters(m, before);
    assert (before + [raw])[..|before|] == before;
  }

  /** One more sample at or above 4 g, stamped like the one before. */
  lemma StrikeMoves(m: D.Trig, s: System, raw: RawSample)
    requires SensorOk(m, s.t1, s.latencyStart, s.detection) && s.t1.pc.Sampling? && D.AboveImpact(m, Physical(raw))
    ensures var s' := s.t1.(pc := Analysing, samples := s.t1.samples + [raw]);
      CanSignal(m, s', raw) && Stage1(m, s') < Stage1(m, s.t1)
  {
    hide Task1.Track, Task1.Quiet, D.AboveImpact, Task1.Detects;
    if 0 < s.t1.tracker.detector.impact.samples { SecondStrikeDetects(m, s.t1.samples, raw); }
  }

  lemma CanWrite(s: System, raw: RawSample)
    requires ClockOk(s.t1.samples, s.cam.now) && R.WellFormed(s.ring) && s.t1.pc.Sampling?
    ensures Enabled1(s, Move1(s.t1, raw))
  {}

  lemma WriteMoves(m: D.Trig, s: System, raw: RawSample)
    requires SensorOk(m, s.t1, s.latencyStart, s.detection) && s.t1.pc.Sampling? && D.AboveImpact(m, Physical(raw))
    requires Enabled1(s, Move1(s.t1, raw))
    ensures var s' := Next1(m, s, Move1(s.t1, raw));
      CanSignal(m, s'.t1, raw) && Stage1(m, s'.t1) < Stage1(m, s.t1)
  {
    hide SensorOk, Stage1, R.Step, D.AboveImpact, Task1.Detects;
    var stamped := Move1(s.t1, raw).raw;
    SameSize(m, raw, stamped);
    StrikeMoves(m, s, stamped);
  }

  lemma AnalyseMoves(m: D.Trig, s: System, raw: RawSample)
    requires SensorOk(m, s.t1, s.latencyStart, s.detection) && s.t1.pc.Analysing? && CanSignal(m, s.t1, raw)
    ensures Enabled1(s, Analyse(false))
    ensures var s' := Next1(m, s, Analyse(false));
      CanSignal(m, s'.t1, raw) && Stage1(m, s'.t1) < Stage1(m, s.t1)
  {
    AnalysisSettles(m, s);
    hide SensorOk, Analysed, D.AboveImpact, Task1.Detects;
  }

  lemma Task1CanMove(m: D.Trig, cap: nat, s: System, raw: RawSample)
    requires Inv(m, cap, s) && CanSignal(m, s.t1, raw) && !s.t1.pc.Signalling?
    ensures Enabled1(s, Move1(s.t1, raw))
    ensures var s' := Next1(m, s, Move1(s.t1, raw));
      CanSignal(m, s'.t1, raw) && Stage1(m, s'.t1) < Stage1(m, s.t1)
  {
    assert SensorOk(m, s.t1, s.latencyStart, s.detection) && ClockOk(s.t1.samples, s.cam.now);
    assert R.WellFormed(s.ring);
    hide Inv, SensorOk, ClockOk, R.WellFormed, R.Step, D.AboveImpact, Task1.Detects;
    match s.t1.pc
    case Sampling =>
      CanWrite(s, raw);
      hide Next1, Enabled1, Stage1;
      WriteMoves(m, s, raw);
    case Analysing => AnalyseMoves(m, s, raw);
    case Freezing =>
  }

  lemma SameSize(m: D.Trig, raw: RawSample, stamped: RawSample)
    requires raw.accel == stamped.accel
    ensures D.AboveImpact(m, Physical(raw)) == D.AboveImpact(m, Physical(stamped))
  {}

  lemma Task1Alone(m: D.Trig, cap: nat, s: System, a: Action1)
    requires Inv(m, cap, s) && Enabled1(s, a)
    ensures Enabled(s, By1(a)) && Next(m, s, By1(a)) == Next1(m, s, a)
    ensures Inv(m, cap, Next1(m, s, a)) && OnlyTask1(s, Next1(m, s, a))
  {
    assert GatesOk(s);
    hide Inv, GatesOk, Next1, Enabled1;
    Task1Keeps(m, cap, s, a);
    GatesStep1(m, s, a);
  }

  lemma KillSignals(m: D.Trig, s: System)
    requires s.t1.pc.Signalling?
    ensures Enabled1(s, Kill(false)) && Next1(m, s, Kill(false)).signal
  {}

  /** Task 1 alone can bring the signal. */
  lemma ReachSignal(m: D.Trig, cap: nat, s: System, raw: RawSample) returns (rest: seq<Action>)
    requires Inv(m, cap, s) && CanSignal(m, s.t1, raw)
    ensures Legal(m, s, rest) && Inv(m, cap, Run(m, s, rest))
    ensures OnlyTask1(s, Run(m, s, rest)) && Run(m, s, rest).signal
    decreases Stage1(m, s.t1)
  {
    hide Inv, Next, Enabled, CanSignal, Stage1, Next1, Enabled1, Move1;
    if s.t1.pc.Signalling? {
      KillSignals(m, s);
      Task1Alone(m, cap, s, Kill(false));
      rest := [By1(Kill(false))];
      Prepend(m, s, By1(Kill(false)), []);
    } else {
      var a := By1(Move1(s.t1, raw));
      Task1CanMove(m, cap, s, raw);
      Task1Alone(m, cap, s, a.a1);
      var more := ReachSignal(m, cap, Next(m, s, a), raw);
      Prepend(m, s, a, more);
      rest := [a] + more;
    }
  }

  // ----- From the signal to the end of the save -----

  /** The signal is pending or was taken, and task 3 has not given up. */
  predicate OnTheWay(s: System) {
    && s.t3.pc != Unlocking(false) && s.t3.pc != Finished(false)
    && !s.t2.pc.GaveUp? && (s.t2.pc.AwaitingSignal? ==> s.signal)
  }

  function Stage2(pc: Pc2): nat {
    match pc
    case AwaitingSignal => 4
    case Calling => 3
    case InCall => 2
    case Posting => 1
    case Posted => 0
    case GaveUp => 0
  }

  function Stage3(pc: Pc3): nat {
    match pc
    case AwaitingData => 8
    case Locking => 7
    case Snapshotting => 6
    case CopyingOut => 5
    case SavingTelemetry => 4
    case SavingImage => 3
    case SavingPreview => 2
    case Unlocking(_) => 1
    case Finished(_) => 0
  }

  function BytesLeft(t3: Storing): nat {
    if |t3.imageFile| < t3.image.size then t3.image.size - |t3.imageFile| else 0
  }

  predicate Closer(s': System, s: System) {
    || Stage2(s'.t2.pc) < Stage2(s.t2.pc)
    || (Stage2(s'.t2.pc) == Stage2(s.t2.pc) && Stage3(s'.t3.pc) < Stage3(s.t3.pc))
    || (Stage2(s'.t2.pc) == Stage2(s.t2.pc) && Stage3(s'.t3.pc) == Stage3(s.t3.pc)
        && BytesLeft(s'.t3) < BytesLeft(s.t3))
  }

  /** Every write works. */
  const FREE_DISK := Stdio.Io(true, i => [], true, 0, true)

  function Move2(pc: Pc2): Action2 {
    match pc
    case AwaitingSignal => TakeSignal
    case Calling => EnterSnapshot(true)
    case InCall => LeaveWait(TimedOut)
    case _ => Post
  }

  function Move3(t3: Storing): Action3 {
    match t3.pc
    case AwaitingData => TakeMail
    case Locking => LockRing(false)
    case Snapshotting => SnapshotRing
    case CopyingOut => CopyRing
    case SavingTelemetry => SaveTelemetry(Telemetry.NO_FLOATS, FREE_DISK)
    case SavingImage => if HasImage(t3) && |t3.imageFile| < t3.image.size then SaveByte else ImageDone
    case SavingPreview => PreviewDone(false)
    case _ => UnlockRing(false)
  }

  lemma Task2CanMove(s: System)
    requires ClientOk(s.t2, s.cam, true) && OnTheWay(s) && !s.t2.pc.Posted?
    ensures Enabled2(s, Move2(s.t2.pc))
    ensures Stage2(Next2(s, Move2(s.t2.pc)).t2.pc) < Stage2(s.t2.pc)
    ensures !Next2(s, Move2(s.t2.pc)).t2.pc.GaveUp? && !Next2(s, Move2(s.t2.pc)).t2.pc.AwaitingSignal?
  {
    hide CI.Inv;
    match s.t2.pc
    case AwaitingSignal =>
    case Calling =>
    case InCall =>
    case Posting =>
  }

  /** The ring can be locked and read, and the image, while it is saved, can be read. */
  ghost predicate Unblocked(s: System) {
    && R.WellFormed(s.ring) && s.mailbox.ready
    && (s.t3.pc.SavingImage? && HasImage(s.t3) ==>
          |s.t3.imageFile| <= s.t3.image.size && s.t3.image.size <= |s.cam.memory|)
  }

  lemma InvUnblocks(m: D.Trig, cap: nat, s: System)
    requires Inv(m, cap, s) && OnTheWay(s) && s.t2.pc.Posted? && !s.t3.pc.Finished?
    ensures Unblocked(s)
  {
    assert GatesOk(s) && ClientOk(s.t2, s.cam, true) && SavedImageOk(s.t3, s.cam);
    assert R.WellFormed(s.ring);
    hide Inv, ClientOk, PreviewOf, R.WellFormed;
    if s.t2.captured { MemoryIsFrame(s); }
  }

  lemma Task3Moves(s: System)
    requires Unblocked(s) && OnTheWay(s) && s.t2.pc.Posted? && !s.t3.pc.Finished?
    ensures Enabled3(s, Move3(s.t3)) && Closer(Next3(s, Move3(s.t3)), s)
    ensures OnTheWay(Next3(s, Move3(s.t3)))
  {
    hide R.Entries, R.Step, Telemetry.Texts, Stdio.Complete, Stdio.Written, CanPreview;
    match s.t3.pc
    case AwaitingData =>
    case Locking =>
    case Snapshotting =>
    case CopyingOut =>
    case SavingTelemetry =>
    case SavingImage =>
    case SavingPreview =>
    case Unlocking(_) =>
  }

  function Move(s: System): Action {
    if s.t2.pc.Posted? then By3(Move3(s.t3)) else By2(Move2(s.t2.pc))
  }

  lemma CanMove(m: D.Trig, cap: nat, s: System)
    requires Inv(m, cap, s) && OnTheWay(s) && !s.t3.pc.Finished?
    ensures Enabled(s, Move(s)) && OnTheWay(Next(m, s, Move(s))) && Closer(Next(m, s, Move(s)), s)
  {
    hide SensorOk, ClockOk, RingOk, ClientOk, TelemetryOk, SavedImageOk;
    if s.t2.pc.Posted? {
      InvUnblocks(m, cap, s);
      hide Inv;
      Task3Moves(s);
    } else {
      Task2CanMove(s);
      GatesStep2(s, Move2(s.t2.pc));
    }
  }

  lemma CompletionFrom(m: D.Trig, cap: nat, s: System) returns (rest: seq<Action>)
    requires Inv(m, cap, s) && OnTheWay(s)
    ensures Legal(m, s, rest) && Run(m, s, rest).t3.pc == Finished(true)
    decreases Stage2(s.t2.pc), Stage3(s.t3.pc), BytesLeft(s.t3)
  {
    hide Inv, Next, Enabled, Move;
    if s.t3.pc.Finished? {
      rest := [];
    } else {
      CanMove(m, cap, s);
      StepKeepsInv(m, cap, s, Move(s));
      var more := CompletionFrom(m, cap, Next(m, s, Move(s)));
      Prepend(m, s, Move(s), more);
      rest := [Move(s)] + more;
    }
  }

  /** Task 2 has not given up, and if it still waits task 1 has sent the signal, by
      one of the run's actions, or can send it. */
  ghost predicate SignalCanCome(m: D.Trig, s: System, actions: seq<Action>, raw: RawSample)
    requires Legal(m, s, actions)
  {
    var s' := Run(m, s, actions);
    && !s'.t2.pc.GaveUp?
    && (s'.t2.pc.AwaitingSignal? ==> PH.KILLED in actions || CanSignal(m, s'.t1, raw))
  }

  /** Task 1 sends the signal, unless it has. */
  lemma Approach(m: D.Trig, cap: nat, s: System, actions: seq<Action>, raw: RawSample) returns (rest: seq<Action>)
    requires Starts(s, cap) && Legal(m, s, actions) && SignalCanCome(m, s, actions, raw)
    ensures var s' := Run(m, s, actions);
      && Legal(m, s', rest) && Inv(m, cap, Run(m, s', rest)) && OnlyTask1(s', Run(m, s', rest))
      && (s'.t2.pc.AwaitingSignal? ==> Run(m, s', rest).signal)
  {
    hide Inv, CanSignal;
    StartOk(m, cap, s);
    RunKeepsInv(m, cap, s, actions);
    PH.WakesOnlyBySignal(m, cap, s, actions);
    var s' := Run(m, s, actions);
    rest := [];
    if s'.t2.pc.AwaitingSignal? && PH.KILLED !in actions { rest := ReachSignal(m, cap, s', raw); }
  }

  /** The save has succeeded, on what task 1 reported. */
  ghost predicate SavedReport(m: D.Trig, s: System) {
    s.t3.pc == Finished(true) && Task1.Reported(m, s.t1.samples, s.latencyStart, s.t3.detection)
  }

  lemma FinishedReport(m: D.Trig, cap: nat, s: System)
    requires Inv(m, cap, s) && s.t3.pc == Finished(true)
    ensures SavedReport(m, s)
  {
    hide ClockOk, RingOk, ClientOk, TelemetryOk, SavedImageOk, Task1.Reported;
  }

  /** From every reachable state in which neither task 2 nor task 3 has given up, some
      continuation detects, wakes task 2 and ends with the data saved: if task 1 is
      still sampling, as soon as there is a raw sample at or above 4 g; if it has
      detected, whatever comes. */
  lemma SavingStaysPossible(m: D.Trig, cap: nat, s: System, actions: seq<Action>, raw: RawSample)
    requires Starts(s, cap) && Legal(m, s, actions) && SignalCanCome(m, s, actions, raw)
    requires Run(m, s, actions).t3.pc != Unlocking(false) && Run(m, s, actions).t3.pc != Finished(false)
    ensures exists rest :: Legal(m, Run(m, s, actions), rest)
                           && SavedReport(m, Run(m, Run(m, s, actions), rest))
  {
    hide Inv, CanSignal, SavedReport;
    var s' := Run(m, s, actions);
    var first := Approach(m, cap, s, actions, raw);
    var s1 := Run(m, s', first);
    var more := CompletionFrom(m, cap, s1);
    RunKeepsInv(m, cap, s1, more);
    FinishedReport(m, cap, Run(m, s1, more));
    Concat(m, s', first, more);
  }
}
