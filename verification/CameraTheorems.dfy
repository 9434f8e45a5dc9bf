/** What the invariant means to the snapshot's callers, to the driver and to the
    owner of the camera, over all runs. */
module CameraTheorems {
  import opened CaptureControl
  import opened Camera
  import opened CameraInvariant

  // ----- What each kind of step leaves alone -----

  lemma DriverFrame(s: State, a: DriverAction)
    requires DriverEnabled(s, a)
    ensures var s' := DriverNext(s, a);
      && s'.flags == s.flags && s'.thread == s.thread && s'.callers == s.callers
      && s'.frames == s.frames && s'.tally == s.tally && s'.consumed == s.consumed
      && s'.started == s.started && s'.releases == s.releases && |s'.buffers| == |s.buffers|
      && s'.phase == s.phase && s'.memory == s.memory && s'.mapped == s.mapped
  {}

  lemma ThreadFrame(s: State, a: ThreadAction)
    requires ThreadEnabled(s, a)
    ensures var s' := ThreadNext(s, a);
      s'.callers == s.callers && s.frames <= s'.frames && |s'.buffers| == |s.buffers|
  {
    match a
    case Dequeue(_) =>
    case Stamp(_) =>
    case CopyByte =>
    case PublishCopy(_) =>
    case Report =>
    case Requeue =>
    case RequeueFails(_) =>
    case _ =>
  }

  lemma ThreadPhaseFrame(s: State, a: ThreadAction)
    requires ThreadEnabled(s, a)
    ensures var s' := ThreadNext(s, a);
      && s'.consumed == s.consumed && s'.started == s.started && s'.phase == s.phase
      && s'.releases == s.releases
  {
    match a
    case Dequeue(_) =>
    case Stamp(_) =>
    case CopyByte =>
    case PublishCopy(_) =>
    case Report =>
    case Requeue =>
    case RequeueFails(_) =>
    case _ =>
  }

  lemma ThreadFlagsFrame(s: State, a: ThreadAction)
    requires ThreadEnabled(s, a)
    ensures var s' := ThreadNext(s, a);
      && s'.tally.accepted == s.tally.accepted && s'.flags.stop == s.flags.stop
      && (!s.flags.requested ==> s'.tally == s.tally && s'.flags == s.flags)
  {
    match a
    case Dequeue(_) =>
    case Stamp(_) =>
    case CopyByte =>
    case PublishCopy(_) =>
    case Report =>
    case Requeue =>
    case RequeueFails(_) =>
    case _ =>
  }

  lemma CallFrame(s: State, a: CallAction)
    requires CallEnabled(s, a)
    ensures var s' := CallNext(s, a);
      && s'.thread == s.thread && s'.buffers == s.buffers && s'.frames == s.frames
      && s'.memory == s.memory && s'.mapped == s.mapped && s'.releases == s.releases
      && |s'.callers| == |s.callers|
  {
    match a
    case Enter(_, _) =>
    case Return(_, w) =>
      if ResumeOutcome(s.flags, w).Captured? {
      } else {
      }
  }

  lemma CallPhaseFrame(s: State, a: CallAction)
    requires CallEnabled(s, a)
    ensures var s' := CallNext(s, a);
      && s'.started == s.started && s'.phase == s.phase && s'.flags.stop == s.flags.stop
      && s'.tally.delivered == s.tally.delivered
  {
    match a
    case Enter(_, _) =>
    case Return(_, w) =>
      if ResumeOutcome(s.flags, w).Captured? {
      } else {
      }
  }

  lemma CallerFrame(s: State, a: CallAction)
    requires CallEnabled(s, a)
    ensures var s' := CallNext(s, a);
      && s'.callers == s.callers[a.i := s'.callers[a.i]]
      && (a.Return? ==> s'.tally.accepted == s.tally.accepted)
      && (a.Enter? ==> !s'.callers[a.i].Holding? && s'.consumed == s.consumed)
      && (a.Return? && !s.flags.ready ==> !s'.callers[a.i].Holding? && s'.consumed == s.consumed)
      && (s'.callers[a.i].Holding? ==> s'.callers[a.i].accepts == s'.tally.accepted)
  {
    match a
    case Enter(_, _) =>
    case Return(_, w) =>
      if ResumeOutcome(s.flags, w).Captured? {
      } else {
      }
  }

  lemma OwnerFrame(s: State, a: OwnerAction)
    requires OwnerEnabled(s, a)
    ensures var s' := OwnerNext(s, a);
      && s'.callers == s.callers && s'.frames == s.frames && s'.consumed == s.consumed
      && s'.tally.accepted == s.tally.accepted && s'.tally.delivered == s.tally.delivered
      && (a.DeinitStop? || a.DeinitJoin? || a.DeinitReset? ==>
          s'.memory == s.memory && s'.mapped == s.mapped && s'.releases == s.releases)
      && (!a.Initialise? && !a.DeinitRelease? ==> s'.buffers == s.buffers)
      && (!a.Initialise? && !a.DeinitJoin? ==> s'.thread == s.thread && s'.started == s.started)
      && (a.DeinitJoin? ==> !s'.started)
  {}

  // ----- Handshake and conservation -----

  /** After any run, with any number of callers: at most one of requested, ready and
      error is up, every accepted request is accounted for exactly once, and the
      consumed deliveries are distinct. */
  lemma HandshakeIsConserved(callers: nat, now: nat, actions: seq<Action>)
    requires Legal(Boot(callers, now), actions)
    ensures var s := Run(Boot(callers, now), actions);
      && !(s.flags.requested && s.flags.ready)
      && !(s.flags.requested && s.flags.error != 0)
      && !(s.flags.ready && s.flags.error != 0)
      && s.tally.accepted == s.tally.delivered + s.tally.failed + s.tally.withdrawn
                             + (if s.flags.requested then 1 else 0)
      && Increasing(s.consumed) && |s.consumed| <= s.tally.delivered
  {
    BootOk(callers, now);
    RunKeepsInv(Boot(callers, now), actions);
    var s := Run(Boot(callers, now), actions);
    forall n | n in s.consumed ensures 0 < n <= s.tally.delivered {}
    IncreasingIsShort(s.consumed, s.tally.delivered);
  }

  lemma {:induction false} IncreasingIsShort(s: seq<nat>, bound: nat)
    requires Increasing(s) && forall n :: n in s ==> 0 < n <= bound
    ensures |s| <= bound
    decreases bound
  {
    if s != [] {
      var init, last := s[..|s| - 1], s[|s| - 1];
      assert last in s;
      forall n | n in init ensures 0 < n <= last - 1 {
        var i :| 0 <= i < |init| && s[i] == n;
        assert s[i] in s;
      }
      IncreasingIsShort(init, last - 1);
    }
  }

  /** An image is only handed to a call that entered before it was published, and
      that hand-over consumes a delivery nobody consumed before; so a `ready` left
      behind by a call that timed out never reaches a later call. */
  lemma HandOverIsFresh(s: State, i: nat, w: Wait)
    requires Inv(s) && CallEnabled(s, Return(i, w)) && ResumeOutcome(s.flags, w).Captured?
    ensures var s' := CallNext(s, Return(i, w));
      && s'.callers[i].Holding?
      && s'.callers[i].delivery == s.last && s.last.number !in s.consumed
      && s'.consumed == s.consumed + [s.last.number]
      && s.callers[i].since < s.last.at
  {
    assert CallerOrderOk(s, s.callers[i]) by { assert s.callers[i] in s.callers; }
  }

  // ----- Image integrity -----

  /** A snapshot that succeeds hands over exactly one dequeued frame, untorn. */
  lemma SnapshotIsOneFrame(s: State, i: nat, w: Wait)
    requires Inv(s) && CallEnabled(s, Return(i, w)) && ResumeOutcome(s.flags, w).Captured?
    ensures var s' := CallNext(s, Return(i, w));
      && s'.callers[i].Holding?
      && Undisturbed(s', s'.callers[i])
      && Contains(s', s'.callers[i].image.size, s'.callers[i].delivery.frame)
      && !s'.flags.requested && !InFlight(s'.thread)
  {
    CallKeeps(s, Return(i, w));
    var s' := CallNext(s, Return(i, w));
    assert HolderOk(s', s'.callers[i]) by { assert s'.callers[i] in s'.callers; }
  }

  lemma {:induction false} FramesGrow(s: State, actions: seq<Action>)
    requires Legal(s, actions)
    ensures s.frames <= Run(s, actions).frames && |Run(s, actions).callers| == |s.callers|
    decreases |actions|
  {
    if actions != [] {
      FramesGrowStep(s, actions[0]);
      FramesGrow(Next(s, actions[0]), actions[1..]);
    }
  }

  lemma FramesGrowStep(s: State, a: Action)
    requires Enabled(s, a)
    ensures s.frames <= Next(s, a).frames && |Next(s, a).callers| == |s.callers|
  {
    match a
    case ByDriver(d) => DriverFrame(s, d);
    case ByThread(t) => ThreadFrame(s, t); ThreadPhaseFrame(s, t); ThreadFlagsFrame(s, t);
    case ByCaller(c) => CallFrame(s, c); CallPhaseFrame(s, c); CallerFrame(s, c);
    case ByOwner(o) => OwnerFrame(s, o);
  }

  /** Nothing is requested, being copied or about to be unmapped. */
  ghost predicate AtRest(s: State) {
    FlagsOk(s) && !s.flags.requested && !InFlight(s.thread) && s.mapped
  }

  lemma CountersGrow(s: State, a: Action)
    requires Enabled(s, a)
    ensures s.tally.accepted <= Next(s, a).tally.accepted && s.releases <= Next(s, a).releases
  {
    match a
    case ByDriver(d) => DriverFrame(s, d);
    case ByThread(t) => ThreadPhaseFrame(s, t); ThreadFlagsFrame(s, t);
    case ByCaller(c) =>
    case ByOwner(o) => OwnerFrame(s, o);
  }

  lemma {:induction false} CountersGrowOverRuns(s: State, actions: seq<Action>)
    requires Legal(s, actions)
    ensures s.tally.accepted <= Run(s, actions).tally.accepted && s.releases <= Run(s, actions).releases
    decreases |actions|
  {
    hide Next, Enabled;
    if actions != [] {
      CountersGrow(s, actions[0]);
      CountersGrowOverRuns(Next(s, actions[0]), actions[1..]);
    }
  }

  lemma ThreadRests(s: State, a: ThreadAction)
    requires AtRest(s) && ThreadEnabled(s, a)
    ensures !InFlight(ThreadNext(s, a).thread) && ThreadNext(s, a).memory == s.memory
    ensures ThreadNext(s, a).mapped == s.mapped && !ThreadNext(s, a).flags.requested
  {
    match a
    case Dequeue(_) =>
    case Stamp(_) =>
    case CopyByte =>
    case PublishCopy(_) =>
    case Report =>
    case Requeue =>
    case RequeueFails(_) =>
    case _ =>
  }

  lemma CallRests(s: State, a: CallAction)
    requires AtRest(s) && CallEnabled(s, a) && CallNext(s, a).tally.accepted == s.tally.accepted
    ensures !CallNext(s, a).flags.requested
  {
    match a
    case Enter(_, _) =>
    case Return(_, w) =>
      if ResumeOutcome(s.flags, w).Captured? {
      } else {
      }
  }

  lemma RestStep(s: State, a: Action)
    requires Inv(s) && AtRest(s) && Enabled(s, a)
    requires Next(s, a).tally.accepted == s.tally.accepted && Next(s, a).releases == s.releases
    ensures AtRest(Next(s, a)) && Next(s, a).memory == s.memory
  {
    StepKeepsInv(s, a);
    assert FlagsOk(Next(s, a));
    hide Inv;
    match a
    case ByDriver(d) => DriverFrame(s, d);
    case ByThread(t) => ThreadRests(s, t);
    case ByCaller(c) => CallFrame(s, c); CallRests(s, c);
    case ByOwner(o) => OwnerFrame(s, o);
  }

  lemma {:induction false} RestRun(s: State, actions: seq<Action>)
    requires Inv(s) && AtRest(s) && Legal(s, actions)
    requires Run(s, actions).tally.accepted == s.tally.accepted && Run(s, actions).releases == s.releases
    ensures AtRest(Run(s, actions)) && Run(s, actions).memory == s.memory
    decreases |actions|
  {
    hide Inv, AtRest, Next, Enabled;
    if actions != [] {
      var s1 := Next(s, actions[0]);
      CountersGrow(s, actions[0]);
      CountersGrowOverRuns(s1, actions[1..]);
      RestStep(s, actions[0]);
      StepKeepsInv(s, actions[0]);
      RestRun(s1, actions[1..]);
    }
  }

  /** Whatever happens next, as long as no request is accepted and the memory is not
      released, nothing writes the secure memory: it keeps the frame that was handed
      over. */
  lemma ImageStaysIntact(s: State, actions: seq<Action>, i: nat)
    requires Inv(s) && Legal(s, actions) && i < |s.callers|
    requires s.callers[i].Holding? && Undisturbed(s, s.callers[i])
    requires Run(s, actions).tally.accepted == s.tally.accepted && Run(s, actions).releases == s.releases
    ensures Run(s, actions).memory == s.memory
    ensures Contains(Run(s, actions), s.callers[i].image.size, s.callers[i].delivery.frame)
  {
    assert HolderOk(s, s.callers[i]) by { assert s.callers[i] in s.callers; }
    RestRun(s, actions);
    FramesGrow(s, actions);
  }

  /** With a single client, as the camera task is, nobody else can disturb the image
      it holds: only its own next call or the release of the memory does. */
  ghost predicate SoleClient(s: State) {
    |s.callers| == 1 && (s.callers[0].Holding? ==> s.callers[0].accepts == s.tally.accepted)
  }

  lemma SoleClientStep(s: State, a: Action)
    requires SoleClient(s) && Enabled(s, a)
    ensures SoleClient(Next(s, a))
  {
    match a
    case ByDriver(d) => DriverFrame(s, d);
    case ByThread(t) => ThreadFrame(s, t); ThreadPhaseFrame(s, t); ThreadFlagsFrame(s, t);
    case ByCaller(c) => CallFrame(s, c); CallPhaseFrame(s, c); CallerFrame(s, c);
    case ByOwner(o) => OwnerFrame(s, o);
  }

  lemma {:induction false} SoleClientRun(s: State, actions: seq<Action>)
    requires SoleClient(s) && Legal(s, actions)
    ensures SoleClient(Run(s, actions))
    decreases |actions|
  {
    if actions != [] {
      SoleClientStep(s, actions[0]);
      SoleClientRun(Next(s, actions[0]), actions[1..]);
    }
  }

  lemma SoleClientReadsLiveMemory(now: nat, actions: seq<Action>)
    requires Legal(Boot(1, now), actions)
    ensures var s := Run(Boot(1, now), actions);
      |s.callers| == 1 &&
      var c := s.callers[0];
      c.Holding? && c.releases == s.releases ==>
        Contains(s, c.image.size, c.delivery.frame) && !InFlight(s.thread)
  {
    BootOk(1, now);
    RunKeepsInv(Boot(1, now), actions);
    SoleClientRun(Boot(1, now), actions);
    var s := Run(Boot(1, now), actions);
    assert HolderOk(s, s.callers[0]) by { assert s.callers[0] in s.callers; }
  }

  // ----- Latency and freshness -----

  /** When the thread begins a copy after a call entered, the first-byte timestamp
      is no earlier than the call; it is no later exactly when the delivered copy was
      already in flight at entry. */
  lemma FreshIffNotPending(s: State, i: nat)
    requires Inv(s) && !s.clockFailed && i < |s.callers| && s.callers[i].Holding?
    ensures var c := s.callers[i];
      && (c.delivery.began < c.since <==> c.pending == [c.delivery.began])
      && (c.pending != [c.delivery.began] ==> c.time <= c.image.firstByteNs)
      && (c.pending == [c.delivery.began] ==> c.image.firstByteNs <= c.time)
  {
    assert CallerTimeOk(s, s.callers[i]) by { assert s.callers[i] in s.callers; }
  }

  /** A copy can only be in flight at entry if an earlier request since init was
      withdrawn; in particular not for the first call after init. */
  lemma PendingNeedsWithdrawal(s: State, i: nat, clockWorks: bool)
    requires Inv(s) && CallEnabled(s, Enter(i, clockWorks))
    requires BeginOutcome(s.flags, s.started, clockWorks).Waits?
    ensures var c := CallNext(s, Enter(i, clockWorks)).callers[i];
      && c.Waiting? && c.time == s.now && c.since == s.steps
      && (!s.anyWithdrawn || s.firstAccept == [] ==> c.pending == [])
  {}

  // ----- Shutdown -----

  ghost predicate NoInit(actions: seq<Action>) {
    forall a :: a in actions ==> !(a.ByOwner? && a.owner.Initialise?)
  }

  lemma ClosedStep(s: State, a: Action)
    requires FlagsOk(s) && Closed(s) && Enabled(s, a) && !(a.ByOwner? && a.owner.Initialise?)
    ensures var s' := Next(s, a);
      && Closed(s') && s'.tally.delivered == s.tally.delivered && s'.consumed == s.consumed
      && |s'.callers| == |s.callers|
      && (forall i :: 0 <= i < |s.callers| && s'.callers[i] != s.callers[i] ==> !s'.callers[i].Holding?)
  {
    match a
    case ByDriver(d) => DriverFrame(s, d);
    case ByThread(t) => ThreadFrame(s, t); ThreadPhaseFrame(s, t); ThreadFlagsFrame(s, t);
    case ByCaller(c) => CallFrame(s, c); CallPhaseFrame(s, c); CallerFrame(s, c);
    case ByOwner(o) => OwnerFrame(s, o);
  }

  /** From the moment deinit sets the stop flag until the next init, nothing is
      delivered and nobody obtains an image, whoever is waiting or enters. */
  lemma {:induction false} ShutdownDeliversNothing(s: State, actions: seq<Action>)
    requires Inv(s) && Closed(s) && Legal(s, actions) && NoInit(actions)
    ensures var s' := Run(s, actions);
      && Closed(s') && s'.tally.delivered == s.tally.delivered && s'.consumed == s.consumed
      && |s'.callers| == |s.callers|
      && (forall i :: 0 <= i < |s.callers| && s'.callers[i].Holding? ==> s'.callers[i] == s.callers[i])
    decreases |actions|
  {
    if actions != [] {
      var a, s1 := actions[0], Next(s, actions[0]);
      assert a in actions;
      ClosedStep(s, a);
      StepKeepsInv(s, a);
      assert NoInit(actions[1..]) by {
        forall b | b in actions[1..] ensures b in actions {}
      }
      ShutdownDeliversNothing(s1, actions[1..]);
    }
  }

  /** Progress of the capture thread towards its exit: stage, then bytes to copy. */
  function Stage(t: Thread): nat {
    match t
    case Absent => 0
    case Exited => 0
    case Head => 1
    case Reporting(_) => 2
    case Requeuing(_) => 3
    case ReportingHeld(_, _) => 4
    case Copying(_, _, _, _, _, _) => 5
    case Stamping(_, _, _) => 6
    case Deciding(_, _, _) => 7
    case Dequeuing => 8
    case Polling => 9
  }

  function Remaining(t: Thread): nat {
    if t.Copying? && t.done <= t.used then t.used - t.done else 0
  }

  predicate Closer(t': Thread, t: Thread) {
    Stage(t') < Stage(t) || (Stage(t') == Stage(t) && Remaining(t') < Remaining(t))
  }

  /** With the stop flag up every step of the thread brings it closer to its exit,
      so it finishes the loop body it is in and starts no other; no step of anybody
      else moves it, except the join after its exit. */
  lemma ThreadWindsDown(s: State, a: Action)
    requires Inv(s) && s.flags.stop && Enabled(s, a)
    ensures a.ByThread? ==> Closer(Next(s, a).thread, s.thread)
    ensures !a.ByThread? ==> Stage(Next(s, a).thread) == Stage(s.thread)
    ensures !a.ByThread? ==> Remaining(Next(s, a).thread) == Remaining(s.thread)
  {
    match a
    case ByDriver(d) => DriverFrame(s, d);
    case ByThread(t) => ThreadStageFalls(s, t);
    case ByCaller(c) => CallFrame(s, c);
    case ByOwner(o) => OwnerFrame(s, o);
  }

  lemma ThreadStageFalls(s: State, a: ThreadAction)
    requires s.flags.stop && ThreadEnabled(s, a)
    ensures Closer(ThreadNext(s, a).thread, s.thread)
  {
    match a
    case Dequeue(_) =>
    case Stamp(_) =>
    case CopyByte =>
    case PublishCopy(_) =>
    case Report =>
    case Requeue =>
    case RequeueFails(_) =>
    case _ =>
  }

  /** Until it has exited, the thread always has a next step (given that poll and
      the ioctls return). */
  lemma ThreadNeverStuck(s: State)
    requires Inv(s) && s.started && !s.thread.Exited?
    ensures exists t: ThreadAction :: ThreadEnabled(s, t)
  {
    var t := match s.thread
      case Head => CheckStop
      case Reporting(_) => Report
      case Requeuing(_) => Requeue
      case ReportingHeld(_, _) => Report
      case Copying(_, used, _, done, _, _) => if done < used then CopyByte else PublishCopy(0)
      case Stamping(_, _, _) => Stamp(true)
      case Deciding(_, _, _) => Decide
      case Dequeuing => DequeueAgain
      case _ => PollIdle;
    assert ThreadEnabled(s, t);
  }

  // ----- Buffer ownership -----

  function CountIf(buffers: seq<Buffer>, p: Owner -> bool): nat {
    if buffers == [] then 0
    else CountIf(buffers[..|buffers| - 1], p) + if p(buffers[|buffers| - 1].owner) then 1 else 0
  }

  function IsQueued(): Owner -> bool { (o: Owner) => o.Queued? }
  function IsFilled(): Owner -> bool { (o: Owner) => o.Filled? }
  function IsHeld(): Owner -> bool { (o: Owner) => o.Held? }

  lemma {:induction false} OwnersPartition(buffers: seq<Buffer>)
    ensures CountIf(buffers, IsQueued()) + CountIf(buffers, IsFilled())
          + CountIf(buffers, IsHeld()) + LostCount(buffers) == |buffers|
  {
    if buffers != [] { OwnersPartition(buffers[..|buffers| - 1]); }
  }

  lemma {:induction false} HeldIsUnique(buffers: seq<Buffer>, i: nat)
    requires forall j :: 0 <= j < |buffers| ==> (buffers[j].owner.Held? <==> j == i)
    ensures CountIf(buffers, IsHeld()) == if i < |buffers| then 1 else 0
  {
    if buffers != [] { HeldIsUnique(buffers[..|buffers| - 1], i); }
  }

  /** Queued, filled, held and lost buffers sum to the mapped ones; the thread holds
      one exactly while it is between a successful DQBUF and its QBUF, none at the
      loop head; the lost ones are exactly the failed QBUFs. */
  lemma BufferOwnership(s: State)
    requires Inv(s)
    ensures CountIf(s.buffers, IsQueued()) + CountIf(s.buffers, IsFilled())
          + CountIf(s.buffers, IsHeld()) + s.failedRequeues == |s.buffers|
    ensures CountIf(s.buffers, IsHeld()) == if HoldsBuffer(s.thread) then 1 else 0
    ensures s.thread.Head? ==> CountIf(s.buffers, IsHeld()) == 0
  {
    OwnersPartition(s.buffers);
    HeldIsUnique(s.buffers, if HoldsBuffer(s.thread) then s.thread.idx else |s.buffers|);
  }

  /** Only init and release change how many buffers there are. */
  lemma BufferCountIsStable(s: State, a: Action)
    requires Enabled(s, a) && !(a.ByOwner? && (a.owner.Initialise? || a.owner.DeinitRelease?))
    ensures |Next(s, a).buffers| == |s.buffers|
  {
    match a
    case ByDriver(d) => DriverFrame(s, d);
    case ByThread(t) => ThreadFrame(s, t); ThreadPhaseFrame(s, t); ThreadFlagsFrame(s, t);
    case ByCaller(c) => CallFrame(s, c); CallPhaseFrame(s, c); CallerFrame(s, c);
    case ByOwner(o) => OwnerFrame(s, o);
  }
}
