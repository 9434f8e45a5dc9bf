/** Frames already dequeued when a call enters: the code can hand one of them over,
    also to the very first call after init.  A concrete run, and exactly when this can
    happen.  Module CameraCompleted asks the same of frames the driver has completed. */
module CameraFresh {
  import opened CaptureControl
  import opened Camera
  import opened CameraInvariant
  import opened CameraTheorems
  import opened CameraContinuations

  /** The call of caller `i` that entered at step `since`, when `n` frames had been
      dequeued, was handed one of those. */
  ghost predicate GotOldFrame(s: State, i: nat, since: nat, n: nat) {
    && i < |s.callers| && s.callers[i].Holding? && s.callers[i].since == since
    && s.callers[i].delivery.frame < n
  }

  // ----- A run in which the first call gets an old frame -----

  /** One buffer of one byte: a frame is filled and dequeued, ... */
  const BEFORE_CALL: seq<Action> := [
    ByOwner(Initialise([Buffer(Queued, [7])], [0], Geometry(0, 0, 0, 0))),
    ByThread(CheckStop),
    ByThread(PollReady),
    ByDriver(Fills(0, 1)),
    ByThread(Dequeue(0))]

  /** ... and only then the call enters. */
  const FIRST_CALL: seq<Action> := [
    ByCaller(Enter(0, true)),
    ByThread(Decide),
    ByThread(Stamp(true)),
    ByThread(CopyByte),
    ByThread(PublishCopy(0)),
    ByCaller(Return(0, Woken))]

  /** The state in which the first call enters. */
  ghost predicate FrameInHand(s: State) {
    && s.thread == Deciding(0, 1, 0) && |s.frames| == 1 && s.callers == [Idle]
    && s.started && s.flags == CLEARED && |s.memory| == 1
    && |s.buffers| == 1 && |s.buffers[0].bytes| == 1
    && s.firstAccept == [] && !s.anyWithdrawn && !s.clockFailed
  }

  ghost predicate ReachesFrame(s: State, k: nat) {
    k <= |BEFORE_CALL| && Legal(s, BEFORE_CALL[k..]) && FrameInHand(Run(s, BEFORE_CALL[k..]))
  }

  lemma BeforeCall3(s: State)
    requires s.thread.Dequeuing? && s.frames == [] && s.callers == [Idle] && s.started
    requires s.flags == CLEARED && |s.memory| == 1 && s.buffers == [Buffer(Queued, [7])]
    requires s.firstAccept == [] && !s.anyWithdrawn && !s.clockFailed
    ensures ReachesFrame(s, 3)
  {
    var s1 := Next(s, BEFORE_CALL[3]);
    assert BEFORE_CALL[5..] == [];
    StepInto(BEFORE_CALL, 4, s1);
    StepInto(BEFORE_CALL, 3, s);
  }

  lemma BeforeCall0(s: State)
    requires s == Boot(1, 5)
    ensures ReachesFrame(s, 0)
  {
    var s1 := Next(s, BEFORE_CALL[0]);
    BeforeCall1(s1);
    StepInto(BEFORE_CALL, 0, s);
  }

  lemma BeforeCall1(s: State)
    requires s == Next(Boot(1, 5), BEFORE_CALL[0])
    ensures ReachesFrame(s, 1)
  {
    var s2 := Next(s, BEFORE_CALL[1]);
    BeforeCall3(Next(s2, BEFORE_CALL[2]));
    StepInto(BEFORE_CALL, 2, s2);
    StepInto(BEFORE_CALL, 1, s);
  }

  ghost predicate EndsOld(s: State, k: nat, since: nat) {
    k <= |FIRST_CALL| && Legal(s, FIRST_CALL[k..]) &&
    var s' := Run(s, FIRST_CALL[k..]);
    GotOldFrame(s', 0, since, 1) && !s'.anyWithdrawn && !s'.clockFailed
  }

  lemma EarlierCall(s: State, k: nat, since: nat)
    requires k < |FIRST_CALL| && Enabled(s, FIRST_CALL[k]) && EndsOld(Next(s, FIRST_CALL[k]), k + 1, since)
    ensures EndsOld(s, k, since)
  {
    StepInto(FIRST_CALL, k, s);
  }

  lemma FirstCall3(s: State, since: nat, time: nat, began: nat, stamp: nat)
    requires s.thread == Copying(0, 1, 0, 0, stamp, began) && s.callers == [Waiting(since, time, [])]
    requires s.flags.requested && |s.memory| == 1 && |s.buffers| == 1 && |s.buffers[0].bytes| == 1
    requires !s.anyWithdrawn && !s.clockFailed
    ensures EndsOld(s, 3, since)
  {
    var s1 := Next(s, FIRST_CALL[3]);
    var s2 := Next(s1, FIRST_CALL[4]);
    assert FIRST_CALL[6..] == [];
    EarlierCall(s2, 5, since);
    EarlierCall(s1, 4, since);
    EarlierCall(s, 3, since);
  }

  lemma FirstCall0(s: State)
    requires FrameInHand(s)
    ensures EndsOld(s, 0, s.steps)
  {
    hide EndsOld;
    var s1 := Next(s, FIRST_CALL[0]);
    var s2 := Next(s1, FIRST_CALL[1]);
    var s3 := Next(s2, FIRST_CALL[2]);
    FirstCall3(s3, s.steps, s.now, s2.steps, s2.now);
    EarlierCall(s2, 2, s.steps);
    EarlierCall(s1, 1, s.steps);
    EarlierCall(s, 0, s.steps);
  }

  /** With one client, a working clock and no withdrawn request, the first call after
      init is handed frame 0, dequeued before it. */
  lemma FirstCallCanGetOldFrame()
    ensures Legal(Boot(1, 5), BEFORE_CALL)
    ensures var s := Run(Boot(1, 5), BEFORE_CALL);
      && |s.frames| == 1 && s.firstAccept == []
      && Legal(s, FIRST_CALL)
      && var s' := Run(s, FIRST_CALL);
         GotOldFrame(s', 0, s.steps, |s.frames|) && !s'.anyWithdrawn && !s'.clockFailed
  {
    BeforeCall0(Boot(1, 5));
    assert BEFORE_CALL[0..] == BEFORE_CALL && FIRST_CALL[0..] == FIRST_CALL;
    FirstCall0(Run(Boot(1, 5), BEFORE_CALL));
  }

  // ----- Exactly when a call can get an old frame -----

  /** Whatever is being copied, ready or handed to this call is none of the first
      `n` frames. */
  ghost predicate OnlyNewFrames(s: State, i: nat, since: nat, n: nat) {
    && since < s.steps && i < |s.callers| && n <= |s.frames|
    && (HasUsableFrame(s) ==> n <= s.thread.frame)
    && (s.flags.ready ==> n <= s.last.frame)
    && !GotOldFrame(s, i, since, n)
  }

  lemma ThreadKeepsNew(s: State, a: ThreadAction, i: nat, since: nat, n: nat)
    requires ThreadOk(s) && OnlyNewFrames(s, i, since, n) && ThreadEnabled(s, a)
    ensures OnlyNewFrames(ThreadNext(s, a), i, since, n)
  {
    if a.PublishCopy? {
      PublishKeepsNew(s, a, i, since, n);
    } else {
      CarryingKeepsNew(s, a, i, since, n);
    }
  }

  lemma PublishKeepsNew(s: State, a: ThreadAction, i: nat, since: nat, n: nat)
    requires OnlyNewFrames(s, i, since, n) && ThreadEnabled(s, a) && a.PublishCopy?
    ensures OnlyNewFrames(ThreadNext(s, a), i, since, n)
  {}

  lemma CarryingKeepsNew(s: State, a: ThreadAction, i: nat, since: nat, n: nat)
    requires OnlyNewFrames(s, i, since, n) && ThreadEnabled(s, a) && !a.PublishCopy?
    ensures OnlyNewFrames(ThreadNext(s, a), i, since, n)
  {
    if a.Dequeue? || a.Stamp? || a.CopyByte? {
      FillingKeepsNew(s, a, i, since, n);
    } else {
      IdlingKeepsNew(s, a, i, since, n);
    }
  }

  lemma FillingKeepsNew(s: State, a: ThreadAction, i: nat, since: nat, n: nat)
    requires OnlyNewFrames(s, i, since, n) && ThreadEnabled(s, a)
    requires a.Dequeue? || a.Stamp? || a.CopyByte?
    ensures OnlyNewFrames(ThreadNext(s, a), i, since, n)
  {
    hide Published, Reported, Decided;
    match a
    case Dequeue(_) =>
    case Stamp(_) =>
    case CopyByte =>
  }

  /** Such a step brings no frame and no image. */
  lemma IdlingBringsNothing(s: State, a: ThreadAction)
    requires ThreadEnabled(s, a) && !a.PublishCopy? && !a.Dequeue? && !a.Stamp? && !a.CopyByte?
    ensures var s' := ThreadNext(s, a);
      && (HasUsableFrame(s') ==> HasUsableFrame(s) && s'.thread.frame == s.thread.frame)
      && (s'.flags.ready ==> s.flags.ready) && s'.last == s.last
      && s'.callers == s.callers && s'.frames == s.frames && s'.steps == s.steps + 1
  {
    hide Published;
    match a
    case Report =>
    case Requeue =>
    case RequeueFails(_) =>
    case _ =>
  }

  lemma IdlingKeepsNew(s: State, a: ThreadAction, i: nat, since: nat, n: nat)
    requires OnlyNewFrames(s, i, since, n) && ThreadEnabled(s, a)
    requires !a.PublishCopy? && !a.Dequeue? && !a.Stamp? && !a.CopyByte?
    ensures OnlyNewFrames(ThreadNext(s, a), i, since, n)
  {
    IdlingBringsNothing(s, a);
    hide HasUsableFrame, ThreadNext, ThreadEnabled;
  }

  lemma CallKeepsNew(s: State, a: CallAction, i: nat, since: nat, n: nat)
    requires OnlyNewFrames(s, i, since, n) && CallEnabled(s, a)
    ensures OnlyNewFrames(CallNext(s, a), i, since, n)
  {
    if a.Enter? {
      EnterKeepsNew(s, a, i, since, n);
    } else {
      ReturnKeepsNew(s, a, i, since, n);
    }
  }

  lemma EnterKeepsNew(s: State, a: CallAction, i: nat, since: nat, n: nat)
    requires OnlyNewFrames(s, i, since, n) && CallEnabled(s, a) && a.Enter?
    ensures OnlyNewFrames(CallNext(s, a), i, since, n)
  {}

  lemma ReturnKeepsNew(s: State, a: CallAction, i: nat, since: nat, n: nat)
    requires OnlyNewFrames(s, i, since, n) && CallEnabled(s, a) && a.Return?
    ensures OnlyNewFrames(CallNext(s, a), i, since, n)
  {
    if ResumeOutcome(s.flags, a.wait).Captured? {
    } else {
    }
  }

  lemma StepKeepsNew(s: State, a: Action, i: nat, since: nat, n: nat)
    requires Inv(s) && OnlyNewFrames(s, i, since, n) && Enabled(s, a)
    ensures OnlyNewFrames(Next(s, a), i, since, n)
  {
    match a
    case ByDriver(d) => DriverFrame(s, d);
    case ByThread(t) => ThreadKeepsNew(s, t, i, since, n);
    case ByCaller(c) => CallKeepsNew(s, c, i, since, n);
    case ByOwner(o) =>
  }

  lemma {:induction false} RunKeepsNew(s: State, actions: seq<Action>, i: nat, since: nat, n: nat)
    requires Inv(s) && OnlyNewFrames(s, i, since, n) && Legal(s, actions)
    ensures OnlyNewFrames(Run(s, actions), i, since, n)
    decreases |actions|
  {
    hide Inv, OnlyNewFrames, Next, Enabled;
    if actions != [] {
      StepKeepsNew(s, actions[0], i, since, n);
      StepKeepsInv(s, actions[0]);
      RunKeepsNew(Next(s, actions[0]), actions[1..], i, since, n);
    }
  }

  ghost predicate CanGetOldFrame(s: State, i: nat, since: nat, n: nat) {
    exists rest :: Legal(s, rest) && GotOldFrame(Run(s, rest), i, since, n)
  }

  /** In every reachable state and for every caller: a call that waits can be handed
      a frame dequeued before it, in some continuation, if and only if the thread has
      a usable frame in its hands when the call enters. */
  lemma OldFrameIffInHand(s: State, i: nat)
    requires Inv(s) && CallEnabled(s, Enter(i, true))
    requires BeginOutcome(s.flags, s.started, true).Waits?
    ensures CanGetOldFrame(CallNext(s, Enter(i, true)), i, s.steps, |s.frames|) <==> HasUsableFrame(s)
  {
    var s1 := CallNext(s, Enter(i, true));
    CallKeeps(s, Enter(i, true));
    CallFrame(s, Enter(i, true));
    if HasUsableFrame(s) {
      assert ThreadOk(s);
      var rest := FinishFrame(s1, i);
      assert GotOldFrame(Run(s1, rest), i, s.steps, |s.frames|);
    } else if CanGetOldFrame(s1, i, s.steps, |s.frames|) {
      var rest :| Legal(s1, rest) && GotOldFrame(Run(s1, rest), i, s.steps, |s.frames|);
      RunKeepsNew(s1, rest, i, s.steps, |s.frames|);
    }
  }
}
