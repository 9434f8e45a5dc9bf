/** "The NEXT fresh frame after this call", taken as a frame the driver completes
    after the call.  The code can hand over one completed before it, also to the very
    first call after init: a concrete run, and exactly when this can happen. */
module CameraCompleted {
  import opened CaptureControl
  import opened Camera
  import opened CameraInvariant
  import opened CameraTheorems
  import opened CameraContinuations

  /** The call of caller `i` that entered at step `since` was handed a frame that the
      driver had completed before. */
  ghost predicate GotEarlierFrame(s: State, i: nat, since: nat) {
    && i < |s.callers| && s.callers[i].Holding? && s.callers[i].since == since
    && s.callers[i].delivery.frame < |s.filledAt|
    && s.filledAt[s.callers[i].delivery.frame] < since
  }

  predicate UsableSize(used: nat, s: State) { 0 < used <= |s.memory| }

  /** Buffer `k` waits in the driver's done queue with a frame that would be copied. */
  predicate UsableBuffer(s: State, k: nat) {
    k < |s.buffers| && s.buffers[k].owner.Filled? && UsableSize(s.buffers[k].owner.used, s)
  }

  /** The thread's next words to a pending request will be a failure. */
  predicate AboutToFail(s: State) {
    s.thread.Reporting? || s.thread.ReportingHeld? || (s.thread.Deciding? && !UsableSize(s.thread.used, s))
  }

  // ----- A run in which the first call gets a frame completed before it -----

  const BEFORE_CALL: seq<Action> := [
    ByOwner(Initialise([Buffer(Queued, [7])], [0], Geometry(0, 0, 0, 0))),
    ByDriver(Fills(0, 1)),
    ByThread(CheckStop),
    ByThread(PollReady)]

  const FIRST_CALL: seq<Action> := [
    ByCaller(Enter(0, true)),
    ByThread(Dequeue(0)),
    ByThread(Decide),
    ByThread(Stamp(true)),
    ByThread(CopyByte),
    ByThread(PublishCopy(0)),
    ByCaller(Return(0, Woken))]

  /** The state in which the first call enters: nothing dequeued yet, but the one
      buffer is filled. */
  ghost predicate FrameWaits(s: State) {
    && s.thread.Dequeuing? && s.frames == [] && s.filledAt == [] && s.callers == [Idle]
    && s.started && s.flags == CLEARED && |s.memory| == 1
    && |s.buffers| == 1 && |s.buffers[0].bytes| == 1 && UsableBuffer(s, 0)
    && s.buffers[0].owner.at < s.steps
    && s.firstAccept == [] && !s.anyWithdrawn && !s.clockFailed
  }

  ghost predicate ReachesWaiting(s: State, k: nat) {
    k <= |BEFORE_CALL| && Legal(s, BEFORE_CALL[k..]) && FrameWaits(Run(s, BEFORE_CALL[k..]))
  }

  lemma EarlierBefore(s: State, k: nat)
    requires k < |BEFORE_CALL| && Enabled(s, BEFORE_CALL[k]) && ReachesWaiting(Next(s, BEFORE_CALL[k]), k + 1)
    ensures ReachesWaiting(s, k)
  {
    StepInto(BEFORE_CALL, k, s);
  }

  lemma BeforeCall0(s: State)
    requires s == Boot(1, 5)
    ensures ReachesWaiting(s, 0)
  {
    var s1 := Next(s, BEFORE_CALL[0]);
    var s2 := Next(s1, BEFORE_CALL[1]);
    var s3 := Next(s2, BEFORE_CALL[2]);
    assert BEFORE_CALL[4..] == [];
    EarlierBefore(s3, 3);
    EarlierBefore(s2, 2);
    EarlierBefore(s1, 1);
    EarlierBefore(s, 0);
  }

  ghost predicate EndsEarlier(s: State, k: nat, since: nat) {
    k <= |FIRST_CALL| && Legal(s, FIRST_CALL[k..]) &&
    var s' := Run(s, FIRST_CALL[k..]);
    GotEarlierFrame(s', 0, since) && !s'.anyWithdrawn && !s'.clockFailed
  }

  lemma EarlierCall(s: State, k: nat, since: nat)
    requires k < |FIRST_CALL| && Enabled(s, FIRST_CALL[k]) && EndsEarlier(Next(s, FIRST_CALL[k]), k + 1, since)
    ensures EndsEarlier(s, k, since)
  {
    StepInto(FIRST_CALL, k, s);
  }

  lemma FirstCall4(s: State, since: nat)
    requires s.thread.Copying? && s.thread.idx == 0 && s.thread.used == 1 && s.thread.done == 0
    requires s.thread.frame == 0 && |s.filledAt| == 1 && s.filledAt[0] < since
    requires |s.callers| == 1 && s.callers[0].Waiting? && s.callers[0].since == since
    requires s.flags.requested && |s.memory| == 1 && |s.buffers| == 1 && |s.buffers[0].bytes| == 1
    requires !s.anyWithdrawn && !s.clockFailed
    ensures EndsEarlier(s, 4, since)
  {
    var s1 := Next(s, FIRST_CALL[4]);
    var s2 := Next(s1, FIRST_CALL[5]);
    assert FIRST_CALL[7..] == [];
    EarlierCall(s2, 6, since);
    EarlierCall(s1, 5, since);
    EarlierCall(s, 4, since);
  }

  lemma FirstCall2(s: State, since: nat)
    requires s.thread == Deciding(0, 1, 0) && |s.filledAt| == 1 && s.filledAt[0] < since
    requires |s.callers| == 1 && s.callers[0].Waiting? && s.callers[0].since == since
    requires s.flags.requested && !s.flags.ready && |s.memory| == 1
    requires |s.buffers| == 1 && |s.buffers[0].bytes| == 1
    requires !s.anyWithdrawn && !s.clockFailed
    ensures EndsEarlier(s, 2, since)
  {
    hide EndsEarlier;
    var s1 := Next(s, FIRST_CALL[2]);
    FirstCall4(Next(s1, FIRST_CALL[3]), since);
    EarlierCall(s1, 3, since);
    EarlierCall(s, 2, since);
  }

  lemma FirstCall0(s: State)
    requires FrameWaits(s)
    ensures EndsEarlier(s, 0, s.steps)
  {
    hide EndsEarlier;
    var s1 := Next(s, FIRST_CALL[0]);
    FirstCall2(Next(s1, FIRST_CALL[1]), s.steps);
    EarlierCall(s1, 1, s.steps);
    EarlierCall(s, 0, s.steps);
  }

  /** With one client, a working clock and no withdrawn request, and with no frame
      dequeued before it, the first call is handed a frame completed before it. */
  lemma FirstCallCanGetEarlierFrame()
    ensures Legal(Boot(1, 5), BEFORE_CALL)
    ensures var s := Run(Boot(1, 5), BEFORE_CALL);
      && s.frames == [] && s.firstAccept == []
      && Legal(s, FIRST_CALL)
      && var s' := Run(s, FIRST_CALL);
         GotEarlierFrame(s', 0, s.steps) && !s'.anyWithdrawn && !s'.clockFailed
  {
    BeforeCall0(Boot(1, 5));
    assert BEFORE_CALL[0..] == BEFORE_CALL && FIRST_CALL[0..] == FIRST_CALL;
    FirstCall0(Run(Boot(1, 5), BEFORE_CALL));
  }

  // ----- It cannot happen if nothing completed is left -----

  /** Whatever of before `since` could still be handed over is gone or unusable. */
  ghost predicate OnlyLaterFrames(s: State, i: nat, since: nat) {
    && since < s.steps && i < |s.callers|
    && (forall k :: 0 <= k < |s.buffers| && UsableBuffer(s, k) ==> since <= s.buffers[k].owner.at)
    && (HasUsableFrame(s) ==> Later(s, s.thread.frame, since))
    && (s.flags.ready ==> Later(s, s.last.frame, since))
    && (s.callers[i].Holding? && s.callers[i].since == since ==> Later(s, s.callers[i].delivery.frame, since))
  }

  ghost predicate Later(s: State, frame: nat, since: nat) {
    frame < |s.filledAt| && since <= s.filledAt[frame]
  }

  lemma DriverKeepsLater(s: State, a: DriverAction, i: nat, since: nat)
    requires OnlyLaterFrames(s, i, since) && DriverEnabled(s, a)
    ensures OnlyLaterFrames(DriverNext(s, a), i, since)
  {
    match a
    case Tick(_) =>
    case Writes(_, _) =>
    case Fills(_, _) =>
  }

  lemma ThreadKeepsLater(s: State, a: ThreadAction, i: nat, since: nat)
    requires DatesOk(s) && OnlyLaterFrames(s, i, since) && ThreadEnabled(s, a)
    ensures OnlyLaterFrames(ThreadNext(s, a), i, since)
  {
    if a.PublishCopy? {
      PublishKeepsLater(s, a, i, since);
    } else if a.Dequeue? {
      DequeueKeepsLater(s, a, i, since);
    } else {
      CarryingKeepsLater(s, a, i, since);
    }
  }

  lemma PublishKeepsLater(s: State, a: ThreadAction, i: nat, since: nat)
    requires OnlyLaterFrames(s, i, since) && ThreadEnabled(s, a) && a.PublishCopy?
    ensures OnlyLaterFrames(ThreadNext(s, a), i, since)
  {
    WhatPublishLeaves(s, a);
    hide ThreadNext;
  }

  lemma WhatPublishLeaves(s: State, a: ThreadAction)
    requires ThreadEnabled(s, a) && a.PublishCopy?
    ensures var s' := ThreadNext(s, a);
      && s'.steps == s.steps + 1 && s'.callers == s.callers && s'.filledAt == s.filledAt
      && s'.buffers == s.buffers && s'.memory == s.memory && s'.thread.Requeuing?
      && (s'.flags.ready ==> s'.last.frame == s.thread.frame || (s.flags.ready && s'.last == s.last))
  {}

  lemma DequeueKeepsLater(s: State, a: ThreadAction, i: nat, since: nat)
    requires DatesOk(s) && OnlyLaterFrames(s, i, since) && ThreadEnabled(s, a) && a.Dequeue?
    ensures OnlyLaterFrames(ThreadNext(s, a), i, since)
  {}

  lemma CarryingKeepsLater(s: State, a: ThreadAction, i: nat, since: nat)
    requires OnlyLaterFrames(s, i, since) && ThreadEnabled(s, a) && !a.PublishCopy? && !a.Dequeue?
    ensures OnlyLaterFrames(ThreadNext(s, a), i, since)
  {
    hide Published;
    match a
    case Stamp(_) =>
    case CopyByte =>
    case Report =>
    case Requeue =>
    case RequeueFails(_) =>
    case _ =>
  }

  lemma CallKeepsLater(s: State, a: CallAction, i: nat, since: nat)
    requires OnlyLaterFrames(s, i, since) && CallEnabled(s, a)
    ensures OnlyLaterFrames(CallNext(s, a), i, since)
  {
    CallFrame(s, a);
    CallDates(s, a);
    CallKeepsReady(s, a, i, since);
    hide CallNext;
  }

  /** A call hands over nothing but what was ready, and makes nothing ready. */
  lemma CallKeepsReady(s: State, a: CallAction, i: nat, since: nat)
    requires CallEnabled(s, a)
    ensures var s' := CallNext(s, a);
      && s'.steps == s.steps + 1 && s'.last == s.last
      && (s'.flags.ready ==> s.flags.ready)
      && (i < |s.callers| ==>
            s'.callers[i] == s.callers[i] || !s'.callers[i].Holding?
            || (s.flags.ready && s'.callers[i].delivery == s.last))
  {
    CallFrame(s, a);
    match a
    case Enter(_, _) =>
    case Return(_, w) =>
      if ResumeOutcome(s.flags, w).Captured? {
      } else {
      }
  }

  lemma OwnerKeepsLater(s: State, a: OwnerAction, i: nat, since: nat)
    requires FlagsOk(s) && OnlyLaterFrames(s, i, since) && OwnerEnabled(s, a)
    ensures OnlyLaterFrames(OwnerNext(s, a), i, since)
  {
    match a
    case Initialise(buffers, _, _) =>
      forall k | 0 <= k < |buffers| ensures buffers[k].owner.Queued? { assert buffers[k] in buffers; }
    case DeinitStop =>
    case DeinitJoin =>
    case DeinitRelease =>
    case DeinitReset =>
  }

  lemma StepKeepsLater(s: State, a: Action, i: nat, since: nat)
    requires Inv(s) && OnlyLaterFrames(s, i, since) && Enabled(s, a)
    ensures OnlyLaterFrames(Next(s, a), i, since)
  {
    assert FlagsOk(s) && DatesOk(s);
    hide Inv, FlagsOk, DatesOk, OnlyLaterFrames;
    match a
    case ByDriver(d) => DriverKeepsLater(s, d, i, since);
    case ByThread(t) => ThreadKeepsLater(s, t, i, since);
    case ByCaller(c) => CallKeepsLater(s, c, i, since);
    case ByOwner(o) => OwnerKeepsLater(s, o, i, since);
  }

  lemma {:induction false} RunKeepsLater(s: State, actions: seq<Action>, i: nat, since: nat)
    requires Inv(s) && OnlyLaterFrames(s, i, since) && Legal(s, actions)
    ensures OnlyLaterFrames(Run(s, actions), i, since)
    decreases |actions|
  {
    hide Inv, OnlyLaterFrames, Next, Enabled;
    if actions != [] {
      StepKeepsLater(s, actions[0], i, since);
      StepKeepsInv(s, actions[0]);
      RunKeepsLater(Next(s, actions[0]), actions[1..], i, since);
    }
  }

  // ----- Nor to the only caller if its request is about to fail -----

  /** The only caller is out of this call without an image, or waits in it with a
      request that will fail, or with none. */
  ghost predicate Doomed(s: State, since: nat) {
    && |s.callers| == 1 && since < s.steps
    && var c := s.callers[0];
       !c.Idle? && c.since == since ==>
         c.Waiting? && !s.flags.ready && (s.flags.requested ==> AboutToFail(s))
  }

  lemma ThreadKeepsDoomed(s: State, a: ThreadAction, since: nat)
    requires Doomed(s, since) && ThreadEnabled(s, a)
    ensures Doomed(ThreadNext(s, a), since)
  {
    ThreadFrame(s, a);
    match a
    case Dequeue(_) =>
    case Stamp(_) =>
    case CopyByte =>
    case PublishCopy(_) =>
    case Report =>
    case Requeue =>
    case RequeueFails(_) =>
    case _ =>
  }

  lemma CallKeepsDoomed(s: State, a: CallAction, since: nat)
    requires Doomed(s, since) && CallEnabled(s, a)
    ensures Doomed(CallNext(s, a), since)
  {
    match a
    case Enter(_, _) =>
    case Return(_, w) =>
      if ResumeOutcome(s.flags, w).Captured? {
      } else {
      }
  }

  lemma StepKeepsDoomed(s: State, a: Action, since: nat)
    requires Inv(s) && Doomed(s, since) && Enabled(s, a)
    ensures Doomed(Next(s, a), since)
  {
    match a
    case ByDriver(d) => DriverFrame(s, d);
    case ByThread(t) => ThreadKeepsDoomed(s, t, since);
    case ByCaller(c) => CallKeepsDoomed(s, c, since);
    case ByOwner(o) => OwnerFrame(s, o);
  }

  lemma {:induction false} RunKeepsDoomed(s: State, actions: seq<Action>, since: nat)
    requires Inv(s) && Doomed(s, since) && Legal(s, actions)
    ensures Doomed(Run(s, actions), since)
    decreases |actions|
  {
    hide Inv, Doomed, Next, Enabled;
    if actions != [] {
      StepKeepsDoomed(s, actions[0], since);
      StepKeepsInv(s, actions[0]);
      RunKeepsDoomed(Next(s, actions[0]), actions[1..], since);
    }
  }

  // ----- Otherwise it can -----

  /** The thread, running, is not holding a frame and is not failing. */
  predicate OnItsWay(t: Thread) { t.Head? || t.Polling? || t.Dequeuing? || t.Requeuing? }

  /** A thread on its way can dequeue buffer `k` next and serve a pending request. */
  lemma BufferServes(s: State, i: nat, k: nat) returns (rest: seq<Action>)
    requires Inv(s) && s.flags.requested && !s.flags.stop && OnItsWay(s.thread) && UsableBuffer(s, k)
    requires i < |s.callers| && s.callers[i].Waiting? && s.buffers[k].owner.at < s.callers[i].since
    ensures Legal(s, rest) && GotEarlierFrame(Run(s, rest), i, s.callers[i].since)
    decreases Stage(s.thread) + if OnItsWay(s.thread) && !s.thread.Polling? && !s.thread.Dequeuing? then 10 else 0
  {
    var a := ByThread(match s.thread
      case Head => CheckStop
      case Polling => PollReady
      case Dequeuing => Dequeue(k)
      case _ => Requeue);
    StepKeepsInv(s, a);
    var s1 := Next(s, a);
    if s.thread.Dequeuing? {
      var more := FinishFrame(s1, i);
      Prepend(s, a, more);
      DatesGrow(s1, more);
      rest := [a] + more;
    } else {
      ThreadFrame(s, a.thread);
      var more := BufferServes(s1, i, k);
      Prepend(s, a, more);
      rest := [a] + more;
    }
  }

  lemma DatesGrowStep(s: State, a: Action)
    requires Enabled(s, a)
    ensures s.filledAt <= Next(s, a).filledAt
  {
    match a
    case ByDriver(d) =>
    case ByThread(t) => ThreadDates(s, t);
    case ByCaller(c) => CallDates(s, c);
    case ByOwner(o) =>
  }

  lemma ThreadDates(s: State, a: ThreadAction)
    requires ThreadEnabled(s, a)
    ensures s.filledAt <= ThreadNext(s, a).filledAt
  {
    match a
    case Dequeue(_) =>
    case Stamp(_) =>
    case CopyByte =>
    case PublishCopy(_) =>
    case Report =>
    case Requeue =>
    case RequeueFails(_) =>
    case _ =>
  }

  lemma CallDates(s: State, a: CallAction)
    requires CallEnabled(s, a)
    ensures s.filledAt == CallNext(s, a).filledAt
  {
    match a
    case Enter(_, _) =>
    case Return(_, w) =>
      if ResumeOutcome(s.flags, w).Captured? {
      } else {
      }
  }

  lemma {:induction false} DatesGrow(s: State, actions: seq<Action>)
    requires Legal(s, actions)
    ensures s.filledAt <= Run(s, actions).filledAt
    decreases |actions|
  {
    hide Next, Enabled;
    if actions != [] {
      DatesGrowStep(s, actions[0]);
      DatesGrow(Next(s, actions[0]), actions[1..]);
    }
  }

  /** The failure is reported; then the thread is on its way, with no request left. */
  lemma FailureReported(s: State, k: nat) returns (rest: seq<Action>)
    requires Inv(s) && AboutToFail(s) && !s.flags.stop && UsableBuffer(s, k)
    ensures Legal(s, rest)
    ensures var s' := Run(s, rest);
      && Inv(s') && OnItsWay(s'.thread) && !s'.flags.stop && s'.started && s'.callers == s.callers
      && UsableBuffer(s', k) && s'.buffers[k] == s.buffers[k] && s'.steps >= s.steps
      && (s'.flags.requested ==> s.flags.requested && s.thread.Deciding? && s.flags.ready)
    decreases Stage(s.thread)
  {
    var a := ByThread(if s.thread.Deciding? then Decide else Report);
    StepKeepsInv(s, a);
    ThreadFrame(s, a.thread);
    var s1 := Next(s, a);
    if OnItsWay(s1.thread) {
      Prepend(s, a, []);
      rest := [a];
    } else {
      var more := FailureReported(s1, k);
      Prepend(s, a, more);
      rest := [a] + more;
    }
  }

  /** Another caller asks anew, and its request serves caller `i`. */
  lemma NewRequestServes(s: State, i: nat, j: nat, k: nat) returns (rest: seq<Action>)
    requires Inv(s) && s.started && !s.flags.stop && !s.flags.requested && OnItsWay(s.thread)
    requires UsableBuffer(s, k) && i < |s.callers| && j < |s.callers| && i != j
    requires s.callers[i].Waiting? && s.buffers[k].owner.at < s.callers[i].since
    ensures Legal(s, rest) && GotEarlierFrame(Run(s, rest), i, s.callers[i].since)
    decreases s.callers[j].Waiting?
  {
    var a := ByCaller(if s.callers[j].Waiting? then Return(j, TimedOut) else Enter(j, true));
    StepKeepsInv(s, a);
    CallFrame(s, a.call);
    var more;
    if s.callers[j].Waiting? {
      more := NewRequestServes(Next(s, a), i, j, k);
    } else {
      more := BufferServes(Next(s, a), i, k);
    }
    Prepend(s, a, more);
    rest := [a] + more;
  }

  ghost predicate CanGetEarlierFrame(s: State, i: nat, since: nat) {
    exists rest :: Legal(s, rest) && GotEarlierFrame(Run(s, rest), i, since)
  }

  /** Something completed before the call can still reach it: a usable frame in the
      thread's hands, or one in the done queue whose way is not barred by a failure
      that only this caller could survive. */
  ghost predicate EarlierFrameLeft(s: State) {
    HasUsableFrame(s) || ((exists k :: UsableBuffer(s, k)) && (|s.callers| > 1 || !AboutToFail(s)))
  }

  lemma EarlierFrameCanCome(s: State, i: nat)
    requires Inv(s) && CallEnabled(s, Enter(i, true)) && EarlierFrameLeft(s)
    requires BeginOutcome(s.flags, s.started, true).Waits?
    ensures CanGetEarlierFrame(CallNext(s, Enter(i, true)), i, s.steps)
  {
    var s1 := CallNext(s, Enter(i, true));
    CallKeeps(s, Enter(i, true));
    CallFrame(s, Enter(i, true));
    CallDates(s, Enter(i, true));
    assert ThreadOk(s) && DatesOk(s) && FlagsOk(s);
    var rest;
    if HasUsableFrame(s) {
      rest := FinishFrame(s1, i);
      DatesGrow(s1, rest);
    } else {
      var k :| UsableBuffer(s, k);
      if !AboutToFail(s) {
        rest := BufferServes(s1, i, k);
      } else {
        var first := FailureReported(s1, k);
        var more := NewRequestServes(Run(s1, first), i, if i == 0 then 1 else 0, k);
        Concat(s1, first, more);
        rest := first + more;
      }
    }
    assert GotEarlierFrame(Run(s1, rest), i, s.steps);
  }

  lemma EntersWithNothing(s: State, i: nat)
    requires CallEnabled(s, Enter(i, true)) && BeginOutcome(s.flags, s.started, true).Waits?
    requires !HasUsableFrame(s) && forall k :: !UsableBuffer(s, k)
    ensures OnlyLaterFrames(CallNext(s, Enter(i, true)), i, s.steps)
  {
    var s1 := CallNext(s, Enter(i, true));
    CallFrame(s, Enter(i, true));
    assert forall k :: UsableBuffer(s1, k) ==> UsableBuffer(s, k);
  }

  /** In every reachable state and for every caller: some continuation hands a call
      that waits a frame completed before it if and only if such a frame is left. */
  lemma EarlierFrameIffLeft(s: State, i: nat)
    requires Inv(s) && CallEnabled(s, Enter(i, true))
    requires BeginOutcome(s.flags, s.started, true).Waits?
    ensures CanGetEarlierFrame(CallNext(s, Enter(i, true)), i, s.steps) <==> EarlierFrameLeft(s)
  {
    var s1 := CallNext(s, Enter(i, true));
    CallKeeps(s, Enter(i, true));
    CallFrame(s, Enter(i, true));
    if EarlierFrameLeft(s) {
      EarlierFrameCanCome(s, i);
    } else if CanGetEarlierFrame(s1, i, s.steps) {
      var rest :| Legal(s1, rest) && GotEarlierFrame(Run(s1, rest), i, s.steps);
      if exists k :: UsableBuffer(s, k) {
        RunKeepsDoomed(s1, rest, s.steps);
      } else {
        CallDates(s, Enter(i, true));
        EntersWithNothing(s, i);
        RunKeepsLater(s1, rest, i, s.steps);
      }
    }
  }
}
