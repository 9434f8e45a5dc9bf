/** What becomes of a call that is waiting when deinit stops the camera.  It should
    return -1; but it only does so if it wakes before deinit's last section clears
    the flags.  Otherwise it goes on waiting, and after another init it can return
    with the image another caller asked for. */
module CameraCancelled {
  import opened CaptureControl
  import opened Camera
  import opened CameraInvariant
  import opened CameraTheorems
  import opened CameraContinuations

  /** The call of caller `i` that entered at step `since` has returned an image. */
  ghost predicate GotImage(s: State, i: nat, since: nat) {
    i < |s.callers| && s.callers[i].Holding? && s.callers[i].since == since
  }

  // ----- Until the next init -----

  /** After the stop flag went up: nothing to hand over, and no error once it is
      cleared again. */
  ghost predicate Ended(s: State) {
    Closed(s) && !s.flags.requested && !s.flags.ready && (s.flags.stop || s.flags.error == 0)
  }

  lemma EndedStep(s: State, a: Action)
    requires FlagsOk(s) && Ended(s) && Enabled(s, a) && !(a.ByOwner? && a.owner.Initialise?)
    ensures Ended(Next(s, a)) && |Next(s, a).callers| == |s.callers|
  {
    match a
    case ByDriver(d) => DriverFrame(s, d);
    case ByThread(t) => ThreadFrame(s, t); ThreadPhaseFrame(s, t); ThreadFlagsFrame(s, t);
    case ByCaller(c) => CallFrame(s, c);
    case ByOwner(o) =>
  }

  lemma {:induction false} EndedRun(s: State, actions: seq<Action>)
    requires Inv(s) && Ended(s) && Legal(s, actions) && NoInit(actions)
    ensures Ended(Run(s, actions)) && |Run(s, actions).callers| == |s.callers|
    decreases |actions|
  {
    hide Inv, Ended, Next, Enabled;
    if actions != [] {
      assert actions[0] in actions;
      assert FlagsOk(s) by { InvFlags(s); }
      EndedStep(s, actions[0]);
      StepKeepsInv(s, actions[0]);
      assert NoInit(actions[1..]) by {
        forall b | b in actions[1..] ensures b in actions {}
      }
      EndedRun(Next(s, actions[0]), actions[1..]);
    }
  }

  lemma InvFlags(s: State)
    requires Inv(s)
    ensures FlagsOk(s)
  {}

  /** Over every run from a stopped state to before the next init: a waiter that
      returns from its wait goes on waiting if and only if it was woken and the stop
      flag has been cleared by then; otherwise it returns -1.  A call that enters
      returns -1. */
  lemma StoppedCallsFail(s: State, actions: seq<Action>, i: nat, w: Wait, clockWorks: bool)
    requires Inv(s) && s.flags.stop && i < |s.callers|
    requires Legal(s, actions) && NoInit(actions)
    ensures var s' := Run(s, actions);
      && |s'.callers| == |s.callers|
      && (s'.callers[i].Waiting? ==>
            if w.Woken? && !s'.flags.stop then CallNext(s', Return(i, w)).callers == s'.callers
            else ResumeOutcome(s'.flags, w).Failed? && CallNext(s', Return(i, w)).callers[i].Idle?)
      && (!s'.callers[i].Waiting? ==> CallNext(s', Enter(i, clockWorks)).callers[i].Idle?)
  {
    EndedRun(s, actions);
  }

  // ----- With one caller: never an image -----

  /** The only caller is still in the cancelled call, and nobody has asked for
      anything; or it is out of it, without an image. */
  ghost predicate Abandoned(s: State, since: nat) {
    && |s.callers| == 1 && since < s.steps
    && var c := s.callers[0];
       !c.Idle? && c.since == since ==> c.Waiting? && !s.flags.requested && !s.flags.ready
  }

  lemma AbandonedStep(s: State, a: Action, since: nat)
    requires Abandoned(s, since) && Enabled(s, a)
    ensures Abandoned(Next(s, a), since)
  {
    match a
    case ByDriver(d) => DriverFrame(s, d);
    case ByThread(t) => ThreadFrame(s, t); ThreadFlagsFrame(s, t);
    case ByCaller(c) => AbandonedCall(s, c, since);
    case ByOwner(o) =>
  }

  lemma AbandonedCall(s: State, a: CallAction, since: nat)
    requires Abandoned(s, since) && CallEnabled(s, a)
    ensures Abandoned(CallNext(s, a), since)
  {
    match a
    case Enter(_, _) =>
    case Return(_, w) =>
      if ResumeOutcome(s.flags, w).Captured? {
      } else {
      }
  }

  lemma {:induction false} AbandonedRun(s: State, actions: seq<Action>, since: nat)
    requires Abandoned(s, since) && Legal(s, actions)
    ensures Abandoned(Run(s, actions), since)
    decreases |actions|
  {
    hide Abandoned, Next, Enabled;
    if actions != [] {
      AbandonedStep(s, actions[0], since);
      AbandonedRun(Next(s, actions[0]), actions[1..], since);
    }
  }

  // ----- With another caller: deinit, init, and its request serves the wrong call -----

  /** Deinit completes without any call moving. */
  lemma DeinitCompletes(s: State) returns (rest: seq<Action>)
    requires Inv(s) && !s.phase.Steady?
    ensures Legal(s, rest)
    ensures var s' := Run(s, rest);
      Inv(s') && s'.phase.Steady? && !s'.started && s'.callers == s.callers
    decreases s.phase.Joining?, s.phase.Releasing?, Stage(s.thread), Remaining(s.thread)
  {
    var a := NextOfDeinit(s);
    StepKeepsInv(s, a);
    if s.phase.Resetting? {
      Prepend(s, a, []);
      rest := [a];
    } else {
      var more := DeinitCompletes(Next(s, a));
      Prepend(s, a, more);
      rest := [a] + more;
    }
  }

  lemma NextOfDeinit(s: State) returns (a: Action)
    requires Inv(s) && !s.phase.Steady?
    ensures Enabled(s, a) && Next(s, a).callers == s.callers
    ensures match s.phase
      case Joining =>
        if s.thread.Exited? then Next(s, a).phase.Releasing?
        else Next(s, a).phase.Joining? && Closer(Next(s, a).thread, s.thread)
      case Releasing => Next(s, a).phase.Resetting?
      case _ => Next(s, a).phase.Steady? && !Next(s, a).started
  {
    match s.phase
    case Joining =>
      if s.thread.Exited? {
        a := ByOwner(DeinitJoin);
      } else {
        ThreadNeverStuck(s);
        var t: ThreadAction :| ThreadEnabled(s, t);
        a := ByThread(t);
        ThreadFrame(s, t);
        ThreadPhaseFrame(s, t);
        ThreadWindsDown(s, a);
      }
    case Releasing => a := ByOwner(DeinitRelease);
    case _ => a := ByOwner(DeinitReset);
  }

  /** One buffer, one byte. */
  function Restart(): Action {
    ByOwner(Initialise([Buffer(Queued, [0])], [0], Geometry(0, 0, 0, 0)))
  }

  /** Just restarted: the thread is at its head and the one buffer is queued. */
  ghost predicate Restarted(s: State) {
    && s.thread.Head? && s.started && !s.flags.stop && |s.memory| == 1
    && |s.buffers| == 1 && s.buffers[0].owner.Queued? && |s.buffers[0].bytes| == 1
  }

  /** With a request pending, the thread dequeues a frame, and it can be handed to
      caller `i`, whoever asked for it. */
  lemma NextFrameServes(s: State, i: nat) returns (rest: seq<Action>)
    requires Inv(s) && Restarted(s) && s.flags.requested
    requires i < |s.callers| && s.callers[i].Waiting?
    ensures Legal(s, rest) && Served(s, Run(s, rest), i, |s.frames|)
  {
    var a1, a2 := ByThread(CheckStop), ByThread(PollReady);
    var s1 := Next(s, a1);
    var s2 := Next(s1, a2);
    StepKeepsInv(s, a1);
    StepKeepsInv(s1, a2);
    var more := FilledFrameServes(s2, i);
    Prepend(s1, a2, more);
    Prepend(s, a1, [a2] + more);
    rest := [a1] + ([a2] + more);
  }

  lemma FilledFrameServes(s: State, i: nat) returns (rest: seq<Action>)
    requires Inv(s) && s.thread.Dequeuing? && s.flags.requested && |s.memory| == 1
    requires |s.buffers| == 1 && s.buffers[0].owner.Queued? && |s.buffers[0].bytes| == 1
    requires i < |s.callers| && s.callers[i].Waiting?
    ensures Legal(s, rest) && Served(s, Run(s, rest), i, |s.frames|)
  {
    var a1, a2 := ByDriver(Fills(0, 1)), ByThread(Dequeue(0));
    var s1 := Next(s, a1);
    var s2 := Next(s1, a2);
    StepKeepsInv(s, a1);
    StepKeepsInv(s1, a2);
    var more := FinishFrame(s2, i);
    Prepend(s1, a2, more);
    Prepend(s, a1, [a2] + more);
    rest := [a1] + ([a2] + more);
  }

  /** Caller `j` is brought out of any wait. */
  lemma Frees(s: State, j: nat) returns (rest: seq<Action>)
    requires Inv(s) && Restarted(s) && j < |s.callers|
    ensures Legal(s, rest)
    ensures var s' := Run(s, rest);
      && Inv(s') && Restarted(s') && |s'.callers| == |s.callers| && !s'.callers[j].Waiting?
      && s'.callers == s.callers[j := s'.callers[j]]
      && (s.flags.requested ==> s'.flags.requested || s.callers[j].Waiting?)
      && (!s.flags.requested ==> !s'.flags.requested)
  {
    if s.callers[j].Waiting? {
      var a := ByCaller(Return(j, TimedOut));
      StepKeepsInv(s, a);
      Prepend(s, a, []);
      rest := [a];
    } else {
      rest := [];
    }
  }

  /** Caller `i` has an image, caller `j`, who asked for it, still waits, and nothing
      is requested or ready any more. */
  ghost predicate Misdelivered(s: State, i: nat, since: nat, j: nat) {
    && GotImage(s, i, since) && j < |s.callers| && s.callers[j].Waiting?
    && !s.flags.requested && !s.flags.ready
  }

  lemma OthersRequestServes(s: State, i: nat, j: nat) returns (rest: seq<Action>)
    requires Inv(s) && Restarted(s) && !s.flags.requested
    requires i < |s.callers| && j < |s.callers| && i != j && s.callers[i].Waiting?
    ensures Legal(s, rest) && Misdelivered(Run(s, rest), i, s.callers[i].since, j)
  {
    var first := Frees(s, j);
    var s1, enter := Run(s, first), ByCaller(Enter(j, true));
    StepKeepsInv(s1, enter);
    var more := NextFrameServes(Next(s1, enter), i);
    Prepend(s1, enter, more);
    Concat(s, first, [enter] + more);
    rest := first + ([enter] + more);
  }

  lemma CancelledCallIsServed(s: State, i: nat, j: nat) returns (rest: seq<Action>)
    requires Inv(s) && s.flags.stop
    requires i < |s.callers| && j < |s.callers| && i != j && s.callers[i].Waiting?
    ensures Legal(s, rest) && Misdelivered(Run(s, rest), i, s.callers[i].since, j)
  {
    var first := DeinitCompletes(s);
    var s1 := Run(s, first);
    StepKeepsInv(s1, Restart());
    var more := OthersRequestServes(Next(s1, Restart()), i, j);
    Prepend(s1, Restart(), more);
    Concat(s, first, [Restart()] + more);
    rest := first + ([Restart()] + more);
  }

  ghost predicate CanGetImage(s: State, i: nat, since: nat) {
    exists rest :: Legal(s, rest) && GotImage(Run(s, rest), i, since)
  }

  /** From every reachable state with the stop flag up and caller `i` waiting: in some
      continuation, later inits included, the cancelled call returns an image if and
      only if there is another caller. */
  lemma CancelledCallGetsImageIffOthers(s: State, i: nat)
    requires Inv(s) && s.flags.stop && i < |s.callers| && s.callers[i].Waiting?
    ensures CanGetImage(s, i, s.callers[i].since) <==> |s.callers| > 1
  {
    var since := s.callers[i].since;
    if |s.callers| > 1 {
      var rest := CancelledCallIsServed(s, i, if i == 0 then 1 else 0);
      assert GotImage(Run(s, rest), i, since);
    } else if CanGetImage(s, i, since) {
      var rest :| Legal(s, rest) && GotImage(Run(s, rest), i, since);
      assert CallerOrderOk(s, s.callers[i]) by { assert s.callers[i] in s.callers; }
      AbandonedRun(s, rest, since);
    }
  }

  // ----- The run, spelled out -----

  const MISDELIVERY: seq<Action> := [
    Restart(),
    ByCaller(Enter(0, true)),
    ByOwner(DeinitStop),
    ByThread(CheckStop),
    ByOwner(DeinitJoin),
    ByOwner(DeinitRelease),
    ByOwner(DeinitReset),
    ByCaller(Return(0, Woken)),
    Restart(),
    ByCaller(Enter(1, true)),
    ByThread(CheckStop),
    ByThread(PollReady),
    ByDriver(Fills(0, 1)),
    ByThread(Dequeue(0)),
    ByThread(Decide),
    ByThread(Stamp(true)),
    ByThread(CopyByte),
    ByThread(PublishCopy(0)),
    ByCaller(Return(0, Woken))]

  /** Action k onwards is legal and ends with the cancelled call's image. */
  ghost predicate EndsMisdelivered(s: State, k: nat, since: nat) {
    k <= |MISDELIVERY| && Legal(s, MISDELIVERY[k..])
    && Misdelivered(Run(s, MISDELIVERY[k..]), 0, since, 1)
  }

  lemma Earlier(s: State, k: nat, since: nat)
    requires k < |MISDELIVERY| && Enabled(s, MISDELIVERY[k])
    requires EndsMisdelivered(Next(s, MISDELIVERY[k]), k + 1, since)
    ensures EndsMisdelivered(s, k, since)
  {
    StepInto(MISDELIVERY, k, s);
  }

  ghost predicate TwoCallers(s: State, since: nat, other: bool) {
    && |s.callers| == 2 && s.callers[0].Waiting? && s.callers[0].since == since
    && if other then s.callers[1].Waiting? else s.callers[1].Idle?
  }

  ghost predicate OneBuffer(s: State, owner: Owner) {
    |s.memory| == 1 && s.buffers == [Buffer(owner, [0])]
  }

  lemma From16(s: State, since: nat)
    requires TwoCallers(s, since, true) && OneBuffer(s, Held) && s.flags.requested
    requires s.thread.Copying? && s.thread.idx == 0 && s.thread.used == 1 && s.thread.done == 0
    ensures EndsMisdelivered(s, 16, since)
  {
    var s1 := Next(s, MISDELIVERY[16]);
    var s2 := Next(s1, MISDELIVERY[17]);
    assert MISDELIVERY[19..] == [];
    Earlier(s2, 18, since);
    Earlier(s1, 17, since);
    Earlier(s, 16, since);
  }

  lemma From13(s: State, since: nat)
    requires TwoCallers(s, since, true) && s.thread.Dequeuing?
    requires |s.buffers| == 1 && |s.memory| == 1 && s.buffers[0].owner.Filled?
    requires s.buffers[0].owner.used == 1 && s.buffers[0].bytes == [0]
    requires s.flags.requested && !s.flags.ready
    ensures EndsMisdelivered(s, 13, since)
  {
    hide EndsMisdelivered;
    var s1 := Next(s, MISDELIVERY[13]);
    var s2 := Next(s1, MISDELIVERY[14]);
    From16(Next(s2, MISDELIVERY[15]), since);
    Earlier(s2, 15, since);
    Earlier(s1, 14, since);
    Earlier(s, 13, since);
  }

  lemma From10(s: State, since: nat)
    requires TwoCallers(s, since, true) && OneBuffer(s, Queued) && s.thread.Head?
    requires s.flags.requested && !s.flags.ready && !s.flags.stop
    ensures EndsMisdelivered(s, 10, since)
  {
    hide EndsMisdelivered;
    var s1 := Next(s, MISDELIVERY[10]);
    var s2 := Next(s1, MISDELIVERY[11]);
    From13(Next(s2, MISDELIVERY[12]), since);
    Earlier(s2, 12, since);
    Earlier(s1, 11, since);
    Earlier(s, 10, since);
  }

  lemma From9(s: State, since: nat)
    requires TwoCallers(s, since, false) && OneBuffer(s, Queued) && s.thread.Head? && s.started
    requires s.flags == CLEARED
    ensures EndsMisdelivered(s, 9, since)
  {
    hide EndsMisdelivered;
    From10(Next(s, MISDELIVERY[9]), since);
    Earlier(s, 9, since);
  }

  lemma From7(s: State, since: nat)
    requires TwoCallers(s, since, false) && s.phase.Steady? && !s.started && s.flags == CLEARED
    ensures EndsMisdelivered(s, 7, since)
  {
    hide EndsMisdelivered;
    var s1 := Next(s, MISDELIVERY[7]);
    From9(Next(s1, MISDELIVERY[8]), since);
    Earlier(s1, 8, since);
    Earlier(s, 7, since);
  }

  lemma From4(s: State, since: nat)
    requires TwoCallers(s, since, false) && s.phase.Joining? && s.thread.Exited?
    ensures EndsMisdelivered(s, 4, since)
  {
    hide EndsMisdelivered;
    var s1 := Next(s, MISDELIVERY[4]);
    var s2 := Next(s1, MISDELIVERY[5]);
    From7(Next(s2, MISDELIVERY[6]), since);
    Earlier(s2, 6, since);
    Earlier(s1, 5, since);
    Earlier(s, 4, since);
  }

  lemma From2(s: State, since: nat)
    requires TwoCallers(s, since, false) && s.phase.Steady? && s.started && s.thread.Head?
    ensures EndsMisdelivered(s, 2, since)
  {
    hide EndsMisdelivered;
    var s1 := Next(s, MISDELIVERY[2]);
    From4(Next(s1, MISDELIVERY[3]), since);
    Earlier(s1, 3, since);
    Earlier(s, 2, since);
  }

  lemma From0(s: State)
    requires s == Boot(2, 5)
    ensures EndsMisdelivered(s, 0, 1)
  {
    hide EndsMisdelivered;
    var s1 := Next(s, MISDELIVERY[0]);
    From2(Next(s1, MISDELIVERY[1]), 1);
    Earlier(s1, 1, 1);
    Earlier(s, 0, 1);
  }

  /** Two callers: the first waits, deinit completes, the camera is initialised
      again, the second calls; the first, cancelled, returns the image, and the
      second goes on waiting. */
  lemma CancelledCallCanReturnImage()
    ensures Legal(Boot(2, 5), MISDELIVERY)
    ensures Misdelivered(Run(Boot(2, 5), MISDELIVERY), 0, 1, 1)
  {
    From0(Boot(2, 5));
    assert MISDELIVERY[0..] == MISDELIVERY;
  }
}
