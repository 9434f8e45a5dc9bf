/** How old the bytes of an image can be: after a call that timed out, the next call
    can be handed a copy that was begun before it was made.  A concrete run, and
    exactly when this can happen. */
module CameraStale {
  import opened CaptureControl
  import opened Camera
  import opened CameraInvariant
  import opened CameraTheorems
  import opened CameraContinuations

  /** One buffer of one byte.  A call enters, its copy begins, the call times out,
      the clock advances, and the client calls again. */
  const ACTIONS: seq<Action> := [
    ByOwner(Initialise([Buffer(Queued, [7])], [0], Geometry(0, 0, 0, 0))),
    ByThread(CheckStop),
    ByThread(PollReady),
    ByDriver(Fills(0, 1)),
    ByThread(Dequeue(0)),
    ByCaller(Enter(0, true)),
    ByThread(Decide),
    ByThread(Stamp(true)),
    ByCaller(Return(0, TimedOut)),
    ByDriver(Tick(1)),
    ByCaller(Enter(0, true)),
    ByThread(CopyByte),
    ByThread(PublishCopy(0)),
    ByCaller(Return(0, Woken))]

  ghost predicate Looks(s: State, flags: Flags, owner: Owner, thread: Thread, caller: Caller, now: nat) {
    && s.flags == flags && s.buffers == [Buffer(owner, [7])] && s.thread == thread
    && s.callers == [caller] && s.now == now && s.started && |s.memory| == 1
    && !s.clockFailed
  }

  const ASKED := Flags(true, false, 0, false, NO_IMAGE)

  /** The one client holds an image whose first byte was copied before it called. */
  ghost predicate HoldsStale(s: State) {
    && |s.callers| == 1 && s.callers[0].Holding? && !s.clockFailed
    && s.callers[0].image.firstByteNs < s.callers[0].time
  }

  /** The remaining actions from action k on are legal and end with a stale image. */
  ghost predicate EndsStale(s: State, k: nat) {
    k <= |ACTIONS| && Legal(s, ACTIONS[k..]) && HoldsStale(Run(s, ACTIONS[k..]))
  }

  lemma Before(s: State, k: nat)
    requires k < |ACTIONS| && Enabled(s, ACTIONS[k]) && EndsStale(Next(s, ACTIONS[k]), k + 1)
    ensures EndsStale(s, k)
  {
    StepInto(ACTIONS, k, s);
  }

  lemma From13(s: State, since: nat, pending: seq<nat>)
    requires s.flags.ready && s.flags.error == 0 && s.flags.captured.firstByteNs == 5
    requires s.callers == [Waiting(since, 6, pending)] && !s.clockFailed
    ensures EndsStale(s, 13)
  {
    assert ACTIONS[14..] == [];
    Before(s, 13);
  }

  lemma From11(s: State, frame: nat, began: nat, since: nat, pending: seq<nat>)
    requires Looks(s, ASKED, Held, Copying(0, 1, frame, 0, 5, began), Waiting(since, 6, pending), 6)
    ensures EndsStale(s, 11)
  {
    var s1 := Next(s, ACTIONS[11]);
    var s2 := Next(s1, ACTIONS[12]);
    From13(s2, since, pending);
    Before(s1, 12);
    Before(s, 11);
  }

  lemma From9(s: State, frame: nat, began: nat)
    requires Looks(s, CLEARED, Held, Copying(0, 1, frame, 0, 5, began), Idle, 5)
    ensures EndsStale(s, 9)
  {
    var s1 := Next(s, ACTIONS[9]);
    var s2 := Next(s1, ACTIONS[10]);
    From11(s2, frame, began, s1.steps, [began]);
    Before(s1, 10);
    Before(s, 9);
  }

  lemma From7(s: State, frame: nat, since: nat, pending: seq<nat>)
    requires Looks(s, ASKED, Held, Stamping(0, 1, frame), Waiting(since, 5, pending), 5)
    ensures EndsStale(s, 7)
  {
    var s1 := Next(s, ACTIONS[7]);
    var s2 := Next(s1, ACTIONS[8]);
    From9(s2, frame, s.steps);
    Before(s1, 8);
    Before(s, 7);
  }

  lemma From5(s: State, frame: nat)
    requires Looks(s, CLEARED, Held, Deciding(0, 1, frame), Idle, 5)
    ensures EndsStale(s, 5)
  {
    var s1 := Next(s, ACTIONS[5]);
    var s2 := Next(s1, ACTIONS[6]);
    From7(s2, frame, s.steps, []);
    Before(s1, 6);
    Before(s, 5);
  }

  lemma From3(s: State)
    requires Looks(s, CLEARED, Queued, Dequeuing, Idle, 5)
    ensures EndsStale(s, 3)
  {
    var s1 := Next(s, ACTIONS[3]);
    var s2 := Next(s1, ACTIONS[4]);
    From5(s2, |s.frames|);
    Before(s1, 4);
    Before(s, 3);
  }

  lemma From1(s: State)
    requires Looks(s, CLEARED, Queued, Head, Idle, 5)
    ensures EndsStale(s, 1)
  {
    var s1 := Next(s, ACTIONS[1]);
    var s2 := Next(s1, ACTIONS[2]);
    From3(s2);
    Before(s1, 2);
    Before(s, 1);
  }

  lemma From0(s: State)
    requires s == Boot(1, 5)
    ensures EndsStale(s, 0)
  {
    From1(Next(s, ACTIONS[0]));
    Before(s, 0);
  }

  /** There is a legal run, with a single client and a working clock, that hands over
      an image whose first byte predates the request. */
  lemma ImageCanPredateRequest()
    ensures exists actions :: Legal(Boot(1, 5), actions) && HoldsStale(Run(Boot(1, 5), actions))
  {
    From0(Boot(1, 5));
    assert ACTIONS[0..] == ACTIONS;
  }

  // ----- Exactly when a copy can predate the call -----

  /** The call of caller `i` that entered at step `since` was handed an image whose
      copy had begun before, and the clock never failed. */
  ghost predicate Predates(s: State, i: nat, since: nat) {
    && i < |s.callers| && s.callers[i].Holding? && s.callers[i].since == since
    && s.callers[i].delivery.began < since && !s.clockFailed
  }

  /** As long as caller `i` is in the call that entered at `since`, it remembers
      what was pending then. */
  ghost predicate SameCall(s: State, i: nat, since: nat, pending: seq<nat>) {
    && since < s.steps && i < |s.callers|
    && (!s.callers[i].Idle? && s.callers[i].since == since ==> s.callers[i].pending == pending)
  }

  lemma SameCallStep(s: State, a: Action, i: nat, since: nat, pending: seq<nat>)
    requires SameCall(s, i, since, pending) && Enabled(s, a)
    ensures SameCall(Next(s, a), i, since, pending)
  {
    match a
    case ByDriver(d) => DriverFrame(s, d);
    case ByThread(t) => ThreadFrame(s, t);
    case ByCaller(c) => CallerFrame(s, c); CallRemembers(s, c);
    case ByOwner(o) => OwnerFrame(s, o);
  }

  lemma CallRemembers(s: State, a: CallAction)
    requires CallEnabled(s, a)
    ensures var c, c' := s.callers[a.i], CallNext(s, a).callers[a.i];
      c'.Idle? || (a.Enter? && c'.Waiting? && c'.since == s.steps)
      || (a.Return? && c'.since == c.since && c'.pending == c.pending)
  {
    match a
    case Enter(_, _) =>
    case Return(_, w) =>
      if ResumeOutcome(s.flags, w).Captured? {
      } else {
      }
  }

  lemma {:induction false} SameCallRun(s: State, actions: seq<Action>, i: nat, since: nat, pending: seq<nat>)
    requires SameCall(s, i, since, pending) && Legal(s, actions)
    ensures SameCall(Run(s, actions), i, since, pending)
    decreases |actions|
  {
    hide SameCall, Next, Enabled;
    if actions != [] {
      SameCallStep(s, actions[0], i, since, pending);
      SameCallRun(Next(s, actions[0]), actions[1..], i, since, pending);
    }
  }

  /** In some continuation the call that entered at `since` gets such an image. */
  ghost predicate CanPredate(s: State, i: nat, since: nat) {
    exists rest :: Legal(s, rest) && Predates(Run(s, rest), i, since)
  }

  lemma PredatesWasPending(s: State, rest: seq<Action>, i: nat, since: nat, pending: seq<nat>)
    requires Inv(s) && SameCall(s, i, since, pending) && Legal(s, rest)
    requires Predates(Run(s, rest), i, since)
    ensures pending != []
  {
    hide Inv;
    SameCallRun(s, rest, i, since, pending);
    RunKeepsInv(s, rest);
    FreshIffNotPending(Run(s, rest), i);
  }

  /** With a working clock a call that waits can be handed a copy begun before it if
      and only if the thread is copying when it enters. */
  lemma CopyPredatesIffCopying(s: State, i: nat)
    requires Inv(s) && !s.clockFailed && CallEnabled(s, Enter(i, true))
    requires BeginOutcome(s.flags, s.started, true).Waits?
    ensures CanPredate(CallNext(s, Enter(i, true)), i, s.steps) <==> s.thread.Copying?
  {
    var s1 := CallNext(s, Enter(i, true));
    CallKeeps(s, Enter(i, true));
    if s.thread.Copying? {
      assert CopyOk(s);
      var rest := FinishCopy(s1, i);
      assert Predates(Run(s1, rest), i, s.steps);
    } else if CanPredate(s1, i, s.steps) {
      var rest :| Legal(s1, rest) && Predates(Run(s1, rest), i, s.steps);
      PredatesWasPending(s1, rest, i, s.steps, []);
    }
  }
}
