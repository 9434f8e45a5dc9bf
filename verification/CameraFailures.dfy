/** A failing step of the capture thread reaches the call that is waiting, with its
    errno; every other step short of a publication tells the callers nothing. */
module CameraFailures {
  import opened CaptureControl
  import opened Camera
  import opened CameraInvariant
  import CT = CameraTheorems

  /** The thread has dequeued a frame for a pending request that it cannot deliver. */
  predicate BadFrame(s: State) {
    && s.thread.Deciding? && s.flags.requested && !s.flags.ready
    && (s.thread.used == 0 || s.thread.used > |s.memory|)
  }

  /** The step fails. */
  predicate Fails(s: State, a: ThreadAction) {
    match a
    case PollFails(_) => true
    case PollHangsUp => true
    case DequeueFails(_) => true
    case RequeueFails(_) => true
    case Decide => BadFrame(s)
    case _ => false
  }

  /** With a nonzero error number: poll's, DQBUF's or QBUF's errno, EIO for a
      hang-up, EMSGSIZE for a frame that does not fit. */
  function ErrorOf(a: ThreadAction): nat {
    match a
    case PollFails(errno) => if errno == 0 then 5 else errno
    case DequeueFails(errno) => if errno == 0 then 5 else errno
    case RequeueFails(errno) => if errno == 0 then 5 else errno
    case Decide => 90
    case _ => 5
  }

  ghost predicate WithoutThread(actions: seq<Action>) { forall a :: a in actions ==> !a.ByThread? }

  /** The thread is about to report `errno`. */
  predicate AboutToReport(t: Thread, errno: nat) {
    (t.Reporting? || t.ReportingHeld?) && (if t.errno == 0 then 5 else t.errno) == errno
  }

  lemma FailureIsNoted(s: State, a: ThreadAction)
    requires Inv(s) && ThreadEnabled(s, a) && Fails(s, a)
    ensures AboutToReport(ThreadNext(s, a).thread, ErrorOf(a)) && ThreadNext(s, a).flags == s.flags
  {}

  /** Nobody else moves a thread that is about to report. */
  lemma OthersWait(s: State, a: Action)
    requires Enabled(s, a) && !a.ByThread? && (s.thread.Reporting? || s.thread.ReportingHeld?)
    requires FlagsOk(s)
    ensures Next(s, a).thread == s.thread
  {
    match a
    case ByDriver(d) => CT.DriverFrame(s, d);
    case ByCaller(c) => CT.CallFrame(s, c);
    case ByOwner(o) =>
  }

  lemma {:induction false} OthersWaitOverRuns(s: State, others: seq<Action>)
    requires Inv(s) && Legal(s, others) && WithoutThread(others)
    requires s.thread.Reporting? || s.thread.ReportingHeld?
    ensures Inv(Run(s, others)) && Run(s, others).thread == s.thread
    decreases |others|
  {
    if others != [] {
      var a := others[0];
      assert a in others;
      assert FlagsOk(s);
      assert WithoutThread(others[1..]) by { forall b | b in others[1..] ensures b in others {} }
      OthersWait(s, a);
      StepKeepsInv(s, a);
      hide Inv, FlagsOk, Next, Enabled, WithoutThread;
      OthersWaitOverRuns(Next(s, a), others[1..]);
    }
  }

  /** The report ends the pending request: its call, once woken, fails with this error,
      whichever call that is; without a request nothing changes. */
  ghost predicate Reports(s: State, s': State, errno: nat) {
    if s.flags.requested then
      && ResumeOutcome(s'.flags, Woken) == Failed(errno) && !s'.flags.requested
      && s'.tally == s.tally.(failed := s.tally.failed + 1)
    else s'.flags == s.flags && s'.tally == s.tally
  }

  lemma ReportReaches(s: State, errno: nat)
    requires FlagsOk(s) && AboutToReport(s.thread, errno)
    ensures ThreadEnabled(s, Report) && Reports(s, ThreadNext(s, Report), errno)
    ensures forall t: ThreadAction :: ThreadEnabled(s, t) ==> t == Report
  {}

  /** After a failing step, whatever callers, driver and owner do meanwhile, the
      thread's only next step reports that failure to the request then pending. */
  lemma FailureReachesCall(s: State, a: ThreadAction, others: seq<Action>)
    requires Inv(s) && ThreadEnabled(s, a) && Fails(s, a)
    requires Legal(ThreadNext(s, a), others) && WithoutThread(others)
    ensures var s1 := Run(ThreadNext(s, a), others);
      && ThreadEnabled(s1, Report) && (forall t: ThreadAction :: ThreadEnabled(s1, t) ==> t == Report)
      && Reports(s1, ThreadNext(s1, Report), ErrorOf(a))
  {
    FailureIsNoted(s, a);
    ThreadKeeps(s, a);
    OthersWaitOverRuns(ThreadNext(s, a), others);
    var s1 := Run(ThreadNext(s, a), others);
    assert FlagsOk(s1);
    hide Inv, FlagsOk, ThreadNext, ThreadEnabled, Reports;
    ReportReaches(s1, ErrorOf(a));
  }

  /** Only a publication and a report touch the flags, and only if a call is pending;
      a poll that times out and a DQBUF without a frame lead back to the loop head;
      and no step that works leads to a report. */
  lemma OtherStepsAreSilent(s: State, a: ThreadAction)
    requires ThreadOk(s) && ThreadEnabled(s, a)
    ensures (!a.PublishCopy? && !a.Report?) || !s.flags.requested ==>
      ThreadNext(s, a).flags == s.flags && ThreadNext(s, a).tally == s.tally
    ensures a.PollIdle? || a.DequeueAgain? ==> ThreadNext(s, a).thread.Head?
    ensures !Fails(s, a) ==> !ThreadNext(s, a).thread.Reporting? && !ThreadNext(s, a).thread.ReportingHeld?
  {
    match a
    case Dequeue(_) =>
    case Stamp(_) =>
    case CopyByte =>
    case PublishCopy(_) =>
    case Report =>
    case Requeue =>
    case RequeueFails(_) =>
    case _ =>
  }
}
