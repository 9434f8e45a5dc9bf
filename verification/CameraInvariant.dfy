/** What holds in every state between steps, over all interleavings and for any
    number of callers. */
module CameraInvariant {
  import opened CaptureControl
  import opened Camera

  // ----- Flags, phases and conservation -----

  /** At most one of requested, ready and error is up; nothing is requested or
      ready while stopping or while no thread runs. */
  ghost predicate FlagsOk(s: State) {
    var f := s.flags;
    && Exclusive(f)
    && (Closed(s) ==> !f.requested && !f.ready)
    && (s.started <==> !s.thread.Absent?)
    && (s.started ==> s.mapped)
    && (s.started <==> s.phase.Joining? || (s.phase.Steady? && s.mapped))
    && (s.phase.Joining? ==> f.stop)
    && (s.phase.Steady? ==> !f.stop)
    && (s.phase.Resetting? ==> !s.mapped)
    && (s.thread.Exited? ==> f.stop)
  }

  predicate Closed(s: State) { s.flags.stop || !s.started }

  /** Every accepted request was delivered, failed, withdrawn, or is pending. */
  ghost predicate Conserved(s: State) {
    var t := s.tally;
    t.accepted == t.delivered + t.failed + t.withdrawn + if s.flags.requested then 1 else 0
  }

  // ----- The thread and its buffer -----

  /** The frame the thread is working on is still in its buffer; of a copy, the
      bytes done so far are in the secure memory. */
  ghost predicate ThreadOk(s: State) {
    var t := s.thread;
    && (HoldsBuffer(t) ==> t.idx < |s.buffers| && s.buffers[t.idx].owner.Held?)
    && (t.Deciding? || InFlight(t) ==>
        && t.used <= |s.buffers[t.idx].bytes|
        && t.frame < |s.frames|
        && s.frames[t.frame] == s.buffers[t.idx].bytes[..t.used])
    && (InFlight(t) ==> s.mapped && t.used <= |s.memory|)
    && (t.Copying? ==> t.done <= t.used && s.memory[..t.done] == s.frames[t.frame][..t.done])
  }

  /** Every filled buffer, and every frame dequeued from one, has its date; a filled
      buffer can be dequeued. */
  ghost predicate DatesOk(s: State) {
    && |s.filledAt| == |s.frames|
    && (forall k :: 0 <= k < |s.filledAt| ==> s.filledAt[k] < s.steps)
    && (forall k :: 0 <= k < |s.buffers| && s.buffers[k].owner.Filled? ==>
          s.buffers[k].owner.at < s.steps && s.buffers[k].owner.used <= |s.buffers[k].bytes|)
  }

  /** No buffer but the thread's is held; the lost ones are the failed requeues. */
  ghost predicate OwnersOk(s: State) {
    && (forall i :: 0 <= i < |s.buffers| && s.buffers[i].owner.Held? ==>
          HoldsBuffer(s.thread) && s.thread.idx == i)
    && LostCount(s.buffers) == s.failedRequeues
  }

  function LostCount(buffers: seq<Buffer>): nat {
    if buffers == [] then 0
    else LostCount(buffers[..|buffers| - 1]) + if buffers[|buffers| - 1].owner.Lost? then 1 else 0
  }

  // ----- The image -----

  /** The secure memory starts with exactly frame `frame`. */
  ghost predicate Contains(s: State, size: nat, frame: nat) {
    && s.mapped && size <= |s.memory| && frame < |s.frames|
    && s.memory[..size] == s.frames[frame]
  }

  /** A published image that is ready has no copy in flight behind it, and is one
      dequeued frame, untorn. */
  ghost predicate ReadyOk(s: State) {
    s.flags.ready ==>
      && !InFlight(s.thread)
      && Contains(s, s.flags.captured.size, s.last.frame)
  }

  /** No request has been accepted and no memory released since the hand-over. */
  predicate Undisturbed(s: State, c: Caller)
    requires c.Holding?
  {
    c.accepts == s.tally.accepted && c.releases == s.releases
  }

  ghost predicate HolderOk(s: State, c: Caller) {
    c.Holding? ==>
      && c.accepts <= s.tally.accepted && c.releases <= s.releases
      && c.delivery.frame < |s.frames|
      && c.image.size == |s.frames[c.delivery.frame]|
      && (Undisturbed(s, c) ==>
          !s.flags.requested && !InFlight(s.thread) && Contains(s, c.image.size, c.delivery.frame))
  }

  ghost predicate HoldersOk(s: State) {
    forall c :: c in s.callers ==> HolderOk(s, c)
  }

  // ----- Who may consume what -----

  ghost predicate Increasing(s: seq<nat>) { forall i, j :: 0 <= i < j < |s| ==> s[i] < s[j] }

  /** Deliveries are numbered; a ready one has not been consumed, was published
      after every waiting call entered, and each is consumed at most once. */
  ghost predicate DeliveriesOk(s: State) {
    && Increasing(s.consumed)
    && (forall n :: n in s.consumed ==> 0 < n <= s.tally.delivered)
    && (s.flags.ready ==> s.last.number == s.tally.delivered && 0 < s.last.number && s.last.number !in s.consumed)
    && (s.flags.ready ==> s.last.at < s.steps)
  }

  ghost predicate CallerOrderOk(s: State, c: Caller) {
    && (c.Waiting? ==> c.since < s.steps && (s.flags.ready ==> c.since < s.last.at))
    && (c.Holding? ==> c.since < c.delivery.at && c.delivery.number in s.consumed)
  }

  ghost predicate CallersOrderOk(s: State) {
    forall c :: c in s.callers ==> CallerOrderOk(s, c)
  }

  // ----- Time -----

  /** Copies since the last init began after its first accepted request; a copy in
      flight with nothing requested means some request was withdrawn. */
  ghost predicate CopyOk(s: State) {
    var t := s.thread;
    && (s.firstAccept == [] || (|s.firstAccept| == 1 && s.firstAccept[0] < s.steps))
    && (s.flags.requested ==> s.firstAccept != [])
    && (InFlight(t) ==> s.firstAccept != [])
    && (InFlight(t) && !s.flags.requested ==> s.anyWithdrawn)
    && (t.Copying? ==> s.firstAccept[0] < t.began < s.steps)
    && (t.Copying? && !s.clockFailed ==> t.stamp <= s.now)
  }

  /** The same for the image that is ready. */
  ghost predicate StampOk(s: State) {
    s.flags.ready ==>
      && s.firstAccept != [] && s.firstAccept[0] < s.last.began < s.steps
      && (!s.clockFailed ==> s.flags.captured.firstByteNs <= s.now)
  }

  /** How a caller's entry (step and clock) relates to a copy's timestamp. */
  ghost predicate Ordered(since: nat, time: nat, pending: seq<nat>, began: nat, stamp: nat) {
    && began != since
    && (began > since ==> time <= stamp)
    && (began < since ==> stamp <= time)
    && (began < since <==> pending == [began])
  }

  ghost predicate CallerTimeOk(s: State, c: Caller) {
    && (c.Waiting? ==> c.time <= s.now && forall b :: b in c.pending ==> b < c.since)
    && (c.Waiting? && s.thread.Copying? ==>
        Ordered(c.since, c.time, c.pending, s.thread.began, s.thread.stamp))
    && (c.Waiting? && s.flags.ready ==>
        Ordered(c.since, c.time, c.pending, s.last.began, s.flags.captured.firstByteNs))
    && (c.Holding? ==>
        Ordered(c.since, c.time, c.pending, c.delivery.began, c.image.firstByteNs))
  }

  ghost predicate CallersTimeOk(s: State) {
    !s.clockFailed ==> forall c :: c in s.callers ==> CallerTimeOk(s, c)
  }

  ghost predicate Inv(s: State) {
    && FlagsOk(s) && Conserved(s)
    && ThreadOk(s) && OwnersOk(s) && DatesOk(s)
    && ReadyOk(s) && HoldersOk(s)
    && DeliveriesOk(s) && CallersOrderOk(s)
    && CopyOk(s) && StampOk(s) && CallersTimeOk(s)
  }

  // ----- Each part is kept by every step -----

  lemma LostAfterUpdate(buffers: seq<Buffer>, i: nat, b: Buffer)
    requires i < |buffers|
    ensures LostCount(buffers[i := b]) + (if buffers[i].owner.Lost? then 1 else 0)
         == LostCount(buffers) + (if b.owner.Lost? then 1 else 0)
  {
    var n := |buffers| - 1;
    if i == n {
      assert buffers[i := b][..n] == buffers[..n];
    } else {
      assert buffers[i := b][..n] == buffers[..n][i := b];
      LostAfterUpdate(buffers[..n], i, b);
    }
  }

  lemma NoneLost(buffers: seq<Buffer>)
    requires forall b :: b in buffers ==> b.owner.Queued?
    ensures LostCount(buffers) == 0
  {}

  /** A call step changes at most the caller that takes it. */
  lemma CallersAfter(s: State, a: CallAction, c: Caller)
    requires CallEnabled(s, a) && c in CallNext(s, a).callers
    ensures c in s.callers || c == CallNext(s, a).callers[a.i]
  {}

  lemma DriverKeepsOwners(s: State, a: DriverAction)
    requires ThreadOk(s) && OwnersOk(s) && DriverEnabled(s, a)
    ensures ThreadOk(DriverNext(s, a)) && OwnersOk(DriverNext(s, a))
  {
    if !a.Tick? { LostAfterUpdate(s.buffers, a.idx, DriverNext(s, a).buffers[a.idx]); }
  }

  lemma DriverKeepsDates(s: State, a: DriverAction)
    requires DatesOk(s) && DriverEnabled(s, a)
    ensures DatesOk(DriverNext(s, a))
  {
    match a
    case Tick(_) =>
    case Writes(_, _) =>
    case Fills(_, _) =>
  }

  lemma ThreadKeepsDates(s: State, a: ThreadAction)
    requires DatesOk(s) && ThreadEnabled(s, a)
    ensures DatesOk(ThreadNext(s, a))
  {
    if a.Dequeue? {
      DequeueKeepsDates(s, a.idx);
    } else if a.Requeue? || a.RequeueFails? {
      RequeueKeepsDates(s, a);
    } else {
      KeepsBuffers(s, a);
      hide ThreadNext, ThreadEnabled;
    }
  }

  lemma DequeueKeepsDates(s: State, idx: nat)
    requires DatesOk(s) && ThreadEnabled(s, Dequeue(idx))
    ensures DatesOk(ThreadNext(s, Dequeue(idx)))
  {}

  lemma RequeueKeepsDates(s: State, a: ThreadAction)
    requires DatesOk(s) && ThreadEnabled(s, a) && (a.Requeue? || a.RequeueFails?)
    ensures DatesOk(ThreadNext(s, a))
  {}

  lemma KeepsBuffers(s: State, a: ThreadAction)
    requires ThreadEnabled(s, a) && !a.Dequeue? && !a.Requeue? && !a.RequeueFails?
    ensures var s' := ThreadNext(s, a);
      s'.buffers == s.buffers && s'.frames == s.frames && s'.filledAt == s.filledAt && s'.steps == s.steps + 1
  {
    hide Decided;
    match a
    case Stamp(_) =>
    case CopyByte =>
    case PublishCopy(_) =>
    case Report =>
    case _ =>
  }

  lemma CallKeepsDates(s: State, a: CallAction)
    requires DatesOk(s) && CallEnabled(s, a)
    ensures DatesOk(CallNext(s, a))
  {
    hide ResumeOutcome, Resume, BeginOutcome, Begin;
    match a
    case Enter(_, _) =>
    case Return(_, w) =>
      if ResumeOutcome(s.flags, w).Captured? {
      } else {
      }
  }

  lemma DriverKeepsCallers(s: State, a: DriverAction)
    requires HoldersOk(s) && CallersOrderOk(s) && CallersTimeOk(s) && DriverEnabled(s, a)
    ensures HoldersOk(DriverNext(s, a)) && CallersOrderOk(DriverNext(s, a)) && CallersTimeOk(DriverNext(s, a))
  {
    match a
    case Tick(_) =>
    case Writes(_, _) =>
    case Fills(_, _) =>
  }

  lemma DriverKeeps(s: State, a: DriverAction)
    requires Inv(s) && DriverEnabled(s, a)
    ensures Inv(DriverNext(s, a))
  {
    DriverKeepsOwners(s, a);
    DriverKeepsDates(s, a);
    DriverKeepsCallers(s, a);
    hide ThreadOk, OwnersOk, DatesOk, HoldersOk, CallersOrderOk, CallersTimeOk;
  }

  lemma ThreadKeepsFlags(s: State, a: ThreadAction)
    requires FlagsOk(s) && Conserved(s) && ThreadEnabled(s, a)
    ensures FlagsOk(ThreadNext(s, a)) && Conserved(ThreadNext(s, a))
  {
    match a
    case Dequeue(_) =>
    case Stamp(_) =>
    case CopyByte =>
    case PublishCopy(_) =>
    case Report =>
    case Requeue =>
    case RequeueFails(_) =>
    case _ =>
  }

  lemma ThreadKeepsFrame(s: State, a: ThreadAction)
    requires FlagsOk(s) && ThreadOk(s) && ThreadEnabled(s, a)
    ensures ThreadOk(ThreadNext(s, a))
  {
    match a
    case Dequeue(_) =>
    case Stamp(_) =>
    case CopyByte =>
    case PublishCopy(_) =>
    case Report =>
    case Requeue =>
    case RequeueFails(_) =>
    case _ =>
  }

  lemma ThreadKeepsOwners(s: State, a: ThreadAction)
    requires FlagsOk(s) && ThreadOk(s) && OwnersOk(s) && ThreadEnabled(s, a)
    ensures OwnersOk(ThreadNext(s, a))
  {
    var s' := ThreadNext(s, a);
    if a.Dequeue? { LostAfterUpdate(s.buffers, a.idx, s'.buffers[a.idx]); }
    if a.Requeue? || a.RequeueFails? {
      LostAfterUpdate(s.buffers, s.thread.idx, s'.buffers[s.thread.idx]);
    }
  }

  lemma ThreadKeepsImages(s: State, a: ThreadAction)
    requires FlagsOk(s) && ThreadOk(s) && ReadyOk(s) && HoldersOk(s) && ThreadEnabled(s, a)
    ensures ReadyOk(ThreadNext(s, a)) && HoldersOk(ThreadNext(s, a))
  {
    if a.PublishCopy? {
      PublishKeepsImages(s, a);
    } else if a.CopyByte? {
      CopyKeepsImages(s);
    } else {
      CarryingKeepsImages(s, a);
    }
  }

  lemma PublishKeepsImages(s: State, a: ThreadAction)
    requires ThreadOk(s) && ReadyOk(s) && HoldersOk(s) && ThreadEnabled(s, a) && a.PublishCopy?
    ensures ReadyOk(ThreadNext(s, a)) && HoldersOk(ThreadNext(s, a))
  {}

  lemma CopyKeepsImages(s: State)
    requires ThreadOk(s) && ReadyOk(s) && HoldersOk(s) && ThreadEnabled(s, CopyByte)
    ensures ReadyOk(ThreadNext(s, CopyByte)) && HoldersOk(ThreadNext(s, CopyByte))
  {}

  lemma CarryingKeepsImages(s: State, a: ThreadAction)
    requires FlagsOk(s) && ThreadOk(s) && ReadyOk(s) && HoldersOk(s) && ThreadEnabled(s, a)
    requires !a.PublishCopy? && !a.CopyByte?
    ensures ReadyOk(ThreadNext(s, a)) && HoldersOk(ThreadNext(s, a))
  {
    hide Published;
    match a
    case Dequeue(_) =>
    case Stamp(_) =>
    case Report =>
    case Requeue =>
    case RequeueFails(_) =>
    case _ =>
  }

  lemma ThreadKeepsOrder(s: State, a: ThreadAction)
    requires FlagsOk(s) && DeliveriesOk(s) && CallersOrderOk(s) && ThreadEnabled(s, a)
    ensures DeliveriesOk(ThreadNext(s, a)) && CallersOrderOk(ThreadNext(s, a))
  {
    match a
    case Dequeue(_) =>
    case Stamp(_) =>
    case CopyByte =>
    case PublishCopy(_) =>
    case Report =>
    case Requeue =>
    case RequeueFails(_) =>
    case _ =>
  }

  lemma ThreadKeepsCopy(s: State, a: ThreadAction)
    requires FlagsOk(s) && ReadyOk(s) && CopyOk(s) && ThreadEnabled(s, a)
    ensures CopyOk(ThreadNext(s, a))
  {
    if a.PublishCopy? || a.Report? {
      LoweringKeepsCopy(s, a);
    } else {
      MovingKeepsCopy(s, a);
    }
  }

  lemma LoweringKeepsCopy(s: State, a: ThreadAction)
    requires CopyOk(s) && ThreadEnabled(s, a) && (a.PublishCopy? || a.Report?)
    ensures CopyOk(ThreadNext(s, a))
  {}

  lemma MovingKeepsCopy(s: State, a: ThreadAction)
    requires FlagsOk(s) && CopyOk(s) && ThreadEnabled(s, a) && !a.PublishCopy? && !a.Report?
    ensures CopyOk(ThreadNext(s, a))
  {
    if a.Decide? || a.Stamp? {
      StartingKeepsCopy(s, a);
    } else {
      CarryingKeepsCopy(s, a);
    }
  }

  lemma StartingKeepsCopy(s: State, a: ThreadAction)
    requires CopyOk(s) && ThreadEnabled(s, a) && (a.Decide? || a.Stamp?)
    ensures CopyOk(ThreadNext(s, a))
  {}

  lemma CarryingKeepsCopy(s: State, a: ThreadAction)
    requires CopyOk(s) && ThreadEnabled(s, a)
    requires !a.PublishCopy? && !a.Report? && !a.Decide? && !a.Stamp?
    ensures CopyOk(ThreadNext(s, a))
  {
    hide Published, Reported, Decided;
    match a
    case Dequeue(_) =>
    case CopyByte =>
    case Requeue =>
    case RequeueFails(_) =>
    case _ =>
  }

  lemma ThreadKeepsStamp(s: State, a: ThreadAction)
    requires CopyOk(s) && StampOk(s) && ThreadEnabled(s, a)
    ensures StampOk(ThreadNext(s, a))
  {
    match a
    case Dequeue(_) =>
    case Stamp(_) =>
    case CopyByte =>
    case PublishCopy(_) =>
    case Report =>
    case Requeue =>
    case RequeueFails(_) =>
    case _ =>
  }

  lemma ThreadKeepsTime(s: State, a: ThreadAction)
    requires FlagsOk(s) && ReadyOk(s) && CopyOk(s) && StampOk(s) && CallersOrderOk(s) && CallersTimeOk(s)
    requires ThreadEnabled(s, a)
    ensures CallersTimeOk(ThreadNext(s, a))
  {
    var s' := ThreadNext(s, a);
    if !s'.clockFailed {
      forall c | c in s'.callers ensures CallerTimeOk(s', c) {
        assert s.steps in [s.steps];
      }
    }
  }

  lemma EnterKeepsFlags(s: State, a: CallAction)
    requires a.Enter? && FlagsOk(s) && Conserved(s) && CallEnabled(s, a)
    ensures FlagsOk(CallNext(s, a)) && Conserved(CallNext(s, a))
  {}

  lemma EnterKeepsFrame(s: State, a: CallAction)
    requires a.Enter? && FlagsOk(s) && ThreadOk(s) && OwnersOk(s) && CallEnabled(s, a)
    ensures ThreadOk(CallNext(s, a)) && OwnersOk(CallNext(s, a))
  {}

  lemma EnterKeepsReady(s: State, a: CallAction)
    requires a.Enter? && FlagsOk(s) && ReadyOk(s) && CallEnabled(s, a)
    ensures ReadyOk(CallNext(s, a))
  {}

  lemma EnterKeepsHolders(s: State, a: CallAction)
    requires a.Enter? && FlagsOk(s) && ThreadOk(s) && ReadyOk(s) && HoldersOk(s) && CallEnabled(s, a)
    ensures HoldersOk(CallNext(s, a))
  {
    var s' := CallNext(s, a);
    assert s.callers[a.i] in s.callers;
    forall c | c in s'.callers ensures HolderOk(s', c) { CallersAfter(s, a, c); }
  }

  lemma EnterKeepsDeliveries(s: State, a: CallAction)
    requires a.Enter? && FlagsOk(s) && DeliveriesOk(s) && CallEnabled(s, a)
    ensures DeliveriesOk(CallNext(s, a))
  {}

  lemma EnterKeepsOrder(s: State, a: CallAction)
    requires a.Enter? && FlagsOk(s) && DeliveriesOk(s) && CallersOrderOk(s) && CallEnabled(s, a)
    ensures CallersOrderOk(CallNext(s, a))
  {
    var s' := CallNext(s, a);
    assert s.callers[a.i] in s.callers;
    forall c | c in s'.callers ensures CallerOrderOk(s', c) { CallersAfter(s, a, c); }
  }

  lemma EnterKeepsCopy(s: State, a: CallAction)
    requires a.Enter? && FlagsOk(s) && ReadyOk(s) && CopyOk(s) && StampOk(s) && CallEnabled(s, a)
    ensures CopyOk(CallNext(s, a))
  {}

  lemma EnterKeepsStamp(s: State, a: CallAction)
    requires a.Enter? && StampOk(s) && CallEnabled(s, a)
    ensures StampOk(CallNext(s, a))
  {}

  lemma EnterKeepsTime(s: State, a: CallAction)
    requires a.Enter? && FlagsOk(s) && ReadyOk(s) && CopyOk(s) && StampOk(s)
    requires CallersOrderOk(s) && CallersTimeOk(s) && CallEnabled(s, a)
    ensures CallersTimeOk(CallNext(s, a))
  {
    var s' := CallNext(s, a);
    assert s.callers[a.i] in s.callers;
    if !s.clockFailed {
      forall c | c in s'.callers ensures CallerTimeOk(s', c) { CallersAfter(s, a, c); }
    }
  }

  lemma ReturnKeepsFlags(s: State, a: CallAction)
    requires a.Return? && FlagsOk(s) && Conserved(s) && CallEnabled(s, a)
    ensures FlagsOk(CallNext(s, a)) && Conserved(CallNext(s, a))
  {
    var outcome := ResumeOutcome(s.flags, a.wait);
    if outcome.KeepsWaiting? {
    } else if outcome.Captured? {
    } else {
    }
  }

  lemma ReturnKeepsFrame(s: State, a: CallAction)
    requires a.Return? && FlagsOk(s) && ThreadOk(s) && OwnersOk(s) && CallEnabled(s, a)
    ensures ThreadOk(CallNext(s, a)) && OwnersOk(CallNext(s, a))
  {
    var outcome := ResumeOutcome(s.flags, a.wait);
    if outcome.KeepsWaiting? {
    } else if outcome.Captured? {
    } else {
    }
  }

  lemma ReturnKeepsReady(s: State, a: CallAction)
    requires a.Return? && FlagsOk(s) && ReadyOk(s) && CallEnabled(s, a)
    ensures ReadyOk(CallNext(s, a))
  {
    var outcome := ResumeOutcome(s.flags, a.wait);
    if outcome.KeepsWaiting? {
    } else if outcome.Captured? {
    } else {
    }
  }

  lemma ReturnKeepsHolders(s: State, a: CallAction)
    requires a.Return? && FlagsOk(s) && ThreadOk(s) && ReadyOk(s) && HoldersOk(s) && CallEnabled(s, a)
    ensures HoldersOk(CallNext(s, a))
  {
    hide BeginOutcome, Begin, Entered;
    var s' := CallNext(s, a);
    assert s.callers[a.i] in s.callers;
    forall c | c in s'.callers ensures HolderOk(s', c) { CallersAfter(s, a, c); }
  }

  lemma ReturnKeepsDeliveries(s: State, a: CallAction)
    requires a.Return? && FlagsOk(s) && DeliveriesOk(s) && CallEnabled(s, a)
    ensures DeliveriesOk(CallNext(s, a))
  {
    forall i | 0 <= i < |s.consumed| && s.flags.ready
      ensures s.consumed[i] < s.last.number
    {
      assert s.consumed[i] in s.consumed;
    }
  }

  lemma ReturnKeepsOrder(s: State, a: CallAction)
    requires a.Return? && FlagsOk(s) && DeliveriesOk(s) && CallersOrderOk(s) && CallEnabled(s, a)
    ensures CallersOrderOk(CallNext(s, a))
  {
    var s' := CallNext(s, a);
    assert s.callers[a.i] in s.callers;
    forall c | c in s'.callers ensures CallerOrderOk(s', c) { CallersAfter(s, a, c); }
  }

  lemma ReturnKeepsCopy(s: State, a: CallAction)
    requires a.Return? && FlagsOk(s) && ReadyOk(s) && CopyOk(s) && StampOk(s) && CallEnabled(s, a)
    ensures CopyOk(CallNext(s, a))
  {
    var outcome := ResumeOutcome(s.flags, a.wait);
    if outcome.KeepsWaiting? {
    } else if outcome.Captured? {
    } else {
    }
  }

  lemma ReturnKeepsStamp(s: State, a: CallAction)
    requires a.Return? && StampOk(s) && CallEnabled(s, a)
    ensures StampOk(CallNext(s, a))
  {
    var outcome := ResumeOutcome(s.flags, a.wait);
    if outcome.KeepsWaiting? {
    } else if outcome.Captured? {
    } else {
    }
  }

  lemma ReturnKeepsTime(s: State, a: CallAction)
    requires a.Return? && FlagsOk(s) && ReadyOk(s) && CopyOk(s) && StampOk(s)
    requires CallersOrderOk(s) && CallersTimeOk(s) && CallEnabled(s, a)
    ensures CallersTimeOk(CallNext(s, a))
  {
    var s' := CallNext(s, a);
    assert s.callers[a.i] in s.callers;
    if !s.clockFailed {
      forall c | c in s'.callers ensures CallerTimeOk(s', c) { CallersAfter(s, a, c); }
    }
  }

  lemma InitKeeps(s: State, a: OwnerAction)
    requires Inv(s) && OwnerEnabled(s, a) && a.Initialise?
    ensures Inv(OwnerNext(s, a))
  {
    NoneLost(a.buffers);
  }

  lemma StopKeeps(s: State)
    requires Inv(s) && OwnerEnabled(s, DeinitStop)
    ensures Inv(OwnerNext(s, DeinitStop))
  {}

  lemma JoinKeeps(s: State)
    requires Inv(s) && OwnerEnabled(s, DeinitJoin)
    ensures Inv(OwnerNext(s, DeinitJoin))
  {}

  lemma ReleaseKeeps(s: State)
    requires Inv(s) && OwnerEnabled(s, DeinitRelease)
    ensures Inv(OwnerNext(s, DeinitRelease))
  {}

  lemma ResetKeeps(s: State)
    requires Inv(s) && OwnerEnabled(s, DeinitReset)
    ensures Inv(OwnerNext(s, DeinitReset))
  {}

  lemma OwnerKeeps(s: State, a: OwnerAction)
    requires Inv(s) && OwnerEnabled(s, a)
    ensures Inv(OwnerNext(s, a))
  {
    hide Inv;
    match a
    case Initialise(_, _, _) => InitKeeps(s, a);
    case DeinitStop => StopKeeps(s);
    case DeinitJoin => JoinKeeps(s);
    case DeinitRelease => ReleaseKeeps(s);
    case DeinitReset => ResetKeeps(s);
  }

  lemma ThreadKeeps(s: State, a: ThreadAction)
    requires Inv(s) && ThreadEnabled(s, a)
    ensures Inv(ThreadNext(s, a))
  {
    ThreadKeepsFlags(s, a);
    ThreadKeepsFrame(s, a);
    ThreadKeepsOwners(s, a);
    ThreadKeepsDates(s, a);
    ThreadKeepsImages(s, a);
    ThreadKeepsOrder(s, a);
    ThreadKeepsCopy(s, a);
    ThreadKeepsStamp(s, a);
    ThreadKeepsTime(s, a);
  }

  lemma CallKeeps(s: State, a: CallAction)
    requires Inv(s) && CallEnabled(s, a)
    ensures Inv(CallNext(s, a))
  {
    CallKeepsDates(s, a);
    if a.Enter? {
      EnterKeepsFlags(s, a);
      EnterKeepsFrame(s, a);
      EnterKeepsReady(s, a);
      EnterKeepsHolders(s, a);
      EnterKeepsDeliveries(s, a);
      EnterKeepsOrder(s, a);
      EnterKeepsCopy(s, a);
      EnterKeepsStamp(s, a);
      EnterKeepsTime(s, a);
    } else {
      ReturnKeepsFlags(s, a);
      ReturnKeepsFrame(s, a);
      ReturnKeepsReady(s, a);
      ReturnKeepsHolders(s, a);
      ReturnKeepsDeliveries(s, a);
      ReturnKeepsOrder(s, a);
      ReturnKeepsCopy(s, a);
      ReturnKeepsStamp(s, a);
      ReturnKeepsTime(s, a);
    }
  }

  lemma StepKeepsInv(s: State, a: Action)
    requires Inv(s) && Enabled(s, a)
    ensures Inv(Next(s, a))
  {
    match a
    case ByDriver(d) => DriverKeeps(s, d);
    case ByThread(t) => ThreadKeeps(s, t);
    case ByCaller(c) => CallKeeps(s, c);
    case ByOwner(o) => OwnerKeeps(s, o);
  }

  lemma BootOk(callers: nat, now: nat)
    ensures Inv(Boot(callers, now))
  {}

  lemma {:induction false} RunKeepsInv(s: State, actions: seq<Action>)
    requires Inv(s) && Legal(s, actions)
    ensures Inv(Run(s, actions))
    decreases |actions|
  {
    if actions != [] {
      StepKeepsInv(s, actions[0]);
      RunKeepsInv(Next(s, actions[0]), actions[1..]);
    }
  }
}
