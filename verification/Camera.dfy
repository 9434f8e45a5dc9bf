/** The capture module as a transition system: the driver, the capture thread, any
    number of snapshot callers, and init/deinit.  Every critical section is one
    step; between them every thread may be interleaved; the frame copy is one step
    per byte. */
module Camera {
  import opened Bytes
  import opened CaptureControl

  /** Who may touch a mapped buffer.  Only the driver writes, and only to Queued
      ones; a buffer whose QBUF failed is Lost, one filled at step `at` is Filled. */
  datatype Owner = Queued | Filled(used: nat, at: nat) | Held | Lost

  datatype Buffer = Buffer(owner: Owner, bytes: seq<byte>)

  /** Where the capture thread is.  `frame` numbers the dequeued frame it holds;
      `began` is the step at which the copy's timestamp was taken. */
  datatype Thread =
    | Absent
    | Head
    | Polling
    | Dequeuing
    | Deciding(idx: nat, used: nat, frame: nat)
    | Stamping(idx: nat, used: nat, frame: nat)
    | Copying(idx: nat, used: nat, frame: nat, done: nat, stamp: nat, began: nat)
    | Reporting(errno: nat)
    | ReportingHeld(errno: nat, idx: nat)
    | Requeuing(idx: nat)
    | Exited

  /** History of the last published image: its frame, its number, when it was
      published and when its copy began. */
  datatype Delivery = Delivery(frame: nat, number: nat, at: nat, began: nat)

  /** A caller outside, waiting since step `since` (clock `time`), or back with an
      image.  `pending` is the copy that was in flight when it entered; `accepts`
      and `releases` are the counters when the image was handed over. */
  datatype Caller =
    | Idle
    | Waiting(since: nat, time: nat, pending: seq<nat>)
    | Holding(image: Image, delivery: Delivery, since: nat, time: nat, pending: seq<nat>,
              accepts: nat, releases: nat)

  datatype Phase = Steady | Joining | Releasing | Resetting

  /** Counts of accepted requests and of the three ways a request ends. */
  datatype Tally = Tally(accepted: nat, delivered: nat, failed: nat, withdrawn: nat)

  datatype State = State(
    flags: Flags,
    started: bool,
    phase: Phase,
    mapped: bool,
    memory: seq<byte>,
    geometry: Geometry,
    buffers: seq<Buffer>,
    thread: Thread,
    callers: seq<Caller>,
    now: nat,
    // history
    steps: nat,
    frames: seq<seq<byte>>,
    filledAt: seq<nat>,
    last: Delivery,
    consumed: seq<nat>,
    tally: Tally,
    failedRequeues: nat,
    releases: nat,
    clockFailed: bool,
    // since the last init
    firstAccept: seq<nat>,
    anyWithdrawn: bool)

  /** The clock and the driver. */
  datatype DriverAction =
    | Tick(elapsed: nat)
    | Writes(idx: nat, bytes: seq<byte>)
    | Fills(idx: nat, used: nat)

  /** The capture thread, one loop body from its head. */
  datatype ThreadAction =
    | CheckStop
    | PollFails(errno: nat)
    | PollIdle
    | PollHangsUp
    | PollReady
    | DequeueAgain
    | DequeueFails(errno: nat)
    | Dequeue(idx: nat)
    | Decide
    | Stamp(clockWorks: bool)
    | CopyByte
    | PublishCopy(frameNs: nat)
    | Report
    | Requeue
    | RequeueFails(errno: nat)

  /** Caller `i` enters a snapshot, or returns from its wait with the mutex held. */
  datatype CallAction = Enter(i: nat, clockWorks: bool) | Return(i: nat, wait: Wait)

  datatype OwnerAction =
    | Initialise(buffers: seq<Buffer>, memory: seq<byte>, geometry: Geometry)
    | DeinitStop
    | DeinitJoin
    | DeinitRelease
    | DeinitReset

  datatype Action =
    | ByDriver(driver: DriverAction)
    | ByThread(thread: ThreadAction)
    | ByCaller(call: CallAction)
    | ByOwner(owner: OwnerAction)

  /** A copy is in flight once the thread has decided to copy. */
  predicate InFlight(t: Thread) { t.Stamping? || t.Copying? }

  predicate HoldsBuffer(t: Thread) {
    t.Deciding? || t.Stamping? || t.Copying? || t.ReportingHeld? || t.Requeuing?
  }

  predicate DriverEnabled(s: State, a: DriverAction) {
    match a
    case Tick(_) => true
    case Writes(idx, bytes) =>
      idx < |s.buffers| && s.buffers[idx].owner.Queued? && |bytes| == |s.buffers[idx].bytes|
    case Fills(idx, used) =>
      idx < |s.buffers| && s.buffers[idx].owner.Queued? && used <= |s.buffers[idx].bytes|
  }

  predicate ThreadEnabled(s: State, a: ThreadAction) {
    match a
    case CheckStop => s.thread.Head?
    case PollFails(_) => s.thread.Polling?
    case PollIdle => s.thread.Polling?
    case PollHangsUp => s.thread.Polling?
    case PollReady => s.thread.Polling?
    case DequeueAgain => s.thread.Dequeuing?
    case DequeueFails(_) => s.thread.Dequeuing?
    case Dequeue(idx) =>
      s.thread.Dequeuing? && idx < |s.buffers| && s.buffers[idx].owner.Filled?
      && s.buffers[idx].owner.used <= |s.buffers[idx].bytes|
    case Decide => s.thread.Deciding?
    case Stamp(_) => s.thread.Stamping?
    case CopyByte =>
      s.thread.Copying? && s.thread.done < s.thread.used && s.thread.done < |s.memory|
      && s.thread.idx < |s.buffers| && s.thread.done < |s.buffers[s.thread.idx].bytes|
    case PublishCopy(_) => s.thread.Copying? && s.thread.done == s.thread.used
    case Report => s.thread.Reporting? || s.thread.ReportingHeld?
    case Requeue => s.thread.Requeuing? && s.thread.idx < |s.buffers|
    case RequeueFails(_) => s.thread.Requeuing? && s.thread.idx < |s.buffers|
  }

  predicate CallEnabled(s: State, a: CallAction) {
    a.i < |s.callers| && (a.Return? <==> s.callers[a.i].Waiting?)
  }

  predicate OwnerEnabled(s: State, a: OwnerAction) {
    match a
    case Initialise(buffers, _, _) =>
      s.phase.Steady? && !s.started && forall b :: b in buffers ==> b.owner.Queued?
    case DeinitStop => s.phase.Steady?
    case DeinitJoin => s.phase.Joining? && s.thread.Exited?
    case DeinitRelease => s.phase.Releasing?
    case DeinitReset => s.phase.Resetting?
  }

  predicate Enabled(s: State, a: Action) {
    match a
    case ByDriver(d) => DriverEnabled(s, d)
    case ByThread(t) => ThreadEnabled(s, t)
    case ByCaller(c) => CallEnabled(s, c)
    case ByOwner(o) => OwnerEnabled(s, o)
  }

  function Drop(f: Flags, t: Tally): Tally {
    if f.requested then t.(withdrawn := t.withdrawn + 1) else t
  }

  /** The thread's part after it has dequeued and asked whether to copy. */
  function Decided(s: State): Thread
    requires s.thread.Deciding?
  {
    var t := s.thread;
    if !ShouldCapture(s.flags) then Requeuing(t.idx)
    else if t.idx >= |s.buffers| || t.used == 0 || t.used > |s.memory| then ReportingHeld(EMSGSIZE, t.idx)
    else Stamping(t.idx, t.used, t.frame)
  }

  function Published(s: State, frameNs: nat): State
    requires s.thread.Copying?
  {
    var t := s.thread;
    var image := Image(t.used, t.stamp, frameNs, s.geometry);
    if s.flags.requested then
      s.(flags := Publish(s.flags, image), thread := Requeuing(t.idx),
      last := Delivery(t.frame, s.tally.delivered + 1, s.steps, t.began),
      tally := s.tally.(delivered := s.tally.delivered + 1))
    else s.(thread := Requeuing(t.idx))
  }

  function Reported(s: State): State
    requires s.thread.Reporting? || s.thread.ReportingHeld?
  {
    s.(flags := SignalFailure(s.flags, s.thread.errno),
    thread := if s.thread.Reporting? then Head else Requeuing(s.thread.idx),
    tally := if s.flags.requested then s.tally.(failed := s.tally.failed + 1) else s.tally)
  }

  function Entered(s: State, i: nat, clockWorks: bool): State
    requires i < |s.callers|
  {
    var outcome := BeginOutcome(s.flags, s.started, clockWorks);
    if outcome.NoDevice? || outcome.Busy? then s.(callers := s.callers[i := Idle])
    else
      // accepted; unless it waits, also withdrawn in the same critical section
      s.(flags := Begin(s.flags, s.started, clockWorks),
      callers := s.callers[i := if outcome.Waits? then Waiting(s.steps, s.now, PendingCopy(s.thread)) else Idle],
      tally := s.tally.(accepted := s.tally.accepted + 1,
      withdrawn := s.tally.withdrawn + if outcome.Waits? then 0 else 1),
      firstAccept := if s.firstAccept == [] then [s.steps] else s.firstAccept,
      anyWithdrawn := s.anyWithdrawn || !outcome.Waits?)
  }

  function PendingCopy(t: Thread): seq<nat> { if t.Copying? then [t.began] else [] }

  function Returned(s: State, i: nat, w: Wait): State
    requires i < |s.callers| && s.callers[i].Waiting?
  {
    var outcome := ResumeOutcome(s.flags, w);
    if outcome.KeepsWaiting? then s
    else if outcome.Captured? then HandedOver(s, i)
    else
      s.(flags := Resume(s.flags, w), callers := s.callers[i := Idle], tally := Drop(s.flags, s.tally),
      anyWithdrawn := s.anyWithdrawn || s.flags.requested)
  }

  function HandedOver(s: State, i: nat): State
    requires i < |s.callers| && s.callers[i].Waiting?
  {
    var c := s.callers[i];
    s.(flags := Resume(s.flags, Woken), consumed := s.consumed + [s.last.number],
    callers := s.callers[i := Holding(s.flags.captured, s.last, c.since, c.time, c.pending,
                                      s.tally.accepted, s.releases)])
  }

  function WithOwner(s: State, idx: nat, owner: Owner): State
    requires idx < |s.buffers|
  {
    s.(buffers := s.buffers[idx := s.buffers[idx].(owner := owner)])
  }

  function DriverEffect(s: State, a: DriverAction): State
    requires DriverEnabled(s, a)
  {
    match a
    case Tick(elapsed) => s.(now := s.now + elapsed)
    case Writes(idx, bytes) => s.(buffers := s.buffers[idx := Buffer(Queued, bytes)])
    case Fills(idx, used) => WithOwner(s, idx, Filled(used, s.steps))
  }

  /** Steps that only move the thread. */
  function Moved(s: State, a: ThreadAction): Thread
    requires ThreadEnabled(s, a)
  {
    match a
    case CheckStop => if s.flags.stop then Exited else Polling
    case PollFails(errno) => Reporting(errno)
    case PollIdle => Head
    case PollHangsUp => Reporting(EIO)
    case PollReady => Dequeuing
    case DequeueAgain => Head
    case DequeueFails(errno) => Reporting(errno)
    case Decide => Decided(s)
    case _ => s.thread
  }

  function ThreadEffect(s: State, a: ThreadAction): State
    requires ThreadEnabled(s, a)
  {
    match a
    case Dequeue(idx) =>
      var b := s.buffers[idx];
      WithOwner(s, idx, Held).(thread := Deciding(idx, b.owner.used, |s.frames|),
      frames := s.frames + [b.bytes[..b.owner.used]], filledAt := s.filledAt + [b.owner.at])
    case Stamp(clockWorks) =>
      var t := s.thread;
      s.(thread := Copying(t.idx, t.used, t.frame, 0, if clockWorks then s.now else 0, s.steps),
      clockFailed := s.clockFailed || !clockWorks)
    case CopyByte =>
      var t := s.thread;
      s.(memory := s.memory[t.done := s.buffers[t.idx].bytes[t.done]], thread := t.(done := t.done + 1))
    case PublishCopy(frameNs) => Published(s, frameNs)
    case Report => Reported(s)
    case Requeue => WithOwner(s, s.thread.idx, Queued).(thread := Head)
    case RequeueFails(errno) =>
      WithOwner(s, s.thread.idx, Lost).(thread := Reporting(errno), failedRequeues := s.failedRequeues + 1)
    case _ => s.(thread := Moved(s, a))
  }

  function CallEffect(s: State, a: CallAction): State
    requires CallEnabled(s, a)
  {
    match a
    case Enter(i, clockWorks) => Entered(s, i, clockWorks)
    case Return(i, w) => Returned(s, i, w)
  }

  function OwnerEffect(s: State, a: OwnerAction): State
    requires OwnerEnabled(s, a)
  {
    match a
    case Initialise(buffers, memory, geometry) =>
      s.(flags := CLEARED, started := true, mapped := true, memory := memory, geometry := geometry,
      buffers := buffers, thread := Head, failedRequeues := 0, firstAccept := [], anyWithdrawn := false)
    case DeinitStop =>
      if s.started then
        s.(flags := RequestStop(s.flags), phase := Joining, tally := Drop(s.flags, s.tally),
        anyWithdrawn := s.anyWithdrawn || s.flags.requested)
      else s.(phase := Releasing)
    case DeinitJoin => s.(thread := Absent, started := false, phase := Releasing)
    case DeinitRelease =>
      s.(mapped := false, memory := [], geometry := NO_GEOMETRY, buffers := [], failedRequeues := 0,
      releases := s.releases + 1, phase := Resetting)
    case DeinitReset => s.(flags := CLEARED, phase := Steady)
  }

  function DriverNext(s: State, a: DriverAction): State
    requires DriverEnabled(s, a)
  {
    DriverEffect(s, a).(steps := s.steps + 1)
  }

  function ThreadNext(s: State, a: ThreadAction): State
    requires ThreadEnabled(s, a)
  {
    ThreadEffect(s, a).(steps := s.steps + 1)
  }

  function CallNext(s: State, a: CallAction): State
    requires CallEnabled(s, a)
  {
    CallEffect(s, a).(steps := s.steps + 1)
  }

  function OwnerNext(s: State, a: OwnerAction): State
    requires OwnerEnabled(s, a)
  {
    OwnerEffect(s, a).(steps := s.steps + 1)
  }

  function Next(s: State, a: Action): State
    requires Enabled(s, a)
  {
    match a
    case ByDriver(d) => DriverNext(s, d)
    case ByThread(t) => ThreadNext(s, t)
    case ByCaller(c) => CallNext(s, c)
    case ByOwner(o) => OwnerNext(s, o)
  }

  /** Before the first init, with any number of callers and any clock. */
  function Boot(callers: nat, now: nat): State {
    State(CLEARED, false, Steady, false, [], NO_GEOMETRY, [], Absent,
          seq(callers, i => Idle), now, 0, [], [], Delivery(0, 0, 0, 0), [], Tally(0, 0, 0, 0),
          0, 0, false, [], false)
  }

  // ----- Runs -----

  ghost predicate Legal(s: State, actions: seq<Action>)
    decreases |actions|
  {
    actions == [] || (Enabled(s, actions[0]) && Legal(Next(s, actions[0]), actions[1..]))
  }

  ghost function Run(s: State, actions: seq<Action>): State
    requires Legal(s, actions)
    decreases |actions|
  {
    if actions == [] then s else Run(Next(s, actions[0]), actions[1..])
  }
}
