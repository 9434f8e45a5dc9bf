/** What the calls that worked in a run leave behind: the freeze, the signal and the
    reset of the ring, read off the run's actions alone. */
module PipelineHistory {
  import opened Sensor
  import R = RingModel
  import opened Pipeline
  import opened PipelineInvariant
  import D = Detection
  import Task1
  import Cam = Camera

  // ----- The calls that worked -----

  const FROZEN := By1(Freeze(false))
  const KILLED := By1(Kill(false))
  const LOCKED := By3(LockRing(false))
  const UNLOCKED := By3(UnlockRing(false))
  const UNLOCK_FAILED := By3(UnlockRing(true))

  /** The signal is pending or was taken. */
  predicate Raised(s: System) { s.signal || !(s.t2.pc.AwaitingSignal? || s.t2.pc.GaveUp?) }

  /** From s to s' exactly these calls worked; only an UNLOCK, tried, ends task 3. */
  predicate Adds(s: System, s': System, froze: bool, killed: bool, locked: bool, unlocked: bool, tried: bool) {
    && s'.t1.froze == (s.t1.froze || froze)
    && Raised(s') == (Raised(s) || killed)
    && s'.t3.locked == (s.t3.locked || locked)
    && s'.t3.unlocks == (s.t3.unlocks || unlocked)
    && (s'.t3.pc.Finished? <==> s.t3.pc.Finished? || unlocked || tried)
  }

  lemma Adds1(m: D.Trig, s: System, a: Action1)
    requires Enabled1(s, a) && GatesOk(s)
    requires Writing(s.t1) || s.t1.pc.Freezing? ==> !s.t1.froze
    ensures Adds(s, Next1(m, s, a), a == Freeze(false), a == Kill(false), false, false, false)
  {
    hide Task1.Observe, Task1.EventOf, Task1.LatencyStart, R.Step;
    match a
    case WriteSample(_) =>
    case StopSampling =>
    case Analyse(_) =>
    case Freeze(_) =>
    case Kill(_) =>
  }

  lemma Adds2(s: System, a: Action2)
    requires Enabled2(s, a) && GatesOk(s)
    ensures Adds(s, Next2(s, a), false, false, false, false, false)
  {
    hide Cam.CallNext;
    match a
    case TakeSignal =>
    case SigwaitFails =>
    case EnterSnapshot(_) =>
    case LeaveWait(_) =>
    case Post =>
  }

  lemma Adds3(s: System, a: Action3)
    requires Enabled3(s, a) && (BeforeLock(s.t3) ==> !s.t3.locked) && (s.t3.unlocks ==> s.t3.pc.Finished?)
    ensures Adds(s, Next3(s, a), false, false, a == LockRing(false), a == UnlockRing(false), a == UnlockRing(true))
  {
    hide R.Step, R.Entries;
    match a
    case TakeMail =>
    case LockRing(_) =>
    case SnapshotRing =>
    case CopyRing =>
    case SaveTelemetry(_, _) =>
    case SaveByte =>
    case ImageDone =>
    case UnpackByte =>
    case PreviewDone(_) =>
    case GiveUp =>
    case UnlockRing(_) =>
  }

  lemma StepAdds(m: D.Trig, cap: nat, s: System, a: Action)
    requires Inv(m, cap, s) && Enabled(s, a)
    ensures Adds(s, Next(m, s, a), a == FROZEN, a == KILLED, a == LOCKED, a == UNLOCKED, a == UNLOCK_FAILED)
  {
    hide SensorOk, ClockOk, ClientOk, TelemetryOk, SavedImageOk, R.Represents, GatesOk;
    hide Next1, Next2, Next3, Enabled1, Enabled2, Enabled3;
    match a
    case By1(a1) => Adds1(m, s, a1);
    case By2(a2) => Adds2(s, a2);
    case By3(a3) => Adds3(s, a3);
    case ByCameraThread(_) =>
    case ByDriver(_) =>
    case ByMain(_) =>
  }

  lemma {:induction false} RunAdds(m: D.Trig, cap: nat, s: System, actions: seq<Action>)
    requires Inv(m, cap, s) && Legal(m, s, actions)
    ensures Adds(s, Run(m, s, actions), FROZEN in actions, KILLED in actions, LOCKED in actions,
                 UNLOCKED in actions, UNLOCK_FAILED in actions)
    decreases |actions|
  {
    hide Inv, Next, Enabled;
    if actions != [] {
      StepAdds(m, cap, s, actions[0]);
      StepKeepsInv(m, cap, s, actions[0]);
      RunAdds(m, cap, Next(m, s, actions[0]), actions[1..]);
    }
  }

  /** From main's start these calls, and no others, have worked. */
  lemma RunRecords(m: D.Trig, cap: nat, s: System, actions: seq<Action>)
    requires Starts(s, cap) && Legal(m, s, actions)
    ensures Inv(m, cap, Run(m, s, actions))
    ensures var s' := Run(m, s, actions);
      && (s'.t1.froze <==> FROZEN in actions)
      && (Raised(s') <==> KILLED in actions)
      && (s'.t3.locked <==> LOCKED in actions)
      && (s'.t3.unlocks <==> UNLOCKED in actions)
      && (s'.t3.pc.Finished? <==> UNLOCKED in actions || UNLOCK_FAILED in actions)
  {
    StartOk(m, cap, s);
    RunKeepsInv(m, cap, s, actions);
    RunAdds(m, cap, s, actions);
    hide Inv, R.Represents, Initialised;
  }

  // ----- The ring after the save -----

  /** Once task 3 is done, whether or not it saved, it has tried to unlock the ring: if
      its LOCK and its UNLOCK worked the ring is unlocked and empty; otherwise it still
      holds the last min(n, N) samples that task 1 wrote, and is frozen exactly if a
      LOCK worked. */
  lemma RingAfterSave(m: D.Trig, cap: nat, s: System, actions: seq<Action>)
    requires Starts(s, cap) && Legal(m, s, actions) && Run(m, s, actions).t3.pc.Finished?
    ensures UNLOCKED in actions || UNLOCK_FAILED in actions
    ensures var s' := Run(m, s, actions);
      if LOCKED in actions && UNLOCKED in actions then
        !s'.ring.locked && s'.ring.count == 0 && R.Represents(s'.ring, [])
      else
        && s'.ring.locked == (FROZEN in actions || LOCKED in actions)
        && R.Represents(s'.ring, s'.t1.samples)
  {
    hide Inv;
    RunRecords(m, cap, s, actions);
    RingOfInv(m, cap, Run(m, s, actions));
  }

  lemma RingOfInv(m: D.Trig, cap: nat, s: System)
    requires Inv(m, cap, s)
    ensures R.Represents(s.ring, if Reset(s.t3) then [] else s.t1.samples)
    ensures s.ring.locked == (!Reset(s.t3) && (s.t1.froze || s.t3.locked))
    ensures Reset(s.t3) ==> s.ring.count == 0
  {
    hide SensorOk, ClockOk, ClientOk, TelemetryOk, SavedImageOk, GatesOk;
  }

  // ----- The signal -----

  /** Task 2 leaves its wait for the signal, and task 3 its wait for mail, only in
      runs in which task 1's kill() worked; while task 2 waits in such a run the
      signal is pending. */
  lemma WakesOnlyBySignal(m: D.Trig, cap: nat, s: System, actions: seq<Action>)
    requires Starts(s, cap) && Legal(m, s, actions)
    ensures var s' := Run(m, s, actions);
      && (s'.t2.pc.AwaitingSignal? ==> (s'.signal <==> KILLED in actions))
      && (KILLED !in actions ==> (s'.t2.pc.AwaitingSignal? || s'.t2.pc.GaveUp?) && s'.t3.pc.AwaitingData?)
  {
    hide SensorOk, ClockOk, RingOk, ClientOk, TelemetryOk, SavedImageOk;
    RunRecords(m, cap, s, actions);
  }

  // ----- A sampling loop that stops -----

  const STOPPED := By1(StopSampling)
  const SLEEP_FAILED := By1(Analyse(true))

  lemma StopStep(m: D.Trig, s: System, a: Action)
    requires Enabled(s, a)
    ensures Writing(Next(m, s, a).t1) ==> Writing(s.t1) && a != STOPPED && a != SLEEP_FAILED
    ensures s.t1.pc == Ended(false) || a == STOPPED ==> Next(m, s, a).t1.pc == Ended(false)
  {
    hide Task1.Observe, Task1.EventOf, Task1.LatencyStart, R.Step, Next2, Next3, Enabled2, Enabled3;
    if a.By1? {
      match a.a1
      case WriteSample(_) =>
      case StopSampling =>
      case Analyse(_) =>
      case Freeze(_) =>
      case Kill(_) =>
    } else {
      OthersKeepTask1(m, s, a);
    }
  }

  lemma OthersKeepTask1(m: D.Trig, s: System, a: Action)
    requires Enabled(s, a) && !a.By1?
    ensures Next(m, s, a).t1 == s.t1
  {
    match a
    case By2(a2) =>
      match a2 {
        case TakeSignal =>
        case SigwaitFails =>
        case EnterSnapshot(_) =>
        case LeaveWait(_) =>
        case Post =>
      }
    case By3(a3) =>
      hide R.Step, R.Entries;
    case ByCameraThread(_) =>
    case ByDriver(_) =>
    case ByMain(_) =>
  }

  lemma {:induction false} StopRun(m: D.Trig, s: System, actions: seq<Action>)
    requires Legal(m, s, actions)
    ensures Writing(Run(m, s, actions).t1) ==> STOPPED !in actions && SLEEP_FAILED !in actions && Writing(s.t1)
    ensures s.t1.pc == Ended(false) || STOPPED in actions ==> Run(m, s, actions).t1.pc == Ended(false)
    decreases |actions|
  {
    hide Next, Enabled, Writing;
    if actions != [] {
      StopStep(m, s, actions[0]);
      StopRun(m, Next(m, s, actions[0]), actions[1..]);
    }
  }

  /** Once a sensor, clock or write error, or a failing sleep, has stopped the sampling
      loop, no sample is written any more; after one of the first three no signal is
      ever sent, and tasks 2 and 3 go on waiting. */
  lemma StoppedWritesNothing(m: D.Trig, cap: nat, s: System, actions: seq<Action>, raw: RawSample)
    requires Starts(s, cap) && Legal(m, s, actions)
    requires STOPPED in actions || SLEEP_FAILED in actions
    ensures var s' := Run(m, s, actions);
      && !Enabled1(s', WriteSample(raw))
      && (STOPPED in actions ==>
            KILLED !in actions && (s'.t2.pc.AwaitingSignal? || s'.t2.pc.GaveUp?) && s'.t3.pc.AwaitingData?)
  {
    hide SensorOk, ClockOk, RingOk, ClientOk, TelemetryOk, SavedImageOk;
    StopRun(m, s, actions);
    RunRecords(m, cap, s, actions);
  }

  /** What task 2 woke with is what task 1 published: the detecting sample's timestamp
      and the latency start of its event; and the mail carries the former. */
  lemma SignalCarriesReport(m: D.Trig, cap: nat, s: System, actions: seq<Action>)
    requires Starts(s, cap) && Legal(m, s, actions)
    requires var t2 := Run(m, s, actions).t2; !t2.pc.AwaitingSignal? && !t2.pc.GaveUp?
    ensures var s' := Run(m, s, actions);
      && Task1.Reported(m, s'.t1.samples, s'.t2.latencyStart, s'.t2.detection)
      && (s'.mailbox.ready ==> s'.mailbox.detection == s'.t2.detection)
      && (!s'.t3.pc.AwaitingData? ==> s'.t3.detection == s'.t2.detection)
  {
    hide ClockOk, RingOk, ClientOk, TelemetryOk, SavedImageOk, Task1.Reported;
    StartOk(m, cap, s);
    RunKeepsInv(m, cap, s, actions);
  }
}
