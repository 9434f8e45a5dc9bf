/** The 500 Hz task: write each sample to the ring, run the detector, and track
    when the current threshold run started. */
module Task1 {
  import opened Sensor
  import opened Timing
  import CrashBufferDriver
  import Consecutive
  import D = Detection

  /** The task's locals that survive an iteration.  A start time of 0 means that no
      run is in progress. */
  datatype Tracker = Tracker(detector: D.State, impactStart: nat, rolloverStart: nat)

  function Start(): Tracker { Tracker(D.Initial(D.Vector(0.0, 0.0, 0.0)), 0, 0) }

  function RunStart(start: nat, above: bool, now: nat): nat {
    if above then (if start == 0 then now else start) else 0
  }

  function Observe(m: D.Trig, t: Tracker, raw: RawSample): Tracker {
    var s := Physical(raw);
    Tracker(D.Next(m, t.detector, s),
            RunStart(t.impactStart, D.AboveImpact(m, s), raw.timestampNs),
            RunStart(t.rolloverStart, D.AboveRollover(m, t.detector, s), raw.timestampNs))
  }

  function EventOf(m: D.Trig, t: Tracker, raw: RawSample): D.Event {
    D.Emitted(m, t.detector, Physical(raw))
  }

  /** The timestamp from which total latency is measured. */
  function LatencyStart(event: D.Event, t: Tracker, now: nat): nat {
    if event.impact && t.impactStart != 0 then t.impactStart
    else if event.rollover && t.rolloverStart != 0 then t.rolloverStart
    else now
  }

  function Track(m: D.Trig, samples: seq<RawSample>): Tracker {
    if samples == [] then Start()
    else Observe(m, Track(m, samples[..|samples| - 1]), samples[|samples| - 1])
  }

  function EventAt(m: D.Trig, samples: seq<RawSample>, i: nat): D.Event
    requires i < |samples|
  {
    EventOf(m, Track(m, samples[..i]), samples[i])
  }

  /** The loop is still running: no sample so far produced an event. */
  ghost predicate Quiet(m: D.Trig, samples: seq<RawSample>) {
    forall i :: 0 <= i < |samples| ==> EventAt(m, samples, i) == D.NO_EVENT
  }

  /** The loop stops with the last sample: it is the first to produce an event. */
  ghost predicate Detects(m: D.Trig, samples: seq<RawSample>) {
    && samples != []
    && Quiet(m, samples[..|samples| - 1])
    && EventAt(m, samples, |samples| - 1) != D.NO_EVENT
  }

  ghost predicate Positive(samples: seq<RawSample>) {
    forall i :: 0 <= i < |samples| ==> 0 < samples[i].timestampNs
  }

  // ----- The two state machines agree -----

  /** The start time is set exactly while the counter runs, and is the timestamp of
      the first sample of the current run. */
  ghost predicate InStep(samples: seq<RawSample>, count: nat, start: nat) {
    && count <= |samples|
    && (start != 0 <==> 0 < count)
    && (0 < count ==> start == samples[|samples| - count].timestampNs)
  }

  ghost predicate BothInStep(samples: seq<RawSample>, t: Tracker) {
    && InStep(samples, t.detector.impact.samples, t.impactStart)
    && InStep(samples, t.detector.rollover.samples, t.rolloverStart)
  }

  lemma RunStartStep(samples: seq<RawSample>, c: Consecutive.Counter, required: nat, start: nat, above: bool)
    requires samples != [] && 0 < samples[|samples| - 1].timestampNs
    requires InStep(samples[..|samples| - 1], c.samples, start)
    ensures InStep(samples, Consecutive.Advance(c, required, above).samples,
                   RunStart(start, above, samples[|samples| - 1].timestampNs))
  {}

  /** Throughout the task's run the detector's counters and the task's own run
      starts describe the same runs. */
  lemma {:induction false} MachinesAgree(m: D.Trig, samples: seq<RawSample>)
    requires Positive(samples)
    ensures BothInStep(samples, Track(m, samples))
  {
    if samples != [] {
      var n := |samples| - 1;
      MachinesAgree(m, samples[..n]);
      var t, s := Track(m, samples[..n]), Physical(samples[n]);
      RunStartStep(samples, t.detector.impact, D.IMPACT_REQUIRED_SAMPLES, t.impactStart,
                   D.AboveImpact(m, s));
      RunStartStep(samples, t.detector.rollover, D.ROLLOVER_REQUIRED_SAMPLES, t.rolloverStart,
                   D.AboveRollover(m, t.detector, s));
    }
  }

  ghost predicate Armed(c: Consecutive.Counter, required: nat) {
    c.samples < required && !c.latched
  }

  ghost predicate BothArmed(t: Tracker) {
    && Armed(t.detector.impact, D.IMPACT_REQUIRED_SAMPLES)
    && Armed(t.detector.rollover, D.ROLLOVER_REQUIRED_SAMPLES)
  }

  /** From an armed counter, firing means reaching exactly the required number. */
  lemma ArmedStep(c: Consecutive.Counter, required: nat, above: bool)
    requires 0 < required && Armed(c, required)
    ensures var c' := Consecutive.Advance(c, required, above);
      if Consecutive.Fires(c, required, above) then c'.samples == required else Armed(c', required)
  {}

  lemma ObserveArmed(m: D.Trig, t: Tracker, raw: RawSample)
    requires BothArmed(t)
    ensures var t', event := Observe(m, t, raw), EventOf(m, t, raw);
      && (if event.impact then t'.detector.impact.samples == D.IMPACT_REQUIRED_SAMPLES
          else Armed(t'.detector.impact, D.IMPACT_REQUIRED_SAMPLES))
      && (if event.rollover then t'.detector.rollover.samples == D.ROLLOVER_REQUIRED_SAMPLES
          else Armed(t'.detector.rollover, D.ROLLOVER_REQUIRED_SAMPLES))
  {
    var s := Physical(raw);
    ArmedStep(t.detector.impact, D.IMPACT_REQUIRED_SAMPLES, D.AboveImpact(m, s));
    ArmedStep(t.detector.rollover, D.ROLLOVER_REQUIRED_SAMPLES, D.AboveRollover(m, t.detector, s));
  }

  lemma QuietPrefix(m: D.Trig, samples: seq<RawSample>, n: nat)
    requires n <= |samples| && Quiet(m, samples)
    ensures Quiet(m, samples[..n])
  {
    forall i | 0 <= i < n
      ensures EventAt(m, samples[..n], i) == D.NO_EVENT
    {
      assert samples[..n][..i] == samples[..i];
      assert EventAt(m, samples, i) == D.NO_EVENT;
    }
  }

  /** While no event has occurred, the required numbers were never reached. */
  lemma {:induction false} QuietCounters(m: D.Trig, samples: seq<RawSample>)
    requires Quiet(m, samples)
    ensures BothArmed(Track(m, samples))
  {
    if samples != [] {
      var n := |samples| - 1;
      QuietPrefix(m, samples, n);
      QuietCounters(m, samples[..n]);
      ObserveArmed(m, Track(m, samples[..n]), samples[n]);
      assert EventAt(m, samples, n) == D.NO_EVENT;
    }
  }

  /** How many samples before the end the latency start lies, plus one. */
  function Back(event: D.Event): nat {
    if event.impact then 2 else 250
  }

  /** What detection publishes: the latency start is the sample one before the
      detecting one for an impact, 249 before it for a rollover alone; the fallback
      to the detecting sample is never taken and the counters stop at 2 and 250. */
  ghost predicate Publishes(samples: seq<RawSample>, t: Tracker, event: D.Event) {
    && Back(event) <= |samples|
    && LatencyStart(event, t, samples[|samples| - 1].timestampNs)
       == samples[|samples| - Back(event)].timestampNs
    && t.detector.impact.samples <= D.IMPACT_REQUIRED_SAMPLES
    && t.detector.rollover.samples <= D.ROLLOVER_REQUIRED_SAMPLES
    && (event.impact ==> t.impactStart != 0)
    && (event.rollover ==> t.rolloverStart != 0)
  }

  lemma DetectionPublishes(m: D.Trig, samples: seq<RawSample>)
    requires Positive(samples) && Detects(m, samples)
    ensures Publishes(samples, Track(m, samples), EventAt(m, samples, |samples| - 1))
  {
    var n := |samples| - 1;
    QuietCounters(m, samples[..n]);
    MachinesAgree(m, samples);
    ObserveArmed(m, Track(m, samples[..n]), samples[n]);
    assert Track(m, samples) == Observe(m, Track(m, samples[..n]), samples[n]);
    PublishesFrom(samples, Track(m, samples), EventAt(m, samples, n));
  }

  lemma PublishesFrom(samples: seq<RawSample>, t: Tracker, event: D.Event)
    requires samples != [] && event != D.NO_EVENT && BothInStep(samples, t)
    requires if event.impact then t.detector.impact.samples == D.IMPACT_REQUIRED_SAMPLES
             else Armed(t.detector.impact, D.IMPACT_REQUIRED_SAMPLES)
    requires if event.rollover then t.detector.rollover.samples == D.ROLLOVER_REQUIRED_SAMPLES
             else Armed(t.detector.rollover, D.ROLLOVER_REQUIRED_SAMPLES)
    ensures Publishes(samples, t, event)
  {}

  // ----- What detection means -----

  function Physicals(samples: seq<RawSample>): (p: seq<D.Sample>)
    ensures |p| == |samples|
  {
    seq(|samples|, i requires 0 <= i < |samples| => Physical(samples[i]))
  }

  /** Bookkeeping and detector consume the same samples. */
  lemma {:induction false} TrackIsDetectorRun(m: D.Trig, samples: seq<RawSample>)
    ensures Track(m, samples).detector == D.After(m, Start().detector, Physicals(samples))
  {
    if samples != [] {
      var n := |samples| - 1;
      assert Physicals(samples)[..n] == Physicals(samples[..n]);
      TrackIsDetectorRun(m, samples[..n]);
    }
  }

  ghost predicate ImpactEndsAt(m: D.Trig, samples: seq<RawSample>, i: nat) {
    Consecutive.WindowEndsAt(D.IMPACT_REQUIRED_SAMPLES, D.ImpactFlags(m, Physicals(samples)), i)
  }

  ghost predicate RolloverEndsAt(m: D.Trig, samples: seq<RawSample>, i: nat) {
    Consecutive.WindowEndsAt(D.ROLLOVER_REQUIRED_SAMPLES,
                             D.RolloverFlags(m, Start().detector, Physicals(samples)), i)
  }

  /** The last sample is the first to end 2 consecutive samples at or above 4 g or
      250 tilted by at least 60 degrees. */
  ghost predicate FirstAccident(m: D.Trig, samples: seq<RawSample>) {
    var n := |samples| - 1;
    && samples != []
    && (ImpactEndsAt(m, samples, n) || RolloverEndsAt(m, samples, n))
    && forall i :: 0 <= i < n ==> !ImpactEndsAt(m, samples, i) && !RolloverEndsAt(m, samples, i)
  }

  /** The event of sample i, in terms of the samples alone. */
  lemma EventMeans(m: D.Trig, samples: seq<RawSample>, i: nat)
    requires i < |samples|
    ensures EventAt(m, samples, i).impact <==> Consecutive.FirstWindowEndsAt(
      D.IMPACT_REQUIRED_SAMPLES, D.ImpactFlags(m, Physicals(samples)), i)
    ensures EventAt(m, samples, i).rollover <==> Consecutive.FirstWindowEndsAt(
      D.ROLLOVER_REQUIRED_SAMPLES, D.RolloverFlags(m, Start().detector, Physicals(samples)), i)
  {
    hide D.Emitted, D.ImpactFlags, D.RolloverFlags, Consecutive.FirstWindowEndsAt;
    TrackIsDetectorRun(m, samples[..i]);
    assert Physicals(samples)[..i] == Physicals(samples[..i]);
    D.EventsMarkFirstWindows(m, D.Vector(0.0, 0.0, 0.0), Physicals(samples), i);
  }

  /** An accident that ends somewhere has produced an event by then. */
  lemma AccidentHasEvent(m: D.Trig, samples: seq<RawSample>, i: nat) returns (j: nat)
    requires i < |samples| && (ImpactEndsAt(m, samples, i) || RolloverEndsAt(m, samples, i))
    ensures j <= i && EventAt(m, samples, j) != D.NO_EVENT
  {
    hide D.ImpactFlags, D.RolloverFlags, EventAt, Consecutive.WindowEndsAt;
    var p := Physicals(samples);
    if ImpactEndsAt(m, samples, i) {
      j := Consecutive.FirstWindowExists(D.IMPACT_REQUIRED_SAMPLES, D.ImpactFlags(m, p), i);
    } else {
      j := Consecutive.FirstWindowExists(D.ROLLOVER_REQUIRED_SAMPLES,
                                         D.RolloverFlags(m, Start().detector, p), i);
    }
    EventMeans(m, samples, j);
  }

  lemma EventIsAccident(m: D.Trig, samples: seq<RawSample>, i: nat)
    requires i < |samples| && EventAt(m, samples, i) != D.NO_EVENT
    ensures ImpactEndsAt(m, samples, i) || RolloverEndsAt(m, samples, i)
  {
    hide D.ImpactFlags, D.RolloverFlags, EventAt, Consecutive.WindowEndsAt;
    EventMeans(m, samples, i);
  }

  lemma EventOfPrefix(m: D.Trig, samples: seq<RawSample>, n: nat, i: nat)
    requires i < n <= |samples|
    ensures EventAt(m, samples[..n], i) == EventAt(m, samples, i)
  {
    assert samples[..n][..i] == samples[..i];
  }

  /** The task stops exactly at the first accident. */
  lemma DetectsIsFirstAccident(m: D.Trig, samples: seq<RawSample>)
    ensures Detects(m, samples) <==> FirstAccident(m, samples)
  {
    hide ImpactEndsAt, RolloverEndsAt, EventAt;
    if samples != [] {
      var n := |samples| - 1;
      forall i | 0 <= i < n ensures EventAt(m, samples[..n], i) == EventAt(m, samples, i) {
        EventOfPrefix(m, samples, n, i);
      }
      forall i | 0 <= i <= n && EventAt(m, samples, i) != D.NO_EVENT
        ensures ImpactEndsAt(m, samples, i) || RolloverEndsAt(m, samples, i)
      {
        EventIsAccident(m, samples, i);
      }
      if Detects(m, samples) {
        forall i | 0 <= i < n ensures !ImpactEndsAt(m, samples, i) && !RolloverEndsAt(m, samples, i) {
          NoEarlierAccident(m, samples, i);
        }
      } else if FirstAccident(m, samples) {
        var j := AccidentHasEvent(m, samples, n);
      }
    }
  }

  lemma NoEarlierAccident(m: D.Trig, samples: seq<RawSample>, i: nat)
    requires i < |samples| && forall j :: 0 <= j <= i ==> EventAt(m, samples, j) == D.NO_EVENT
    ensures !ImpactEndsAt(m, samples, i) && !RolloverEndsAt(m, samples, i)
  {
    hide ImpactEndsAt, RolloverEndsAt, EventAt;
    if ImpactEndsAt(m, samples, i) || RolloverEndsAt(m, samples, i) {
      var j := AccidentHasEvent(m, samples, i);
      assert false;
    }
  }

  /** The two shared timestamps after detection. */
  ghost predicate Reported(m: D.Trig, samples: seq<RawSample>, latencyStart: nat, detection: nat) {
    && Detects(m, samples)
    && detection == samples[|samples| - 1].timestampNs
    && latencyStart == LatencyStart(EventAt(m, samples, |samples| - 1), Track(m, samples), detection)
  }

  /** One more written sample either keeps the run quiet or ends it. */
  lemma Append(m: D.Trig, before: seq<RawSample>, raw: RawSample, event: D.Event, t: Tracker)
    requires Quiet(m, before)
    requires t == Observe(m, Track(m, before), raw) && event == EventOf(m, Track(m, before), raw)
    ensures var samples := before + [raw];
      && samples[|before|..] == [raw]
      && Track(m, samples) == t
      && EventAt(m, samples, |before|) == event
      && if event == D.NO_EVENT then Quiet(m, samples) else Detects(m, samples)
  {
    var samples := before + [raw];
    assert samples[..|before|] == before;
    forall i | 0 <= i < |before|
      ensures EventAt(m, samples, i) == D.NO_EVENT
    {
      assert samples[..i] == before[..i];
      assert EventAt(m, before, i) == D.NO_EVENT;
    }
  }

  // ----- The task itself -----

  /** What the outside world does in one iteration. */
  datatype Input =
    | SensorError
    | ClockError
    | Reading(raw: RawSample, writeFails: bool, lockFails: bool, killFails: bool, sleepFails: bool)

  datatype Outcome = Running | Detected(signalled: bool) | Stopped

  class SensorTask {
    const crash: CrashBufferDriver.CrashBuffer<RawSample>
    const detector: D.AccidentDetector
    const nextActivation: Timespec
    var impactStart: nat
    var rolloverStart: nat
    /** Shared with the camera task. */
    var latencyStartNs: nat
    var detectionNs: nat

    ghost predicate Valid()
      reads this, crash, crash.slots, nextActivation
    {
      && crash.Valid()
      && nextActivation.Valid()
    }

    ghost function Locals(): Tracker
      reads this, detector
    {
      Tracker(detector.View(), impactStart, rolloverStart)
    }

    constructor (crash: CrashBufferDriver.CrashBuffer<RawSample>, sec: int, nsec: int, longMax: int)
      requires crash.Valid() && 0 <= nsec < NS_PER_S && LEAST_LONG_MAX <= longMax
      ensures Valid() && this.crash == crash && Locals() == Start()
      ensures fresh(detector) && fresh(nextActivation)
      ensures nextActivation.Total() == sec * NS_PER_S + nsec
      ensures latencyStartNs == 0 && detectionNs == 0
    {
      this.crash := crash;
      detector := new D.AccidentDetector(D.Vector(0.0, 0.0, 0.0));
      nextActivation := new Timespec(sec, nsec, longMax);
      impactStart, rolloverStart, latencyStartNs, detectionNs := 0, 0, 0, 0;
    }

    /** Detection and run-start bookkeeping for one written sample. */
    method Process(m: D.Trig, raw: RawSample) returns (event: D.Event)
      requires detector.impactSamples < D.INT_MAX && detector.rolloverSamples < D.INT_MAX
      modifies this, detector
      ensures Locals() == Observe(m, old(Locals()), raw)
      ensures event == EventOf(m, old(Locals()), raw)
      ensures if event == D.NO_EVENT
        then latencyStartNs == old(latencyStartNs) && detectionNs == old(detectionNs)
        else detectionNs == raw.timestampNs
             && latencyStartNs == LatencyStart(event, Locals(), raw.timestampNs)
    {
      var result;
      event, result := detector.Update(m, Physical(raw));
      if result.totalG >= D.IMPACT_THRESHOLD_G {
        if impactStart == 0 {
          impactStart := raw.timestampNs;
        }
      } else {
        impactStart := 0;
      }
      if result.tilt >= D.ROLLOVER_ANGLE_DEG {
        if rolloverStart == 0 {
          rolloverStart := raw.timestampNs;
        }
      } else {
        rolloverStart := 0;
      }
      if event != D.NO_EVENT {
        detectionNs := raw.timestampNs;
        if event.impact && impactStart != 0 {
          latencyStartNs := impactStart;
        } else if event.rollover && rolloverStart != 0 {
          latencyStartNs := rolloverStart;
        } else {
          latencyStartNs := raw.timestampNs;
        }
      }
    }

    /** write() on the crash buffer; a frozen one drops the sample and reports success. */
    method WriteSample(raw: RawSample, fails: bool) returns (ok: bool)
      requires crash.Valid()
      modifies crash, crash.slots
      ensures crash.Valid() && crash.slots == old(crash.slots) && crash.locked == old(crash.locked)
      ensures ok == !fails
      ensures crash.log == old(crash.log) + if ok && !crash.locked then [raw] else []
    {
      var written := crash.DevWrite(crash.sampleSize, raw, fails);
      ok := written.Bytes?;
    }

    /** ioctl(LOCK) on the crash buffer; a failure is only reported. */
    method Freeze(fails: bool)
      requires crash.Valid()
      modifies crash
      ensures crash.Valid() && crash.slots == old(crash.slots) && crash.log == old(crash.log)
      ensures crash.locked == (old(crash.locked) || !fails)
    {
      if !fails {
        var result := crash.DevIoctl(CrashBufferDriver.LockCommand);
      }
    }

    /** One iteration; `before` and `taken` are the samples written so far.  It ends
        the loop when a call it looks at fails or the sample is the first with an
        event; LOCK and the signal are attempted only then, and their failures are
        only reported. */
    method Iterate(m: D.Trig, input: Input, ghost before: seq<RawSample>)
      returns (outcome: Outcome, ghost taken: seq<RawSample>)
      requires Valid() && !crash.locked
      requires Quiet(m, before) && Locals() == Track(m, before)
      modifies this, detector, nextActivation, crash, crash.slots
      ensures Valid() && crash.slots == old(crash.slots)
      ensures Locals() == Track(m, taken)
      ensures taken == if input.Reading? && !input.writeFails then before + [input.raw] else before
      ensures crash.log == old(crash.log) + taken[|before|..]
      ensures outcome ==
        if !input.Reading? || input.writeFails then Stopped
        else if EventOf(m, old(Locals()), input.raw) != D.NO_EVENT then Detected(!input.killFails)
        else if input.sleepFails then Stopped
        else Running
      ensures crash.locked == (outcome.Detected? && !input.lockFails)
      ensures if outcome.Detected? then Reported(m, taken, latencyStartNs, detectionNs)
        else Quiet(m, taken)
             && latencyStartNs == old(latencyStartNs) && detectionNs == old(detectionNs)
      ensures outcome.Running? ==>
        nextActivation.Total() == old(nextActivation.Total()) + 2_000_000
    {
      hide D.Norm, D.Tilt, D.Roll, D.Pitch;
      taken := before;
      if !input.Reading? {
        return Stopped, taken;
      }
      var written := WriteSample(input.raw, input.writeFails);
      if !written {
        return Stopped, taken;
      }
      QuietCounters(m, before);
      taken := before + [input.raw];
      var event := Process(m, input.raw);
      Append(m, before, input.raw, event, Locals());
      if event != D.NO_EVENT {
        Freeze(input.lockFails);
        return Detected(!input.killFails), taken;
      }
      nextActivation.AddNanoseconds(SAMPLE_PERIOD_NS);
      return if input.sleepFails then Stopped else Running, taken;
    }

    /** The loop over any finite stretch of inputs: `taken`, which reaches the ring, is
        in order what the first inputs read.  After a detection, LOCK and the signal
        are those of the input that was detected on. */
    method Loop(m: D.Trig, inputs: seq<Input>) returns (outcome: Outcome, ghost taken: seq<RawSample>)
      requires Valid() && Locals() == Start()
      requires !crash.locked
      modifies this, detector, nextActivation, crash, crash.slots
      ensures Valid() && crash.slots == old(crash.slots)
      ensures Locals() == Track(m, taken)
      ensures crash.log == old(crash.log) + taken
      ensures |taken| <= |inputs|
      ensures forall k :: 0 <= k < |taken| ==>
        inputs[k].Reading? && !inputs[k].writeFails && taken[k] == inputs[k].raw
      ensures if outcome.Detected? then Reported(m, taken, latencyStartNs, detectionNs)
        else Quiet(m, taken)
             && latencyStartNs == old(latencyStartNs) && detectionNs == old(detectionNs)
      ensures outcome.Detected? ==>
        && taken != []
        && crash.locked == !inputs[|taken| - 1].lockFails
        && outcome.signalled == !inputs[|taken| - 1].killFails
      ensures !outcome.Detected? ==> !crash.locked
      ensures outcome.Running? ==> |taken| == |inputs|
      ensures outcome.Stopped? ==> StopsAfter(inputs, |taken|)
      ensures outcome.Running? ==>
        nextActivation.Total() == old(nextActivation.Total()) + |inputs| * 2_000_000
    {
      hide D.Norm, D.Tilt, D.Roll, D.Pitch, Observe, EventOf;
      taken := [];
      outcome := Running;
      assert old(crash.log) + taken == old(crash.log);
      for i := 0 to |inputs|
        invariant Valid() && crash.slots == old(crash.slots) && !crash.locked
        invariant |taken| == i && Quiet(m, taken) && Locals() == Track(m, taken)
        invariant forall k :: 0 <= k < i ==>
          inputs[k].Reading? && !inputs[k].writeFails && taken[k] == inputs[k].raw
        invariant crash.log == old(crash.log) + taken
        invariant latencyStartNs == old(latencyStartNs) && detectionNs == old(detectionNs)
        invariant nextActivation.Total() == old(nextActivation.Total()) + i * 2_000_000
        invariant outcome.Running?
      {
        ghost var before := taken;
        outcome, taken := Iterate(m, inputs[i], before);
        assert taken == before + taken[|before|..];
        if !outcome.Running? {
          return;
        }
      }
    }
  }

  /** The loop ends after `n` samples because a call failed: the next input's reading
      or write, or the sleep after the last one. */
  predicate StopsAfter(inputs: seq<Input>, n: nat) {
    || (n < |inputs| && (!inputs[n].Reading? || inputs[n].writeFails))
    || (0 < n <= |inputs| && inputs[n - 1].Reading? && inputs[n - 1].sleepFails)
  }
}
