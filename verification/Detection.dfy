/** The accident detector: complementary filter, tilt, and the two consecutive
    sample counters.  Floats are reals; the transcendental functions are
    parameters of which only ranges are ever assumed. */
module Detection {
  import opened AngleWrap
  import Consecutive

  const IMPACT_THRESHOLD_G := 4.0
  const IMPACT_REQUIRED_SAMPLES: nat := 2
  const ROLLOVER_ANGLE_DEG := 60.0
  const ROLLOVER_REQUIRED_SAMPLES: nat := 250
  const SAMPLE_PERIOD_S := 0.002
  const COMPLEMENTARY_ALPHA := 0.98
  const ACCEL_MIN_RELIABLE_G := 0.80
  const ACCEL_MAX_RELIABLE_G := 1.20
  const RAD_TO_DEG := 57.29577951308232
  const DEG_TO_RAD := 0.01745329251994329577
  const INT_MAX := 0x7fff_ffff

  datatype Vector = Vector(x: real, y: real, z: real)
  datatype Sample = Sample(accel: Vector, gyro: Vector)

  datatype Trig = Trig(sqrt: real -> real, atan2: (real, real) -> real,
                       cos: real -> real, acos: real -> real)

  /** The one fact about the mathematical library used below. */
  ghost predicate AtanRange(m: Trig) {
    forall y, x :: -3.1415927 <= m.atan2(y, x) <= 3.1415927
  }

  datatype Event = Event(impact: bool, rollover: bool)

  const NO_EVENT := Event(false, false)

  datatype Result = Result(
    totalG: real, gyro: Vector, angularSpeedDeg: real,
    roll: real, pitch: real, tilt: real,
    impactDetected: bool, rolloverDetected: bool)

  /** The detector's fields as a value. */
  datatype State = State(
    bias: Vector, roll: real, pitch: real, initialized: bool,
    impact: Consecutive.Counter, rollover: Consecutive.Counter)

  function Initial(bias: Vector): State {
    State(bias, 0.0, 0.0, false, Consecutive.ZERO, Consecutive.ZERO)
  }

  function Norm(m: Trig, v: Vector): real { m.sqrt(v.x * v.x + v.y * v.y + v.z * v.z) }

  function RollRad(m: Trig, s: Sample): real { m.atan2(s.accel.y, s.accel.z) }

  function Hypot(m: Trig, a: real, b: real): real { m.sqrt(a * a + b * b) }

  function Horizontal(m: Trig, s: Sample): real { Hypot(m, s.accel.y, s.accel.z) }

  function PitchRad(m: Trig, s: Sample): real { m.atan2(-s.accel.x, Horizontal(m, s)) }

  function AccelRoll(m: Trig, s: Sample): real { RollRad(m, s) * RAD_TO_DEG }

  function AccelPitch(m: Trig, s: Sample): real { PitchRad(m, s) * RAD_TO_DEG }

  predicate Reliable(totalG: real) { ACCEL_MIN_RELIABLE_G <= totalG <= ACCEL_MAX_RELIABLE_G }

  function Increment(rate: real): real { rate * SAMPLE_PERIOD_S * RAD_TO_DEG }

  /** One axis before wrapping. */
  function Blend(initialized: bool, angle: real, increment: real, reliable: bool, accelAngle: real): real {
    if !initialized then accelAngle
    else if reliable then
      COMPLEMENTARY_ALPHA * (angle + increment) + (1.0 - COMPLEMENTARY_ALPHA) * accelAngle
    else angle + increment
  }

  function Clamp(value: real, minimum: real, maximum: real): (r: real)
    requires minimum <= maximum
    ensures minimum <= r <= maximum
    ensures minimum <= value <= maximum ==> r == value
    ensures value < minimum ==> r == minimum
    ensures value > maximum ==> r == maximum
  {
    if value < minimum then minimum else if value > maximum then maximum else value
  }

  function Cosine(m: Trig, roll: real, pitch: real): real {
    m.cos(roll * DEG_TO_RAD) * m.cos(pitch * DEG_TO_RAD)
  }

  function AngleOf(m: Trig, cosine: real): real { m.acos(Clamp(cosine, -1.0, 1.0)) * RAD_TO_DEG }

  function Tilt(m: Trig, roll: real, pitch: real): real { AngleOf(m, Cosine(m, roll, pitch)) }

  /** Orientation after a sample. */
  function Roll(m: Trig, d: State, s: Sample): real {
    Normalized(Blend(d.initialized, d.roll, Increment(s.gyro.x - d.bias.x),
                     Reliable(Norm(m, s.accel)), AccelRoll(m, s)))
  }

  function Pitch(m: Trig, d: State, s: Sample): real {
    Normalized(Blend(d.initialized, d.pitch, Increment(s.gyro.y - d.bias.y),
                     Reliable(Norm(m, s.accel)), AccelPitch(m, s)))
  }

  /** The two comparisons that drive the counters. */
  predicate AboveImpact(m: Trig, s: Sample) { Norm(m, s.accel) >= IMPACT_THRESHOLD_G }

  predicate AboveRollover(m: Trig, d: State, s: Sample) {
    Tilt(m, Roll(m, d, s), Pitch(m, d, s)) >= ROLLOVER_ANGLE_DEG
  }

  function Next(m: Trig, d: State, s: Sample): State {
    State(d.bias, Roll(m, d, s), Pitch(m, d, s), true,
          Consecutive.Advance(d.impact, IMPACT_REQUIRED_SAMPLES, AboveImpact(m, s)),
          Consecutive.Advance(d.rollover, ROLLOVER_REQUIRED_SAMPLES, AboveRollover(m, d, s)))
  }

  function Emitted(m: Trig, d: State, s: Sample): Event {
    Event(Consecutive.Fires(d.impact, IMPACT_REQUIRED_SAMPLES, AboveImpact(m, s)),
          Consecutive.Fires(d.rollover, ROLLOVER_REQUIRED_SAMPLES, AboveRollover(m, d, s)))
  }

  class AccidentDetector {
    var gyroBiasX: real
    var gyroBiasY: real
    var gyroBiasZ: real
    var filteredRollDeg: real
    var filteredPitchDeg: real
    var orientationInitialized: bool
    var impactSamples: nat
    var rolloverSamples: nat
    var impactDetected: bool
    var rolloverDetected: bool

    ghost function View(): State
      reads this
    {
      State(Vector(gyroBiasX, gyroBiasY, gyroBiasZ), filteredRollDeg, filteredPitchDeg,
            orientationInitialized,
            Consecutive.Counter(impactSamples, impactDetected),
            Consecutive.Counter(rolloverSamples, rolloverDetected))
    }

    constructor (bias: Vector)
      ensures View() == Initial(bias)
    {
      gyroBiasX, gyroBiasY, gyroBiasZ := bias.x, bias.y, bias.z;
      filteredRollDeg, filteredPitchDeg, orientationInitialized := 0.0, 0.0, false;
      impactSamples, rolloverSamples, impactDetected, rolloverDetected := 0, 0, false, false;
    }

    /** The filter part of an update: integrate the gyroscope, blend in a reliable
        accelerometer angle, wrap. */
    method UpdateOrientation(m: Trig, s: Sample, gyro: Vector, accelReliable: bool)
      requires gyro.x == s.gyro.x - gyroBiasX && gyro.y == s.gyro.y - gyroBiasY
      requires accelReliable == Reliable(Norm(m, s.accel))
      modifies this`filteredRollDeg, this`filteredPitchDeg, this`orientationInitialized
      ensures filteredRollDeg == Roll(m, old(View()), s)
      ensures filteredPitchDeg == Pitch(m, old(View()), s)
      ensures orientationInitialized
    {
      var accelRoll, accelPitch := AccelRoll(m, s), AccelPitch(m, s);
      if !orientationInitialized {
        filteredRollDeg, filteredPitchDeg := accelRoll, accelPitch;
        orientationInitialized := true;
      } else {
        filteredRollDeg := filteredRollDeg + Increment(gyro.x);
        filteredPitchDeg := filteredPitchDeg + Increment(gyro.y);
        if accelReliable {
          filteredRollDeg := COMPLEMENTARY_ALPHA * filteredRollDeg
                             + (1.0 - COMPLEMENTARY_ALPHA) * accelRoll;
          filteredPitchDeg := COMPLEMENTARY_ALPHA * filteredPitchDeg
                              + (1.0 - COMPLEMENTARY_ALPHA) * accelPitch;
        }
      }
      var roll, rollWraps := NormalizeAngle(filteredRollDeg);
      var pitch, pitchWraps := NormalizeAngle(filteredPitchDeg);
      filteredRollDeg, filteredPitchDeg := roll, pitch;
    }

    /** The counter part of an update. */
    method UpdateCounters(totalG: real, tilt: real) returns (event: Event)
      requires impactSamples < INT_MAX && rolloverSamples < INT_MAX
      modifies this`impactSamples, this`impactDetected, this`rolloverSamples, this`rolloverDetected
      ensures View().impact == Consecutive.Advance(old(View()).impact, IMPACT_REQUIRED_SAMPLES,
                                                   totalG >= IMPACT_THRESHOLD_G)
      ensures View().rollover == Consecutive.Advance(old(View()).rollover, ROLLOVER_REQUIRED_SAMPLES,
                                                     tilt >= ROLLOVER_ANGLE_DEG)
      ensures event.impact == Consecutive.Fires(old(View()).impact, IMPACT_REQUIRED_SAMPLES,
                                                totalG >= IMPACT_THRESHOLD_G)
      ensures event.rollover == Consecutive.Fires(old(View()).rollover, ROLLOVER_REQUIRED_SAMPLES,
                                                  tilt >= ROLLOVER_ANGLE_DEG)
    {
      event := NO_EVENT;
      if totalG >= IMPACT_THRESHOLD_G {
        impactSamples := impactSamples + 1;
      } else {
        impactSamples := 0;
      }
      if impactSamples >= IMPACT_REQUIRED_SAMPLES && !impactDetected {
        impactDetected := true;
        event := event.(impact := true);
      }
      if tilt >= ROLLOVER_ANGLE_DEG {
        rolloverSamples := rolloverSamples + 1;
      } else {
        rolloverSamples := 0;
      }
      if rolloverSamples >= ROLLOVER_REQUIRED_SAMPLES && !rolloverDetected {
        rolloverDetected := true;
        event := event.(rollover := true);
      }
    }

    /** One update.  The counters are C ints, so a call is only defined while they
        can still be incremented. */
    method Update(m: Trig, s: Sample) returns (event: Event, result: Result)
      requires impactSamples < INT_MAX && rolloverSamples < INT_MAX
      modifies this
      ensures View() == Next(m, old(View()), s)
      ensures event == Emitted(m, old(View()), s)
      ensures result.totalG == Norm(m, s.accel)
      ensures result.tilt == Tilt(m, View().roll, View().pitch)
      ensures result.roll == View().roll && result.pitch == View().pitch
      ensures result.impactDetected == impactDetected && result.rolloverDetected == rolloverDetected
      ensures result.angularSpeedDeg == Norm(m, result.gyro) * RAD_TO_DEG
      ensures result.gyro == Vector(s.gyro.x - gyroBiasX, s.gyro.y - gyroBiasY, s.gyro.z - gyroBiasZ)
    {
      var gyro := Vector(s.gyro.x - gyroBiasX, s.gyro.y - gyroBiasY, s.gyro.z - gyroBiasZ);
      var totalG := Norm(m, s.accel);
      UpdateOrientation(m, s, gyro, Reliable(totalG));
      var tilt := Tilt(m, filteredRollDeg, filteredPitchDeg);
      event := UpdateCounters(totalG, tilt);
      result := Result(totalG, gyro, Norm(m, gyro) * RAD_TO_DEG, filteredRollDeg, filteredPitchDeg,
                       tilt, impactDetected, rolloverDetected);
    }
  }

  // ----- Whole runs -----

  function After(m: Trig, d: State, samples: seq<Sample>): State {
    if samples == [] then d
    else Next(m, After(m, d, samples[..|samples| - 1]), samples[|samples| - 1])
  }

  /** The event emitted for sample i of a run. */
  function EventAt(m: Trig, d: State, samples: seq<Sample>, i: nat): Event
    requires i < |samples|
  {
    Emitted(m, After(m, d, samples[..i]), samples[i])
  }

  function ImpactFlags(m: Trig, samples: seq<Sample>): (flags: seq<bool>)
    ensures |flags| == |samples|
  {
    seq(|samples|, i requires 0 <= i < |samples| => AboveImpact(m, samples[i]))
  }

  function RolloverFlags(m: Trig, d: State, samples: seq<Sample>): (flags: seq<bool>)
    ensures |flags| == |samples|
  {
    seq(|samples|, i requires 0 <= i < |samples| => AboveRollover(m, After(m, d, samples[..i]), samples[i]))
  }

  lemma {:induction false} CountersFollowFlags(m: Trig, bias: Vector, samples: seq<Sample>)
    ensures After(m, Initial(bias), samples).impact
         == Consecutive.Count(IMPACT_REQUIRED_SAMPLES, ImpactFlags(m, samples))
    ensures After(m, Initial(bias), samples).rollover
         == Consecutive.Count(ROLLOVER_REQUIRED_SAMPLES, RolloverFlags(m, Initial(bias), samples))
  {
    if samples != [] {
      var n := |samples| - 1;
      CountersFollowFlags(m, bias, samples[..n]);
      FlagsOfPrefix(m, Initial(bias), samples, n);
    }
  }

  lemma FlagsOfPrefix(m: Trig, d: State, samples: seq<Sample>, n: nat)
    requires n <= |samples|
    ensures ImpactFlags(m, samples[..n]) == ImpactFlags(m, samples)[..n]
    ensures RolloverFlags(m, d, samples[..n]) == RolloverFlags(m, d, samples)[..n]
  {
    forall i | 0 <= i < n
      ensures RolloverFlags(m, d, samples[..n])[i] == RolloverFlags(m, d, samples)[i]
    {
      assert samples[..n][..i] == samples[..i];
    }
  }

  /** Over any run, IMPACT (ROLLOVER) is emitted at exactly the first sample that
      ends 2 (250) consecutive samples at or above its threshold. */
  lemma EventsMarkFirstWindows(m: Trig, bias: Vector, samples: seq<Sample>, i: nat)
    requires i < |samples|
    ensures EventAt(m, Initial(bias), samples, i).impact <==>
      Consecutive.FirstWindowEndsAt(IMPACT_REQUIRED_SAMPLES, ImpactFlags(m, samples), i)
    ensures EventAt(m, Initial(bias), samples, i).rollover <==>
      Consecutive.FirstWindowEndsAt(ROLLOVER_REQUIRED_SAMPLES, RolloverFlags(m, Initial(bias), samples), i)
  {
    CountersFollowFlags(m, bias, samples[..i]);
    FlagsOfPrefix(m, Initial(bias), samples, i);
    Consecutive.FiresAtFirstWindow(IMPACT_REQUIRED_SAMPLES, ImpactFlags(m, samples), i);
    Consecutive.FiresAtFirstWindow(ROLLOVER_REQUIRED_SAMPLES, RolloverFlags(m, Initial(bias), samples), i);
  }

  /** Each counter is the length of the longest suffix at or above its threshold,
      and each latch is set exactly when a full window has occurred. */
  lemma CountersMeanSuffixes(m: Trig, bias: Vector, samples: seq<Sample>)
    ensures var d, up, over := After(m, Initial(bias), samples),
                ImpactFlags(m, samples), RolloverFlags(m, Initial(bias), samples);
      && Consecutive.LongestTrueSuffix(up, d.impact.samples)
      && Consecutive.LongestTrueSuffix(over, d.rollover.samples)
      && (d.impact.latched <==>
          exists i :: 0 <= i < |up| && Consecutive.WindowEndsAt(IMPACT_REQUIRED_SAMPLES, up, i))
      && (d.rollover.latched <==>
          exists i :: 0 <= i < |over| && Consecutive.WindowEndsAt(ROLLOVER_REQUIRED_SAMPLES, over, i))
  {
    CountersFollowFlags(m, bias, samples);
    var up, over := ImpactFlags(m, samples), RolloverFlags(m, Initial(bias), samples);
    Consecutive.CounterIsSuffix(IMPACT_REQUIRED_SAMPLES, up);
    Consecutive.CounterIsSuffix(ROLLOVER_REQUIRED_SAMPLES, over);
    Consecutive.LatchIffWindow(IMPACT_REQUIRED_SAMPLES, up);
    Consecutive.LatchIffWindow(ROLLOVER_REQUIRED_SAMPLES, over);
  }
}
