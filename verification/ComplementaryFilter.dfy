/** How the detector's orientation evolves over whole runs. */
module ComplementaryFilter {
  import opened Detection
  import opened AngleWrap
  import Consecutive
  import Sensor

  datatype Axis = RollAxis | PitchAxis

  function Angle(d: State, axis: Axis): real { if axis.RollAxis? then d.roll else d.pitch }

  function AccelAngle(m: Trig, s: Sample, axis: Axis): real {
    if axis.RollAxis? then AccelRoll(m, s) else AccelPitch(m, s)
  }

  function GyroStep(bias: Vector, s: Sample, axis: Axis): real {
    Increment(if axis.RollAxis? then s.gyro.x - bias.x else s.gyro.y - bias.y)
  }

  /** The angle an update hands to the wrapping loops. */
  function Unwrapped(m: Trig, d: State, s: Sample, axis: Axis): real {
    Blend(d.initialized, Angle(d, axis), GyroStep(d.bias, s, axis),
          Reliable(Norm(m, s.accel)), AccelAngle(m, s, axis))
  }

  lemma NextAngle(m: Trig, d: State, s: Sample, axis: Axis)
    ensures Angle(Next(m, d, s), axis) == Normalized(Unwrapped(m, d, s, axis))
  {}

  function Abs(x: real): real { if x < 0.0 then -x else x }

  function Max(x: real, y: real): real { if x < y then y else x }

  function Decay(n: nat): real { if n == 0 then 1.0 else 0.98 * Decay(n - 1) }

  /** Reliable samples whose accelerometer angle is `a` and whose gyroscope moves
      the axis by at most `step`. */
  ghost predicate Steady(m: Trig, bias: Vector, samples: seq<Sample>, axis: Axis, a: real, step: real) {
    forall s :: s in samples ==>
      Reliable(Norm(m, s.accel)) && AccelAngle(m, s, axis) == a && Abs(GyroStep(bias, s, axis)) <= step
  }

  /** How far update i of the run wraps the axis. */
  function TurnsAt(m: Trig, d: State, samples: seq<Sample>, axis: Axis, i: nat): int
    requires i < |samples|
  {
    Turns(Unwrapped(m, After(m, d, samples[..i]), samples[i], axis))
  }

  ghost predicate NeverWraps(m: Trig, d: State, samples: seq<Sample>, axis: Axis) {
    forall i :: 0 <= i < |samples| ==> TurnsAt(m, d, samples, axis, i) == 0
  }

  lemma {:induction false} AfterKeeps(m: Trig, d: State, samples: seq<Sample>)
    ensures After(m, d, samples).bias == d.bias
    ensures After(m, d, samples).initialized == (d.initialized || samples != [])
  {
    if samples != [] { AfterKeeps(m, d, samples[..|samples| - 1]); }
  }

  lemma SteadyStep(m: Trig, d: State, s: Sample, axis: Axis, a: real, step: real, limit: real)
    requires d.initialized && Steady(m, d.bias, [s], axis, a, step)
    requires Abs(Angle(d, axis) - a) <= limit && 49.0 * step <= limit && Abs(a) + limit <= 180.0
    ensures Turns(Unwrapped(m, d, s, axis)) == 0
    ensures var next := Angle(Next(m, d, s), axis);
      && Abs(next - a) <= limit
      && Abs(next - a) <= COMPLEMENTARY_ALPHA * (Abs(Angle(d, axis) - a) + step)
      && (step == 0.0 ==> next - a == COMPLEMENTARY_ALPHA * (Angle(d, axis) - a))
  {
    assert s in [s];
    NextAngle(m, d, s, axis);
    var f, inc := Angle(d, axis), GyroStep(d.bias, s, axis);
    var u := Unwrapped(m, d, s, axis);
    assert u - a == COMPLEMENTARY_ALPHA * (f - a + inc);
    assert -180.0 <= u <= 180.0;
  }

  /** From error e0, the error after n samples is at most 0.98^n * |e0| plus 49
      times the largest gyroscope step, and never leaves the starting band;
      without rotation it is exactly 0.98^n * e0. */
  ghost predicate Converges(e0: real, en: real, n: nat, step: real) {
    && Abs(en) <= Decay(n) * Abs(e0) + 49.0 * step
    && Abs(en) <= Max(Abs(e0), 49.0 * step)
    && (step == 0.0 ==> en == Decay(n) * e0)
  }

  lemma DecayStep(e: real, n: nat)
    ensures Decay(n + 1) * e == COMPLEMENTARY_ALPHA * (Decay(n) * e)
  {}

  lemma ConvergesStep(e0: real, e: real, e': real, n: nat, step: real)
    requires Converges(e0, e, n, step)
    requires Abs(e') <= Max(Abs(e0), 49.0 * step)
    requires Abs(e') <= COMPLEMENTARY_ALPHA * (Abs(e) + step)
    requires step == 0.0 ==> e' == COMPLEMENTARY_ALPHA * e
    ensures Converges(e0, e', n + 1, step)
  {
    hide Decay, Abs;
    DecayStep(Abs(e0), n);
    DecayStep(e0, n);
  }

  lemma ErrorInBand(e0: real, e: real, n: nat, step: real)
    requires Converges(e0, e, n, step)
    ensures Abs(e) <= Max(Abs(e0), 49.0 * step)
  {}

  lemma NeverWrapsStep(m: Trig, d: State, samples: seq<Sample>, axis: Axis, n: nat)
    requires n + 1 == |samples| && NeverWraps(m, d, samples[..n], axis)
    requires TurnsAt(m, d, samples, axis, n) == 0
    ensures NeverWraps(m, d, samples, axis)
  {
    hide Unwrapped, After, Turns;
    forall i | 0 <= i < n
      ensures TurnsAt(m, d, samples, axis, i) == TurnsAt(m, d, samples[..n], axis, i)
    {
      assert samples[..n][..i] == samples[..i];
    }
  }

  lemma SteadyParts(m: Trig, bias: Vector, samples: seq<Sample>, axis: Axis, a: real, step: real)
    requires samples != [] && Steady(m, bias, samples, axis, a, step)
    ensures Steady(m, bias, samples[..|samples| - 1], axis, a, step)
    ensures Steady(m, bias, [samples[|samples| - 1]], axis, a, step)
  {
    hide Norm, AccelAngle, GyroStep, Reliable, Abs;
  }

  lemma NothingHappens(m: Trig, d: State, samples: seq<Sample>, axis: Axis, e0: real, step: real)
    requires samples == [] && 0.0 <= step
    ensures NeverWraps(m, d, samples, axis) && Converges(e0, e0, 0, step)
  {
    assert Decay(0) == 1.0;
  }

  lemma FilterStep(m: Trig, d: State, prev: State, s: Sample, axis: Axis, a: real, step: real, n: nat)
    requires prev.initialized && Steady(m, prev.bias, [s], axis, a, step)
    requires Abs(a) + Max(Abs(Angle(d, axis) - a), 49.0 * step) <= 180.0
    requires Converges(Angle(d, axis) - a, Angle(prev, axis) - a, n, step)
    ensures Turns(Unwrapped(m, prev, s, axis)) == 0
    ensures Converges(Angle(d, axis) - a, Angle(Next(m, prev, s), axis) - a, n + 1, step)
  {
    hide Steady, Unwrapped, Turns, Next, Angle, Converges;
    var e0 := Angle(d, axis) - a;
    ErrorInBand(e0, Angle(prev, axis) - a, n, step);
    SteadyStep(m, prev, s, axis, a, step, Max(Abs(e0), 49.0 * step));
    ConvergesStep(e0, Angle(prev, axis) - a, Angle(Next(m, prev, s), axis) - a, n, step);
  }

  /** Main filter result: over any steady run the error converges and no update
      ever wraps, whenever the starting band fits into half a turn. */
  lemma {:induction false} FilterBound(
    m: Trig, d: State, samples: seq<Sample>, axis: Axis, a: real, step: real)
    requires d.initialized && Steady(m, d.bias, samples, axis, a, step) && 0.0 <= step
    requires Abs(a) + Max(Abs(Angle(d, axis) - a), 49.0 * step) <= 180.0
    ensures NeverWraps(m, d, samples, axis)
    ensures Converges(Angle(d, axis) - a, Angle(After(m, d, samples), axis) - a, |samples|, step)
  {
    hide Steady, Unwrapped, Turns, Next, Angle, NeverWraps, Converges, Abs, Max;
    if samples == [] {
      NothingHappens(m, d, samples, axis, Angle(d, axis) - a, step);
    } else {
      var n := |samples| - 1;
      SteadyParts(m, d.bias, samples, axis, a, step);
      FilterBound(m, d, samples[..n], axis, a, step);
      AfterKeeps(m, d, samples[..n]);
      FilterStep(m, d, After(m, d, samples[..n]), samples[n], axis, a, step, n);
      NeverWrapsStep(m, d, samples, axis, n);
    }
  }

  // ----- A device at rest -----

  function Repeat(s: Sample, n: nat): seq<Sample> { seq(n, i => s) }

  ghost predicate AtRest(m: Trig, bias: Vector, s: Sample) {
    && s.gyro.x == bias.x && s.gyro.y == bias.y
    && Abs(AccelRoll(m, s)) <= 180.0 && Abs(AccelPitch(m, s)) <= 180.0
  }

  ghost predicate Settled(m: Trig, bias: Vector, s: Sample, d: State) {
    d.roll == AccelRoll(m, s) && d.pitch == AccelPitch(m, s) && d.initialized && d.bias == bias
  }

  lemma RestStep(m: Trig, bias: Vector, s: Sample, prev: State)
    requires AtRest(m, bias, s) && (prev == Initial(bias) || Settled(m, bias, s, prev))
    ensures Settled(m, bias, s, Next(m, prev, s))
  {
    hide Norm, AccelRoll, AccelPitch, Reliable;
    assert Increment(0.0) == 0.0;
    NextAngle(m, prev, s, RollAxis);
    NextAngle(m, prev, s, PitchAxis);
  }

  /** A consistent stationary start is a fixed point, reliable or not. */
  lemma {:induction false} RestIsFixedPoint(m: Trig, bias: Vector, s: Sample, n: nat)
    requires AtRest(m, bias, s) && 0 < n
    ensures Settled(m, bias, s, After(m, Initial(bias), Repeat(s, n)))
  {
    hide AtRest, Settled, Next;
    assert Repeat(s, n)[..n - 1] == Repeat(s, n - 1);
    if n > 1 {
      RestIsFixedPoint(m, bias, s, n - 1);
    }
    RestStep(m, bias, s, After(m, Initial(bias), Repeat(s, n - 1)));
  }

  /** A device at rest reports impact on its second sample if it reads at least
      4 g, rollover on its 250th if it is tilted at least 60 degrees, and nothing
      at any other time. */
  lemma RestEvents(m: Trig, bias: Vector, s: Sample, n: nat, i: nat)
    requires AtRest(m, bias, s) && i < n
    ensures EventAt(m, Initial(bias), Repeat(s, n), i) == Event(
      i + 1 == IMPACT_REQUIRED_SAMPLES && Norm(m, s.accel) >= IMPACT_THRESHOLD_G,
      i + 1 == ROLLOVER_REQUIRED_SAMPLES
        && Tilt(m, AccelRoll(m, s), AccelPitch(m, s)) >= ROLLOVER_ANGLE_DEG)
  {
    var samples := Repeat(s, n);
    EventsMarkFirstWindows(m, bias, samples, i);
    var up, over := ImpactFlags(m, samples), RolloverFlags(m, Initial(bias), samples);
    var tilted := Tilt(m, AccelRoll(m, s), AccelPitch(m, s)) >= ROLLOVER_ANGLE_DEG;
    forall j | 0 <= j < n ensures over[j] == tilted {
      assert samples[..j] == Repeat(s, j);
      RestIsFixedPoint(m, bias, s, j + 1);
      assert Repeat(s, j + 1)[..j] == Repeat(s, j);
    }
    ConstantFlags(IMPACT_REQUIRED_SAMPLES, up, Norm(m, s.accel) >= IMPACT_THRESHOLD_G, i);
    ConstantFlags(ROLLOVER_REQUIRED_SAMPLES, over, tilted, i);
  }

  lemma ConstantFlags(required: nat, flags: seq<bool>, value: bool, i: nat)
    requires 0 < required && i < |flags| && forall j :: 0 <= j < |flags| ==> flags[j] == value
    ensures Consecutive.FirstWindowEndsAt(required, flags, i) <==> value && i + 1 == required
  {
    if value && required < i + 1 { assert Consecutive.WindowEndsAt(required, flags, required - 1); }
    if !value && required <= i + 1 { assert !flags[i]; }
  }

  // ----- Wrapping with real sensor input -----

  lemma AccelAngleRange(m: Trig, s: Sample, axis: Axis)
    requires AtanRange(m)
    ensures -180.1 < AccelAngle(m, s, axis) < 180.1
  {
    RadRange(m, s);
    assert AccelRoll(m, s) == RollRad(m, s) * 57.29577951308232;
    assert AccelPitch(m, s) == PitchRad(m, s) * 57.29577951308232;
  }

  lemma RadRange(m: Trig, s: Sample)
    requires AtanRange(m)
    ensures -3.1415927 <= RollRad(m, s) <= 3.1415927
    ensures -3.1415927 <= PitchRad(m, s) <= 3.1415927
  {}

  /** A 16-bit gyroscope reading turns an axis by less than two degrees a sample,
      so an update wraps an axis at most once. */
  lemma WrapsAtMostOnce(m: Trig, d: State, raw: Sensor.RawSample, axis: Axis)
    requires AtanRange(m) && d.bias == Vector(0.0, 0.0, 0.0)
    requires Abs(Angle(d, axis)) <= 180.0
    ensures Abs(GyroStep(d.bias, Sensor.Physical(raw), axis)) < 2.0
    ensures -1 <= Turns(Unwrapped(m, d, Sensor.Physical(raw), axis)) <= 1
    ensures Abs(Angle(Next(m, d, Sensor.Physical(raw)), axis)) <= 180.0
  {
    var s := Sensor.Physical(raw);
    NextAngle(m, d, s, axis);
    var rate: int := if axis.RollAxis? then raw.gyro.x else raw.gyro.y;
    assert GyroStep(d.bias, s, axis) == Increment(Sensor.GyroRad(rate));
    var u := Unwrapped(m, d, s, axis);
    AccelAngleRange(m, s, axis);
    assert -182.0 < u < 182.0;
    if u > 180.0 { NormalizedIsUnique(u, 1); }
    if u < -180.0 { NormalizedIsUnique(u, -1); }
  }
}
