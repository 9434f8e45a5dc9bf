/** What the detector's angles mean in terms of the acceleration vector, given named
    facts about the mathematical library.  Numbers are written out, so that they are
    those of the code and not of the model. */
module Orientation {
  import opened Detection
  import opened ComplementaryFilter
  import AngleWrap
  import Sensor

  // ----- Facts about sqrt, cos, acos and atan2 -----

  ghost predicate SqrtFacts(m: Trig) {
    forall x :: 0.0 <= x ==> 0.0 <= m.sqrt(x) && m.sqrt(x) * m.sqrt(x) == x
  }

  /** The cosine is even, falls on [0, pi], and moves no faster than its argument. */
  ghost predicate CosFacts(m: Trig, pi: real) {
    && 3.141592653589793238 < pi < 3.141592653589793239
    && m.cos(0.0) == 1.0 && m.cos(pi / 3.0) == 0.5
    && (forall t :: m.cos(-t) == m.cos(t) && -1.0 <= m.cos(t) <= 1.0)
    && (forall a, b :: Abs(m.cos(a) - m.cos(b)) <= Abs(a - b))
    && (forall a, b :: 0.0 <= a < b <= pi ==> m.cos(b) < m.cos(a))
  }

  ghost predicate AcosFacts(m: Trig, pi: real) {
    forall v :: -1.0 <= v <= 1.0 ==> 0.0 <= m.acos(v) <= pi && m.cos(m.acos(v)) == v
  }

  /** atan2(y, x) is the angle of the point (x, y), with the sign of y. */
  ghost predicate AtanFacts(m: Trig, pi: real) {
    && (forall y, x :: -pi <= m.atan2(y, x) <= pi)
    && (forall y, x :: m.cos(m.atan2(y, x)) * Hypot(m, y, x) == x)
    && (forall y, x :: (0.0 < y ==> 0.0 < m.atan2(y, x)) && (y < 0.0 ==> m.atan2(y, x) < 0.0))
  }

  ghost predicate Facts(m: Trig, pi: real) {
    SqrtFacts(m) && CosFacts(m, pi) && AcosFacts(m, pi) && AtanFacts(m, pi)
  }

  lemma FactsParts(m: Trig, pi: real)
    requires Facts(m, pi)
    ensures SqrtFacts(m) && CosFacts(m, pi) && AcosFacts(m, pi) && AtanFacts(m, pi)
  {}

  // ----- Pure roll and pure pitch -----

  lemma AcosOfCos(m: Trig, pi: real, t: real)
    requires CosFacts(m, pi) && AcosFacts(m, pi) && 0.0 <= t <= pi
    ensures m.acos(m.cos(t)) == t
  {
    var u := m.acos(m.cos(t));
    assert 0.0 <= u <= pi && m.cos(u) == m.cos(t);
    assert u < t ==> m.cos(t) < m.cos(u);
    assert t < u ==> m.cos(u) < m.cos(t);
  }

  lemma CosOfAbs(m: Trig, pi: real, t: real)
    requires CosFacts(m, pi)
    ensures m.cos(t) == m.cos(Abs(t))
  {
    assert m.cos(-t) == m.cos(t);
  }

  lemma AngleOfCosine(m: Trig, pi: real, t: real)
    requires CosFacts(m, pi) && AcosFacts(m, pi) && Abs(t) <= pi
    ensures AngleOf(m, m.cos(t)) == Abs(t) * RAD_TO_DEG
  {
    CosOfAbs(m, pi, t);
    AcosOfCos(m, pi, Abs(t));
  }

  lemma AbsScaled(x: real, k: real)
    requires 0.0 <= k
    ensures Abs(x * k) == Abs(x) * k
  {}

  lemma NoAngle(m: Trig, pi: real)
    requires CosFacts(m, pi)
    ensures m.cos(0.0 * DEG_TO_RAD) == 1.0
  {
    assert 0.0 * DEG_TO_RAD == 0.0;
  }

  lemma CosineOfOne(m: Trig, pi: real, angle: real)
    requires CosFacts(m, pi)
    ensures Cosine(m, angle, 0.0) == m.cos(angle * DEG_TO_RAD) == Cosine(m, 0.0, angle)
  {
    NoAngle(m, pi);
    hide CosFacts;
  }

  /** Rolled only, or pitched only: the tilt is the absolute angle, up to the two
      conversion constants. */
  lemma PureTilt(m: Trig, pi: real, angle: real)
    requires Facts(m, pi) && Abs(angle) * 0.01745329251994329577 <= pi
    ensures Tilt(m, angle, 0.0) == Abs(angle) * 0.01745329251994329577 * 57.29577951308232
    ensures Tilt(m, 0.0, angle) == Abs(angle) * 0.01745329251994329577 * 57.29577951308232
  {
    AbsScaled(angle, DEG_TO_RAD);
    AngleOfCosine(m, pi, angle * DEG_TO_RAD);
    CosineOfOne(m, pi, angle);
    hide Facts, SqrtFacts, CosFacts, AcosFacts, AtanFacts, AngleOf, Cosine, Abs;
  }

  // ----- Tilt of an acceleration vector -----

  ghost predicate HasLength(v: Vector, length: real) {
    0.0 <= length && length * length == v.x * v.x + v.y * v.y + v.z * v.z
  }

  lemma RootIsUnique(r: real, length: real)
    requires 0.0 <= r && 0.0 <= length && r * r == length * length
    ensures r == length
  {
    SquareOrder(r, length);
  }

  lemma NormIsLength(m: Trig, v: Vector, length: real)
    requires SqrtFacts(m) && HasLength(v, length)
    ensures Norm(m, v) == length
  {
    RootIsUnique(Norm(m, v), length);
  }

  lemma AtanPoint(m: Trig, pi: real, y: real, x: real)
    requires AtanFacts(m, pi)
    ensures m.cos(m.atan2(y, x)) * Hypot(m, y, x) == x
  {
    hide Hypot;
  }

  lemma RollCosine(m: Trig, pi: real, s: Sample)
    requires AtanFacts(m, pi)
    ensures m.cos(RollRad(m, s)) * Horizontal(m, s) == s.accel.z
  {
    AtanPoint(m, pi, s.accel.y, s.accel.z);
    hide AtanFacts, Hypot;
  }

  lemma PitchCosine(m: Trig, pi: real, s: Sample, length: real)
    requires SqrtFacts(m) && AtanFacts(m, pi) && HasLength(s.accel, length)
    ensures m.cos(PitchRad(m, s)) * length == Horizontal(m, s)
  {
    var x, h := s.accel.x, Horizontal(m, s);
    HorizontalSquare(m, s);
    HypotIsLength(m, -x, h, length);
    AtanPoint(m, pi, -x, h);
    hide SqrtFacts, AtanFacts, Hypot, Horizontal;
  }

  lemma HorizontalSquare(m: Trig, s: Sample)
    requires SqrtFacts(m)
    ensures var h := Horizontal(m, s); h * h == s.accel.y * s.accel.y + s.accel.z * s.accel.z
  {
    Squares(s.accel.y, s.accel.z);
  }

  lemma HypotIsLength(m: Trig, x: real, y: real, length: real)
    requires SqrtFacts(m) && 0.0 <= length && length * length == x * x + y * y
    ensures Hypot(m, x, y) == length
  {
    Squares(x, y);
    assert 0.0 <= Hypot(m, x, y) && Hypot(m, x, y) * Hypot(m, x, y) == x * x + y * y;
    RootIsUnique(Hypot(m, x, y), length);
  }

  /** How much of the length is vertical, as the product of two cosines. */
  function VerticalShare(m: Trig, s: Sample): real { m.cos(RollRad(m, s)) * m.cos(PitchRad(m, s)) }

  lemma CosinesOfVector(m: Trig, pi: real, s: Sample, length: real)
    requires SqrtFacts(m) && AtanFacts(m, pi) && HasLength(s.accel, length)
    ensures VerticalShare(m, s) * length == s.accel.z
  {
    hide SqrtFacts, AtanFacts, HasLength, VerticalShare, RollRad, PitchRad, Horizontal;
    RollCosine(m, pi, s);
    PitchCosine(m, pi, s, length);
    ShareProduct(m, s, length, Horizontal(m, s), s.accel.z);
  }

  lemma ShareProduct(m: Trig, s: Sample, length: real, h: real, z: real)
    requires m.cos(RollRad(m, s)) * h == z && m.cos(PitchRad(m, s)) * length == h
    ensures VerticalShare(m, s) * length == z
  {
    hide RollRad, PitchRad;
    Product(m.cos(RollRad(m, s)), m.cos(PitchRad(m, s)), length, h, z);
  }

  lemma Squares(y: real, z: real)
    ensures 0.0 <= y * y + z * z
  {}

  lemma Product(a: real, b: real, length: real, h: real, z: real)
    requires a * h == z && b * length == h
    ensures (a * b) * length == z
  {
    assert (a * b) * length == a * (b * length);
  }

  /** Converting an angle to degrees and back moves its cosine by next to nothing. */
  lemma ThereAndBack(m: Trig, pi: real, t: real, degrees: real)
    requires CosFacts(m, pi) && -pi <= t <= pi && degrees == t * RAD_TO_DEG
    ensures Abs(m.cos(degrees * DEG_TO_RAD) - m.cos(t)) <= 0.0000000001
    ensures -1.0 <= m.cos(t) <= 1.0 && -1.0 <= m.cos(degrees * DEG_TO_RAD) <= 1.0
  {
    var t' := degrees * DEG_TO_RAD;
    assert t' - t == t * (57.29577951308232 * 0.01745329251994329577 - 1.0);
    assert Abs(t' - t) <= 0.0000000001;
    assert Abs(m.cos(t') - m.cos(t)) <= Abs(t' - t);
  }

  lemma ProductsClose(a: real, b: real, a': real, b': real, e: real)
    requires -1.0 <= a <= 1.0 && -1.0 <= b' <= 1.0 && 0.0 <= e
    requires Abs(a' - a) <= e && Abs(b' - b) <= e
    ensures Abs(a' * b' - a * b) <= 2.0 * e
  {
    assert a' * b' - a * b == (a' - a) * b' + a * (b' - b);
    Scaled(a' - a, b', e);
    Scaled(b' - b, a, e);
  }

  lemma Scaled(d: real, f: real, e: real)
    requires Abs(d) <= e && -1.0 <= f <= 1.0
    ensures -e <= d * f <= e && -e <= f * d <= e
  {
    if 0.0 <= f {
      assert -e * f <= d * f <= e * f;
      assert e * f <= e;
    } else {
      var g := -f;
      assert -e * g <= d * g <= e * g;
      assert e * g <= e;
      assert d * f == -(d * g);
    }
  }

  /** The angle whose cosine is compared with: 60 degrees in the code's radians. */
  lemma SixtyDegrees(m: Trig, pi: real)
    requires CosFacts(m, pi)
    ensures var t := 60.0 / 57.29577951308232;
      0.0 <= t <= pi && Abs(m.cos(t) - 0.5) <= 0.0000000001
  {
    var t := 60.0 / 57.29577951308232;
    assert 1.0471975511965 < t < 1.0471975511966;
    assert 1.0471975511965 < pi / 3.0 < 1.0471975511966;
    assert Abs(m.cos(t) - m.cos(pi / 3.0)) <= Abs(t - pi / 3.0);
  }

  lemma SixtyOrMore(m: Trig, pi: real, w: real)
    requires CosFacts(m, pi) && AcosFacts(m, pi) && -1.0 <= w <= 1.0
    ensures w <= 0.5 - 0.0000000002 ==> AngleOf(m, w) >= 60.0
    ensures w >= 0.5 + 0.0000000002 ==> AngleOf(m, w) < 60.0
  {
    SixtyDegrees(m, pi);
    var t, u := 60.0 / 57.29577951308232, m.acos(w);
    assert m.cos(u) == w;
    if u < t {
      assert m.cos(t) < m.cos(u);
    } else if t < u {
      assert m.cos(u) < m.cos(t);
    }
  }

  lemma ProductInRange(a: real, b: real)
    requires -1.0 <= a <= 1.0 && -1.0 <= b <= 1.0
    ensures -1.0 <= a * b <= 1.0
  {
    Scaled(a, b, 1.0);
  }

  lemma AnglesOfVector(m: Trig, pi: real, s: Sample)
    requires AtanFacts(m, pi)
    ensures -pi <= RollRad(m, s) <= pi && -pi <= PitchRad(m, s) <= pi
    ensures AccelRoll(m, s) == RollRad(m, s) * RAD_TO_DEG && AccelPitch(m, s) == PitchRad(m, s) * RAD_TO_DEG
  {}

  lemma CosineNear(m: Trig, roll: real, pitch: real, a: real, b: real, share: real)
    requires share == a * b
    requires -1.0 <= a <= 1.0 && Abs(m.cos(roll * DEG_TO_RAD) - a) <= 0.0000000001
    requires Abs(m.cos(pitch * DEG_TO_RAD) - b) <= 0.0000000001
    requires -1.0 <= m.cos(roll * DEG_TO_RAD) <= 1.0 && -1.0 <= m.cos(pitch * DEG_TO_RAD) <= 1.0
    ensures -1.0 <= Cosine(m, roll, pitch) <= 1.0
    ensures -0.0000000002 <= Cosine(m, roll, pitch) - share <= 0.0000000002
  {
    var a', b' := m.cos(roll * DEG_TO_RAD), m.cos(pitch * DEG_TO_RAD);
    ProductsClose(a, b, a', b', 0.0000000001);
    ProductInRange(a', b');
    assert Cosine(m, roll, pitch) == a' * b';
    hide Cosine;
  }

  /** The product the code takes the arc cosine of is next to z over the length. */
  lemma ConvertedCosines(m: Trig, pi: real, s: Sample)
    requires CosFacts(m, pi) && AtanFacts(m, pi)
    ensures var c := Cosine(m, AccelRoll(m, s), AccelPitch(m, s));
      && -1.0 <= c <= 1.0
      && -0.0000000002 <= c - VerticalShare(m, s) <= 0.0000000002
  {
    hide CosFacts, AtanFacts, AccelRoll, AccelPitch, RollRad, PitchRad, Abs, Cosine;
    AnglesOfVector(m, pi, s);
    ThereAndBack(m, pi, RollRad(m, s), AccelRoll(m, s));
    ThereAndBack(m, pi, PitchRad(m, s), AccelPitch(m, s));
    CosineNear(m, AccelRoll(m, s), AccelPitch(m, s), m.cos(RollRad(m, s)), m.cos(PitchRad(m, s)),
               VerticalShare(m, s));
  }

  lemma ShareDecides(m: Trig, pi: real, s: Sample)
    requires CosFacts(m, pi) && AcosFacts(m, pi) && AtanFacts(m, pi)
    ensures VerticalShare(m, s) <= 0.5 - 0.000000001 ==> Tilt(m, AccelRoll(m, s), AccelPitch(m, s)) >= 60.0
    ensures VerticalShare(m, s) >= 0.5 + 0.000000001 ==> Tilt(m, AccelRoll(m, s), AccelPitch(m, s)) < 60.0
  {
    hide CosFacts, AcosFacts, AtanFacts, AngleOf, Cosine, AccelRoll, AccelPitch, VerticalShare;
    ConvertedCosines(m, pi, s);
    SixtyOrMore(m, pi, Cosine(m, AccelRoll(m, s), AccelPitch(m, s)));
  }

  ghost predicate LeansOver(v: Vector, length: real) { v.z <= (0.5 - 0.000000001) * length }

  ghost predicate StandsUpright(v: Vector, length: real) { v.z >= (0.5 + 0.000000001) * length }

  lemma ShareOfVector(m: Trig, pi: real, s: Sample, length: real)
    requires SqrtFacts(m) && AtanFacts(m, pi) && 0.0 < length && HasLength(s.accel, length)
    ensures LeansOver(s.accel, length) ==> VerticalShare(m, s) <= 0.5 - 0.000000001
    ensures StandsUpright(s.accel, length) ==> VerticalShare(m, s) >= 0.5 + 0.000000001
  {
    CosinesOfVector(m, pi, s, length);
    hide SqrtFacts, AtanFacts, HasLength, VerticalShare;
    Ratio(VerticalShare(m, s), length, s.accel.z);
  }

  /** Tilted by 60 degrees: the vertical component is at most half the length. */
  lemma TiltOfVector(m: Trig, pi: real, s: Sample, length: real)
    requires Facts(m, pi) && 0.0 < length && HasLength(s.accel, length)
    ensures LeansOver(s.accel, length) ==> Tilt(m, AccelRoll(m, s), AccelPitch(m, s)) >= 60.0
    ensures StandsUpright(s.accel, length) ==> Tilt(m, AccelRoll(m, s), AccelPitch(m, s)) < 60.0
  {
    FactsParts(m, pi);
    hide Facts, SqrtFacts, CosFacts, AcosFacts, AtanFacts, HasLength, Tilt, AccelRoll, AccelPitch, VerticalShare;
    hide LeansOver, StandsUpright;
    ShareOfVector(m, pi, s, length);
    ShareDecides(m, pi, s);
  }

  lemma Ratio(v: real, length: real, z: real)
    requires 0.0 < length && v * length == z
    ensures z <= (0.5 - 0.000000001) * length ==> v <= 0.5 - 0.000000001
    ensures z >= (0.5 + 0.000000001) * length ==> v >= 0.5 + 0.000000001
  {
    if v > 0.5 - 0.000000001 {
      var d := v - (0.5 - 0.000000001);
      assert d * length > 0.0 && d * length == z - (0.5 - 0.000000001) * length;
    }
    if v < 0.5 + 0.000000001 {
      var d := (0.5 + 0.000000001) - v;
      assert d * length > 0.0 && d * length == (0.5 + 0.000000001) * length - z;
    }
  }

  // ----- Impact, reliability and signs -----

  /** The thresholds in terms of the sum of squares. */
  lemma MagnitudeOfVector(m: Trig, s: Sample)
    requires SqrtFacts(m)
    ensures var sum := s.accel.x * s.accel.x + s.accel.y * s.accel.y + s.accel.z * s.accel.z;
      && (AboveImpact(m, s) <==> sum >= 16.0)
      && (Reliable(Norm(m, s.accel)) <==> 0.64 <= sum <= 1.44)
  {
    var sum := s.accel.x * s.accel.x + s.accel.y * s.accel.y + s.accel.z * s.accel.z;
    Squares(s.accel.x, s.accel.y);
    Squares(s.accel.z, 0.0);
    var n := Norm(m, s.accel);
    assert 0.0 <= n && n * n == sum;
    SquareOrder(n, 4.0);
    SquareOrder(n, 0.8);
    SquareOrder(n, 1.2);
  }

  lemma SquareOrder(n: real, k: real)
    requires 0.0 <= n && 0.0 <= k
    ensures n >= k <==> n * n >= k * k
    ensures n <= k <==> n * n <= k * k
  {
    var d := n - k;
    assert n * n - k * k == d * (n + k);
    if d > 0.0 { assert d * (n + k) > 0.0; }
    if d < 0.0 && n + k > 0.0 { assert -d * (n + k) > 0.0; }
  }

  /** Left side up is positive roll, nose up is positive pitch. */
  lemma SignsOfVector(m: Trig, pi: real, s: Sample)
    requires AtanFacts(m, pi)
    ensures 0.0 < s.accel.y ==> 0.0 < AccelRoll(m, s)
    ensures s.accel.y < 0.0 ==> AccelRoll(m, s) < 0.0
    ensures s.accel.x < 0.0 ==> 0.0 < AccelPitch(m, s)
    ensures 0.0 < s.accel.x ==> AccelPitch(m, s) < 0.0
  {}

  // ----- A device at rest, by its acceleration vector alone -----

  lemma StillIsAtRest(m: Trig, pi: real, bias: Vector, s: Sample)
    requires Facts(m, pi) && s.gyro.x == bias.x && s.gyro.y == bias.y
    ensures AtRest(m, bias, s)
  {
    assert -pi <= RollRad(m, s) <= pi && -pi <= PitchRad(m, s) <= pi;
    assert AccelRoll(m, s) == RollRad(m, s) * 57.29577951308232;
    assert AccelPitch(m, s) == PitchRad(m, s) * 57.29577951308232;
    assert pi * 57.29577951308232 <= 180.0;
  }

  /** A device that does not turn reports an impact on its second sample exactly if
      its acceleration has a length of at least 4; a rollover on its 250th
      sample if the vertical component is below half the length, and none if it is
      above; and nothing at any other time. */
  lemma RestEventsOfVector(m: Trig, pi: real, bias: Vector, s: Sample, length: real, n: nat, i: nat)
    requires Facts(m, pi) && s.gyro.x == bias.x && s.gyro.y == bias.y && i < n
    requires 0.0 < length && HasLength(s.accel, length)
    ensures var event := EventAt(m, Initial(bias), Repeat(s, n), i);
      && (event.impact <==> i + 1 == 2 && length >= 4.0)
      && (LeansOver(s.accel, length) ==> (event.rollover <==> i + 1 == 250))
      && (StandsUpright(s.accel, length) ==> !event.rollover)
  {
    FactsParts(m, pi);
    hide Facts, SqrtFacts, CosFacts, AcosFacts, AtanFacts, HasLength, Tilt, AccelRoll, AccelPitch, Norm, EventAt;
    hide LeansOver, StandsUpright, Initial, Repeat, AtRest;
    StillIsAtRest(m, pi, bias, s);
    RestEvents(m, bias, s, n, i);
    NormIsLength(m, s.accel, length);
    TiltOfVector(m, pi, s, length);
  }

  // ----- The same for the sensor's integers -----

  function RawAccel(raw: Sensor.RawSample): Vector {
    Vector(raw.accel.x as real, raw.accel.y as real, raw.accel.z as real)
  }

  lemma RawScale(raw: Sensor.RawSample)
    ensures var a, k := Sensor.Physical(raw).accel, 0.000732;
      && a.x == raw.accel.x as real * k && a.y == raw.accel.y as real * k && a.z == raw.accel.z as real * k
  {}

  /** The hypotheses of the theorem above, from the sensor's units. */
  lemma RawVector(raw: Sensor.RawSample, length: real)
    requires 0.0 < length && HasLength(RawAccel(raw), length)
    ensures var a, l := Sensor.Physical(raw).accel, length * 0.000732;
      && 0.0 < l && HasLength(a, l)
      && (LeansOver(RawAccel(raw), length) ==> LeansOver(a, l))
      && (StandsUpright(RawAccel(raw), length) ==> StandsUpright(a, l))
  {
    var k := 0.000732;
    var x, y, z := raw.accel.x as real, raw.accel.y as real, raw.accel.z as real;
    RawScale(raw);
    hide Sensor.Physical;
    ScaledSquares(x, y, z, length, k);
    ScaledOrder(z, length, k, 0.5 - 0.000000001);
    ScaledOrder(z, length, k, 0.5 + 0.000000001);
    Positive(length, k);
  }

  /** With a zero bias and no rotation, and the acceleration in the sensor's units. */
  lemma RawRestEvents(m: Trig, pi: real, raw: Sensor.RawSample, length: real, n: nat, i: nat)
    requires Facts(m, pi) && raw.gyro.x == 0 && raw.gyro.y == 0 && i < n
    requires 0.0 < length && HasLength(RawAccel(raw), length)
    ensures var event := EventAt(m, Initial(Vector(0.0, 0.0, 0.0)), Repeat(Sensor.Physical(raw), n), i);
      && (event.impact <==> i + 1 == 2 && length * 0.000732 >= 4.0)
      && (LeansOver(RawAccel(raw), length) ==> (event.rollover <==> i + 1 == 250))
      && (StandsUpright(RawAccel(raw), length) ==> !event.rollover)
  {
    hide Facts, SqrtFacts, CosFacts, AcosFacts, AtanFacts, EventAt, Sensor.Physical, Repeat, Initial, HasLength;
    hide LeansOver, StandsUpright;
    RawVector(raw, length);
    RawStill(raw);
    RestEventsOfVector(m, pi, Vector(0.0, 0.0, 0.0), Sensor.Physical(raw), length * 0.000732, n, i);
  }

  lemma RawStill(raw: Sensor.RawSample)
    requires raw.gyro.x == 0 && raw.gyro.y == 0
    ensures Sensor.Physical(raw).gyro.x == 0.0 && Sensor.Physical(raw).gyro.y == 0.0
  {}

  lemma Positive(a: real, b: real)
    requires 0.0 < a && 0.0 < b
    ensures 0.0 < a * b
  {}

  lemma ScaledOrder(z: real, length: real, k: real, f: real)
    requires 0.0 < k
    ensures z <= f * length ==> z * k <= f * (length * k)
    ensures z >= f * length ==> z * k >= f * (length * k)
  {
    var d := f * length - z;
    assert f * (length * k) - z * k == d * k;
    if 0.0 <= d { assert 0.0 <= d * k; }
    if d <= 0.0 { assert d * k <= 0.0; }
  }

  lemma ScaledSquares(x: real, y: real, z: real, length: real, k: real)
    requires length * length == x * x + y * y + z * z
    ensures (length * k) * (length * k) == (x * k) * (x * k) + (y * k) * (y * k) + (z * k) * (z * k)
  {
    var q := k * k;
    assert (length * k) * (length * k) == (length * length) * q;
    assert (x * k) * (x * k) == (x * x) * q;
    assert (y * k) * (y * k) == (y * y) * q;
    assert (z * k) * (z * k) == (z * z) * q;
    assert (x * x + y * y + z * z) * q == (x * x) * q + (y * y) * q + (z * z) * q;
  }

  /** One unit of the gyroscope is 0.0175 degrees a second, its x axis turns the roll
      and its y axis the pitch. */
  lemma RawTurns(raw: Sensor.RawSample)
    ensures var s, zero := Sensor.Physical(raw), Vector(0.0, 0.0, 0.0);
      && GyroStep(zero, s, RollAxis)
         == raw.gyro.x as real * 0.0175 * 0.002 * (0.01745329251994329577 * 57.29577951308232)
      && GyroStep(zero, s, PitchAxis)
         == raw.gyro.y as real * 0.0175 * 0.002 * (0.01745329251994329577 * 57.29577951308232)
  {}

  // ----- Dead reckoning -----

  /** The angular rates an axis sees, added up. */
  function Rates(bias: Vector, samples: seq<Sample>, axis: Axis): real {
    if samples == [] then 0.0
    else
      var s := samples[|samples| - 1];
      Rates(bias, samples[..|samples| - 1], axis) + if axis.RollAxis? then s.gyro.x - bias.x else s.gyro.y - bias.y
  }

  /** No sample has a magnitude between 0.8 and 1.2 g. */
  ghost predicate Unreliable(m: Trig, samples: seq<Sample>) {
    forall s :: s in samples ==> Norm(m, s.accel) < 0.8 || 1.2 < Norm(m, s.accel)
  }

  /** Without a reliable acceleration the angle is the starting angle plus the
      integrated rates in degrees, up to whole turns. */
  lemma {:induction false} DeadReckoning(m: Trig, d: State, samples: seq<Sample>, axis: Axis)
    returns (turns: int)
    requires d.initialized && Unreliable(m, samples)
    ensures Angle(After(m, d, samples), axis)
         == Angle(d, axis) + Rates(d.bias, samples, axis) * 0.002 * 57.29577951308232 - 360.0 * turns as real
  {
    if samples == [] {
      turns := 0;
    } else {
      var n := |samples| - 1;
      assert Unreliable(m, samples[..n]) by { forall s | s in samples[..n] ensures s in samples {} }
      var before := DeadReckoning(m, d, samples[..n], axis);
      AfterKeeps(m, d, samples[..n]);
      assert samples[n] in samples;
      turns := before + ReckonStep(m, After(m, d, samples[..n]), samples[n], axis);
    }
  }

  function ReckonStep(m: Trig, d: State, s: Sample, axis: Axis): int {
    AngleWrap.Turns(Unwrapped(m, d, s, axis))
  }
}
