/** Wrapping an angle into [-180, 180] by whole turns, over the reals. */
module AngleWrap {

  /** How many times 360 is subtracted (negative: added). */
  function Turns(angle: real): int {
    if angle > 180.0 then -((180.0 - angle) / 360.0).Floor
    else if angle < -180.0 then ((angle + 180.0) / 360.0).Floor
    else 0
  }

  function Normalized(angle: real): (r: real)
    ensures -180.0 <= r <= 180.0
  {
    var r := angle - 360.0 * Turns(angle) as real;
    assert -180.0 <= r <= 180.0 by { WrapsIntoRange(angle); }
    r
  }

  lemma WrapsIntoRange(angle: real)
    ensures var r := angle - 360.0 * Turns(angle) as real;
      && -180.0 <= r <= 180.0
      && (angle > 180.0 ==> -180.0 < r)
      && (angle < -180.0 ==> r < 180.0)
  {
    if angle > 180.0 {
      var q := (180.0 - angle) / 360.0;
      assert q.Floor as real <= q < q.Floor as real + 1.0;
      assert 360.0 * q == 180.0 - angle;
    } else if angle < -180.0 {
      var q := (angle + 180.0) / 360.0;
      assert q.Floor as real <= q < q.Floor as real + 1.0;
      assert 360.0 * q == angle + 180.0;
    }
  }

  /** The result is the only angle a whole number of turns away that lies in range
      on the side the loops stop at. */
  lemma NormalizedIsUnique(angle: real, k: int)
    requires var r := angle - 360.0 * k as real;
      if angle > 180.0 then -180.0 < r <= 180.0
      else if angle < -180.0 then -180.0 <= r < 180.0
      else r == angle
    ensures Normalized(angle) == angle - 360.0 * k as real
  {
    WrapsIntoRange(angle);
    var d := Turns(angle) - k;
    var r := angle - 360.0 * k as real;
    assert r - Normalized(angle) == 360.0 * d as real;
    assert d == 0;
  }

  lemma OneTurnLess(angle: real)
    ensures angle > 180.0 ==> Turns(angle) >= 1 && Normalized(angle - 360.0) == Normalized(angle)
                              && Turns(angle - 360.0) == Turns(angle) - 1
    ensures angle < -180.0 ==> Turns(angle) <= -1 && Normalized(angle + 360.0) == Normalized(angle)
                               && Turns(angle + 360.0) == Turns(angle) + 1
  {
    WrapsIntoRange(angle);
    if angle > 180.0 {
      assert angle - 360.0 > -180.0;
      NormalizedIsUnique(angle - 360.0, Turns(angle) - 1);
    } else if angle < -180.0 {
      NormalizedIsUnique(angle + 360.0, Turns(angle) + 1);
    }
  }

  /** The two loops terminate and compute the wrapped angle; `wraps` counts their
      rounds. */
  method NormalizeAngle(start: real) returns (angle: real, ghost wraps: nat)
    ensures angle == Normalized(start)
    ensures wraps == if Turns(start) >= 0 then Turns(start) else -Turns(start)
  {
    angle := start;
    wraps := 0;
    while angle > 180.0
      invariant Normalized(angle) == Normalized(start)
      invariant start > 180.0 ==> Turns(angle) + wraps == Turns(start) && angle > -180.0
      invariant start <= 180.0 ==> angle == start && wraps == 0
      decreases Turns(angle)
    {
      OneTurnLess(angle);
      angle := angle - 360.0;
      wraps := wraps + 1;
    }
    while angle < -180.0
      invariant Normalized(angle) == Normalized(start)
      invariant start < -180.0 ==> Turns(angle) - wraps == Turns(start) && angle <= 180.0
      invariant start >= -180.0 ==> angle <= 180.0 && angle >= -180.0 && wraps == Turns(start)
      decreases -Turns(angle)
    {
      OneTurnLess(angle);
      angle := angle + 360.0;
      wraps := wraps + 1;
    }
  }
}
