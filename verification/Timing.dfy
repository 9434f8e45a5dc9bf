/** Absolute deadlines as (seconds, nanoseconds), updated in place. */
module Timing {

  const NS_PER_S := 1_000_000_000
  const SAMPLE_PERIOD_NS := 2_000_000
  /** The least value LONG_MAX can have. */
  const LEAST_LONG_MAX := 0x7fff_ffff

  function Quotient(a: int, b: int): int
    requires 0 < b
  {
    if a < 0 then -((-a) / b) else a / b
  }

  function Remainder(a: int, b: int): int
    requires 0 < b
  {
    a - b * Quotient(a, b)
  }

  class Timespec {
    var sec: int
    var nsec: int
    /** The greatest `long` of the platform. */
    const longMax: int

    ghost predicate Valid()
      reads this
    {
      0 <= nsec < NS_PER_S && LEAST_LONG_MAX <= longMax
    }

    ghost function Total(): int
      reads this
    {
      sec * NS_PER_S + nsec
    }

    constructor (sec: int, nsec: int, longMax: int)
      ensures this.sec == sec && this.nsec == nsec && this.longMax == longMax
    {
      this.sec, this.nsec, this.longMax := sec, nsec, longMax;
    }

    /** The carry loop shared by both additions. */
    method Carry()
      requires 0 <= nsec && LEAST_LONG_MAX <= longMax
      modifies this
      ensures Valid() && Total() == old(Total())
    {
      while nsec >= NS_PER_S
        invariant 0 <= nsec && Total() == old(Total())
        decreases nsec
      {
        sec := sec + 1;
        nsec := nsec - NS_PER_S;
      }
    }

    /** Defined while the sum is a `long`, whatever its width. */
    method AddNanoseconds(nanoseconds: nat)
      requires Valid() && nsec + nanoseconds <= longMax
      modifies this
      ensures Valid() && Total() == old(Total()) + nanoseconds
    {
      nsec := nsec + nanoseconds;
      Carry();
    }

    /** Callers pass a positive timeout; the remainder truncates as in C. */
    method AddMilliseconds(milliseconds: int)
      requires Valid() && 0 <= milliseconds
      modifies this
      ensures Valid() && Total() == old(Total()) + milliseconds * 1_000_000
    {
      var nanoseconds := Remainder(milliseconds, 1000) * 1_000_000;
      assert nsec + nanoseconds <= longMax;
      sec := sec + Quotient(milliseconds, 1000);
      nsec := nsec + nanoseconds;
      Carry();
    }

    /** No drift: k periodic activations move the deadline by exactly k periods. */
    method Activate(k: nat)
      requires Valid()
      modifies this
      ensures Valid() && Total() == old(Total()) + k * 2_000_000
    {
      var i := 0;
      while i < k
        invariant i <= k && Valid() && Total() == old(Total()) + i * SAMPLE_PERIOD_NS
      {
        AddNanoseconds(SAMPLE_PERIOD_NS);
        i := i + 1;
      }
    }
  }
}
