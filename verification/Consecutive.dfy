/** The counter with a latch that the detector runs twice: once over "at least
    4 g" for impact, once over "tilted at least 60 degrees" for rollover. */
module Consecutive {

  datatype Counter = Counter(samples: nat, latched: bool)

  const ZERO := Counter(0, false)

  predicate Reaches(c: Counter, required: nat, above: bool) {
    above && c.samples + 1 >= required
  }

  /** Emits its event only the first time the required number is reached. */
  predicate Fires(c: Counter, required: nat, above: bool) {
    Reaches(c, required, above) && !c.latched
  }

  function Advance(c: Counter, required: nat, above: bool): Counter {
    Counter(if above then c.samples + 1 else 0, c.latched || Reaches(c, required, above))
  }

  function Count(required: nat, flags: seq<bool>): Counter {
    if flags == [] then ZERO
    else Advance(Count(required, flags[..|flags| - 1]), required, flags[|flags| - 1])
  }

  ghost predicate LongestTrueSuffix(flags: seq<bool>, k: nat) {
    && k <= |flags|
    && (forall j :: |flags| - k <= j < |flags| ==> flags[j])
    && (k < |flags| ==> !flags[|flags| - k - 1])
  }

  /** The last `required` flags up to and including i are all set. */
  ghost predicate WindowEndsAt(required: nat, flags: seq<bool>, i: nat) {
    required <= i + 1 <= |flags| && forall j :: i + 1 - required <= j <= i ==> flags[j]
  }

  ghost predicate FirstWindowEndsAt(required: nat, flags: seq<bool>, i: nat) {
    WindowEndsAt(required, flags, i) && forall j :: 0 <= j < i ==> !WindowEndsAt(required, flags, j)
  }

  lemma {:induction false} CounterIsSuffix(required: nat, flags: seq<bool>)
    ensures LongestTrueSuffix(flags, Count(required, flags).samples)
  {
    if flags != [] {
      var init := flags[..|flags| - 1];
      CounterIsSuffix(required, init);
      forall j | |flags| - Count(required, flags).samples <= j < |flags|
        ensures flags[j]
      {
        if j < |init| { assert init[j]; }
      }
    }
  }

  lemma ReachesIffWindow(required: nat, flags: seq<bool>, i: nat)
    requires 0 < required && i < |flags|
    ensures Reaches(Count(required, flags[..i]), required, flags[i])
       <==> WindowEndsAt(required, flags, i)
  {
    CounterIsSuffix(required, flags[..i]);
    var k := Count(required, flags[..i]).samples;
    if k < i { assert !flags[..i][i - k - 1]; }
    if flags[i] && k + 1 >= required {
      forall j | i + 1 - required <= j < i ensures flags[j] { assert flags[..i][j]; }
    }
  }

  lemma WindowOfPrefix(required: nat, flags: seq<bool>, n: nat, i: nat)
    requires i < n <= |flags|
    ensures WindowEndsAt(required, flags[..n], i) <==> WindowEndsAt(required, flags, i)
  {
    if required <= i + 1 {
      assert forall j :: i + 1 - required <= j <= i ==> 0 <= j < n && flags[..n][j] == flags[j];
    }
  }

  /** The latch is set exactly when some window of the required length occurred. */
  lemma {:induction false} LatchIffWindow(required: nat, flags: seq<bool>)
    requires 0 < required
    ensures Count(required, flags).latched
       <==> exists i :: 0 <= i < |flags| && WindowEndsAt(required, flags, i)
  {
    if flags != [] {
      var n := |flags| - 1;
      LatchIffWindow(required, flags[..n]);
      ReachesIffWindow(required, flags, n);
      forall i | 0 <= i < n
        ensures WindowEndsAt(required, flags[..n], i) <==> WindowEndsAt(required, flags, i)
      {
        WindowOfPrefix(required, flags, n, i);
      }
    }
  }

  lemma {:induction false} FirstWindowExists(required: nat, flags: seq<bool>, i: nat) returns (j: nat)
    requires WindowEndsAt(required, flags, i)
    ensures j <= i && FirstWindowEndsAt(required, flags, j)
  {
    if k: nat :| k < i && WindowEndsAt(required, flags, k) {
      j := FirstWindowExists(required, flags, k);
    } else {
      j := i;
    }
  }

  /** The event is emitted at exactly the index ending the first such window,
      hence at most once. */
  lemma FiresAtFirstWindow(required: nat, flags: seq<bool>, i: nat)
    requires 0 < required && i < |flags|
    ensures Fires(Count(required, flags[..i]), required, flags[i])
       <==> FirstWindowEndsAt(required, flags, i)
  {
    ReachesIffWindow(required, flags, i);
    LatchIffWindow(required, flags[..i]);
    forall j | 0 <= j < i
      ensures WindowEndsAt(required, flags[..i], j) <==> WindowEndsAt(required, flags, j)
    {
      WindowOfPrefix(required, flags, i, j);
    }
  }

  lemma FiresAtMostOnce(required: nat, flags: seq<bool>, i: nat, j: nat)
    requires 0 < required && i < |flags| && j < |flags|
    requires Fires(Count(required, flags[..i]), required, flags[i])
    requires Fires(Count(required, flags[..j]), required, flags[j])
    ensures i == j
  {
    FiresAtFirstWindow(required, flags, i);
    FiresAtFirstWindow(required, flags, j);
  }
}
