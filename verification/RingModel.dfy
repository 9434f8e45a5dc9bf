/** The crash ring buffer as a value, the operations that change it, and the
    log it stands for.  The driver (module CrashBufferDriver) is proved against
    `Step`; everything here quantifies over arbitrary sequences of operations. */
module RingModel {
  import opened Common

  datatype Ring<T> = Ring(slots: seq<T>, head: nat, tail: nat, count: nat, locked: bool)

  /** One critical section that changes the buffer. */
  datatype Op<T> = Write(sample: T) | Lock | Unlock

  predicate WellFormed<T>(r: Ring<T>) {
    r.head < |r.slots| && r.tail < |r.slots| && r.count <= |r.slots|
  }

  function Step<T>(r: Ring<T>, op: Op<T>): (r': Ring<T>)
    requires WellFormed(r)
    ensures WellFormed(r') && |r'.slots| == |r.slots|
  {
    var n := |r.slots|;
    match op
    case Write(x) =>
      if r.locked then r
      else
        r.(slots := r.slots[r.head := x],
        head := (r.head + 1) % n,
        count := if r.count < n then r.count + 1 else r.count,
        tail := if r.count < n then r.tail else (r.tail + 1) % n)
    case Lock => r.(locked := true)
    case Unlock => r.(locked := false, head := 0, tail := 0, count := 0)
  }

  function Run<T>(r: Ring<T>, ops: seq<Op<T>>): (r': Ring<T>)
    requires WellFormed(r)
    ensures WellFormed(r') && |r'.slots| == |r.slots|
  {
    if ops == [] then r else Step(Run(r, ops[..|ops| - 1]), ops[|ops| - 1])
  }

  /** The module as loaded: slots hold whatever the allocator returned. */
  function Fresh<T>(slots: seq<T>): Ring<T> { Ring(slots, 0, 0, 0, false) }

  // ----- The reference: which samples were accepted, without any ring -----

  /** `log`: accepted since the last reset; `ever`: accepted since loading. */
  datatype Record<T> = Record(log: seq<T>, ever: seq<T>, frozen: bool)

  function Note<T>(h: Record<T>, op: Op<T>): Record<T> {
    match op
    case Write(x) => if h.frozen then h else h.(log := h.log + [x], ever := h.ever + [x])
    case Lock => h.(frozen := true)
    case Unlock => h.(frozen := false, log := [])
  }

  function Recorded<T>(ops: seq<Op<T>>): Record<T> {
    if ops == [] then Record([], [], false)
    else Note(Recorded(ops[..|ops| - 1]), ops[|ops| - 1])
  }

  // ----- What the record holds, without following it step by step -----

  /** The samples offered before the first LOCK. */
  function BeforeLock<T>(ops: seq<Op<T>>): seq<T> {
    if ops == [] || ops[0].Lock? then []
    else (if ops[0].Write? then [ops[0].sample] else []) + BeforeLock(ops[1..])
  }

  ghost predicate HasLock<T>(ops: seq<Op<T>>) {
    exists i :: 0 <= i < |ops| && ops[i].Lock?
  }

  lemma {:induction false} BeforeLockSnoc<T>(ops: seq<Op<T>>, op: Op<T>)
    ensures BeforeLock(ops + [op])
         == BeforeLock(ops) + if !HasLock(ops) && op.Write? then [op.sample] else []
  {
    if ops == [] {
      assert [op][1..] == [] && ops + [op] == [op];
    } else if ops[0].Lock? {
      assert HasLock(ops);
    } else {
      HasLockTail(ops);
      hide HasLock;
      BeforeLockSnoc(ops[1..], op);
      BeforeLockCons(ops[0], ops[1..]);
      BeforeLockCons(ops[0], ops[1..] + [op]);
      hide BeforeLock;
      assert ops == [ops[0]] + ops[1..];
      assert ops + [op] == [ops[0]] + (ops[1..] + [op]);
    }
  }

  lemma BeforeLockCons<T>(op: Op<T>, rest: seq<Op<T>>)
    requires !op.Lock?
    ensures BeforeLock([op] + rest) == (if op.Write? then [op.sample] else []) + BeforeLock(rest)
  {
    assert ([op] + rest)[1..] == rest;
  }

  lemma HasLockTail<T>(ops: seq<Op<T>>)
    requires ops != [] && !ops[0].Lock?
    ensures HasLock(ops) <==> HasLock(ops[1..])
  {
    if i :| 0 <= i < |ops| && ops[i].Lock? { assert ops[1..][i - 1].Lock?; }
    if i :| 0 <= i < |ops[1..]| && ops[1..][i].Lock? { assert ops[i + 1].Lock?; }
  }

  lemma HasLockSnoc<T>(ops: seq<Op<T>>, op: Op<T>)
    ensures HasLock(ops + [op]) <==> HasLock(ops) || op.Lock?
  {
    if i :| 0 <= i < |ops| && ops[i].Lock? { assert (ops + [op])[i].Lock?; }
    if op.Lock? { assert (ops + [op])[|ops|].Lock?; }
  }

  /** After a reset, and until the next, the log is exactly what was written before
      the first LOCK, and the buffer is frozen exactly if there was one. */
  lemma {:induction false} LogSinceReset<T>(earlier: seq<Op<T>>, since: seq<Op<T>>)
    requires NoReset(since)
    ensures Recorded(earlier + [Unlock] + since).log == BeforeLock(since)
    ensures Recorded(earlier + [Unlock] + since).frozen <==> HasLock(since)
  {
    var all := earlier + [Unlock] + since;
    if since == [] {
      assert all == earlier + [Unlock] && all[..|all| - 1] == earlier;
    } else {
      var init, op := since[..|since| - 1], since[|since| - 1];
      assert all[..|all| - 1] == earlier + [Unlock] + init && since == init + [op];
      assert forall i :: 0 <= i < |init| ==> init[i] == since[i];
      LogSinceReset(earlier, init);
      BeforeLockSnoc(init, op);
      HasLockSnoc(init, op);
    }
  }

  function LastN<T>(s: seq<T>, n: nat): seq<T> { s[|s| - Min(|s|, n)..] }

  /** The samples a copy loop of `m` rounds starting at slot `t` collects. */
  function Entries<T>(r: Ring<T>, t: nat, m: nat): (s: seq<T>)
    requires 0 < |r.slots|
    ensures |s| == m
  {
    seq(m, i requires 0 <= i < m => r.slots[(t + i) % |r.slots|])
  }

  /** `r` stands for `log`: the slot of each of the last N log positions holds it. */
  ghost predicate Represents<T>(r: Ring<T>, log: seq<T>) {
    WellFormed(r) &&
    var n, cap := |log|, |r.slots|;
    r.head == n % cap &&
    r.count == Min(n, cap) &&
    r.tail == (n - r.count) % cap &&
    forall j :: 0 <= j < n <= j + cap ==> r.slots[j % cap] == log[j]
  }

  // ----- Modular arithmetic with a symbolic modulus -----

  lemma ModUnique(a: int, n: int, q: int, r: int)
    requires 0 < n && 0 <= r < n && a == q * n + r
    ensures a / n == q && a % n == r
  {
    var d := a / n - q;
    assert d * n == r - a % n;
  }

  lemma ModShift(a: int, b: int, n: int)
    requires 0 < n
    ensures (a % n + b) % n == (a + b) % n
  {
    var c := a % n + b;
    assert a + b == (a / n + c / n) * n + c % n;
    ModUnique(a + b, n, a / n + c / n, c % n);
  }

  lemma ModDistinct(a: int, b: int, n: int)
    requires a < b < a + n
    ensures a % n != b % n
  {
    var d := b / n - a / n;
    assert b - a == d * n + (b % n - a % n);
  }

  lemma ModPeriod(a: int, turns: int, n: int, b: int)
    requires 0 < n && b == a + turns * n
    ensures b % n == a % n
  {
    assert a == (a / n) * n + a % n;
    assert (a / n + turns) * n == (a / n) * n + turns * n;
    ModUnique(b, n, a / n + turns, a % n);
  }

  lemma ModSums(a: int, b: int, c: int, d: int, turns: int, n: int)
    requires 0 < n && c + d - a - b == turns * n
    ensures (a % n + b) % n == (c % n + d) % n
  {
    ModShift(a, b, n);
    ModShift(c, d, n);
    ModPeriod(a + b, turns, n, c + d);
  }

  // ----- Refinement -----

  /** The indices after one more accepted sample. */
  lemma WriteIndices<T>(r: Ring<T>, n: nat, x: T)
    requires WellFormed(r) && !r.locked
    requires r.head == n % |r.slots| && r.count == Min(n, |r.slots|) && r.tail == (n - r.count) % |r.slots|
    ensures var r', cap := Step(r, Write(x)), |r.slots|;
      r'.head == (n + 1) % cap && r'.count == Min(n + 1, cap) && r'.tail == (n + 1 - r'.count) % cap
  {
    var cap := |r.slots|;
    ModShift(n, 1, cap);
    if n >= cap { ModShift(n - cap, 1, cap); }
  }

  lemma WriteSlot<T>(slots: seq<T>, log: seq<T>, x: T, j: nat)
    requires 0 < |slots| && j <= |log| < j + |slots|
    requires j < |log| ==> slots[j % |slots|] == log[j]
    ensures slots[|log| % |slots| := x][j % |slots|] == (log + [x])[j]
  {
    if j < |log| { ModDistinct(j, |log|, |slots|); }
  }

  lemma StepRefines<T>(r: Ring<T>, h: Record<T>, op: Op<T>)
    requires Represents(r, h.log) && r.locked == h.frozen
    ensures Represents(Step(r, op), Note(h, op).log)
    ensures Step(r, op).locked == Note(h, op).frozen
  {
    if op.Write? && !r.locked {
      var n, cap, r', log' := |h.log|, |r.slots|, Step(r, op), Note(h, op).log;
      WriteIndices(r, n, op.sample);
      forall j | 0 <= j < n + 1 <= j + cap
        ensures r'.slots[j % cap] == log'[j]
      {
        WriteSlot(r.slots, h.log, op.sample, j);
      }
    }
  }

  lemma {:induction false} RunRefines<T>(slots: seq<T>, ops: seq<Op<T>>)
    requires 0 < |slots|
    ensures Represents(Run(Fresh(slots), ops), Recorded(ops).log)
    ensures Run(Fresh(slots), ops).locked == Recorded(ops).frozen
  {
    if ops != [] {
      RunRefines(slots, ops[..|ops| - 1]);
      StepRefines(Run(Fresh(slots), ops[..|ops| - 1]), Recorded(ops[..|ops| - 1]), ops[|ops| - 1]);
    }
  }

  /** Reading `m` entries from the tail yields the oldest `m` of the window. */
  lemma WindowEntries<T>(r: Ring<T>, log: seq<T>, m: nat)
    requires Represents(r, log) && m <= r.count
    ensures Entries(r, r.tail, m) == LastN(log, |r.slots|)[..m]
  {
    forall i | 0 <= i < m
      ensures Entries(r, r.tail, m)[i] == LastN(log, |r.slots|)[i]
    {
      ModShift(|log| - r.count, i, |r.slots|);
      assert log[|log| - r.count + i] == LastN(log, |r.slots|)[i];
    }
  }

  /** What a reader of the buffer can see of `log`: exactly its last min(n, N)
      samples, oldest first from the tail. */
  ghost predicate Shows<T>(r: Ring<T>, log: seq<T>) {
    && 0 < |r.slots|
    && r.count == Min(|log|, |r.slots|)
    && r.head == (r.tail + r.count) % |r.slots|
    && Entries(r, r.tail, r.count) == LastN(log, |r.slots|)
  }

  lemma RepresentsShows<T>(r: Ring<T>, log: seq<T>)
    requires Represents(r, log)
    ensures Shows(r, log)
  {
    ModShift(|log| - r.count, r.count, |r.slots|);
    WindowEntries(r, log, r.count);
  }

  /** Main refinement: after every sequence of write, LOCK and UNLOCK, the buffer
      is exactly the last min(n, N) samples accepted since the last reset. */
  lemma RingRefinement<T>(slots: seq<T>, ops: seq<Op<T>>)
    requires 0 < |slots|
    ensures Shows(Run(Fresh(slots), ops), Recorded(ops).log)
    ensures Run(Fresh(slots), ops).locked == Recorded(ops).frozen
  {
    RunRefines(slots, ops);
    RepresentsShows(Run(Fresh(slots), ops), Recorded(ops).log);
  }

  ghost predicate NoReset<T>(ops: seq<Op<T>>) {
    forall i :: 0 <= i < |ops| ==> !ops[i].Unlock?
  }

  /** While frozen, nothing but UNLOCK changes the buffer. */
  lemma {:induction false} FrozenIsStable<T>(r: Ring<T>, ops: seq<Op<T>>)
    requires WellFormed(r) && r.locked && NoReset(ops)
    ensures Run(r, ops) == r
  {
    if ops != [] { FrozenIsStable(r, ops[..|ops| - 1]); }
  }

  // ----- A read whose two critical sections are separated by other steps -----

  lemma {:induction false} RunConcat<T>(r: Ring<T>, a: seq<Op<T>>, b: seq<Op<T>>)
    requires WellFormed(r)
    ensures Run(r, a + b) == Run(Run(r, a), b)
  {
    if b == [] {
      assert a + b == a;
    } else {
      assert (a + b)[..|a + b| - 1] == a + b[..|b| - 1];
      RunConcat(r, a, b[..|b| - 1]);
    }
  }

  lemma {:induction false} RecordGrows<T>(a: seq<Op<T>>, b: seq<Op<T>>)
    ensures Recorded(a).ever <= Recorded(a + b).ever
    ensures NoReset(b) ==> Recorded(a).log <= Recorded(a + b).log
  {
    if b == [] {
      assert a + b == a;
    } else {
      assert (a + b)[..|a + b| - 1] == a + b[..|b| - 1];
      RecordGrows(a, b[..|b| - 1]);
    }
  }

  /** The newest log position below `n` that shares its slot with position `b`. */
  function NewestCongruent(n: nat, cap: nat, b: nat): (j: nat)
    requires b < n && 0 < cap
    ensures b <= j < n <= j + cap
    ensures j % cap == b % cap
    ensures forall k :: j < k < n ==> k % cap != b % cap
  {
    var q := (n - 1 - b) / cap;
    var j := b + q * cap;
    assert q * cap >= 0;
    assert j < n <= j + cap;
    assert j % cap == b % cap by { ModUnique(j, cap, b / cap + q, b % cap); }
    assert forall k :: j < k < n ==> k % cap != b % cap by {
      forall k | j < k < n ensures k % cap != b % cap { ModDistinct(j, k, cap); }
    }
    j
  }

  /** `r1` is the buffer at the snapshot of count and tail, `r2` the one copied from. */
  ghost predicate Later<T>(r1: Ring<T>, log1: seq<T>, r2: Ring<T>, log2: seq<T>) {
    Represents(r1, log1) && Represents(r2, log2) && |r1.slots| == |r2.slots| && log1 <= log2
  }

  lemma RunsAreLater<T>(slots: seq<T>, before: seq<Op<T>>, between: seq<Op<T>>)
    requires 0 < |slots| && NoReset(between)
    ensures Later(Run(Fresh(slots), before), Recorded(before).log,
                  Run(Fresh(slots), before + between), Recorded(before + between).log)
  {
    RunRefines(slots, before);
    RunRefines(slots, before + between);
    RecordGrows(before, between);
  }

  /** What entry i of the racing read is: the newest log entry whose index is
      congruent to n1 - c + i, and the intended one exactly when c + k <= N + i. */
  ghost predicate RacingEntry<T>(r1: Ring<T>, log1: seq<T>, r2: Ring<T>, log2: seq<T>, i: nat) {
    && i < r1.count <= |log1| && log1 <= log2 && 0 < |r2.slots|
    && var wanted, k := |log1| - r1.count + i, |log2| - |log1|;
       var j := NewestCongruent(|log2|, |r2.slots|, wanted);
       && Entries(r2, r1.tail, r1.count)[i] == log2[j]
       && (j == wanted <==> r1.count + k <= |r2.slots| + i)
  }

  lemma LaterEntry<T>(r1: Ring<T>, log1: seq<T>, r2: Ring<T>, log2: seq<T>, i: nat)
    requires Later(r1, log1, r2, log2) && i < r1.count
    ensures RacingEntry(r1, log1, r2, log2, i)
  {
    var wanted := |log1| - r1.count + i;
    ModShift(|log1| - r1.count, i, |r1.slots|);
    var j := NewestCongruent(|log2|, |r1.slots|, wanted);
    if wanted + |r1.slots| >= |log2| && j != wanted { ModDistinct(wanted, j, |r1.slots|); }
  }

  /** Racing read: the first critical section runs after `before` and snapshots
      count and tail, `between` happens, then the second copies. */
  lemma RacingRead<T>(slots: seq<T>, before: seq<Op<T>>, between: seq<Op<T>>, i: nat)
    requires 0 < |slots| && NoReset(between)
    requires i < Run(Fresh(slots), before).count
    ensures RacingEntry(Run(Fresh(slots), before), Recorded(before).log,
                        Run(Fresh(slots), before + between), Recorded(before + between).log, i)
  {
    RunsAreLater(slots, before, between);
    LaterEntry(Run(Fresh(slots), before), Recorded(before).log,
               Run(Fresh(slots), before + between), Recorded(before + between).log, i);
  }

  lemma LaterExact<T>(r1: Ring<T>, log1: seq<T>, r2: Ring<T>, log2: seq<T>, m: nat)
    requires Later(r1, log1, r2, log2) && m <= r1.count
    requires r1.count + |log2| - |log1| <= |r1.slots|
    ensures Entries(r2, r1.tail, m) == LastN(log1, |r1.slots|)[..m]
  {
    forall i | 0 <= i < m
      ensures Entries(r2, r1.tail, m)[i] == LastN(log1, |r1.slots|)[i]
    {
      LaterEntry(r1, log1, r2, log2, i);
    }
  }

  /** If count plus the samples accepted in between still fit, or the buffer was
      frozen at the snapshot, the racing read is exact and chronological. */
  lemma RacingReadExact<T>(slots: seq<T>, before: seq<Op<T>>, between: seq<Op<T>>, m: nat)
    requires 0 < |slots| && NoReset(between)
    requires m <= Run(Fresh(slots), before).count
    requires var r1 := Run(Fresh(slots), before);
      r1.locked
      || r1.count + |Recorded(before + between).log| - |Recorded(before).log| <= |slots|
    ensures m <= |LastN(Recorded(before).log, |slots|)|
    ensures var r1, r2 := Run(Fresh(slots), before), Run(Fresh(slots), before + between);
      Entries(r2, r1.tail, m) == LastN(Recorded(before).log, |slots|)[..m]
  {
    var r1 := Run(Fresh(slots), before);
    RunsAreLater(slots, before, between);
    if r1.locked {
      RunConcat(Fresh(slots), before, between);
      FrozenIsStable(r1, between);
      WindowEntries(r1, Recorded(before).log, m);
    } else {
      LaterExact(r1, Recorded(before).log,
                 Run(Fresh(slots), before + between), Recorded(before + between).log, m);
    }
  }

  /** `s` with its last `k` entries moved to the front. */
  function RotateRight<T>(s: seq<T>, k: nat): seq<T>
    requires k <= |s|
  {
    s[|s| - k..] + s[..|s| - k]
  }

  /** The position in `s` of entry i of `RotateRight(s, k)`, when |s| == n. */
  function Source(i: nat, k: nat, n: nat): (p: nat)
    requires i < n && k <= n
    ensures p < n
  {
    if i < k then n - k + i else i - k
  }

  /** k == q * N + s samples later, position `Source(i)` of the current window lies
      a whole number of turns behind entry i of the read. */
  lemma SourceTurns(k: nat, q: nat, s: nat, cap: nat, i: nat)
    requires i < cap && s < cap && k == q * cap + s
    ensures k + Source(i, s, cap) - i == (if i < s then q + 1 else q) * cap
  {}

  lemma EntriesRotate<T>(r: Ring<T>, t1: nat, t2: nat, k: nat)
    requires 0 < |r.slots| && k <= |r.slots|
    requires forall i :: 0 <= i < |r.slots| ==>
      (t1 + i) % |r.slots| == (t2 + Source(i, k, |r.slots|)) % |r.slots|
    ensures Entries(r, t1, |r.slots|) == RotateRight(Entries(r, t2, |r.slots|), k)
  {
    var window := Entries(r, t2, |r.slots|);
    forall i | 0 <= i < |r.slots|
      ensures Entries(r, t1, |r.slots|)[i] == RotateRight(window, k)[i]
    {
      assert RotateRight(window, k)[i] == window[Source(i, k, |r.slots|)];
    }
  }

  lemma RotatedSlots<T>(r1: Ring<T>, n1: nat, r2: Ring<T>, k: nat, cap: nat)
    requires 0 < cap <= n1
    requires r1.tail == (n1 - cap) % cap && r2.tail == (n1 + k - cap) % cap
    ensures forall i :: 0 <= i < cap ==>
      (r1.tail + i) % cap == (r2.tail + Source(i, k % cap, cap)) % cap
  {
    var q, s := k / cap, k % cap;
    assert k == q * cap + s;
    forall i | 0 <= i < cap
      ensures (r1.tail + i) % cap == (r2.tail + Source(i, s, cap)) % cap
    {
      SourceTurns(k, q, s, cap, i);
      ModSums(n1 - cap, i, n1 + k - cap, Source(i, s, cap), if i < s then q + 1 else q, cap);
    }
  }

  lemma LaterRotates<T>(r1: Ring<T>, log1: seq<T>, r2: Ring<T>, log2: seq<T>)
    requires Later(r1, log1, r2, log2) && r1.count == |r1.slots|
    ensures Rotated(r1, log1, r2, log2)
  {
    hide Represents, Entries, LastN, Source, RotateRight;
    var cap, k := |r1.slots|, |log2| - |log1|;
    FullTail(r1, log1);
    FullTail(r2, log2);
    RotatedSlots(r1, |log1|, r2, k, cap);
    EntriesRotate(r2, r1.tail, r2.tail, k % cap);
    WindowEntries(r2, log2, cap);
    WholeWindow(log2, cap);
  }

  lemma FullTail<T>(r: Ring<T>, log: seq<T>)
    requires Represents(r, log)
    ensures 0 < |r.slots|
    ensures |r.slots| <= |log| ==> r.count == |r.slots| && r.tail == (|log| - |r.slots|) % |r.slots|
    ensures r.count == |r.slots| ==> |r.slots| <= |log|
  {}

  lemma WholeWindow<T>(log: seq<T>, cap: nat)
    requires cap <= |log|
    ensures |LastN(log, cap)| == cap && LastN(log, cap)[..cap] == LastN(log, cap)
  {}

  /** A full-length read started at r1 and copied from r2 yields r2's window
      rotated right by k mod N. */
  ghost predicate Rotated<T>(r1: Ring<T>, log1: seq<T>, r2: Ring<T>, log2: seq<T>) {
    var cap, k := |r2.slots|, |log2| - |log1|;
    && 0 < cap && 0 <= k && r2.count == cap <= |log2|
    && Entries(r2, r1.tail, cap) == RotateRight(LastN(log2, cap), k % cap)
  }

  /** A full-length read of a full buffer during which k samples were accepted
      returns the current window rotated right by k mod N. */
  lemma RacingReadRotates<T>(slots: seq<T>, before: seq<Op<T>>, between: seq<Op<T>>)
    requires 0 < |slots| && NoReset(between)
    requires Run(Fresh(slots), before).count == |slots|
    ensures Rotated(Run(Fresh(slots), before), Recorded(before).log,
                    Run(Fresh(slots), before + between), Recorded(before + between).log)
  {
    RunsAreLater(slots, before, between);
    LaterRotates(Run(Fresh(slots), before), Recorded(before).log,
                 Run(Fresh(slots), before + between), Recorded(before + between).log);
  }

  lemma {:induction false} LogWasEver<T>(ops: seq<Op<T>>)
    ensures forall x :: x in Recorded(ops).log ==> x in Recorded(ops).ever
  {
    if ops != [] { LogWasEver(ops[..|ops| - 1]); }
  }

  lemma FilledSlotFromLog<T>(r: Ring<T>, log: seq<T>, p: nat)
    requires Represents(r, log) && p < r.count
    ensures r.slots[p] in log
  {
    var j := NewestCongruent(|log|, |r.slots|, p);
    ModUnique(p, |r.slots|, 0, p);
    assert r.slots[p] == log[j];
  }

  lemma {:induction false} SlotsWereWritten<T>(slots: seq<T>, before: seq<Op<T>>, between: seq<Op<T>>, p: nat)
    requires 0 < |slots| && p < Run(Fresh(slots), before).count
    ensures Run(Fresh(slots), before + between).slots[p] in Recorded(before + between).ever
  {
    var ops := before + between;
    if between == [] {
      assert ops == before;
      RunRefines(slots, ops);
      LogWasEver(ops);
      FilledSlotFromLog(Run(Fresh(slots), ops), Recorded(ops).log, p);
    } else {
      var init := before + between[..|between| - 1];
      assert ops[..|ops| - 1] == init;
      hide Step, Note, Represents;
      SlotsWereWritten(slots, before, between[..|between| - 1], p);
      RunRefines(slots, init);
      WrittenStaysWritten(Run(Fresh(slots), init), Recorded(init), ops[|ops| - 1], p);
    }
  }

  lemma WrittenStaysWritten<T>(r: Ring<T>, h: Record<T>, op: Op<T>, p: nat)
    requires Represents(r, h.log) && r.locked == h.frozen
    requires p < |r.slots| && r.slots[p] in h.ever
    ensures Step(r, op).slots[p] in Note(h, op).ever
  {
    if op.Write? && !r.locked {
      assert Note(h, op).ever[|h.ever|] == op.sample;
    }
  }

  lemma SlotOfEntry<T>(r: Ring<T>, log: seq<T>, i: nat)
    requires Represents(r, log) && i < r.count
    ensures (r.tail + i) % |r.slots| < r.count
  {
    if r.count < |r.slots| {
      ModUnique(0, |r.slots|, 0, 0);
      ModUnique(i, |r.slots|, 0, i);
    }
  }

  /** Entry i of the racing read is a sample that was really written. */
  ghost predicate EntryWasWritten<T>(r1: Ring<T>, r2: Ring<T>, ever: seq<T>, i: nat) {
    0 < |r2.slots| && i < r1.count && Entries(r2, r1.tail, r1.count)[i] in ever
  }

  /** Even with LOCK and UNLOCK between the critical sections, a read never
      returns a slot that was not written. */
  lemma RacingReadReturnsWritten<T>(slots: seq<T>, before: seq<Op<T>>, between: seq<Op<T>>, i: nat)
    requires 0 < |slots| && i < Run(Fresh(slots), before).count
    ensures EntryWasWritten(Run(Fresh(slots), before), Run(Fresh(slots), before + between),
                            Recorded(before + between).ever, i)
  {
    var r1 := Run(Fresh(slots), before);
    RunRefines(slots, before);
    SlotOfEntry(r1, Recorded(before).log, i);
    SlotsWereWritten(slots, before, between, (r1.tail + i) % |slots|);
  }
}
