/** Writing a whole buffer through a write() that may be interrupted, come up short
    or fail. */
module FileWriter {
  import opened Bytes
  import opened Common

  /** What one write() does; it never writes more than it was asked to. */
  datatype Attempt = Wrote(n: nat) | Interrupted | Errored

  /** `Unfinished`: the schedule of attempts ended while the loop was still going. */
  datatype Outcome = Saved | Failed | Unfinished

  /** Unwritten bytes once the loop stops or the schedule ends, and whether it failed. */
  function Drain(remaining: nat, schedule: seq<Attempt>): (r: (nat, bool))
    ensures r.0 <= remaining && (r.1 ==> 0 < r.0)
    decreases |schedule|
  {
    if remaining == 0 || schedule == [] then (remaining, false)
    else match schedule[0]
      case Wrote(n) => Drain(remaining - Min(n, remaining), schedule[1..])
      case Interrupted => Drain(remaining, schedule[1..])
      case Errored => (remaining, true)
  }

  /** The file is a prefix of the data at all times and equals it on success, for
      every schedule. */
  method WriteBinaryFile(data: seq<byte>, opens: bool, schedule: seq<Attempt>, syncs: bool)
    returns (outcome: Outcome, file: seq<byte>)
    ensures file <= data
    ensures outcome.Saved? ==> file == data && data != []
    ensures data == [] || !opens ==> outcome.Failed? && file == []
    ensures data != [] && opens ==>
      var (left, failed) := Drain(|data|, schedule);
      && file == data[..|data| - left]
      && outcome == if failed || (left == 0 && !syncs) then Failed
                    else if left == 0 then Saved else Unfinished
  {
    if data == [] {
      return Failed, [];
    }
    if !opens {
      return Failed, [];
    }
    file := [];
    var remaining := |data|;
    var i := 0;
    while remaining > 0 && i < |schedule|
      invariant i <= |schedule| && 0 <= remaining <= |data|
      invariant file == data[..|data| - remaining]
      invariant Drain(remaining, schedule[i..]) == Drain(|data|, schedule)
    {
      var attempt := schedule[i];
      assert schedule[i..][1..] == schedule[i + 1..];
      if attempt.Errored? {
        return Failed, file;
      }
      if attempt.Wrote? {
        var written := Min(attempt.n, remaining);
        file := file + data[|data| - remaining..|data| - remaining + written];
        remaining := remaining - written;
      }
      i := i + 1;
    }
    if remaining > 0 {
      return Unfinished, file;
    }
    return if syncs then Saved else Failed, file;
  }

  ghost predicate NoError(schedule: seq<Attempt>) {
    forall a :: a in schedule ==> !a.Errored?
  }

  function Offered(schedule: seq<Attempt>): nat {
    if schedule == [] then 0
    else (if schedule[0].Wrote? then schedule[0].n else 0) + Offered(schedule[1..])
  }

  /** `k` attempts without an error offer at least `size` bytes. */
  ghost predicate EnoughAfter(size: nat, schedule: seq<Attempt>, k: nat) {
    k <= |schedule| && NoError(schedule[..k]) && size <= Offered(schedule[..k])
  }

  /** Everything is written exactly when enough bytes are taken before the first
      error. */
  lemma {:induction false} DrainsIffEnough(size: nat, schedule: seq<Attempt>)
    ensures Drain(size, schedule).0 == 0 <==> exists k :: EnoughAfter(size, schedule, k)
    decreases |schedule|
  {
    if size == 0 {
      assert EnoughAfter(size, schedule, 0);
    } else if schedule != [] {
      var a, rest := schedule[0], schedule[1..];
      var left := if a.Wrote? then size - Min(a.n, size) else size;
      DrainsIffEnough(left, rest);
      if a.Errored? {
        forall k: nat ensures !EnoughAfter(size, schedule, k) {
          if 0 < k <= |schedule| { assert schedule[..k][0] == a; }
        }
      } else {
        EnoughStep(size, left, schedule);
      }
    }
  }

  lemma EnoughStep(size: nat, left: nat, schedule: seq<Attempt>)
    requires 0 < size && schedule != [] && !schedule[0].Errored?
    requires left == if schedule[0].Wrote? then size - Min(schedule[0].n, size) else size
    ensures (exists k :: EnoughAfter(size, schedule, k)) <==> exists k :: EnoughAfter(left, schedule[1..], k)
  {
    var a, rest := schedule[0], schedule[1..];
    forall k: nat | 0 < k <= |schedule|
      ensures EnoughAfter(size, schedule, k) <==> EnoughAfter(left, rest, k - 1)
    {
      assert schedule[..k] == [a] + rest[..k - 1];
      assert schedule[..k][1..] == rest[..k - 1];
    }
    if k: nat :| EnoughAfter(size, schedule, k) {
      assert schedule[..0] == [];
      assert EnoughAfter(left, rest, k - 1);
    }
    if k: nat :| EnoughAfter(left, rest, k) {
      var next := k + 1;
      assert EnoughAfter(left, rest, next - 1);
      assert EnoughAfter(size, schedule, next);
    }
  }

  /** The loop fails exactly if an error comes before enough bytes are taken, and what
      it leaves unwritten are the bytes that the attempts before it did not take. */
  lemma {:induction false} DrainStopsAtError(size: nat, schedule: seq<Attempt>, k: nat)
    requires k <= |schedule| && NoError(schedule[..k])
    requires k < |schedule| ==> schedule[k].Errored?
    ensures var (left, failed) := Drain(size, schedule);
      && left == (if Offered(schedule[..k]) < size then size - Offered(schedule[..k]) else 0)
      && (failed <==> k < |schedule| && Offered(schedule[..k]) < size)
    decreases |schedule|
  {
    if schedule == [] || k == 0 {
      assert schedule[..k] == [];
    } else {
      var a, rest := schedule[0], schedule[1..];
      assert schedule[..k] == [a] + rest[..k - 1];
      assert schedule[..k][1..] == rest[..k - 1];
      assert a in schedule[..k];
      forall b | b in rest[..k - 1] ensures b in schedule[..k] {}
      DrainStopsAtError(if a.Wrote? then size - Min(a.n, size) else size, rest, k - 1);
    }
  }

  function PositiveWrites(schedule: seq<Attempt>): nat {
    if schedule == [] then 0
    else (if schedule[0].Wrote? && schedule[0].n > 0 then 1 else 0) + PositiveWrites(schedule[1..])
  }

  /** The unwritten bytes bound the number of positive writes: any error-free
      schedule with that many finishes, however many interruptions it has. */
  lemma {:induction false} PositiveWritesSuffice(size: nat, schedule: seq<Attempt>)
    requires NoError(schedule) && size <= PositiveWrites(schedule)
    ensures Drain(size, schedule).0 == 0
    decreases |schedule|
  {
    if size > 0 && schedule != [] {
      var a, rest := schedule[0], schedule[1..];
      assert a in schedule;
      forall b | b in rest ensures b in schedule {}
      PositiveWritesSuffice(if a.Wrote? then size - Min(a.n, size) else size, rest);
    }
  }
}
