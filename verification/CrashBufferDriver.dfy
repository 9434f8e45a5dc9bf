/** The character device over the ring: its state, its three entry points and
    their error returns.  Every critical section is one method. */
module CrashBufferDriver {
  import opened Common
  import opened RingModel

  datatype Errno = EINVAL | EFAULT | ENOMEM | ENOTTY

  /** A byte count, or a negated errno. */
  datatype Return = Bytes(n: nat) | Fail(errno: Errno)

  datatype Command = LockCommand | UnlockCommand | OtherCommand

  class CrashBuffer<T> {
    var slots: array<T>
    var head: nat
    var tail: nat
    var count: nat
    var locked: bool
    const sampleSize: nat

    /** Accepted since the last reset, and since loading. */
    ghost var log: seq<T>
    ghost var ever: seq<T>

    ghost function View(): Ring<T>
      reads this, slots
    {
      Ring(slots[..], head, tail, count, locked)
    }

    ghost function Noted(): Record<T>
      reads this
    {
      Record(log, ever, locked)
    }

    ghost predicate Valid()
      reads this, slots
    {
      0 < sampleSize && Represents(View(), log)
    }

    /** Module load: the array comes from the allocator with arbitrary contents. */
    constructor (memory: array<T>, sampleSize: nat)
      requires 0 < memory.Length && 0 < sampleSize
      ensures Valid() && slots == memory && this.sampleSize == sampleSize
      ensures View() == Fresh(memory[..]) && Noted() == Recorded<T>([])
    {
      slots := memory;
      head, tail, count, locked := 0, 0, 0, false;
      this.sampleSize := sampleSize;
      log, ever := [], [];
    }

    /** A sample of the wrong length or from unreadable memory changes nothing; a
        sample offered while frozen is dropped but reported as written. */
    method DevWrite(len: nat, sample: T, copyFails: bool) returns (result: Return)
      requires Valid()
      modifies this, slots
      ensures Valid() && slots == old(slots)
      ensures result == if len != sampleSize then Fail(EINVAL)
                        else if copyFails then Fail(EFAULT) else Bytes(sampleSize)
      ensures result.Fail? ==> View() == old(View()) && Noted() == old(Noted())
      ensures result.Bytes? ==> View() == Step(old(View()), Write(sample))
      ensures result.Bytes? ==> Noted() == Note(old(Noted()), Write(sample))
      ensures result.Bytes? ==>
        locked == old(locked) && log == old(log) + if old(locked) then [] else [sample]
    {
      if len != sampleSize {
        return Fail(EINVAL);
      }
      if copyFails {
        return Fail(EFAULT);
      }
      ghost var before := View();
      StepRefines(before, Noted(), Write(sample));
      if locked {
        return Bytes(sampleSize);
      }
      slots[head] := sample;
      head := (head + 1) % slots.Length;
      if count < slots.Length {
        count := count + 1;
      } else {
        tail := (tail + 1) % slots.Length;
      }
      log, ever := log + [sample], ever + [sample];
      assert View() == Step(before, Write(sample));
      return Bytes(sampleSize);
    }

    /** LOCK freezes; UNLOCK thaws and forgets; anything else is refused. */
    method DevIoctl(cmd: Command) returns (result: Return)
      requires Valid()
      modifies this
      ensures Valid() && slots == old(slots)
      ensures result == if cmd.OtherCommand? then Fail(ENOTTY) else Bytes(0)
      ensures cmd.LockCommand? ==> View() == Step(old(View()), Lock) && Noted() == Note(old(Noted()), Lock)
      ensures cmd.UnlockCommand? ==> View() == Step(old(View()), Unlock) && Noted() == Note(old(Noted()), Unlock)
      ensures cmd.OtherCommand? ==> View() == old(View()) && Noted() == old(Noted())
      ensures cmd.LockCommand? ==> View() == old(View()).(locked := true) && log == old(log)
      ensures cmd.UnlockCommand? ==> !locked && head == 0 && tail == 0 && count == 0 && log == []
    {
      match cmd
      case LockCommand =>
        locked := true;
        return Bytes(0);
      case UnlockCommand =>
        StepRefines(View(), Noted(), Unlock);
        locked := false;
        head, tail, count := 0, 0, 0;
        log := [];
        return Bytes(0);
      case OtherCommand =>
        return Fail(ENOTTY);
    }

    /** First critical section of a read. */
    method SnapshotIndices() returns (currentCount: nat, currentTail: nat)
      requires Valid()
      ensures currentCount == View().count && currentTail == View().tail
    {
      return count, tail;
    }

    /** How many bytes a read of `currentCount` samples into `len` bytes moves. */
    static function BytesToRead(currentCount: nat, size: nat, len: nat): (bytes: nat)
      requires 0 < size
      ensures bytes == size * Min(currentCount, len / size)
      ensures bytes / size == Min(currentCount, len / size)
    {
      var all := currentCount * size;
      var bytes := if len < all then (len / size) * size else all;
      FitsIff(currentCount, size, len);
      ModUnique(bytes, size, Min(currentCount, len / size), 0);
      bytes
    }

    static lemma FitsIff(n: nat, size: nat, len: nat)
      requires 0 < size
      ensures len < n * size <==> len / size < n
    {
      var q := len / size;
      assert len == q * size + len % size;
      if q < n {
        assert (q + 1) * size <= n * size;
      } else {
        assert n * size <= q * size;
      }
    }

    /** Second critical section of a read: whatever the indices were, it returns
        the entries of the buffer as it is now. */
    method CopyOut(currentTail: nat, samples: nat) returns (out: seq<T>)
      requires Valid()
      ensures out == Entries(View(), currentTail, samples)
    {
      out := [];
      var i := 0;
      while i < samples
        invariant i <= samples
        invariant out == Entries(View(), currentTail, i)
      {
        var idx := (currentTail + i) % slots.Length;
        out := out + [slots[idx]];
        i := i + 1;
      }
    }

    /** A read during which no other step occurs: it delivers the oldest samples
        of the window that fit, and leaves them in place. */
    method DevRead(len: nat, allocFails: bool, copyFails: bool)
      returns (result: Return, out: seq<T>)
      requires Valid()
      ensures var m := Min(count, len / sampleSize);
        if count == 0 then result == Bytes(0) && out == []
        else if allocFails then result == Fail(ENOMEM) && out == []
        else if copyFails then result == Fail(EFAULT) && out == []
        else result == Bytes(sampleSize * m) && m <= |LastN(log, slots.Length)|
             && out == LastN(log, slots.Length)[..m]
    {
      var currentCount, currentTail := SnapshotIndices();
      if currentCount == 0 {
        return Bytes(0), [];
      }
      var bytes := BytesToRead(currentCount, sampleSize, len);
      if allocFails {
        return Fail(ENOMEM), [];
      }
      var samples := bytes / sampleSize;
      var copied := CopyOut(currentTail, samples);
      WindowEntries(View(), log, samples);
      if copyFails {
        return Fail(EFAULT), [];
      }
      return Bytes(bytes), copied;
    }

    /** One critical section of some other caller. */
    method Perform(op: Op<T>)
      requires Valid()
      modifies this, slots
      ensures Valid() && slots == old(slots)
      ensures View() == Step(old(View()), op) && Noted() == Note(old(Noted()), op)
    {
      match op
      case Write(x) => var written := DevWrite(sampleSize, x, false);
      case Lock => var locks := DevIoctl(LockCommand);
      case Unlock => var unlocks := DevIoctl(UnlockCommand);
    }

    /** A read between whose two critical sections others run `between`: it copies
        from the later buffer with the earlier indices.  It ends before the second
        section if there is nothing to read or no memory to read into. */
    method RacingDevRead(len: nat, between: seq<Op<T>>, allocFails: bool, copyFails: bool)
      returns (result: Return, out: seq<T>)
      requires Valid()
      modifies this, slots
      ensures Valid() && slots == old(slots)
      ensures View() == if old(count) == 0 || allocFails then old(View()) else Run(old(View()), between)
      ensures var m := Min(old(count), len / sampleSize);
        if old(count) == 0 then result == Bytes(0) && out == []
        else if allocFails then result == Fail(ENOMEM) && out == []
        else if copyFails then result == Fail(EFAULT) && out == []
        else result == Bytes(sampleSize * m) && |out| == m
             && forall i :: 0 <= i < m ==> out[i] == Entries(View(), old(tail), old(count))[i]
      ensures NoReset(between) ==>
        forall i :: 0 <= i < |out| ==> RacingEntry(old(View()), old(log), View(), log, i)
    {
      ghost var r1, log1 := View(), log;
      assert WellFormed(r1) && between[..0] == [];
      hide Step, Represents, RacingEntry;
      var currentCount, currentTail := SnapshotIndices();
      if currentCount == 0 {
        return Bytes(0), [];
      }
      var bytes := BytesToRead(currentCount, sampleSize, len);
      if allocFails {
        return Fail(ENOMEM), [];
      }
      for k := 0 to |between|
        invariant Valid() && slots == old(slots)
        invariant View() == Run(r1, between[..k])
        invariant NoReset(between) ==> log1 <= log
      {
        assert between[..k + 1][..k] == between[..k];
        assert NoReset(between) ==> !between[k].Unlock?;
        Perform(between[k]);
      }
      assert between[..|between|] == between;
      if copyFails {
        return Fail(EFAULT), [];
      }
      out := CopyOut(currentTail, bytes / sampleSize);
      if NoReset(between) {
        forall i | 0 <= i < |out| ensures RacingEntry(r1, log1, View(), log, i) {
          LaterEntry(r1, log1, View(), log, i);
        }
      }
      return Bytes(bytes), out;
    }
  }
}
