/** A buffered output stream of the C library.  What is printed collects in a buffer;
    now and then, behind the caller's back, part of it is written.  What such a write
    fails to write is lost, and only the call in which it happened says so. */
module Stdio {
  import opened Bytes
  import opened Common

  /** `size` bytes leave the buffer; the first `taken` of them reach the file. */
  datatype Chunk = Chunk(size: nat, taken: nat)

  datatype State = State(file: seq<byte>, buffer: seq<byte>, lost: nat)

  const OPENED := State([], [], 0)

  function EmitOne(s: State, c: Chunk): State {
    var size := Min(c.size, |s.buffer|);
    var taken := Min(c.taken, size);
    State(s.file + s.buffer[..taken], s.buffer[size..], s.lost + size - taken)
  }

  function Emit(s: State, chunks: seq<Chunk>): State
    decreases |chunks|
  {
    if chunks == [] then s else Emit(EmitOne(s, chunks[0]), chunks[1..])
  }

  function Print(s: State, text: seq<byte>, chunks: seq<Chunk>): State {
    Emit(s.(buffer := s.buffer + text), chunks)
  }

  /** The outcome of everything around a file that is printed text by text: `writes(i)`
      is what is written during call i; if the final flush fails, `taken` bytes of what
      was left reach the file. */
  datatype Io = Io(opens: bool, writes: nat -> seq<Chunk>, flushes: bool, taken: nat, syncs: bool)

  /** What a writer returns that looks at fopen, fflush and fsync only. */
  predicate Succeeds(io: Io) { io.opens && io.flushes && io.syncs }

  function PrintAll(texts: seq<seq<byte>>, writes: nat -> seq<Chunk>, n: nat): State
    requires n <= |texts|
  {
    if n == 0 then OPENED else Print(PrintAll(texts, writes, n - 1), texts[n - 1], writes(n - 1))
  }

  /** No write before the final flush failed: every fprintf succeeded. */
  predicate Complete(texts: seq<seq<byte>>, io: Io) { PrintAll(texts, io.writes, |texts|).lost == 0 }

  function Closed(s: State, io: Io): seq<byte> {
    s.file + if io.flushes then s.buffer else s.buffer[..Min(io.taken, |s.buffer|)]
  }

  /** The file in the end. */
  function Written(texts: seq<seq<byte>>, io: Io): seq<byte> {
    if io.opens then Closed(PrintAll(texts, io.writes, |texts|), io) else []
  }

  function Concat(texts: seq<seq<byte>>): seq<byte> {
    if texts == [] then [] else Concat(texts[..|texts| - 1]) + texts[|texts| - 1]
  }

  // ----- Every printed byte is in the file, in the buffer or lost -----

  ghost predicate Accounts(s: State, printed: seq<byte>) {
    && |s.file| + |s.buffer| + s.lost == |printed|
    && (s.lost == 0 ==> s.file + s.buffer == printed)
  }

  lemma {:induction false} EmitAccounts(s: State, chunks: seq<Chunk>, printed: seq<byte>)
    requires Accounts(s, printed)
    ensures Accounts(Emit(s, chunks), printed) && s.lost <= Emit(s, chunks).lost
    decreases |chunks|
  {
    if chunks != [] {
      EmitAccounts(EmitOne(s, chunks[0]), chunks[1..], printed);
    }
  }

  lemma {:induction false} PrintAllAccounts(texts: seq<seq<byte>>, writes: nat -> seq<Chunk>, n: nat)
    requires n <= |texts|
    ensures Accounts(PrintAll(texts, writes, n), Concat(texts[..n]))
  {
    if n > 0 {
      PrintAllAccounts(texts, writes, n - 1);
      var s := PrintAll(texts, writes, n - 1);
      assert texts[..n][..n - 1] == texts[..n - 1];
      PrintAccounts(s, texts[n - 1], writes(n - 1), Concat(texts[..n - 1]));
    }
  }

  lemma PrintAccounts(s: State, text: seq<byte>, chunks: seq<Chunk>, printed: seq<byte>)
    requires Accounts(s, printed)
    ensures Accounts(Print(s, text, chunks), printed + text) && s.lost <= Print(s, text, chunks).lost
  {
    if s.lost == 0 { assert s.file + (s.buffer + text) == printed + text; }
    EmitAccounts(s.(buffer := s.buffer + text), chunks, printed + text);
  }

  /** After a reported success the file is everything that was printed if no write
      before the final flush failed, and shorter if one did. */
  lemma WholeIffComplete(texts: seq<seq<byte>>, io: Io)
    requires Succeeds(io)
    ensures Complete(texts, io) ==> Written(texts, io) == Concat(texts)
    ensures !Complete(texts, io) ==> |Written(texts, io)| < |Concat(texts)|
  {
    PrintAllAccounts(texts, io.writes, |texts|);
    assert texts[..|texts|] == texts;
  }

  lemma {:induction false} ConcatAppend(a: seq<seq<byte>>, b: seq<seq<byte>>)
    ensures Concat(a + b) == Concat(a) + Concat(b)
  {
    if b == [] {
      assert a + b == a;
    } else {
      var n := |b| - 1;
      assert (a + b)[..|a| + n] == a + b[..n];
      ConcatAppend(a, b[..n]);
    }
  }

  // ----- The stream itself -----

  class Stream {
    var file: seq<byte>
    var buffer: seq<byte>
    ghost var lost: nat

    ghost function View(): State
      reads this
    {
      State(file, buffer, lost)
    }

    constructor ()
      ensures View() == OPENED
    {
      file, buffer, lost := [], [], 0;
    }

    /** True exactly if nothing was lost in this call. */
    method Fprintf(text: seq<byte>, chunks: seq<Chunk>) returns (ok: bool)
      modifies this
      ensures View() == Print(old(View()), text, chunks)
      ensures ok <==> lost == old(lost)
    {
      buffer := buffer + text;
      ghost var start := View();
      ok := true;
      var k := 0;
      while k < |chunks|
        invariant k <= |chunks| && Emit(View(), chunks[k..]) == Emit(start, chunks)
        invariant lost >= old(lost) && (ok <==> lost == old(lost))
      {
        var size := Min(chunks[k].size, |buffer|);
        var taken := Min(chunks[k].taken, size);
        assert chunks[k..][1..] == chunks[k + 1..];
        file, buffer, lost := file + buffer[..taken], buffer[size..], lost + size - taken;
        ok := ok && taken == size;
        k := k + 1;
      }
    }

    /** fflush: looks at this flush only, not at earlier losses. */
    method Fflush(io: Io) returns (ok: bool)
      modifies this
      ensures ok == io.flushes && file == Closed(old(View()), io)
    {
      file := file + if io.flushes then buffer else buffer[..Min(io.taken, |buffer|)];
      buffer := [];
      ok := io.flushes;
    }
  }
}
