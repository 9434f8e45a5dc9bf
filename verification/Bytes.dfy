/** Bytes, and decimal numbers as printed by the C library. */
module Bytes {
  import opened Common

  type byte = x: int | 0 <= x < 256

  const MINUS: byte := 45

  /** The bytes of an ASCII text. */
  function Ascii(s: string): (b: seq<byte>)
    ensures |b| == |s|
  {
    seq(|s|, i requires 0 <= i < |s| => s[i] as int % 256)
  }

  predicate IsDigit(b: byte) { 48 <= b <= 57 }

  function Digits(n: nat): (s: seq<byte>)
    ensures s != [] && forall i :: 0 <= i < |s| ==> IsDigit(s[i])
  {
    if n < 10 then [48 + n] else Digits(n / 10) + [48 + n % 10]
  }

  function Decimal(i: int): seq<byte> { if i < 0 then [MINUS] + Digits(-i) else Digits(i) }

  /** The value of a string of digits. */
  function Value(s: seq<byte>): nat
    requires forall i :: 0 <= i < |s| ==> IsDigit(s[i])
  {
    if s == [] then 0
    else
      assert IsDigit(s[|s| - 1]);
      10 * Value(s[..|s| - 1]) + (s[|s| - 1] as int - 48)
  }

  lemma {:induction false} ValueOfDigits(n: nat)
    ensures Value(Digits(n)) == n
  {
    if n >= 10 {
      ValueOfDigits(n / 10);
      assert Digits(n)[..|Digits(n)| - 1] == Digits(n / 10);
    } else {
      assert Digits(n)[..0] == [];
    }
  }

  /** How many digits `s` starts with. */
  function DigitRun(s: seq<byte>): (n: nat)
    ensures n <= |s| && (forall i :: 0 <= i < n ==> IsDigit(s[i]))
    ensures n < |s| ==> !IsDigit(s[n])
  {
    if s == [] || !IsDigit(s[0]) then 0 else 1 + DigitRun(s[1..])
  }

  /** Reads a natural number followed by `mark`; the rest follows the mark. */
  function ReadNat(s: seq<byte>, mark: byte): Option<(nat, seq<byte>)> {
    var n := DigitRun(s);
    if n == 0 || n == |s| || s[n] != mark then None else Some((Value(s[..n]), s[n + 1..]))
  }

  function ReadInt(s: seq<byte>, mark: byte): Option<(int, seq<byte>)> {
    if s != [] && s[0] == MINUS then
      match ReadNat(s[1..], mark)
      case None => None
      case Some((n, rest)) => Some((-(n as int), rest))
    else
      match ReadNat(s, mark)
      case None => None
      case Some((n, rest)) => Some((n, rest))
  }

  lemma ReadsDigits(n: nat, mark: byte, rest: seq<byte>)
    requires !IsDigit(mark)
    ensures ReadNat(Digits(n) + [mark] + rest, mark) == Some((n, rest))
  {
    var d := Digits(n);
    var s := d + [mark] + rest;
    var k := DigitRun(s);
    assert s[|d|] == mark;
    assert forall i :: 0 <= i < |d| ==> s[i] == d[i];
    assert k == |d|;
    assert s[..k] == d && s[k + 1..] == rest;
    ValueOfDigits(n);
  }

  /** Printing a number and reading it back gives the number. */
  lemma ReadsDecimal(i: int, mark: byte, rest: seq<byte>)
    requires !IsDigit(mark)
    ensures ReadInt(Decimal(i) + [mark] + rest, mark) == Some((i, rest))
  {
    hide ReadNat, Digits;
    if i < 0 {
      ReadsDigits(-i, mark, rest);
      assert (Decimal(i) + [mark] + rest)[1..] == Digits(-i) + [mark] + rest;
    } else {
      ReadsDigits(i, mark, rest);
      assert (Digits(i) + [mark] + rest)[0] == Digits(i)[0];
    }
  }
}
