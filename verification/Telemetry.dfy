/** The sensor history as text: one comma-separated row a sample. */
module Telemetry {
  import opened Bytes
  import opened Common
  import opened Sensor
  import opened Stdio

  const COMMA: byte := 44
  const NEWLINE: byte := 10

  function Fields(s: RawSample): (f: seq<int>)
    ensures |f| == 7
  {
    [s.timestampNs, s.accel.x, s.accel.y, s.accel.z, s.gyro.x, s.gyro.y, s.gyro.z]
  }

  /** Each field but the last is followed by a comma, the last by a newline. */
  function PrintFields(fields: seq<int>): seq<byte>
    requires fields != []
  {
    if |fields| == 1 then Decimal(fields[0]) + [NEWLINE]
    else Decimal(fields[0]) + [COMMA] + PrintFields(fields[1..])
  }

  function PrintRow(s: RawSample): seq<byte> { PrintFields(Fields(s)) }

  lemma PrintFieldsCons(i: int, more: seq<int>)
    requires more != []
    ensures PrintFields([i] + more) == Decimal(i) + [COMMA] + PrintFields(more)
  {
    assert ([i] + more)[1..] == more;
  }

  lemma SampleNumbers()
    ensures Decimal(17) == Ascii("17") && Decimal(-300) == Ascii("-300")
  {
    assert Digits(300) == Digits(30) + [48] == Digits(3) + [48] + [48];
  }

  /** A row as it stands in the file: timestamp, acceleration, angular velocity. */
  lemma SampleRow()
    ensures PrintRow(RawSample(17, RawVector(1, -300, 2), RawVector(3, 4, 5))) == Ascii("17,1,-300,2,3,4,5\n")
  {
    SampleNumbers();
    hide Decimal, PrintFields;
    PrintFieldsCons(17, [1] + ([-300] + ([2] + ([3] + ([4] + [5])))));
    PrintFieldsCons(1, [-300] + ([2] + ([3] + ([4] + [5]))));
    PrintFieldsCons(-300, [2] + ([3] + ([4] + [5])));
    PrintFieldsCons(2, [3] + ([4] + [5]));
    PrintFieldsCons(3, [4] + [5]);
    PrintFieldsCons(4, [5]);
    SmallNumbers();
    assert Fields(RawSample(17, RawVector(1, -300, 2), RawVector(3, 4, 5)))
        == [17] + ([1] + ([-300] + ([2] + ([3] + ([4] + [5])))));
  }

  lemma SmallNumbers()
    ensures forall i :: 0 <= i < 10 ==> Decimal(i) == [48 + i]
    ensures forall i :: 0 <= i < 10 ==> PrintFields([i]) == [48 + i, 10]
  {}

  function Rows(samples: seq<RawSample>): (rows: seq<seq<byte>>)
    ensures |rows| == |samples|
  {
    seq(|samples|, i requires 0 <= i < |samples| => PrintRow(samples[i]))
  }

  function PrintRows(samples: seq<RawSample>): seq<byte> { Concat(Rows(samples)) }

  // ----- What stands before the rows -----

  const UNDERSCORE: byte := 95

  type Plain = s: seq<byte> | UNDERSCORE !in s

  /** The header's two printed floats. */
  datatype Details = Details(seconds: Plain, maxG: Plain)

  const TITLE := "=== ACCIDENT DETAILS ===\n"
  const COUNT := "Samples Recorded: "
  const APPROX := " (approx "
  const SECONDS := " seconds)\n"
  const MAX_G := "Max total acceleration: "
  const G := " g\n\n"
  const HISTORY := "\n=== SENSOR HISTORY ===\n"
  const TIMESTAMP := "timestamp"
  const NS_AND_AXES := "ns,accel_x,accel_y,accel_z,gyro_x,gyro_y,gyro_z\n"

  /** The line above the rows; it holds the header's first underscore. */
  function Columns(): seq<byte> { Ascii(TIMESTAMP) + [UNDERSCORE] + Ascii(NS_AND_AXES) }

  /** One text a fprintf call. */
  function HeaderTexts(count: nat, d: Details): (texts: seq<seq<byte>>)
    ensures |texts| == 5
  {
    [Ascii(TITLE),
     Ascii(COUNT) + Digits(count) + Ascii(APPROX) + d.seconds + Ascii(SECONDS),
     Ascii(MAX_G) + d.maxG + Ascii(G),
     Ascii(HISTORY),
     Columns()]
  }

  function Header(count: nat, d: Details): seq<byte> { Concat(HeaderTexts(count, d)) }

  function Texts(samples: seq<RawSample>, d: Details): seq<seq<byte>> {
    HeaderTexts(|samples|, d) + Rows(samples)
  }

  // ----- Reading the rows back -----

  function ParseFields(text: seq<byte>, n: nat): Option<(seq<int>, seq<byte>)>
    requires 0 < n
    decreases n
  {
    match ReadInt(text, if n == 1 then NEWLINE else COMMA)
    case None => None
    case Some((i, rest)) =>
      if n == 1 then Some(([i], rest))
      else
        match ParseFields(rest, n - 1)
        case None => None
        case Some((more, end)) => Some(([i] + more, end))
  }

  function FieldCount(): nat { 7 }

  predicate Fits16(i: int) { -0x8000 <= i < 0x8000 }

  function ParseRow(text: seq<byte>): Option<(RawSample, seq<byte>)> {
    match ParseFields(text, FieldCount())
    case None => None
    case Some((f, rest)) =>
      if |f| == 7 && 0 <= f[0] < 0x1_0000_0000_0000_0000
         && forall i :: 1 <= i < 7 ==> Fits16(f[i])
      then Some((RawSample(f[0], RawVector(f[1], f[2], f[3]), RawVector(f[4], f[5], f[6])), rest))
      else None
  }

  /** All rows, in order; every row makes the text shorter. */
  function ParseRows(text: seq<byte>): Option<seq<RawSample>>
    decreases |text|
  {
    if text == [] then Some([])
    else
      match ParseRow(text)
      case None => None
      case Some((s, rest)) =>
        if |rest| >= |text| then None
        else
          match ParseRows(rest)
          case None => None
          case Some(more) => Some([s] + more)
  }

  /** After the header the text reads back as exactly `samples`, in order. */
  ghost predicate ReadsBack(text: seq<byte>, header: seq<byte>, samples: seq<RawSample>) {
    header <= text && ParseRows(text[|header|..]) == Some(samples)
  }

  lemma Assoc(a: seq<byte>, mark: byte, b: seq<byte>, rest: seq<byte>)
    ensures a + [mark] + b + rest == a + [mark] + (b + rest)
  {}

  lemma {:induction false} FieldsRoundTrip(fields: seq<int>, rest: seq<byte>)
    requires fields != []
    ensures ParseFields(PrintFields(fields) + rest, |fields|) == Some((fields, rest))
    decreases |fields|
  {
    hide ReadInt, Decimal, ParseFields;
    var first := fields[0];
    if |fields| == 1 {
      ReadsDecimal(first, NEWLINE, rest);
      ParseLast(PrintFields(fields) + rest, first, rest);
      assert fields == [first];
    } else {
      var more := fields[1..];
      FieldsRoundTrip(more, rest);
      Assoc(Decimal(first), COMMA, PrintFields(more), rest);
      ReadsDecimal(first, COMMA, PrintFields(more) + rest);
      ParseStep(PrintFields(fields) + rest, |fields|, first, PrintFields(more) + rest, more, rest);
      assert fields == [first] + more;
    }
  }

  lemma ParseLast(text: seq<byte>, first: int, rest: seq<byte>)
    requires ReadInt(text, NEWLINE) == Some((first, rest))
    ensures ParseFields(text, 1) == Some(([first], rest))
  {}

  lemma ParseStep(text: seq<byte>, n: nat, first: int, tail: seq<byte>, more: seq<int>, rest: seq<byte>)
    requires 1 < n && ReadInt(text, COMMA) == Some((first, tail))
    requires ParseFields(tail, n - 1) == Some((more, rest))
    ensures ParseFields(text, n) == Some(([first] + more, rest))
  {}

  lemma RowRoundTrip(s: RawSample, rest: seq<byte>)
    ensures ParseRow(PrintRow(s) + rest) == Some((s, rest))
  {
    hide ParseFields, PrintFields;
    FieldsRoundTrip(Fields(s), rest);
  }

  lemma {:induction false} ConcatCons(row: seq<byte>, rows: seq<seq<byte>>)
    ensures Concat([row] + rows) == row + Concat(rows)
  {
    if rows == [] {
      assert [row] + rows == [row] && [row][..0] == [];
    } else {
      var n := |rows| - 1;
      assert ([row] + rows)[..n + 1] == [row] + rows[..n];
      ConcatCons(row, rows[..n]);
    }
  }

  lemma PrintRowsCons(s: RawSample, more: seq<RawSample>)
    ensures PrintRows([s] + more) == PrintRow(s) + PrintRows(more)
  {
    hide PrintRow, Concat;
    assert Rows([s] + more) == [PrintRow(s)] + Rows(more);
    ConcatCons(PrintRow(s), Rows(more));
  }

  /** The saved rows parse back to exactly the samples, in order. */
  lemma {:induction false} TelemetryRoundTrip(samples: seq<RawSample>)
    ensures ParseRows(PrintRows(samples)) == Some(samples)
  {
    if samples != [] {
      var s, more := samples[0], samples[1..];
      assert samples == [s] + more;
      PrintRowsCons(s, more);
      RowRoundTrip(s, PrintRows(more));
      assert |PrintRow(s)| > 0;
      TelemetryRoundTrip(more);
    }
  }

  lemma PrintedReadsBack(header: seq<byte>, samples: seq<RawSample>)
    ensures ReadsBack(header + PrintRows(samples), header, samples)
  {
    TelemetryRoundTrip(samples);
    assert (header + PrintRows(samples))[|header|..] == PrintRows(samples);
  }

  // ----- No shorter text reads back as the same samples -----

  lemma {:induction false} DigitsAreShortest(s: seq<byte>)
    requires s != [] && forall i :: 0 <= i < |s| ==> IsDigit(s[i])
    ensures |Digits(Value(s))| <= |s|
  {
    var init, last := s[..|s| - 1], s[|s| - 1];
    assert IsDigit(last);
    if init == [] {
      assert Value(init) == 0;
    } else {
      DigitsAreShortest(init);
      assert Value(s) / 10 == Value(init);
    }
  }

  lemma DecimalIsShortest(text: seq<byte>, mark: byte)
    requires ReadInt(text, mark).Some?
    ensures var (i, rest) := ReadInt(text, mark).value; |Decimal(i)| + 1 + |rest| <= |text|
  {
    var digits := if text != [] && text[0] == MINUS then text[1..] else text;
    DigitsAreShortest(digits[..DigitRun(digits)]);
  }

  lemma {:induction false} FieldsAreShortest(text: seq<byte>, n: nat)
    requires 0 < n && ParseFields(text, n).Some?
    ensures var (f, rest) := ParseFields(text, n).value;
      |f| == n && |PrintFields(f)| + |rest| <= |text|
    decreases n
  {
    hide ReadInt, Decimal;
    DecimalIsShortest(text, if n == 1 then NEWLINE else COMMA);
    if n > 1 {
      var (i, tail) := ReadInt(text, COMMA).value;
      FieldsAreShortest(tail, n - 1);
      var (more, rest) := ParseFields(tail, n - 1).value;
      assert ([i] + more)[1..] == more;
    }
  }

  lemma RowIsShortest(text: seq<byte>)
    requires ParseRow(text).Some?
    ensures var (s, rest) := ParseRow(text).value; |PrintRow(s)| + |rest| <= |text|
  {
    hide ParseFields, PrintFields;
    FieldsAreShortest(text, FieldCount());
    var (f, rest) := ParseFields(text, FieldCount()).value;
    var s := ParseRow(text).value.0;
    assert Fields(s) == f;
  }

  lemma {:induction false} RowsAreShortest(text: seq<byte>)
    requires ParseRows(text).Some?
    ensures |PrintRows(ParseRows(text).value)| <= |text|
    decreases |text|
  {
    hide ParseRow, PrintRow;
    if text != [] {
      RowIsShortest(text);
      var (s, rest) := ParseRow(text).value;
      RowsAreShortest(rest);
      PrintRowsCons(s, ParseRows(rest).value);
    }
  }

  // ----- What a reported success means -----

  /** The file of a save that reported success reads back if and only if no write
      before the final flush failed. */
  ghost predicate SavedIfComplete(file: seq<byte>, samples: seq<RawSample>, d: Details, io: Io) {
    && (ReadsBack(file, Header(|samples|, d), samples) <==> Complete(Texts(samples, d), io))
    && (Complete(Texts(samples, d), io) ==> Recover(file) == Some(samples))
  }

  lemma TextsConcat(samples: seq<RawSample>, d: Details)
    ensures Concat(Texts(samples, d)) == Header(|samples|, d) + PrintRows(samples)
  {
    hide HeaderTexts, Concat;
    ConcatAppend(HeaderTexts(|samples|, d), Rows(samples));
  }

  /** For all samples, headers and schedules of writes. */
  lemma SuccessReadsBackIffComplete(samples: seq<RawSample>, d: Details, io: Io)
    requires Succeeds(io)
    ensures SavedIfComplete(Written(Texts(samples, d), io), samples, d, io)
  {
    hide Texts, Header, PrintRows, Written, Complete, ParseRows, Recover;
    var header, file := Header(|samples|, d), Written(Texts(samples, d), io);
    TextsConcat(samples, d);
    WholeIffComplete(Texts(samples, d), io);
    if Complete(Texts(samples, d), io) {
      PrintedReadsBack(header, samples);
      RecoversWhole(samples, d);
    } else if ReadsBack(file, header, samples) {
      RowsAreShortest(file[|header|..]);
    }
  }

  // ----- Recovering the rows from the file alone -----

  function FirstUnderscore(file: seq<byte>): (k: nat)
    ensures k <= |file| && UNDERSCORE !in file[..k] && (k < |file| ==> file[k] == UNDERSCORE)
  {
    if file == [] || file[0] == UNDERSCORE then 0
    else
      var k := 1 + FirstUnderscore(file[1..]);
      assert file[..k] == [file[0]] + file[1..][..k - 1];
      k
  }

  /** Finds the column line by its first underscore and parses what follows. */
  function Recover(file: seq<byte>): Option<seq<RawSample>> {
    var columns := Columns();
    var k := FirstUnderscore(file);
    if k < 9 || |file| < k - 9 + |columns| || file[k - 9..k - 9 + |columns|] != columns then None
    else ParseRows(file[k - 9 + |columns|..])
  }

  lemma {:induction false} UnderscoreIsFirst(plain: seq<byte>, rest: seq<byte>)
    requires UNDERSCORE !in plain && rest != [] && rest[0] == UNDERSCORE
    ensures FirstUnderscore(plain + rest) == |plain|
  {
    if plain == [] {
      assert plain + rest == rest;
    } else {
      assert plain[0] in plain;
      assert (plain + rest)[1..] == plain[1..] + rest;
      UnderscoreIsFirst(plain[1..], rest);
    }
  }

  lemma DigitsArePlain(n: nat)
    ensures UNDERSCORE !in Digits(n)
  {
    var d := Digits(n);
    assert forall i :: 0 <= i < |d| ==> IsDigit(d[i]);
  }

  function Preamble(count: nat, d: Details): seq<byte> {
    var t := HeaderTexts(count, d);
    t[0] + t[1] + t[2] + t[3]
  }

  lemma AsciiIsPlain(s: string)
    requires forall i :: 0 <= i < |s| ==> s[i] < 128 as char && s[i] != '_'
    ensures UNDERSCORE !in Ascii(s)
  {}

  lemma PreambleIsPlain(count: nat, d: Details)
    ensures UNDERSCORE !in Preamble(count, d)
  {
    AsciiIsPlain(TITLE);
    AsciiIsPlain(COUNT);
    AsciiIsPlain(APPROX);
    AsciiIsPlain(SECONDS);
    AsciiIsPlain(MAX_G);
    AsciiIsPlain(G);
    AsciiIsPlain(HISTORY);
    DigitsArePlain(count);
  }

  lemma HeaderParts(count: nat, d: Details)
    ensures Header(count, d) == Preamble(count, d) + Columns()
  {
    hide Ascii, Columns, Concat, Digits;
    ConcatFive(HeaderTexts(count, d));
  }

  lemma ConcatFive(t: seq<seq<byte>>)
    requires |t| == 5
    ensures Concat(t) == t[0] + t[1] + t[2] + t[3] + t[4]
  {
    assert t[..5] == t;
    ConcatTake(t, 5);
    ConcatTake(t, 4);
    ConcatTake(t, 3);
    ConcatTake(t, 2);
    ConcatTake(t, 1);
  }

  lemma ConcatTake(t: seq<seq<byte>>, n: nat)
    requires 0 < n <= |t|
    ensures Concat(t[..n]) == Concat(t[..n - 1]) + t[n - 1]
    ensures n == 1 ==> Concat(t[..n - 1]) == []
  {
    assert t[..n][..n - 1] == t[..n - 1];
  }

  lemma RecoversWhole(samples: seq<RawSample>, d: Details)
    ensures Recover(Header(|samples|, d) + PrintRows(samples)) == Some(samples)
  {
    hide Preamble, PrintRows, ParseRows, FirstUnderscore, Columns;
    var columns, rows, before := Columns(), PrintRows(samples), Preamble(|samples|, d);
    var file := Header(|samples|, d) + rows;
    HeaderParts(|samples|, d);
    PreambleIsPlain(|samples|, d);
    ColumnsSplit();
    UnderscoreIsFirst(before + columns[..9], columns[9..] + rows);
    assert file == (before + columns[..9]) + (columns[9..] + rows);
    assert file[|before|..|before| + |columns|] == columns && file[|before| + |columns|..] == rows;
    TelemetryRoundTrip(samples);
  }

  lemma ColumnsSplit()
    ensures |Columns()| > 9 && Columns()[9] == UNDERSCORE && UNDERSCORE !in Columns()[..9]
  {
    AsciiIsPlain(TIMESTAMP);
    assert |TIMESTAMP| == 9;
    assert Columns()[..9] == Ascii(TIMESTAMP);
  }

  // ----- The writer -----

  /** Prints header and rows, ignoring every fprintf's result, flushes and syncs. */
  method WriteTelemetryToFile(samples: seq<RawSample>, d: Details, io: Io) returns (ok: bool, file: seq<byte>)
    ensures ok <==> Succeeds(io)
    ensures file == Written(Texts(samples, d), io)
    ensures ok ==> SavedIfComplete(file, samples, d, io)
  {
    hide HeaderTexts, PrintRow, Print, SavedIfComplete;
    if !io.opens {
      return false, [];
    }
    var fp := new Stream();
    var texts := Texts(samples, d);
    var i := 0;
    while i < 5
      invariant i <= 5 && fp.View() == PrintAll(texts, io.writes, i)
    {
      var printed := fp.Fprintf(HeaderTexts(|samples|, d)[i], io.writes(i));
      i := i + 1;
    }
    i := 0;
    while i < |samples|
      invariant i <= |samples| && fp.View() == PrintAll(texts, io.writes, 5 + i)
    {
      assert texts[5 + i] == PrintRow(samples[i]);
      var printed := fp.Fprintf(PrintRow(samples[i]), io.writes(5 + i));
      i := i + 1;
    }
    ok := fp.Fflush(io);
    file := fp.file;
    ok := ok && io.syncs;
    if ok { SuccessReadsBackIffComplete(samples, d, io); }
  }

  // ----- A reported success without a single row -----

  const ONE_SAMPLE := [RawSample(1, RawVector(0, 0, 0), RawVector(0, 0, 0))]
  const NO_FLOATS := Details([], [])

  /** The one write before the final flush takes the whole buffer, and fails. */
  const FULL_DISK := Io(true, i => if i == 5 then [Chunk(1000, 0)] else [], true, 0, true)

  lemma SuccessCanLoseRows()
    ensures Succeeds(FULL_DISK)
    ensures var file := Written(Texts(ONE_SAMPLE, NO_FLOATS), FULL_DISK);
      !ReadsBack(file, Header(1, NO_FLOATS), ONE_SAMPLE)
  {
    var texts := Texts(ONE_SAMPLE, NO_FLOATS);
    hide HeaderTexts, Header, ReadsBack, Concat, Written;
    assert |texts| == 6;
    var s := PrintAll(texts, FULL_DISK.writes, 5);
    assert PrintAll(texts, FULL_DISK.writes, 6) == Print(s, texts[5], [Chunk(1000, 0)]);
    LosesAll(s, texts[5]);
    SuccessReadsBackIffComplete(ONE_SAMPLE, NO_FLOATS, FULL_DISK);
  }

  lemma LosesAll(s: State, text: seq<byte>)
    requires text != []
    ensures Print(s, text, [Chunk(1000, 0)]).lost > 0
  {
    assert [Chunk(1000, 0)][1..] == [];
  }
}
