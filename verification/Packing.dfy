/** V4L2_PIX_FMT_SRGGB10P: four 10-bit samples in five bytes, the upper eight bits
    of each first, then their lower two bits, first sample lowest. */
module Packing {
  import opened Bytes
  import opened Bayer

  type tenbit = x: int | 0 <= x < 1024

  function LowBits(a: tenbit, b: tenbit, c: tenbit, d: tenbit): byte {
    a % 4 + 4 * (b % 4) + 16 * (c % 4) + 64 * (d % 4)
  }

  /** Byte `o` of a packed row. */
  function PackedByte(row: seq<tenbit>, o: nat): byte
    requires |row| % 4 == 0 && o < 5 * (|row| / 4)
  {
    var g := 4 * (o / 5);
    if o % 5 < 4 then row[g + o % 5] / 4
    else LowBits(row[g], row[g + 1], row[g + 2], row[g + 3])
  }

  function PackRow(row: seq<tenbit>): (s: seq<byte>)
    requires |row| % 4 == 0
    ensures |s| == 5 * (|row| / 4)
  {
    seq(5 * (|row| / 4), o requires 0 <= o < 5 * (|row| / 4) => PackedByte(row, o))
  }

  /** Rows of `w` samples, `stride` bytes apart, whatever the padding. */
  ghost predicate Packs(data: seq<byte>, rows: seq<seq<tenbit>>, w: nat, stride: nat) {
    && Fits(data, w, |rows|, stride)
    && (forall y :: 0 <= y < |rows| ==> |rows[y]| == w)
    && forall y :: 0 <= y < |rows| ==> HasRow(data, rows[y], y * stride)
  }

  ghost predicate HasRow(data: seq<byte>, row: seq<tenbit>, start: nat) {
    |row| % 4 == 0 && start + 5 * (|row| / 4) <= |data|
    && data[start..start + 5 * (|row| / 4)] == PackRow(row)
  }

  /** The 10-bit sample (x, y) put back together. */
  function Sample10(data: seq<byte>, stride: nat, x: nat, y: nat): tenbit
    requires Offset(stride, x, y) < |data| && y * stride + 5 * (x / 4) + 4 < |data|
  {
    var low: int := data[y * stride + 5 * (x / 4) + 4];
    var bits := match x % 4
      case 0 => low % 4
      case 1 => low / 4 % 4
      case 2 => low / 16 % 4
      case _ => low / 64;
    4 * data[Offset(stride, x, y)] + bits
  }

  lemma LowBitsApart(a: tenbit, b: tenbit, c: tenbit, d: tenbit)
    ensures var low: int := LowBits(a, b, c, d);
      && low % 4 == a % 4 && low / 4 % 4 == b % 4 && low / 16 % 4 == c % 4 && low / 64 == d % 4
  {
    FourDigits(a % 4, b % 4, c % 4, d % 4);
  }

  lemma FourDigits(p: nat, q: nat, r: nat, s: nat)
    requires p < 4 && q < 4 && r < 4 && s < 4
    ensures var low := p + 4 * q + 16 * r + 64 * s;
      low % 4 == p && low / 4 % 4 == q && low / 16 % 4 == r && low / 64 == s
  {
    var low := p + 4 * q + 16 * r + 64 * s;
    assert low / 4 == q + 4 * r + 16 * s;
    assert low / 16 == r + 4 * s;
  }

  lemma GroupOf(x: nat, w: nat)
    requires x < w && w % 4 == 0
    ensures var o := 5 * (x / 4) + x % 4;
      && o < 5 * (w / 4) && o / 5 == x / 4 && o % 5 == x % 4
      && (5 * (x / 4) + 4) / 5 == x / 4 && (5 * (x / 4) + 4) % 5 == 4 && 5 * (x / 4) + 4 < 5 * (w / 4)
      && 4 * (x / 4) + x % 4 == x
  {}

  /** The unpacked byte of a packed sample is the sample divided by four, and no bit
      of it is lost in the packed data. */
  lemma PackedSample(data: seq<byte>, rows: seq<seq<tenbit>>, w: nat, stride: nat, x: nat, y: nat)
    requires Packs(data, rows, w, stride) && y < |rows| && x < w
    ensures Offset(stride, x, y) < |data| && y * stride + 5 * (x / 4) + 4 < |data|
    ensures data[Offset(stride, x, y)] == rows[y][x] / 4
    ensures Sample10(data, stride, x, y) == rows[y][x]
  {
    OffsetInRange(|data|, w, |rows|, stride, x, y);
    var start, row := y * stride, rows[y];
    assert HasRow(data, row, start);
    SampleInRow(data, row, start, x);
    assert Offset(stride, x, y) == start + 5 * (x / 4) + x % 4;
    SplitsBy4(row[x], data[Offset(stride, x, y)]);
  }

  lemma SplitsBy4(sample: tenbit, upper: byte)
    requires upper == sample / 4
    ensures 4 * upper + sample % 4 == sample
  {}

  lemma SampleInRow(data: seq<byte>, row: seq<tenbit>, start: nat, x: nat)
    requires HasRow(data, row, start) && x < |row|
    ensures 5 * (x / 4) + 4 < 5 * (|row| / 4)
    ensures data[start + 5 * (x / 4) + x % 4] == row[x] / 4
    ensures var low: int := data[start + 5 * (x / 4) + 4];
      row[x] % 4 == match x % 4
        case 0 => low % 4
        case 1 => low / 4 % 4
        case 2 => low / 16 % 4
        case _ => low / 64
  {
    hide LowBits;
    GroupOf(x, |row|);
    var o, packed, g := 5 * (x / 4), PackRow(row), 4 * (x / 4);
    assert data[start + o + x % 4] == packed[o + x % 4];
    assert data[start + o + 4] == packed[o + 4];
    LowBitsApart(row[g], row[g + 1], row[g + 2], row[g + 3]);
  }

  // ----- A packer, so that the round trip has something to start from -----

  function Pad(n: nat): (s: seq<byte>)
    ensures |s| == n
  {
    seq(n, i => 0)
  }

  function PackImage(rows: seq<seq<tenbit>>, w: nat, stride: nat): (data: seq<byte>)
    requires w % 4 == 0 && 5 * (w / 4) <= stride && forall y :: 0 <= y < |rows| ==> |rows[y]| == w
    ensures |data| == |rows| * stride
  {
    if rows == [] then []
    else
      var n := |rows| - 1;
      PackImage(rows[..n], w, stride) + PackRow(rows[n]) + Pad(stride - 5 * (w / 4))
  }

  lemma {:induction false} PackImageHasRow(rows: seq<seq<tenbit>>, w: nat, stride: nat, y: nat)
    requires w % 4 == 0 && 5 * (w / 4) <= stride && forall y :: 0 <= y < |rows| ==> |rows[y]| == w
    requires y < |rows|
    ensures HasRow(PackImage(rows, w, stride), rows[y], y * stride)
  {
    hide PackRow, HasRow;
    var n := |rows| - 1;
    var before, data := PackImage(rows[..n], w, stride), PackImage(rows, w, stride);
    if y < n {
      PackImageHasRow(rows[..n], w, stride, y);
      RowStays(before, data, rows[y], y * stride);
    } else {
      RowAppended(before, rows[n], Pad(stride - 5 * (w / 4)));
    }
  }

  lemma RowStays(before: seq<byte>, data: seq<byte>, row: seq<tenbit>, start: nat)
    requires before <= data && HasRow(before, row, start)
    ensures HasRow(data, row, start)
  {
    var end := start + 5 * (|row| / 4);
    assert data[start..end] == before[start..end];
  }

  lemma RowAppended(before: seq<byte>, row: seq<tenbit>, pad: seq<byte>)
    requires |row| % 4 == 0
    ensures HasRow(before + PackRow(row) + pad, row, |before|)
  {
    var data := before + PackRow(row) + pad;
    assert data[|before|..|before| + 5 * (|row| / 4)] == PackRow(row);
  }

  /** Packing then unpacking keeps the upper eight bits of every sample. */
  lemma PackThenUnpack(rows: seq<seq<tenbit>>, w: nat, stride: nat, x: nat, y: nat)
    requires w % 4 == 0 && 5 * (w / 4) <= stride && forall y :: 0 <= y < |rows| ==> |rows[y]| == w
    requires x < w && y < |rows|
    ensures Packs(PackImage(rows, w, stride), rows, w, stride)
    ensures y * w + x < |rows| * w
    ensures Unpacked(PackImage(rows, w, stride), w, |rows|, stride, |rows|)[y * w + x] == rows[y][x] / 4
  {
    var data := PackImage(rows, w, stride);
    forall y | 0 <= y < |rows| ensures HasRow(data, rows[y], y * stride) {
      PackImageHasRow(rows, w, stride, y);
    }
    UnpackedAt(data, w, |rows|, stride, |rows|, x, y);
    PackedSample(data, rows, w, stride, x, y);
  }
}
