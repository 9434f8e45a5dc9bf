/** Unpacking rows of 10-bit Bayer samples to their upper 8 bits. */
module Bayer {
  import opened Bytes

  // ----- Unpacking -----

  /** Where sample (x, y) keeps its upper eight bits. */
  function Offset(stride: nat, x: nat, y: nat): nat { y * stride + 5 * (x / 4) + x % 4 }

  /** Width is a whole number of groups, and the rows lie inside the data. */
  ghost predicate Fits(data: seq<byte>, w: nat, h: nat, stride: nat) {
    w % 4 == 0 && 5 * (w / 4) <= stride && stride * h <= |data|
  }

  lemma OffsetInRange(n: nat, w: nat, h: nat, stride: nat, x: nat, y: nat)
    requires w % 4 == 0 && 5 * (w / 4) <= stride && stride * h <= n && x < w && y < h
    ensures Offset(stride, x, y) < (y + 1) * stride <= n
    ensures y * stride + 5 * (x / 4) + 4 < (y + 1) * stride
  {
    assert x / 4 + 1 <= w / 4;
    assert (y + 1) * stride == y * stride + stride;
    assert (y + 1) * stride <= h * stride;
  }

  function UnpackedRow(data: seq<byte>, w: nat, h: nat, stride: nat, y: nat): (row: seq<byte>)
    requires Fits(data, w, h, stride) && y < h
    ensures |row| == w
  {
    assert forall x :: 0 <= x < w ==> Offset(stride, x, y) < |data| by {
      forall x | 0 <= x < w ensures Offset(stride, x, y) < |data| {
        OffsetInRange(|data|, w, h, stride, x, y);
      }
    }
    seq(w, x requires 0 <= x < w => data[Offset(stride, x, y)])
  }

  /** The first `n` rows. */
  function Unpacked(data: seq<byte>, w: nat, h: nat, stride: nat, n: nat): (raw: seq<byte>)
    requires Fits(data, w, h, stride) && n <= h
    ensures |raw| == n * w
  {
    if n == 0 then [] else Unpacked(data, w, h, stride, n - 1) + UnpackedRow(data, w, h, stride, n - 1)
  }

  lemma IndexInRange(w: nat, n: nat, x: nat, y: nat)
    requires x < w && y < n
    ensures y * w + x < n * w
  {
    assert (y + 1) * w == y * w + w;
    assert (y + 1) * w <= n * w;
  }

  /** raw8[y*w+x] is the byte at its row's offset. */
  lemma {:induction false} UnpackedAt(data: seq<byte>, w: nat, h: nat, stride: nat, n: nat, x: nat, y: nat)
    requires Fits(data, w, h, stride) && y < n <= h && x < w
    ensures y * w + x < n * w && Offset(stride, x, y) < |data|
    ensures Unpacked(data, w, h, stride, n)[y * w + x] == data[Offset(stride, x, y)]
  {
    IndexInRange(w, n, x, y);
    OffsetInRange(|data|, w, h, stride, x, y);
    if y < n - 1 {
      UnpackedAt(data, w, h, stride, n - 1, x, y);
    }
  }

  /** One row: four bytes kept, one skipped, for every group. */
  method UnpackRow(data: seq<byte>, w: nat, h: nat, stride: nat, y: nat, raw8: array<byte>, outputRow: nat)
    requires Fits(data, w, h, stride) && y < h && outputRow + w <= raw8.Length
    modifies raw8
    ensures raw8[..outputRow] == old(raw8[..outputRow])
    ensures raw8[outputRow..outputRow + w] == UnpackedRow(data, w, h, stride, y)
  {
    hide UnpackedRow, Offset;
    var inputRow, inputOffset, x := y * stride, 0, 0;
    var row := UnpackedRow(data, w, h, stride, y);
    while x < w
      invariant 0 <= x <= w && x % 4 == 0 && inputOffset == 5 * (x / 4)
      invariant raw8[..outputRow] == old(raw8[..outputRow])
      invariant forall i :: outputRow <= i < outputRow + x ==> raw8[i] == row[i - outputRow]
    {
      GroupOfRow(data, w, h, stride, x, y, inputRow + inputOffset);
      raw8[outputRow + x + 0] := data[inputRow + inputOffset + 0];
      raw8[outputRow + x + 1] := data[inputRow + inputOffset + 1];
      raw8[outputRow + x + 2] := data[inputRow + inputOffset + 2];
      raw8[outputRow + x + 3] := data[inputRow + inputOffset + 3];
      inputOffset := inputOffset + 5;
      x := x + 4;
    }
    assert raw8[outputRow..outputRow + w] == row;
  }

  /** The four samples of the group at `at` are the first four of its five bytes. */
  lemma GroupOfRow(data: seq<byte>, w: nat, h: nat, stride: nat, x: nat, y: nat, at: nat)
    requires Fits(data, w, h, stride) && x < w && x % 4 == 0 && y < h && at == y * stride + 5 * (x / 4)
    ensures x + 4 <= w && at + 4 < |data| && 5 * ((x + 4) / 4) == 5 * (x / 4) + 5
    ensures var row := UnpackedRow(data, w, h, stride, y);
      row[x] == data[at] && row[x + 1] == data[at + 1] && row[x + 2] == data[at + 2] && row[x + 3] == data[at + 3]
  {
    OffsetInRange(|data|, w, h, stride, x, y);
    GroupOffsets(stride, x, y);
  }

  lemma GroupOffsets(stride: nat, x: nat, y: nat)
    requires x % 4 == 0
    ensures Offset(stride, x + 0, y) == y * stride + 5 * (x / 4) + 0
    ensures Offset(stride, x + 1, y) == y * stride + 5 * (x / 4) + 1
    ensures Offset(stride, x + 2, y) == y * stride + 5 * (x / 4) + 2
    ensures Offset(stride, x + 3, y) == y * stride + 5 * (x / 4) + 3
  {}

  method Unpack(data: seq<byte>, w: nat, h: nat, stride: nat) returns (raw8: array<byte>)
    requires Fits(data, w, h, stride)
    ensures fresh(raw8) && raw8[..] == Unpacked(data, w, h, stride, h)
  {
    hide UnpackedRow;
    var size := h * w;
    raw8 := new byte[size];
    var y, outputRow := 0, 0;
    while y < h
      invariant y <= h && outputRow == y * w <= size
      invariant raw8[..outputRow] == Unpacked(data, w, h, stride, y)
    {
      RowFits(w, h, y);
      UnpackRow(data, w, h, stride, y, raw8, outputRow);
      assert raw8[..outputRow + w] == raw8[..outputRow] + raw8[outputRow..outputRow + w];
      y, outputRow := y + 1, outputRow + w;
    }
  }

  lemma RowFits(w: nat, h: nat, y: nat)
    requires y < h
    ensures y * w + w == (y + 1) * w <= h * w
  {}
}
