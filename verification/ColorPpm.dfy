/** The colour preview: guards, unpack, demosaic, raw PPM ("P6"). */
module ColorPpm {
  import opened Bytes
  import opened Common
  import opened Bayer
  import opened Demosaic

  const SRGGB10P: nat := 0x41415270
  const INT_MAX: nat := 0x7fff_ffff

  datatype Picture = Picture(present: bool, data: seq<byte>, width: nat, height: nat,
                             bytesPerLine: nat, pixelFormat: nat)

  /** The platform's greatest size_t, and the outcomes of allocation and file calls;
      `rows(y)` is fwrite of row y. */
  datatype Io = Io(sizeMax: nat, rawAlloc: bool, opens: bool, header: bool, rowAlloc: bool,
                   rows: nat -> bool, flushes: bool, syncs: bool)

  datatype Error = InvalidImage | ImageTooShort | SystemError
  /** Undefined: an access outside an array, or a coordinate that is no int. */
  datatype Result = Written | Failed(error: Error) | Undefined

  function MinimumRow(i: Picture): nat { i.width / 4 * 5 }

  function Stride(i: Picture): nat { if i.bytesPerLine != 0 then i.bytesPerLine else MinimumRow(i) }

  predicate Acceptable(i: Picture) {
    i.present && i.width != 0 && i.height != 0 && i.pixelFormat == SRGGB10P && i.width % 4 == 0
  }

  predicate LongEnough(i: Picture) {
    MinimumRow(i) <= Stride(i) && Stride(i) * i.height <= |i.data|
  }

  /** What arithmetic on size_t leaves of a number. */
  function SizeT(n: nat, sizeMax: nat): nat { n % (sizeMax + 1) }

  /** The second guard as computed, with products that may wrap. */
  predicate PassesGuard(i: Picture, sizeMax: nat) {
    var minimumRow := SizeT(MinimumRow(i), sizeMax);
    var stride := if i.bytesPerLine != 0 then i.bytesPerLine else minimumRow;
    minimumRow <= stride && SizeT(stride * i.height, sizeMax) <= |i.data|
  }

  /** No size computation wraps and coordinates fit an int. */
  predicate NoWrap(i: Picture, sizeMax: nat) {
    && i.width <= INT_MAX && i.height <= INT_MAX && MinimumRow(i) <= sizeMax
    && Stride(i) * i.height <= sizeMax && i.height * i.width <= sizeMax && 3 * i.width <= sizeMax
  }

  /** C gives what follows the guards a meaning: an image they let through wraps
      nowhere. */
  predicate Defined(i: Picture, sizeMax: nat) {
    Acceptable(i) && PassesGuard(i, sizeMax) ==> NoWrap(i, sizeMax)
  }

  lemma SizeTKeeps(n: nat, sizeMax: nat)
    requires n <= sizeMax
    ensures SizeT(n, sizeMax) == n
  {}

  lemma RowWithinImage(row: nat, stride: nat, height: nat, size: nat)
    requires 0 < height && row <= stride && stride * height <= size
    ensures row <= size
  {
    assert stride <= stride * height;
  }

  /** Where nothing wraps, the guard as computed lets exactly the images through that
      are long enough; a long enough image never wraps there. */
  lemma GuardIsExact(i: Picture, sizeMax: nat)
    requires Acceptable(i) && |i.data| <= sizeMax
    ensures LongEnough(i) ==> PassesGuard(i, sizeMax)
    ensures PassesGuard(i, sizeMax) && NoWrap(i, sizeMax) ==> LongEnough(i)
  {
    hide SizeT;
    if LongEnough(i) { RowWithinImage(MinimumRow(i), Stride(i), i.height, |i.data|); }
    if MinimumRow(i) <= sizeMax { SizeTKeeps(MinimumRow(i), sizeMax); }
    if Stride(i) * i.height <= sizeMax { SizeTKeeps(Stride(i) * i.height, sizeMax); }
  }

  function Header(w: nat, h: nat): seq<byte> {
    [80, 54, 10] + Digits(w) + [32] + Digits(h) + [10] + [50, 53, 53, 10]
  }

  /** The header as it stands in the file: the magic number, width, height and the
      greatest value. */
  lemma SampleHeader()
    ensures Header(16, 9) == Ascii("P6\n16 9\n255\n")
  {
    var text := Ascii("P6\n16 9\n255\n");
    assert text == [80, 54, 10, 49, 54, 32, 57, 10, 50, 53, 53, 10];
    assert Digits(16) == [49, 54] && Digits(9) == [57];
    hide Digits, Ascii;
    assert Header(16, 9) == text;
  }

  function Raw8(i: Picture): (raw: seq<byte>)
    requires Acceptable(i) && LongEnough(i)
    ensures |raw| == i.height * i.width
  {
    Unpacked(i.data, i.width, i.height, Stride(i), i.height)
  }

  function Pixels(i: Picture): seq<byte>
    requires Acceptable(i) && LongEnough(i)
  {
    ColorRows(Raw8(i), i.width, i.height, i.height)
  }

  /** The file a successful call leaves behind. */
  function Preview(i: Picture): seq<byte>
    requires Acceptable(i) && LongEnough(i)
  {
    Header(i.width, i.height) + Pixels(i)
  }

  ghost predicate RowsWritten(io: Io, n: nat) { forall y :: 0 <= y < n ==> io.rows(y) }

  ghost predicate AllWritten(io: Io, i: Picture) {
    io.rawAlloc && io.opens && io.header && io.rowAlloc && RowsWritten(io, i.height)
    && io.flushes && io.syncs
  }

  /** For every image a size_t can measure: each guard's error; undefined exactly if
      the guards let an image through whose sizes wrap; success exactly when the
      guards pass and every call works, and then the file is the header followed by
      the interpolated colours. */
  method WritePraaColorPpm(i: Picture, io: Io) returns (result: Result, file: seq<byte>)
    requires |i.data| <= io.sizeMax
    ensures !Acceptable(i) ==> result == Failed(InvalidImage) && file == []
    ensures result == Failed(InvalidImage) <==>
      !i.present || i.width == 0 || i.height == 0 || i.pixelFormat != 0x41415270 || i.width % 4 != 0
    ensures Acceptable(i) && NoWrap(i, io.sizeMax) ==>
      var row := i.width / 4 * 5;
      (result == Failed(ImageTooShort) <==>
        if i.bytesPerLine == 0 then row * i.height > |i.data|
        else row > i.bytesPerLine || i.bytesPerLine * i.height > |i.data|)
    ensures Acceptable(i) && !PassesGuard(i, io.sizeMax) ==> result == Failed(ImageTooShort) && file == []
    ensures Acceptable(i) && !LongEnough(i) ==> result == Failed(ImageTooShort) || result.Undefined?
    ensures result.Undefined? <==> !Defined(i, io.sizeMax)
    ensures result.Written? <==>
      Acceptable(i) && LongEnough(i) && Defined(i, io.sizeMax) && AllWritten(io, i)
    ensures result.Written? ==> file == Preview(i)
  {
    hide Unpacked, ColorRow, Digits, UnpackedRow, SizeT;
    file := [];
    if !i.present || i.width == 0 || i.height == 0 || i.pixelFormat != SRGGB10P || i.width % 4 != 0 {
      return Failed(InvalidImage), file;
    }
    GuardIsExact(i, io.sizeMax);
    var minimumRowBytes := SizeT(i.width / 4 * 5, io.sizeMax);
    var stride := if i.bytesPerLine != 0 then i.bytesPerLine else minimumRowBytes;
    if stride < minimumRowBytes || SizeT(stride * i.height, io.sizeMax) > |i.data| {
      return Failed(ImageTooShort), file;
    }
    if !NoWrap(i, io.sizeMax) {
      return Undefined, file;
    }
    SizeTKeeps(MinimumRow(i), io.sizeMax);
    if !io.rawAlloc {
      return Failed(SystemError), file;
    }
    var raw8 := Unpack(i.data, i.width, i.height, stride);
    if !io.opens {
      return Failed(SystemError), file;
    }
    file := Header(i.width, i.height);
    if !io.header {
      return Failed(SystemError), file;
    }
    if !io.rowAlloc {
      return Failed(SystemError), file;
    }
    var ok;
    ok, file := WriteRows(raw8[..], i.width, i.height, file, io);
    if !ok {
      return Failed(SystemError), file;
    }
    return if io.flushes && io.syncs then Written else Failed(SystemError), file;
  }

  /** The row loop, reusing one row buffer. */
  method WriteRows(p: seq<byte>, w: nat, h: nat, header: seq<byte>, io: Io)
    returns (ok: bool, file: seq<byte>)
    requires 0 < w && 0 < h && |p| == h * w
    ensures ok <==> RowsWritten(io, h)
    ensures ok ==> file == header + ColorRows(p, w, h, h)
  {
    hide ColorRow;
    file := header;
    var rgbRow := new byte[3 * w];
    var y := 0;
    while y < h
      invariant y <= h && RowsWritten(io, y)
      invariant file == header + ColorRows(p, w, h, y)
    {
      DemosaicRow(p, w, h, y, rgbRow);
      file := file + rgbRow[..];
      if !io.rows(y) {
        return false, file;
      }
      y := y + 1;
    }
    return true, file;
  }

  // ----- Reading the preview back -----

  datatype Decoded = Decoded(width: nat, height: nat, pixels: seq<byte>)

  /** A reader for raw PPM with one blank between the header's fields. */
  function Decode(file: seq<byte>): Option<Decoded> {
    if |file| < 3 || file[..3] != [80, 54, 10] then None
    else
      match ReadNat(file[3..], 32)
      case None => None
      case Some((w, afterWidth)) =>
        match ReadNat(afterWidth, 10)
        case None => None
        case Some((h, afterHeight)) =>
          if |afterHeight| < 4 || afterHeight[..4] != [50, 53, 53, 10] then None
          else if |afterHeight| - 4 != h * (3 * w) then None
          else Some(Decoded(w, h, afterHeight[4..]))
  }

  lemma HeaderDecodes(w: nat, h: nat, pixels: seq<byte>)
    requires |pixels| == h * (3 * w)
    ensures Decode(Header(w, h) + pixels) == Some(Decoded(w, h, pixels))
  {
    hide ReadNat, Digits;
    var end := [50, 53, 53, 10] + pixels;
    var afterWidth := Digits(h) + [10] + end;
    var file := Header(w, h) + pixels;
    assert file[3..] == Digits(w) + [32] + afterWidth;
    ReadsDigits(w, 32, afterWidth);
    ReadsDigits(h, 10, end);
    assert end[..4] == [50, 53, 53, 10] && end[4..] == pixels;
  }

  /** Pixel (x, y) is colour `c`. */
  ghost predicate PixelIs(pixels: seq<byte>, w: nat, x: nat, y: nat, c: Rgb) {
    ColorIn(pixels, PixelOffset(w, x, y), c)
  }

  /** Every successful preview is a well-formed PPM of the image's size, whose pixel
      (x, y) is the interpolated colour. */
  lemma PreviewDecodes(i: Picture, x: nat, y: nat)
    requires Acceptable(i) && LongEnough(i) && x < i.width && y < i.height
    ensures Decode(Preview(i)) == Some(Decoded(i.width, i.height, Pixels(i)))
    ensures PixelIs(Pixels(i), i.width, x, y, ColorAt(Raw8(i), i.width, i.height, x, y))
  {
    hide ColorRows, ColorAt, Unpacked, Decode, Header, ColorIn;
    ColorRowsSize(Raw8(i), i.width, i.height, i.height);
    HeaderDecodes(i.width, i.height, Pixels(i));
    ColorRowsAt(Raw8(i), i.width, i.height, i.height, x, y);
  }
}
