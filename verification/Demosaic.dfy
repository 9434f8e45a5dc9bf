/** Bilinear interpolation of an SRGGB mosaic: clamped neighbours, four parity cases,
    truncating averages. */
module Demosaic {
  import opened Bytes
  import opened Bayer

  function Apart(a: int, b: int): nat { if a < b then b - a else a - b }

  /** The coordinate inside the image that is nearest. */
  function Clamped(v: int, size: nat): (c: nat)
    requires 0 < size
    ensures c < size && (0 <= v < size ==> c == v)
    ensures forall k: nat :: k < size ==> Apart(c, v) <= Apart(k, v)
  {
    if v < 0 then 0 else if v >= size then size - 1 else v
  }

  /** The pixel at (x, y), or the nearest one inside the image. */
  function GetPixel(p: seq<byte>, w: nat, h: nat, x: int, y: int): byte
    requires 0 < w && 0 < h && |p| == h * w
  {
    IndexInRange(w, h, Clamped(x, w), Clamped(y, h));
    p[Clamped(y, h) * w + Clamped(x, w)]
  }

  datatype Rgb = Rgb(r: byte, g: byte, b: byte)

  function Sum(s: seq<byte>): nat { if s == [] then 0 else Sum(s[..|s| - 1]) + s[|s| - 1] }

  /** The truncating average. */
  function Mean(s: seq<byte>): (m: byte)
    requires s != []
  {
    MeanBounds(s, 0, 255);
    Sum(s) / |s|
  }

  lemma {:induction false} SumBounds(s: seq<byte>, lo: byte, hi: byte)
    requires forall v :: v in s ==> lo <= v <= hi
    ensures |s| * lo <= Sum(s) <= |s| * hi
  {
    if s != [] {
      var n, last := |s| - 1, s[|s| - 1];
      assert last in s;
      forall v | v in s[..n] ensures v in s {}
      SumBounds(s[..n], lo, hi);
      assert (n + 1) * lo == n * lo + lo && (n + 1) * hi == n * hi + hi;
    }
  }

  lemma MeanBounds(s: seq<byte>, lo: byte, hi: byte)
    requires s != [] && forall v :: v in s ==> lo <= v <= hi
    ensures lo <= Sum(s) / |s| <= hi
  {
    SumBounds(s, lo, hi);
    QuotientBounds(Sum(s), |s|, lo, hi);
  }

  lemma QuotientBounds(sum: nat, n: nat, lo: nat, hi: nat)
    requires 0 < n && n * lo <= sum <= n * hi
    ensures lo <= sum / n <= hi
  {
    var q := sum / n;
    assert q * n <= sum < q * n + n;
    var below, above := q + 1 - lo, hi - q;
    assert below * n == q * n + n - n * lo;
    assert above * n == n * hi - q * n;
  }

  lemma MeanOf2(a: byte, b: byte)
    ensures Mean([a, b]) == (a as int + b as int) / 2
  {
    assert [a, b][..1] == [a] && [a][..0] == [];
    assert Sum([a, b]) == Sum([a]) + b && Sum([a]) == Sum([]) + a;
  }

  lemma MeanOf4(a: byte, b: byte, c: byte, d: byte)
    ensures Mean([a, b, c, d]) == (a as int + b as int + c as int + d as int) / 4
  {
    assert [a, b, c, d][..3] == [a, b, c] && [a, b, c][..2] == [a, b];
    assert [a, b][..1] == [a] && [a][..0] == [];
    assert Sum([a, b, c, d]) == Sum([a, b, c]) + d && Sum([a, b, c]) == Sum([a, b]) + c;
    assert Sum([a, b]) == Sum([a]) + b && Sum([a]) == Sum([]) + a;
  }

  lemma MeanOf1(a: byte)
    ensures Mean([a]) == a
  {
    assert [a][..0] == [];
    assert Sum([a]) == Sum([]) + a;
  }

  // ----- Which samples each channel averages -----

  datatype Site = RedSite | GreenInRedRow | GreenInBlueRow | BlueSite

  /** Rows R G R G ... alternate with rows G B G B ... */
  function SiteOf(x: int, y: int): Site {
    if y % 2 == 0 && x % 2 == 0 then RedSite
    else if y % 2 == 0 then GreenInRedRow
    else if x % 2 == 0 then GreenInBlueRow
    else BlueSite
  }

  datatype Channel = Red | Green | Blue

  /** The colour filter over a site. */
  function Filter(site: Site): Channel {
    match site
    case RedSite => Red
    case BlueSite => Blue
    case _ => Green
  }

  /** Displacements of the samples a channel uses at a site. */
  function Taps(site: Site, c: Channel): (t: seq<(int, int)>)
    ensures t != []
  {
    match (site, c)
    case (RedSite, Red) => Here()
    case (RedSite, Green) => Cross()
    case (RedSite, Blue) => Corners()
    case (GreenInRedRow, Red) => Sides()
    case (GreenInRedRow, Green) => Here()
    case (GreenInRedRow, Blue) => AboveBelow()
    case (GreenInBlueRow, Red) => AboveBelow()
    case (GreenInBlueRow, Green) => Here()
    case (GreenInBlueRow, Blue) => Sides()
    case (BlueSite, Red) => Corners()
    case (BlueSite, Green) => Cross()
    case (BlueSite, Blue) => Here()
  }

  function Here(): seq<(int, int)> { [(0, 0)] }
  function Sides(): seq<(int, int)> { [(-1, 0), (1, 0)] }
  function AboveBelow(): seq<(int, int)> { [(0, -1), (0, 1)] }
  function Cross(): seq<(int, int)> { [(-1, 0), (1, 0), (0, -1), (0, 1)] }
  function Corners(): seq<(int, int)> { [(-1, -1), (1, -1), (-1, 1), (1, 1)] }

  function Samples(p: seq<byte>, w: nat, h: nat, x: int, y: int, taps: seq<(int, int)>): (s: seq<byte>)
    requires 0 < w && 0 < h && |p| == h * w
    ensures |s| == |taps|
  {
    seq(|taps|, i requires 0 <= i < |taps| => GetPixel(p, w, h, x + taps[i].0, y + taps[i].1))
  }

  function Interpolate(p: seq<byte>, w: nat, h: nat, x: int, y: int, c: Channel): byte
    requires 0 < w && 0 < h && |p| == h * w
  {
    Mean(Samples(p, w, h, x, y, Taps(SiteOf(x, y), c)))
  }

  function ColorAt(p: seq<byte>, w: nat, h: nat, x: int, y: int): Rgb
    requires 0 < w && 0 < h && |p| == h * w
  {
    Rgb(Interpolate(p, w, h, x, y, Red), Interpolate(p, w, h, x, y, Green), Interpolate(p, w, h, x, y, Blue))
  }

  // ----- The code's arithmetic -----

  /** (uint8_t) of a C int. */
  function Narrow(i: int): byte { i % 256 }

  method AverageSides(p: seq<byte>, w: nat, h: nat, x: int, y: int) returns (v: byte)
    requires 0 < w && 0 < h && |p| == h * w
    ensures v == Mean(Samples(p, w, h, x, y, Sides()))
  {
    var a, b := GetPixel(p, w, h, x - 1, y), GetPixel(p, w, h, x + 1, y);
    v := Narrow((a as int + b as int) / 2);
    MeanOf2(a, b);
    assert Samples(p, w, h, x, y, Sides()) == [a, b];
  }

  method AverageAboveBelow(p: seq<byte>, w: nat, h: nat, x: int, y: int) returns (v: byte)
    requires 0 < w && 0 < h && |p| == h * w
    ensures v == Mean(Samples(p, w, h, x, y, AboveBelow()))
  {
    var a, b := GetPixel(p, w, h, x, y - 1), GetPixel(p, w, h, x, y + 1);
    v := Narrow((a as int + b as int) / 2);
    MeanOf2(a, b);
    assert Samples(p, w, h, x, y, AboveBelow()) == [a, b];
  }

  method AverageCross(p: seq<byte>, w: nat, h: nat, x: int, y: int) returns (v: byte)
    requires 0 < w && 0 < h && |p| == h * w
    ensures v == Mean(Samples(p, w, h, x, y, Cross()))
  {
    var a, b := GetPixel(p, w, h, x - 1, y), GetPixel(p, w, h, x + 1, y);
    var c, d := GetPixel(p, w, h, x, y - 1), GetPixel(p, w, h, x, y + 1);
    v := Narrow((a as int + b as int + c as int + d as int) / 4);
    MeanOf4(a, b, c, d);
    assert Samples(p, w, h, x, y, Cross()) == [a, b, c, d];
  }

  method AverageCorners(p: seq<byte>, w: nat, h: nat, x: int, y: int) returns (v: byte)
    requires 0 < w && 0 < h && |p| == h * w
    ensures v == Mean(Samples(p, w, h, x, y, Corners()))
  {
    var a, b := GetPixel(p, w, h, x - 1, y - 1), GetPixel(p, w, h, x + 1, y - 1);
    var c, d := GetPixel(p, w, h, x - 1, y + 1), GetPixel(p, w, h, x + 1, y + 1);
    v := Narrow((a as int + b as int + c as int + d as int) / 4);
    MeanOf4(a, b, c, d);
    assert Samples(p, w, h, x, y, Corners()) == [a, b, c, d];
  }

  method DemosaicPixel(p: seq<byte>, w: nat, h: nat, x: nat, y: nat) returns (color: Rgb)
    requires 0 < w && 0 < h && |p| == h * w && x < w && y < h
    ensures color == ColorAt(p, w, h, x, y)
  {
    var center := GetPixel(p, w, h, x, y);
    MeanOf1(center);
    assert Samples(p, w, h, x, y, Here()) == [center];
    var r, g, b;
    if y % 2 == 0 && x % 2 == 0 {
      r := center;
      g := AverageCross(p, w, h, x, y);
      b := AverageCorners(p, w, h, x, y);
    } else if y % 2 == 0 {
      g := center;
      r := AverageSides(p, w, h, x, y);
      b := AverageAboveBelow(p, w, h, x, y);
    } else if x % 2 == 0 {
      g := center;
      r := AverageAboveBelow(p, w, h, x, y);
      b := AverageSides(p, w, h, x, y);
    } else {
      b := center;
      g := AverageCross(p, w, h, x, y);
      r := AverageCorners(p, w, h, x, y);
    }
    color := Rgb(r, g, b);
  }

  // ----- Rows and the whole image -----

  /** The first `n` pixels of row `y`, three bytes each. */
  function ColorRow(p: seq<byte>, w: nat, h: nat, y: nat, n: nat): (row: seq<byte>)
    requires 0 < w && 0 < h && |p| == h * w
    ensures |row| == 3 * n
  {
    if n == 0 then []
    else
      var c := ColorAt(p, w, h, n - 1, y);
      ColorRow(p, w, h, y, n - 1) + [c.r, c.g, c.b]
  }

  function ColorRows(p: seq<byte>, w: nat, h: nat, n: nat): (image: seq<byte>)
    requires 0 < w && 0 < h && |p| == h * w
  {
    if n == 0 then [] else ColorRows(p, w, h, n - 1) + ColorRow(p, w, h, n - 1, w)
  }

  /** Where the three bytes of pixel (x, y) start. */
  function PixelOffset(w: nat, x: nat, y: nat): nat { y * (3 * w) + 3 * x }

  ghost predicate ColorIn(bytes: seq<byte>, at: nat, c: Rgb) {
    at + 2 < |bytes| && bytes[at] == c.r && bytes[at + 1] == c.g && bytes[at + 2] == c.b
  }

  lemma {:induction false} ColorRowAt(p: seq<byte>, w: nat, h: nat, y: nat, n: nat, x: nat)
    requires 0 < w && 0 < h && |p| == h * w && x < n
    ensures ColorIn(ColorRow(p, w, h, y, n), 3 * x, ColorAt(p, w, h, x, y))
  {
    hide ColorAt;
    if x < n - 1 { ColorRowAt(p, w, h, y, n - 1, x); }
  }

  lemma {:induction false} ColorRowsSize(p: seq<byte>, w: nat, h: nat, n: nat)
    requires 0 < w && 0 < h && |p| == h * w
    ensures |ColorRows(p, w, h, n)| == n * (3 * w)
  {
    hide ColorAt, ColorRow;
    if n > 0 { ColorRowsSize(p, w, h, n - 1); }
  }

  /** The image's bytes are the interpolated colours, row by row. */
  lemma {:induction false} ColorRowsAt(p: seq<byte>, w: nat, h: nat, n: nat, x: nat, y: nat)
    requires 0 < w && 0 < h && |p| == h * w && x < w && y < n
    ensures ColorIn(ColorRows(p, w, h, n), PixelOffset(w, x, y), ColorAt(p, w, h, x, y))
  {
    hide ColorAt, ColorRow;
    ColorRowsSize(p, w, h, n - 1);
    if y < n - 1 {
      ColorRowsAt(p, w, h, n - 1, x, y);
    } else {
      ColorRowAt(p, w, h, y, w, x);
    }
  }

  method DemosaicRow(p: seq<byte>, w: nat, h: nat, y: nat, rgbRow: array<byte>)
    requires 0 < w && 0 < h && |p| == h * w && y < h && rgbRow.Length == 3 * w
    modifies rgbRow
    ensures rgbRow[..] == ColorRow(p, w, h, y, w)
  {
    hide ColorAt;
    var x := 0;
    while x < w
      invariant x <= w && rgbRow[..3 * x] == ColorRow(p, w, h, y, x)
    {
      var c := DemosaicPixel(p, w, h, x, y);
      rgbRow[x * 3 + 0] := c.r;
      rgbRow[x * 3 + 1] := c.g;
      rgbRow[x * 3 + 2] := c.b;
      assert rgbRow[..3 * (x + 1)] == rgbRow[..3 * x] + [c.r, c.g, c.b];
      x := x + 1;
    }
    assert rgbRow[..] == rgbRow[..3 * w];
  }

  // ----- Arithmetic facts for every image, borders included -----

  /** Each channel lies between the least and the greatest of its clamped samples. */
  lemma ChannelWithinSamples(p: seq<byte>, w: nat, h: nat, x: int, y: int, c: Channel, lo: byte, hi: byte)
    requires 0 < w && 0 < h && |p| == h * w
    requires forall v :: v in Samples(p, w, h, x, y, Taps(SiteOf(x, y), c)) ==> lo <= v <= hi
    ensures lo <= Interpolate(p, w, h, x, y, c) <= hi
  {
    hide GetPixel, Taps, Sum;
    MeanBounds(Samples(p, w, h, x, y, Taps(SiteOf(x, y), c)), lo, hi);
  }

  lemma {:induction false} SumMonotone(a: seq<byte>, b: seq<byte>)
    requires |a| == |b| && forall i :: 0 <= i < |a| ==> a[i] <= b[i]
    ensures Sum(a) <= Sum(b)
  {
    if a != [] { SumMonotone(a[..|a| - 1], b[..|b| - 1]); }
  }

  lemma QuotientMonotone(a: nat, b: nat, n: nat)
    requires 0 < n && a <= b
    ensures a / n <= b / n
  {
    var q, r := a / n, b / n;
    assert q * n <= a && b < r * n + n;
    var d := r + 1 - q;
    assert d * n == r * n + n - q * n;
  }

  /** A mosaic that is nowhere darker gives an image that is nowhere darker. */
  lemma DemosaicIsMonotone(p: seq<byte>, q: seq<byte>, w: nat, h: nat, x: int, y: int, c: Channel)
    requires 0 < w && 0 < h && |p| == h * w == |q|
    requires forall i :: 0 <= i < |p| ==> p[i] <= q[i]
    ensures Interpolate(p, w, h, x, y, c) <= Interpolate(q, w, h, x, y, c)
  {
    var taps := Taps(SiteOf(x, y), c);
    var a, b := Samples(p, w, h, x, y, taps), Samples(q, w, h, x, y, taps);
    forall i | 0 <= i < |taps| ensures a[i] <= b[i] {
      IndexInRange(w, h, Clamped(x + taps[i].0, w), Clamped(y + taps[i].1, h));
    }
    SumMonotone(a, b);
    QuotientMonotone(Sum(a), Sum(b), |taps|);
  }

  /** An equal-valued mosaic gives the same grey at every pixel. */
  lemma FlatStaysFlat(p: seq<byte>, w: nat, h: nat, x: int, y: int, v: byte)
    requires 0 < w && 0 < h && |p| == h * w
    requires forall i :: 0 <= i < |p| ==> p[i] == v
    ensures ColorAt(p, w, h, x, y) == Rgb(v, v, v)
  {
    hide Interpolate;
    FlatChannel(p, w, h, x, y, v, Red);
    FlatChannel(p, w, h, x, y, v, Green);
    FlatChannel(p, w, h, x, y, v, Blue);
  }

  lemma FlatChannel(p: seq<byte>, w: nat, h: nat, x: int, y: int, v: byte, c: Channel)
    requires 0 < w && 0 < h && |p| == h * w
    requires forall i :: 0 <= i < |p| ==> p[i] == v
    ensures Interpolate(p, w, h, x, y, c) == v
  {
    hide GetPixel, Taps, Sum;
    var taps := Taps(SiteOf(x, y), c);
    forall i | 0 <= i < |taps| ensures Samples(p, w, h, x, y, taps)[i] == v {
      FlatPixel(p, w, h, x + taps[i].0, y + taps[i].1, v);
    }
    ChannelWithinSamples(p, w, h, x, y, c, v, v);
  }

  lemma FlatPixel(p: seq<byte>, w: nat, h: nat, x: int, y: int, v: byte)
    requires 0 < w && 0 < h && |p| == h * w
    requires forall i :: 0 <= i < |p| ==> p[i] == v
    ensures GetPixel(p, w, h, x, y) == v
  {
    IndexInRange(w, h, Clamped(x, w), Clamped(y, h));
  }
}
