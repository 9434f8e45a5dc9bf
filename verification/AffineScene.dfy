/** Scenes whose three channels are integer affine functions of position survive the
    whole image path. */
module AffineScene {
  import opened Bytes
  import opened Bayer
  import opened Packing
  import opened Demosaic

  datatype Affine = Affine(c: int, dx: int, dy: int)

  function At(f: Affine, x: int, y: int): int { f.c + f.dx * x + f.dy * y }

  datatype Scene = Scene(red: Affine, green: Affine, blue: Affine)

  function Plane(s: Scene, c: Channel): Affine {
    match c
    case Red => s.red
    case Green => s.green
    case Blue => s.blue
  }

  /** Every channel is a byte everywhere on the image. */
  ghost predicate Visible(s: Scene, w: nat, h: nat) {
    forall c: Channel, x: nat, y: nat :: x < w && y < h ==> 0 <= At(Plane(s, c), x, y) <= 255
  }

  function MosaicAt(s: Scene, x: int, y: int): int { At(Plane(s, Filter(SiteOf(x, y))), x, y) }

  /** `p` is the scene seen through the filter mosaic. */
  ghost predicate IsMosaic(p: seq<byte>, w: nat, h: nat, s: Scene) {
    && 0 < w && 0 < h && |p| == h * w
    && forall x: nat, y: nat :: x < w && y < h ==> GetPixel(p, w, h, x, y) == MosaicAt(s, x, y)
  }

  predicate Interior(w: nat, h: nat, x: int, y: int) { 1 <= x <= w - 2 && 1 <= y <= h - 2 }

  /** Every tap of channel `c` looks through a filter of colour `c`. */
  lemma TapsSeeTheirColour(x: int, y: int, c: Channel, i: nat)
    requires i < |Taps(SiteOf(x, y), c)|
    ensures var t := Taps(SiteOf(x, y), c)[i];
      -1 <= t.0 <= 1 && -1 <= t.1 <= 1 && Filter(SiteOf(x + t.0, y + t.1)) == c
  {}

  /** The taps lie symmetrically about the pixel. */
  lemma TapsAreSymmetric(f: Affine, x: int, y: int)
    ensures At(f, x - 1, y) + At(f, x + 1, y) == 2 * At(f, x, y)
    ensures At(f, x, y - 1) + At(f, x, y + 1) == 2 * At(f, x, y)
    ensures At(f, x - 1, y - 1) + At(f, x + 1, y - 1) + At(f, x - 1, y + 1) + At(f, x + 1, y + 1)
         == 4 * At(f, x, y)
  {}

  lemma SampleIsPlane(p: seq<byte>, w: nat, h: nat, s: Scene, x: int, y: int, c: Channel, i: nat)
    requires IsMosaic(p, w, h, s) && Interior(w, h, x, y)
    requires i < |Taps(SiteOf(x, y), c)|
    ensures var taps := Taps(SiteOf(x, y), c);
      Samples(p, w, h, x, y, taps)[i] == At(Plane(s, c), x + taps[i].0, y + taps[i].1)
  {
    hide At, Taps, GetPixel, SiteOf;
    TapsSeeTheirColour(x, y, c, i);
    var t := Taps(SiteOf(x, y), c)[i];
    var x', y' := x + t.0, y + t.1;
    assert GetPixel(p, w, h, x', y') == MosaicAt(s, x', y');
  }

  /** Averages of affine values at symmetric taps are exact. */
  lemma MeanOfTaps(samples: seq<byte>, taps: seq<(int, int)>, f: Affine, x: int, y: int)
    requires taps == Here() || taps == Sides() || taps == AboveBelow() || taps == Cross() || taps == Corners()
    requires |samples| == |taps|
    requires forall i :: 0 <= i < |taps| ==> samples[i] == At(f, x + taps[i].0, y + taps[i].1)
    ensures Mean(samples) == At(f, x, y)
  {
    hide At, Mean;
    TapsAreSymmetric(f, x, y);
    if |taps| == 1 {
      assert samples == [samples[0]];
      MeanOf1(samples[0]);
    } else if |taps| == 2 {
      assert samples == [samples[0], samples[1]];
      MeanOf2(samples[0], samples[1]);
    } else {
      assert samples == [samples[0], samples[1], samples[2], samples[3]];
      MeanOf4(samples[0], samples[1], samples[2], samples[3]);
    }
  }

  lemma InteriorIsExact(p: seq<byte>, w: nat, h: nat, s: Scene, x: int, y: int, c: Channel)
    requires IsMosaic(p, w, h, s) && Interior(w, h, x, y)
    ensures Interpolate(p, w, h, x, y, c) == At(Plane(s, c), x, y)
  {
    hide At, GetPixel, Mean, Sum;
    var taps := Taps(SiteOf(x, y), c);
    var samples := Samples(p, w, h, x, y, taps);
    forall i | 0 <= i < |taps|
      ensures samples[i] == At(Plane(s, c), x + taps[i].0, y + taps[i].1)
    {
      SampleIsPlane(p, w, h, s, x, y, c, i);
    }
    MeanOfTaps(samples, taps, Plane(s, c), x, y);
  }

  /** `rows` are 10-bit samples whose upper eight bits are the mosaicked scene; the
      lower two bits are arbitrary. */
  ghost predicate Captures(rows: seq<seq<tenbit>>, w: nat, s: Scene) {
    && (forall y :: 0 <= y < |rows| ==> |rows[y]| == w)
    && (forall x, y :: 0 <= y < |rows| && 0 <= x < w ==> rows[y][x] / 4 == MosaicAt(s, x, y))
  }

  lemma UnpackedIsMosaic(data: seq<byte>, rows: seq<seq<tenbit>>, w: nat, stride: nat, s: Scene)
    requires 0 < w && 0 < |rows| && Packs(data, rows, w, stride) && Captures(rows, w, s)
    ensures IsMosaic(Unpacked(data, w, |rows|, stride, |rows|), w, |rows|, s)
  {
    var h := |rows|;
    var raw := Unpacked(data, w, h, stride, h);
    forall x: nat, y: nat | x < w && y < h
      ensures GetPixel(raw, w, h, x, y) == MosaicAt(s, x, y)
    {
      UnpackedAt(data, w, h, stride, h, x, y);
      PackedSample(data, rows, w, stride, x, y);
      assert rows[y][x] / 4 == MosaicAt(s, x, y);
    }
  }

  /** Main image result: capture, pack, unpack and demosaic reproduce all three
      channels of an affine scene exactly at every interior pixel. */
  lemma AffineScenesSurvive(data: seq<byte>, rows: seq<seq<tenbit>>, w: nat, stride: nat, s: Scene, x: int, y: int)
    requires 0 < w && 0 < |rows| && Packs(data, rows, w, stride)
    requires Captures(rows, w, s) && Interior(w, |rows|, x, y)
    ensures ColorMatches(ColorAt(Unpacked(data, w, |rows|, stride, |rows|), w, |rows|, x, y), s, x, y)
  {
    hide Interpolate, Unpacked, At, IsMosaic;
    var h := |rows|;
    var raw := Unpacked(data, w, h, stride, h);
    UnpackedIsMosaic(data, rows, w, stride, s);
    InteriorIsExact(raw, w, h, s, x, y, Red);
    InteriorIsExact(raw, w, h, s, x, y, Green);
    InteriorIsExact(raw, w, h, s, x, y, Blue);
  }

  ghost predicate ColorMatches(c: Rgb, s: Scene, x: int, y: int) {
    c.r == At(s.red, x, y) && c.g == At(s.green, x, y) && c.b == At(s.blue, x, y)
  }

  /** Every visible scene can be captured, so the result above is never vacuous. */
  lemma VisibleScenesCanBeCaptured(s: Scene, w: nat, h: nat, stride: nat) returns (rows: seq<seq<tenbit>>)
    requires Visible(s, w, h) && w % 4 == 0 && 5 * (w / 4) <= stride
    ensures |rows| == h && Captures(rows, w, s) && Packs(PackImage(rows, w, stride), rows, w, stride)
  {
    rows := seq(h, y requires 0 <= y < h =>
      seq(w, x requires 0 <= x < w =>
        (assert 0 <= At(Plane(s, Filter(SiteOf(x, y))), x, y) <= 255; 4 * MosaicAt(s, x, y))));
    var data := PackImage(rows, w, stride);
    forall y | 0 <= y < |rows| ensures HasRow(data, rows[y], y * stride) {
      PackImageHasRow(rows, w, stride, y);
    }
  }
}
