/** The whole way from a scene in front of the sensor to the saved preview. */
module ImagePath {
  import opened Bytes
  import opened Common
  import Bayer
  import opened Packing
  import opened Demosaic
  import opened AffineScene
  import opened ColorPpm

  /** Bytes `at` onwards are the scene's three channels at (x, y). */
  ghost predicate Shows(pixels: seq<byte>, at: nat, s: Scene, x: int, y: int) {
    && at + 2 < |pixels|
    && pixels[at] == At(s.red, x, y)
    && pixels[at + 1] == At(s.green, x, y)
    && pixels[at + 2] == At(s.blue, x, y)
  }

  /** The image is a packed capture of the scene, whatever its stride and low bits. */
  ghost predicate Photographs(i: Picture, rows: seq<seq<tenbit>>, s: Scene) {
    && Acceptable(i) && LongEnough(i) && |rows| == i.height
    && Packs(i.data, rows, i.width, if i.bytesPerLine != 0 then i.bytesPerLine else 5 * (i.width / 4))
    && Captures(rows, i.width, s)
  }

  /** The file reads back as a PPM of that size which shows the scene at (x, y). */
  ghost predicate FileShows(file: seq<byte>, w: nat, h: nat, s: Scene, x: nat, y: nat) {
    match Decode(file)
    case None => false
    case Some(d) => d.width == w && d.height == h && Shows(d.pixels, PixelOffset(w, x, y), s, x, y)
  }

  lemma MatchShows(pixels: seq<byte>, w: nat, c: Rgb, s: Scene, x: nat, y: nat)
    requires PixelIs(pixels, w, x, y, c) && ColorMatches(c, s, x, y)
    ensures Shows(pixels, PixelOffset(w, x, y), s, x, y)
  {
    hide At;
  }

  lemma PixelIsScene(i: Picture, rows: seq<seq<tenbit>>, s: Scene, x: nat, y: nat)
    requires Photographs(i, rows, s) && Interior(i.width, i.height, x, y)
    ensures ColorMatches(ColorAt(Raw8(i), i.width, i.height, x, y), s, x, y)
  {
    hide ColorAt, ColorMatches, Packs, Captures, Bayer.Unpacked;
    AffineScenesSurvive(i.data, rows, i.width, Stride(i), s, x, y);
  }

  /** The preview of an image that captured an affine scene shows the scene exactly
      at every interior pixel. */
  lemma PreviewShowsScene(i: Picture, rows: seq<seq<tenbit>>, s: Scene, x: nat, y: nat)
    requires Photographs(i, rows, s) && Interior(i.width, i.height, x, y)
    ensures FileShows(Preview(i), i.width, i.height, s, x, y)
  {
    assert Acceptable(i) && LongEnough(i);
    hide Photographs, Acceptable, LongEnough, Decode, Preview, ColorAt, Pixels, Raw8, PixelIs, ColorMatches, Shows;
    PreviewDecodes(i, x, y);
    PixelIsScene(i, rows, s, x, y);
    MatchShows(Pixels(i), i.width, ColorAt(Raw8(i), i.width, i.height, x, y), s, x, y);
  }
}
