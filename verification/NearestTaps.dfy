/** What the interpolation averages, without naming the taps: every nearest sample of
    the channel's colour, once. */
module NearestTaps {
  import opened Bytes
  import opened Demosaic

  function Distance(dx: int, dy: int): nat { Apart(dx, 0) + Apart(dy, 0) }

  /** The sensor's filter: red where both coordinates are even, blue where both are
      odd, green elsewhere. */
  function FilterAt(x: int, y: int): Channel {
    match x % 2 + y % 2
    case 0 => Red
    case 1 => Green
    case _ => Blue
  }

  /** One of the nine sites around (x, y) that the filter lets colour `c` through to. */
  predicate Sees(x: int, y: int, c: Channel, dx: int, dy: int) {
    -1 <= dx <= 1 && -1 <= dy <= 1 && FilterAt(x + dx, y + dy) == c
  }

  ghost predicate Nearest(x: int, y: int, c: Channel, dx: int, dy: int) {
    Sees(x, y, c, dx, dy) && forall ex, ey :: Sees(x, y, c, ex, ey) ==> Distance(dx, dy) <= Distance(ex, ey)
  }

  // ----- Only the parity of a site matters -----

  /** The site next to a site. */
  function Beside(site: Site, dx: int, dy: int): Site {
    var row := if dy == 0 then site.RedSite? || site.GreenInRedRow? else site.GreenInBlueRow? || site.BlueSite?;
    var column := if dx == 0 then site.RedSite? || site.GreenInBlueRow? else site.GreenInRedRow? || site.BlueSite?;
    if row then (if column then RedSite else GreenInRedRow)
    else (if column then GreenInBlueRow else BlueSite)
  }

  lemma BesideIsSite(x: int, y: int, dx: int, dy: int)
    requires -1 <= dx <= 1 && -1 <= dy <= 1
    ensures SiteOf(x + dx, y + dy) == Beside(SiteOf(x, y), dx, dy)
  {
    Parity(x, dx);
    Parity(y, dy);
  }

  lemma Parity(v: int, d: int)
    requires -1 <= d <= 1
    ensures (v + d) % 2 == 0 <==> (if d == 0 then v % 2 == 0 else v % 2 != 0)
  {}

  lemma FilterOfSite(x: int, y: int)
    ensures Filter(SiteOf(x, y)) == FilterAt(x, y)
  {}

  predicate SeesFrom(site: Site, c: Channel, dx: int, dy: int) {
    -1 <= dx <= 1 && -1 <= dy <= 1 && Filter(Beside(site, dx, dy)) == c
  }

  lemma SeesSame(x: int, y: int, c: Channel, dx: int, dy: int)
    ensures Sees(x, y, c, dx, dy) <==> SeesFrom(SiteOf(x, y), c, dx, dy)
  {
    if -1 <= dx <= 1 && -1 <= dy <= 1 {
      BesideIsSite(x, y, dx, dy);
      FilterOfSite(x + dx, y + dy);
    }
    hide FilterAt, SiteOf, Beside, Filter;
  }

  /** How far the nearest site of the colour is. */
  function Reach(site: Site, c: Channel): nat {
    match (site, c)
    case (RedSite, Red) => 0
    case (BlueSite, Blue) => 0
    case (RedSite, Blue) => 2
    case (BlueSite, Red) => 2
    case (RedSite, Green) => 1
    case (BlueSite, Green) => 1
    case (_, Green) => 0
    case _ => 1
  }

  lemma InHere(dx: int, dy: int)
    ensures (dx, dy) in Here() <==> dx == 0 && dy == 0
  {}

  lemma InSides(dx: int, dy: int)
    ensures (dx, dy) in Sides() <==> (dx == -1 || dx == 1) && dy == 0
  {
    assert Sides()[0] == (-1, 0) && Sides()[1] == (1, 0);
  }

  lemma InAboveBelow(dx: int, dy: int)
    ensures (dx, dy) in AboveBelow() <==> dx == 0 && (dy == -1 || dy == 1)
  {
    assert AboveBelow()[0] == (0, -1) && AboveBelow()[1] == (0, 1);
  }

  lemma InCross(dx: int, dy: int)
    ensures (dx, dy) in Cross() <==>
      ((dx == -1 || dx == 1) && dy == 0) || (dx == 0 && (dy == -1 || dy == 1))
  {
    var t := Cross();
    assert t[0] == (-1, 0) && t[1] == (1, 0) && t[2] == (0, -1) && t[3] == (0, 1);
  }

  lemma InCorners(dx: int, dy: int)
    ensures (dx, dy) in Corners() <==> (dx == -1 || dx == 1) && (dy == -1 || dy == 1)
  {
    var t := Corners();
    assert t[0] == (-1, -1) && t[1] == (1, -1) && t[2] == (-1, 1) && t[3] == (1, 1);
  }

  /** The taps as a shape: only the two distances along the axes matter. */
  predicate Shape(taps: seq<(int, int)>, dx: int, dy: int) {
    if taps == Here() then dx == 0 && dy == 0
    else if taps == Sides() then (dx == -1 || dx == 1) && dy == 0
    else if taps == AboveBelow() then dx == 0 && (dy == -1 || dy == 1)
    else if taps == Cross() then ((dx == -1 || dx == 1) && dy == 0) || (dx == 0 && (dy == -1 || dy == 1))
    else (dx == -1 || dx == 1) && (dy == -1 || dy == 1)
  }

  lemma ShapesDiffer()
    ensures Here() != Sides() && Here() != AboveBelow() && Here() != Cross() && Here() != Corners()
    ensures Sides() != AboveBelow() && Sides() != Cross() && Sides() != Corners()
    ensures AboveBelow() != Cross() && AboveBelow() != Corners() && Cross() != Corners()
  {
    assert |Here()| == 1 && |Sides()| == 2 && |AboveBelow()| == 2 && |Cross()| == 4 && |Corners()| == 4;
    assert Sides()[0] == (-1, 0) && AboveBelow()[0] == (0, -1);
    assert Cross()[0] == (-1, 0) && Corners()[0] == (-1, -1);
  }

  lemma InShape(taps: seq<(int, int)>, dx: int, dy: int)
    requires taps == Here() || taps == Sides() || taps == AboveBelow() || taps == Cross() || taps == Corners()
    ensures (dx, dy) in taps <==> Shape(taps, dx, dy)
  {
    InHere(dx, dy);
    InSides(dx, dy);
    InAboveBelow(dx, dy);
    InCross(dx, dy);
    InCorners(dx, dy);
    hide Here, Sides, AboveBelow, Cross, Corners;
  }

  lemma DistanceIs(dx: int, dy: int)
    requires -1 <= dx <= 1 && -1 <= dy <= 1
    ensures Distance(dx, dy) == (if dx == 0 then 0 else 1) + if dy == 0 then 0 else 1
  {}

  /** In the shape of the taps are exactly the sites of the colour within its reach. */
  lemma ShapeReach(site: Site, c: Channel, dx: int, dy: int)
    ensures Shape(Taps(site, c), dx, dy) <==> SeesFrom(site, c, dx, dy) && Distance(dx, dy) == Reach(site, c)
    ensures SeesFrom(site, c, dx, dy) ==> Reach(site, c) <= Distance(dx, dy)
  {
    ShapesDiffer();
    TapsAreShapes(site, c);
    if -1 <= dx <= 1 && -1 <= dy <= 1 {
      DistanceIs(dx, dy);
      ShapeReachNear(site, c, dx == 0, dy == 0);
      ShapeByZeros(Taps(site, c), dx, dy);
      SeesByZeros(site, c, dx, dy);
      hide Taps, Shape, SeesFrom, Distance, Reach, Here, Sides, AboveBelow, Cross, Corners;
    } else {
      hide Taps, Here, Sides, AboveBelow, Cross, Corners;
    }
  }

  /** Near the site it only matters which displacements are zero. */
  predicate ShapeZ(taps: seq<(int, int)>, x0: bool, y0: bool) {
    Shape(taps, if x0 then 0 else 1, if y0 then 0 else 1)
  }

  predicate SeesZ(site: Site, c: Channel, x0: bool, y0: bool) {
    SeesFrom(site, c, if x0 then 0 else 1, if y0 then 0 else 1)
  }

  lemma ShapeByZeros(taps: seq<(int, int)>, dx: int, dy: int)
    requires -1 <= dx <= 1 && -1 <= dy <= 1
    ensures Shape(taps, dx, dy) <==> ShapeZ(taps, dx == 0, dy == 0)
  {
    hide Here, Sides, AboveBelow, Cross, Corners;
  }

  lemma SeesByZeros(site: Site, c: Channel, dx: int, dy: int)
    requires -1 <= dx <= 1 && -1 <= dy <= 1
    ensures SeesFrom(site, c, dx, dy) <==> SeesZ(site, c, dx == 0, dy == 0)
  {}

  lemma ShapeReachNear(site: Site, c: Channel, x0: bool, y0: bool)
    ensures var distance := (if x0 then 0 else 1) + if y0 then 0 else 1;
      && (ShapeZ(Taps(site, c), x0, y0) <==> SeesZ(site, c, x0, y0) && distance == Reach(site, c))
      && (SeesZ(site, c, x0, y0) ==> Reach(site, c) <= distance)
  {
    ShapesDiffer();
    hide Here, Sides, AboveBelow, Cross, Corners;
    match site
    case RedSite =>
    case GreenInRedRow =>
    case GreenInBlueRow =>
    case BlueSite =>
  }

  lemma TapsReach(site: Site, c: Channel, dx: int, dy: int)
    ensures (dx, dy) in Taps(site, c) <==> SeesFrom(site, c, dx, dy) && Distance(dx, dy) == Reach(site, c)
    ensures SeesFrom(site, c, dx, dy) ==> Reach(site, c) <= Distance(dx, dy)
  {
    TapsAreShapes(site, c);
    hide Taps, Here, Sides, AboveBelow, Cross, Corners, Shape, SeesFrom, Distance, Reach;
    InShape(Taps(site, c), dx, dy);
    ShapeReach(site, c, dx, dy);
  }

  lemma TapsAreShapes(site: Site, c: Channel)
    ensures var t := Taps(site, c);
      t == Here() || t == Sides() || t == AboveBelow() || t == Cross() || t == Corners()
  {
    hide Here, Sides, AboveBelow, Cross, Corners;
  }

  lemma TapsSee(x: int, y: int, c: Channel, dx: int, dy: int)
    requires (dx, dy) in Taps(SiteOf(x, y), c)
    ensures Nearest(x, y, c, dx, dy)
  {
    hide SiteOf, Taps, Beside, Filter, Sees, SeesFrom, Reach, Distance;
    TapsReach(SiteOf(x, y), c, dx, dy);
    SeesSame(x, y, c, dx, dy);
    forall ex, ey | Sees(x, y, c, ex, ey) ensures Distance(dx, dy) <= Distance(ex, ey) {
      SeesSame(x, y, c, ex, ey);
      TapsReach(SiteOf(x, y), c, ex, ey);
    }
  }

  lemma NearestIsTap(x: int, y: int, c: Channel, dx: int, dy: int)
    requires Nearest(x, y, c, dx, dy)
    ensures (dx, dy) in Taps(SiteOf(x, y), c)
  {
    var t := Taps(SiteOf(x, y), c)[0];
    hide SiteOf, Taps, Beside, Filter, Sees, SeesFrom, Reach, Distance;
    assert t in Taps(SiteOf(x, y), c) && t == (t.0, t.1);
    TapsReach(SiteOf(x, y), c, t.0, t.1);
    SeesSame(x, y, c, t.0, t.1);
    assert Distance(dx, dy) <= Distance(t.0, t.1);
    SeesSame(x, y, c, dx, dy);
    TapsReach(SiteOf(x, y), c, dx, dy);
  }

  /** The taps of a channel are exactly the nearest sites of its colour, each once. */
  lemma TapsAreNearest(x: int, y: int, c: Channel)
    ensures forall dx, dy :: (dx, dy) in Taps(SiteOf(x, y), c) <==> Nearest(x, y, c, dx, dy)
    ensures forall i, j :: 0 <= i < j < |Taps(SiteOf(x, y), c)| ==>
      Taps(SiteOf(x, y), c)[i] != Taps(SiteOf(x, y), c)[j]
  {
    hide Taps, Nearest, SiteOf;
    forall dx, dy ensures (dx, dy) in Taps(SiteOf(x, y), c) <==> Nearest(x, y, c, dx, dy) {
      if (dx, dy) in Taps(SiteOf(x, y), c) { TapsSee(x, y, c, dx, dy); }
      if Nearest(x, y, c, dx, dy) { NearestIsTap(x, y, c, dx, dy); }
    }
    TapsAreDistinct(SiteOf(x, y), c);
  }

  lemma TapsAreDistinct(site: Site, c: Channel)
    ensures forall i, j :: 0 <= i < j < |Taps(site, c)| ==> Taps(site, c)[i] != Taps(site, c)[j]
  {}

  // ----- The mean of all nearest samples -----

  /** What site (x + dx, y + dy) adds to the sum and to the count. */
  ghost function Part(p: seq<byte>, w: nat, h: nat, x: int, y: int, c: Channel, dx: int, dy: int): nat
    requires 0 < w && 0 < h && |p| == h * w
  {
    if Nearest(x, y, c, dx, dy) then GetPixel(p, w, h, x + dx, y + dy) else 0
  }

  ghost function One(x: int, y: int, c: Channel, dx: int, dy: int): nat {
    if Nearest(x, y, c, dx, dy) then 1 else 0
  }

  ghost function NearestSum(p: seq<byte>, w: nat, h: nat, x: int, y: int, c: Channel): nat
    requires 0 < w && 0 < h && |p| == h * w
  {
    Part(p, w, h, x, y, c, -1, -1) + Part(p, w, h, x, y, c, 0, -1) + Part(p, w, h, x, y, c, 1, -1)
    + Part(p, w, h, x, y, c, -1, 0) + Part(p, w, h, x, y, c, 0, 0) + Part(p, w, h, x, y, c, 1, 0)
    + Part(p, w, h, x, y, c, -1, 1) + Part(p, w, h, x, y, c, 0, 1) + Part(p, w, h, x, y, c, 1, 1)
  }

  ghost function NearestCount(x: int, y: int, c: Channel): nat {
    One(x, y, c, -1, -1) + One(x, y, c, 0, -1) + One(x, y, c, 1, -1)
    + One(x, y, c, -1, 0) + One(x, y, c, 0, 0) + One(x, y, c, 1, 0)
    + One(x, y, c, -1, 1) + One(x, y, c, 0, 1) + One(x, y, c, 1, 1)
  }

  /** The nearest sites, by name. */
  lemma NearestAre(x: int, y: int, c: Channel, taps: seq<(int, int)>, dx: int, dy: int)
    requires taps == Taps(SiteOf(x, y), c)
    ensures Nearest(x, y, c, dx, dy) <==> (dx, dy) in taps
  {
    hide Nearest, SiteOf, Taps;
    TapsAreNearest(x, y, c);
  }

  lemma AllNine(x: int, y: int, c: Channel, taps: seq<(int, int)>)
    requires taps == Taps(SiteOf(x, y), c)
    ensures forall dx, dy :: Nearest(x, y, c, dx, dy) <==> (dx, dy) in taps
  {
    forall dx, dy ensures Nearest(x, y, c, dx, dy) <==> (dx, dy) in taps {
      NearestAre(x, y, c, taps, dx, dy);
    }
  }

  lemma HereSum(p: seq<byte>, w: nat, h: nat, x: int, y: int, c: Channel)
    requires 0 < w && 0 < h && |p| == h * w && Taps(SiteOf(x, y), c) == Here()
    ensures NearestCount(x, y, c) == 1 && NearestSum(p, w, h, x, y, c) == GetPixel(p, w, h, x, y)
  {
    AllNine(x, y, c, Here());
    hide Nearest, SiteOf, Taps, GetPixel;
  }

  lemma SidesSum(p: seq<byte>, w: nat, h: nat, x: int, y: int, c: Channel)
    requires 0 < w && 0 < h && |p| == h * w && Taps(SiteOf(x, y), c) == Sides()
    ensures NearestCount(x, y, c) == 2
    ensures NearestSum(p, w, h, x, y, c) == GetPixel(p, w, h, x - 1, y) + GetPixel(p, w, h, x + 1, y)
  {
    AllNine(x, y, c, Sides());
    hide Nearest, SiteOf, Taps, GetPixel;
  }

  lemma AboveBelowSum(p: seq<byte>, w: nat, h: nat, x: int, y: int, c: Channel)
    requires 0 < w && 0 < h && |p| == h * w && Taps(SiteOf(x, y), c) == AboveBelow()
    ensures NearestCount(x, y, c) == 2
    ensures NearestSum(p, w, h, x, y, c) == GetPixel(p, w, h, x, y - 1) + GetPixel(p, w, h, x, y + 1)
  {
    AllNine(x, y, c, AboveBelow());
    hide Nearest, SiteOf, Taps, GetPixel;
  }

  lemma CrossSum(p: seq<byte>, w: nat, h: nat, x: int, y: int, c: Channel)
    requires 0 < w && 0 < h && |p| == h * w && Taps(SiteOf(x, y), c) == Cross()
    ensures NearestCount(x, y, c) == 4
    ensures NearestSum(p, w, h, x, y, c)
         == GetPixel(p, w, h, x - 1, y) + GetPixel(p, w, h, x + 1, y)
          + GetPixel(p, w, h, x, y - 1) + GetPixel(p, w, h, x, y + 1)
  {
    AllNine(x, y, c, Cross());
    hide Nearest, SiteOf, Taps, GetPixel;
  }

  lemma CornersSum(p: seq<byte>, w: nat, h: nat, x: int, y: int, c: Channel)
    requires 0 < w && 0 < h && |p| == h * w && Taps(SiteOf(x, y), c) == Corners()
    ensures NearestCount(x, y, c) == 4
    ensures NearestSum(p, w, h, x, y, c)
         == GetPixel(p, w, h, x - 1, y - 1) + GetPixel(p, w, h, x + 1, y - 1)
          + GetPixel(p, w, h, x - 1, y + 1) + GetPixel(p, w, h, x + 1, y + 1)
  {
    AllNine(x, y, c, Corners());
    hide Nearest, SiteOf, Taps, GetPixel;
  }

  function At(p: seq<byte>, w: nat, h: nat, x: int, y: int, t: (int, int)): byte
    requires 0 < w && 0 < h && |p| == h * w
  {
    GetPixel(p, w, h, x + t.0, y + t.1)
  }

  lemma MeanOfOneTap(p: seq<byte>, w: nat, h: nat, x: int, y: int, t: seq<(int, int)>)
    requires 0 < w && 0 < h && |p| == h * w && |t| == 1
    ensures Mean(Samples(p, w, h, x, y, t)) == At(p, w, h, x, y, t[0])
  {
    hide GetPixel, Mean;
    assert Samples(p, w, h, x, y, t) == [At(p, w, h, x, y, t[0])];
    MeanOf1(At(p, w, h, x, y, t[0]));
  }

  lemma MeanOfTwoTaps(p: seq<byte>, w: nat, h: nat, x: int, y: int, t: seq<(int, int)>)
    requires 0 < w && 0 < h && |p| == h * w && |t| == 2
    ensures Mean(Samples(p, w, h, x, y, t)) == (At(p, w, h, x, y, t[0]) as int + At(p, w, h, x, y, t[1])) / 2
  {
    hide GetPixel, Mean;
    assert Samples(p, w, h, x, y, t) == [At(p, w, h, x, y, t[0]), At(p, w, h, x, y, t[1])];
    MeanOf2(At(p, w, h, x, y, t[0]), At(p, w, h, x, y, t[1]));
  }

  lemma MeanOfFourTaps(p: seq<byte>, w: nat, h: nat, x: int, y: int, t: seq<(int, int)>)
    requires 0 < w && 0 < h && |p| == h * w && |t| == 4
    ensures Mean(Samples(p, w, h, x, y, t))
         == (At(p, w, h, x, y, t[0]) as int + At(p, w, h, x, y, t[1])
             + At(p, w, h, x, y, t[2]) + At(p, w, h, x, y, t[3])) / 4
  {
    hide GetPixel, Mean;
    var a, b := At(p, w, h, x, y, t[0]), At(p, w, h, x, y, t[1]);
    var c, d := At(p, w, h, x, y, t[2]), At(p, w, h, x, y, t[3]);
    assert Samples(p, w, h, x, y, t) == [a, b, c, d];
    MeanOf4(a, b, c, d);
  }

  lemma Quotient(sum: nat, count: nat, k: nat)
    requires 0 < k && count == k
    ensures sum / count == sum / k
  {}

  ghost predicate MeansNearest(p: seq<byte>, w: nat, h: nat, x: int, y: int, c: Channel)
    requires 0 < w && 0 < h && |p| == h * w
  {
    && 0 < NearestCount(x, y, c)
    && Interpolate(p, w, h, x, y, c) == NearestSum(p, w, h, x, y, c) / NearestCount(x, y, c)
  }

  lemma FromOne(p: seq<byte>, w: nat, h: nat, x: int, y: int, c: Channel)
    requires 0 < w && 0 < h && |p| == h * w && Taps(SiteOf(x, y), c) == Here()
    ensures MeansNearest(p, w, h, x, y, c)
  {
    hide GetPixel, SiteOf, Taps, Mean, Samples, NearestSum, NearestCount;
    HereSum(p, w, h, x, y, c);
    MeanOfOneTap(p, w, h, x, y, Here());
    Quotient(NearestSum(p, w, h, x, y, c), NearestCount(x, y, c), 1);
  }

  lemma FromTwo(p: seq<byte>, w: nat, h: nat, x: int, y: int, c: Channel)
    requires 0 < w && 0 < h && |p| == h * w
    requires Taps(SiteOf(x, y), c) == Sides() || Taps(SiteOf(x, y), c) == AboveBelow()
    ensures MeansNearest(p, w, h, x, y, c)
  {
    hide GetPixel, SiteOf, Taps, Mean, Samples, NearestSum, NearestCount;
    if Taps(SiteOf(x, y), c) == Sides() {
      SidesSum(p, w, h, x, y, c);
    } else {
      AboveBelowSum(p, w, h, x, y, c);
    }
    MeanOfTwoTaps(p, w, h, x, y, Taps(SiteOf(x, y), c));
    Quotient(NearestSum(p, w, h, x, y, c), NearestCount(x, y, c), 2);
  }

  lemma FromCross(p: seq<byte>, w: nat, h: nat, x: int, y: int, c: Channel)
    requires 0 < w && 0 < h && |p| == h * w && Taps(SiteOf(x, y), c) == Cross()
    ensures MeansNearest(p, w, h, x, y, c)
  {
    hide GetPixel, SiteOf, Taps, Mean, Samples, NearestSum, NearestCount;
    CrossSum(p, w, h, x, y, c);
    MeanOfFourTaps(p, w, h, x, y, Cross());
    Quotient(NearestSum(p, w, h, x, y, c), NearestCount(x, y, c), 4);
  }

  lemma FromCorners(p: seq<byte>, w: nat, h: nat, x: int, y: int, c: Channel)
    requires 0 < w && 0 < h && |p| == h * w && Taps(SiteOf(x, y), c) == Corners()
    ensures MeansNearest(p, w, h, x, y, c)
  {
    hide GetPixel, SiteOf, Taps, Mean, Samples, NearestSum, NearestCount;
    CornersSum(p, w, h, x, y, c);
    MeanOfFourTaps(p, w, h, x, y, Corners());
    Quotient(NearestSum(p, w, h, x, y, c), NearestCount(x, y, c), 4);
  }

  /** At every pixel, borders included, each channel is the truncated mean of all
      nearest samples of its colour. */
  lemma ChannelIsNearestMean(p: seq<byte>, w: nat, h: nat, x: int, y: int, c: Channel)
    requires 0 < w && 0 < h && |p| == h * w
    ensures MeansNearest(p, w, h, x, y, c)
  {
    hide MeansNearest, SiteOf, Taps, Here, Sides, AboveBelow, Cross, Corners;
    TapsAreShapes(SiteOf(x, y), c);
    if Taps(SiteOf(x, y), c) == Here() {
      FromOne(p, w, h, x, y, c);
    } else if Taps(SiteOf(x, y), c) == Cross() {
      FromCross(p, w, h, x, y, c);
    } else if Taps(SiteOf(x, y), c) == Corners() {
      FromCorners(p, w, h, x, y, c);
    } else {
      FromTwo(p, w, h, x, y, c);
    }
  }
}
