/** The map view of `src/map.rs`: framing points on a circle of longitudes,
    wrapping a longitude the short way round, and fitting a window to a widget.
    Floating point is modelled by exact reals. */
module Geometry {
  import opened Options

  datatype Point = Point(lon: real, lat: real)

  /** A whole number of turns, in degrees. */
  function Turns(k: int): real { 360.0 * k as real }

  ghost predicate Congruent(a: real, b: real) {
    exists k: int :: a == b + Turns(k)
  }

  function Abs(x: real): real { if x < 0.0 then -x else x }

  function Max(x: real, y: real): real { if x < y then y else x }

  function Min(x: real, y: real): real { if x < y then x else y }

  // ---------------------------------------------------------------- around

  function Least(xs: seq<real>): (m: real)
    requires xs != []
    ensures m in xs
    ensures forall i :: 0 <= i < |xs| ==> m <= xs[i]
  {
    if |xs| == 1 then xs[0] else Min(xs[0], Least(xs[1..]))
  }

  function Greatest(xs: seq<real>): (m: real)
    requires xs != []
    ensures m in xs
    ensures forall i :: 0 <= i < |xs| ==> xs[i] <= m
  {
    if |xs| == 1 then xs[0] else Max(xs[0], Greatest(xs[1..]))
  }

  function Shift(lon: real): real { if lon < 0.0 then lon + 360.0 else lon }

  function Lons(points: seq<Point>): (r: seq<real>)
    ensures |r| == |points|
    ensures forall i :: 0 <= i < |points| ==> r[i] == points[i].lon
  {
    seq(|points|, i requires 0 <= i < |points| => points[i].lon)
  }

  function Shifted(points: seq<Point>): (r: seq<real>)
    ensures |r| == |points|
    ensures forall i :: 0 <= i < |points| ==> r[i] == Shift(points[i].lon)
  {
    seq(|points|, i requires 0 <= i < |points| => Shift(points[i].lon))
  }

  function Lats(points: seq<Point>): (r: seq<real>)
    ensures |r| == |points|
    ensures forall i :: 0 <= i < |points| ==> r[i] == points[i].lat
  {
    seq(|points|, i requires 0 <= i < |points| => points[i].lat)
  }

  function Span(xs: seq<real>): (r: real)
    requires xs != []
    ensures r >= 0.0
  {
    assert xs[0] <= Greatest(xs) && Least(xs) <= xs[0];
    Greatest(xs) - Least(xs)
  }

  datatype Bounds = Bounds(lonMin: real, lonMax: real, latMin: real, latMax: real) {
    function CentreLon(): real { (lonMin + lonMax) / 2.0 }

    function CentreLat(): real { (latMin + latMax) / 2.0 }

    function Width(): real { lonMax - lonMin }

    function Height(): real { latMax - latMin }

    function Padded(fraction: real, minSpan: real): Bounds {
      var lonSpan := Max(Width() * (1.0 + fraction), minSpan);
      var latSpan := Max(Height() * (1.0 + fraction), minSpan / 2.0);
      Bounds(CentreLon() - lonSpan / 2.0, CentreLon() + lonSpan / 2.0,
             CentreLat() - latSpan / 2.0, CentreLat() + latSpan / 2.0)
    }
  }

  function Around(points: seq<Point>): Option<Bounds> {
    if points == [] then None else
      var plain, shifted, lats := Lons(points), Shifted(points), Lats(points);
      var xs := if Span(shifted) < Span(plain) then shifted else plain;
      Some(Bounds(Least(xs), Greatest(xs), Least(lats), Greatest(lats)))
  }

  ghost predicate InRange(points: seq<Point>) {
    forall i :: 0 <= i < |points| ==> -180.0 <= points[i].lon <= 180.0
  }

  /** Every point, taken modulo 360, lies on the arc of width `w` that starts at `a`. */
  ghost predicate OnArc(points: seq<Point>, a: real, w: real) {
    forall i :: 0 <= i < |points| ==> HasCopy(points[i].lon, a, w)
  }

  ghost predicate HasCopy(lon: real, a: real, w: real) {
    exists k: int :: a <= lon + Turns(k) <= a + w
  }

  /** The window frames every point: some copy of its longitude, and its latitude. */
  lemma FramesEveryPoint(points: seq<Point>, i: nat)
    requires i < |points|
    ensures var b := Around(points).value;
            && b.latMin <= points[i].lat <= b.latMax
            && (b.lonMin <= points[i].lon <= b.lonMax || b.lonMin <= points[i].lon + 360.0 <= b.lonMax)
  {
    var plain, shifted := Lons(points), Shifted(points);
    assert Lats(points)[i] == points[i].lat;
    assert plain[i] == points[i].lon && shifted[i] == Shift(points[i].lon);
  }

  /** The narrower of the two readings is taken; and when neither is, the one as given, whose
      edges are longitudes that were given. */
  lemma NarrowerIsTaken(points: seq<Point>)
    requires points != []
    ensures Around(points).value.Width() == Min(Span(Lons(points)), Span(Shifted(points)))
    ensures var b := Around(points).value;
            Span(Lons(points)) <= Span(Shifted(points)) ==> Given(points, b.lonMin) && Given(points, b.lonMax)
  {
    GivenIn(points, Least(Lons(points)));
    GivenIn(points, Greatest(Lons(points)));
  }

  lemma GivenIn(points: seq<Point>, lon: real)
    requires lon in Lons(points)
    ensures Given(points, lon)
  {
    var i :| 0 <= i < |points| && Lons(points)[i] == lon;
    assert points[i].lon == lon;
  }

  ghost predicate Given(points: seq<Point>, lon: real) {
    exists i :: 0 <= i < |points| && points[i].lon == lon
  }

  /** Top and bottom edges are as tight as any band that holds every latitude. */
  lemma TightestLatitudes(points: seq<Point>, south: real, north: real)
    requires points != []
    requires forall i :: 0 <= i < |points| ==> south <= points[i].lat <= north
    ensures south <= Around(points).value.latMin && Around(points).value.latMax <= north
  {
    var lats := Lats(points);
    assert forall i :: 0 <= i < |lats| ==> south <= lats[i] <= north;
  }

  /** An interval that holds every value bounds their span. */
  lemma SpanAtMost(xs: seq<real>, lo: real, w: real)
    requires xs != []
    requires forall i :: 0 <= i < |xs| ==> lo <= xs[i] <= lo + w
    ensures Span(xs) <= w
  {
  }

  lemma SpanExactly(xs: seq<real>, least: nat, greatest: nat)
    requires least < |xs| && greatest < |xs|
    requires forall i :: 0 <= i < |xs| ==> xs[least] <= xs[i] <= xs[greatest]
    ensures Span(xs) == xs[greatest] - xs[least]
  {
  }

  /** An arc may be renamed by whole turns; one of its names starts in [-180,180). */
  lemma Normalise(points: seq<Point>, a: real, w: real) returns (b: real)
    requires OnArc(points, a, w)
    ensures -180.0 <= b < 180.0 && OnArc(points, b, w)
  {
    var j := ((a + 180.0) / 360.0).Floor;
    b := a - Turns(j);
    forall i | 0 <= i < |points|
      ensures HasCopy(points[i].lon, b, w)
    {
      var k: int :| a <= points[i].lon + Turns(k) <= a + w;
      assert Turns(k - j) == Turns(k) - Turns(j);
      assert b <= points[i].lon + Turns(k - j) <= b + w;
    }
  }

  /** The doc comment's "smallest window", where it is true: points that fit some arc
      narrower than half the circle are framed by a window no wider than that arc. */
  lemma ShortestFraming(points: seq<Point>, a: real, w: real)
    requires points != [] && InRange(points)
    requires 0.0 <= w < 180.0 && OnArc(points, a, w)
    ensures Around(points).value.Width() <= w
  {
    var b := Normalise(points, a, w);
    if i :| 0 <= i < |points| && !(b <= points[i].lon <= b + w) {
      var k: int :| b <= points[i].lon + Turns(k) <= b + w;
      assert k != 0;
      ShiftedFits(points, b, w, i, k);
    } else {
      SpanAtMost(Lons(points), b, w);
    }
  }

  /** One point off the arc as given puts every shifted longitude on one interval. */
  lemma ShiftedFits(points: seq<Point>, b: real, w: real, i: nat, k: int)
    requires InRange(points) && OnArc(points, b, w) && i < |points|
    requires -180.0 <= b < 180.0 && 0.0 <= w < 180.0
    requires k != 0 && b <= points[i].lon + Turns(k) <= b + w
    ensures Span(Shifted(points)) <= w
  {
    var lo := if b == -180.0 then 180.0 else b;
    forall j | 0 <= j < |points|
      ensures lo <= Shift(points[j].lon) <= lo + w
    {
      var n: int :| b <= points[j].lon + Turns(n) <= b + w;
      assert -2 < n < 2;
    }
    SpanAtMost(Shifted(points), lo, w);
  }

  lemma AllOnArc(points: seq<Point>, a: real, w: real, turns: seq<int>)
    requires |turns| == |points|
    requires forall i :: 0 <= i < |points| ==> a <= points[i].lon + Turns(turns[i]) <= a + w
    ensures OnArc(points, a, w)
  {
    forall i | 0 <= i < |points|
      ensures HasCopy(points[i].lon, a, w)
    {
      var k := turns[i];
      assert a <= points[i].lon + Turns(k) <= a + w;
    }
  }

  /** The bound of half a circle is needed: four points at these longitudes fit an arc of
      200 degrees, and the window spans 340. */
  lemma WideFramingIsNotShortest(points: seq<Point>)
    requires |points| == 4
    requires points[0].lon == 10.0 && points[1].lon == -10.0
    requires points[2].lon == 170.0 && points[3].lon == -170.0
    ensures OnArc(points, 170.0, 200.0) && Around(points).value.Width() == 340.0
  {
    AllOnArc(points, 170.0, 200.0, [1, 1, 0, 1]);
    SpanExactly(Lons(points), 3, 2);
    SpanExactly(Shifted(points), 0, 1);
  }

  /** An arc of the map as drawn, from -180 to 180. Both edges are the antimeridian: an arc
      that ends at one edge does not take in a point given on the other, unless it goes all
      the way across. */
  ghost predicate AcrossMap(points: seq<Point>, a: real, v: real) {
    && -180.0 <= a && 0.0 <= v && a + v <= 180.0
    && (a == -180.0 && Given(points, 180.0) ==> a + v == 180.0)
    && (a + v == 180.0 && Given(points, -180.0) ==> a == -180.0)
  }

  /** An arc that does not reach the prime meridian from the west. */
  predicate FromPrime(a: real, v: real) { 0.0 <= a && 0.0 <= v && a + v < 360.0 }

  ghost predicate FitsUncut(points: seq<Point>, w: real) {
    exists a, v :: v <= w && (AcrossMap(points, a, v) || FromPrime(a, v)) && OnArc(points, a, v)
  }

  /** When exactly the window is as short as asked, at any width: the points fit an arc
      that the antimeridian does not cut, or one that the prime meridian does not. */
  lemma FramingExactly(points: seq<Point>, w: real)
    requires points != [] && InRange(points)
    ensures Around(points).value.Width() <= w <==> FitsUncut(points, w)
  {
    if FitsUncut(points, w) {
      var a, v :| v <= w && (AcrossMap(points, a, v) || FromPrime(a, v)) && OnArc(points, a, v);
      if AcrossMap(points, a, v) { PlainFits(points, a, v); } else { ShiftedFitsArc(points, a, v); }
    }
    if Around(points).value.Width() <= w {
      PlainIsUncut(points);
      ShiftedIsUncut(points);
    }
  }

  lemma PlainFits(points: seq<Point>, a: real, v: real)
    requires points != [] && InRange(points) && AcrossMap(points, a, v) && OnArc(points, a, v)
    ensures Span(Lons(points)) <= v
  {
    forall i | 0 <= i < |points|
      ensures a <= points[i].lon <= a + v
    {
      var k: int :| a <= points[i].lon + Turns(k) <= a + v;
      assert -2 < k < 2;
    }
    SpanAtMost(Lons(points), a, v);
  }

  lemma ShiftedFitsArc(points: seq<Point>, a: real, v: real)
    requires points != [] && InRange(points) && FromPrime(a, v) && OnArc(points, a, v)
    ensures Span(Shifted(points)) <= v
  {
    forall i | 0 <= i < |points|
      ensures a <= Shift(points[i].lon) <= a + v
    {
      var k: int :| a <= points[i].lon + Turns(k) <= a + v;
      assert -2 < k < 2;
    }
    SpanAtMost(Shifted(points), a, v);
  }

  /** A reading of the longitudes lies on the arc from its least to its greatest value. */
  lemma ReadingOnArc(points: seq<Point>, xs: seq<real>, turn: int)
    requires points != [] && |xs| == |points|
    requires forall i :: 0 <= i < |xs| ==> xs[i] == points[i].lon + Turns(if points[i].lon < 0.0 then turn else 0)
    ensures OnArc(points, Least(xs), Span(xs))
  {
    forall i | 0 <= i < |points|
      ensures HasCopy(points[i].lon, Least(xs), Span(xs))
    {
      var k := if points[i].lon < 0.0 then turn else 0;
      assert Least(xs) <= points[i].lon + Turns(k) <= Least(xs) + Span(xs);
    }
  }

  lemma PlainIsUncut(points: seq<Point>)
    requires points != [] && InRange(points)
    ensures FitsUncut(points, Span(Lons(points)))
  {
    var xs := Lons(points);
    assert Turns(0) == 0.0;
    ReadingOnArc(points, xs, 0);
    assert AcrossMap(points, Least(xs), Span(xs));
  }

  lemma ShiftedIsUncut(points: seq<Point>)
    requires points != [] && InRange(points)
    ensures FitsUncut(points, Span(Shifted(points)))
  {
    var xs := Shifted(points);
    assert Turns(0) == 0.0 && Turns(1) == 360.0;
    forall i | 0 <= i < |points|
      ensures xs[i] == points[i].lon + Turns(if points[i].lon < 0.0 then 1 else 0)
    {
      assert xs[i] == Shift(points[i].lon);
    }
    ReadingOnArc(points, xs, 1);
    assert FromPrime(Least(xs), Span(xs));
  }

  /** The two edges have to be told apart: with one of three points given at 180, an arc of
      200 degrees from -180 holds them all, and the window spans 240. */
  lemma EdgesAreToldApart(points: seq<Point>)
    requires |points| == 3
    requires points[0].lon == 180.0 && points[1].lon == -100.0 && points[2].lon == 20.0
    ensures OnArc(points, -180.0, 200.0) && !AcrossMap(points, -180.0, 200.0)
    ensures Around(points).value.Width() == 240.0
  {
    AllOnArc(points, -180.0, 200.0, [-1, 0, 0]);
    assert Given(points, 180.0) by { assert points[0].lon == 180.0; }
    SpanExactly(Lons(points), 1, 0);
    SpanExactly(Shifted(points), 2, 1);
  }

  // ------------------------------------------------------------------ wrap

  function Ceil(x: real): int { -((-x).Floor) }

  /** What the two loops of `wrap` leave of an angle. */
  function Wrapped(delta: real): real {
    if delta > 180.0 then delta - Turns(Ceil((delta - 180.0) / 360.0))
    else if delta < -180.0 then delta + Turns(Ceil((-180.0 - delta) / 360.0))
    else delta
  }

  lemma WrapsDown(delta: real)
    requires delta > 180.0
    ensures Wrapped(delta) == Wrapped(delta - 360.0)
  {
    var x := (delta - 180.0) / 360.0;
    assert (delta - 360.0 - 180.0) / 360.0 == x - 1.0;
    assert Ceil(x - 1.0) == Ceil(x) - 1;
  }

  lemma WrapsUp(delta: real)
    requires delta < -180.0
    ensures Wrapped(delta) == Wrapped(delta + 360.0)
  {
    var x := (-180.0 - delta) / 360.0;
    assert (-180.0 - (delta + 360.0)) / 360.0 == x - 1.0;
    assert Ceil(x - 1.0) == Ceil(x) - 1;
  }

  lemma WrappedIsCongruent(delta: real)
    ensures Congruent(Wrapped(delta), delta)
    ensures -180.0 <= Wrapped(delta) <= 180.0
  {
    var k := if delta > 180.0 then -Ceil((delta - 180.0) / 360.0)
             else if delta < -180.0 then Ceil((-180.0 - delta) / 360.0) else 0;
    assert Wrapped(delta) == delta + Turns(k);
  }

  /** "The short way round": no copy of the angle is smaller in magnitude. */
  lemma WrappedIsShortest(delta: real, other: real)
    requires Congruent(other, delta)
    ensures Abs(Wrapped(delta)) <= Abs(other)
  {
    WrappedIsCongruent(delta);
    var j: int :| other == delta + Turns(j);
    var k: int :| Wrapped(delta) == delta + Turns(k);
    assert other == Wrapped(delta) + Turns(j - k);
    if j - k >= 1 {
      assert Turns(j - k) >= 360.0;
    } else if j - k <= -1 {
      assert Turns(j - k) <= -360.0;
    }
  }

  datatype Projection =
    Projection(centreLon: real, centreLat: real, scale: real, width: real, height: real)

  /** The copy of a longitude nearest the centre, as an offset from it, for every real input. */
  method Wrap(p: Projection, lon: real) returns (delta: real)
    ensures delta == Wrapped(lon - p.centreLon)
    ensures -180.0 <= delta <= 180.0 && Congruent(delta, lon - p.centreLon)
    ensures forall k: int :: Abs(delta) <= Abs(lon - p.centreLon + Turns(k))
  {
    ghost var d := lon - p.centreLon;
    delta := lon - p.centreLon;
    while delta > 180.0
      invariant Wrapped(delta) == Wrapped(d)
      decreases delta
    {
      WrapsDown(delta);
      delta := delta - 360.0;
    }
    while delta < -180.0
      invariant delta <= 180.0 && Wrapped(delta) == Wrapped(d)
      decreases -delta
    {
      WrapsUp(delta);
      delta := delta + 360.0;
    }
    WrappedIsCongruent(d);
    forall k: int ensures Abs(delta) <= Abs(d + Turns(k)) {
      assert Congruent(d + Turns(k), d);
      WrappedIsShortest(d, d + Turns(k));
    }
  }

  // ------------------------------------------------------------ projection

  /** Whichever axis is short of room decides, so that nothing is stretched. */
  function Scale(bounds: Bounds, width: real, height: real): real {
    Min(width / Max(bounds.Width(), 1.0), height / Max(bounds.Height(), 1.0))
  }

  function Fit(bounds: Bounds, width: real, height: real, zoom: real): Projection {
    Projection(bounds.CentreLon(), bounds.CentreLat(), Scale(bounds, width, height) * zoom, width, height)
  }

  /** An offset from the middle of an axis, drawn to scale. */
  function Along(extent: real, offset: real, scale: real): real { extent / 2.0 + offset * scale }

  function Project(p: Projection, lon: real, lat: real): (real, real) {
    (Along(p.width, Wrapped(lon - p.centreLon), p.scale), Along(p.height, p.centreLat - lat, p.scale))
  }

  lemma Products(a: real, b: real, c: real)
    requires 0.0 <= a <= b && 0.0 <= c
    ensures 0.0 <= a * c <= b * c
  {
  }

  /** The scale never stretches a span beyond its extent. */
  lemma ScaleFits(span: real, extent: real, other: real, zoom: real)
    requires span >= 1.0 && extent >= 0.0 && other >= 0.0 && 0.0 < zoom <= 1.0
    ensures var s := Min(extent / span, other) * zoom;
            0.0 <= s && s * span <= extent
  {
    var q := extent / span;
    assert q >= 0.0 && q * span == extent;
    var s := Min(q, other) * zoom;
    Products(zoom, 1.0, Min(q, other));
    assert 0.0 <= s <= q;
    Products(s, q, span);
  }

  /** One axis: an offset of at most half the span, some times over, stays within half the
      extent so many times over. */
  lemma AxisFits(offset: real, span: real, extent: real, scale: real, margin: real)
    requires 0.0 <= scale && scale * span <= extent && 0.0 <= margin && margin * Abs(offset) <= span / 2.0
    ensures margin * Abs(Along(extent, offset, scale) - extent / 2.0) <= extent / 2.0
  {
    Products(margin * Abs(offset), span / 2.0, scale);
    assert span / 2.0 * scale == scale * span / 2.0;
    assert Abs(offset * scale) == Abs(offset) * scale;
    assert margin * (Abs(offset) * scale) == margin * Abs(offset) * scale;
  }

  // ------------------------------------------------------- which way is which

  lemma WrappedIsItself(d: real, turns: int)
    requires -180.0 < d < 180.0
    ensures Wrapped(d + Turns(turns)) == d
  {
    WrappedIsCongruent(d + Turns(turns));
    var k: int :| Wrapped(d + Turns(turns)) == d + Turns(turns) + Turns(k);
    assert Turns(turns) + Turns(k) == Turns(turns + k);
    assert turns + k >= 1 ==> Turns(turns + k) >= 360.0;
    assert turns + k <= -1 ==> Turns(turns + k) <= -360.0;
  }

  lemma FartherAlong(extent: real, a: real, b: real, scale: real)
    requires a < b && scale > 0.0
    ensures Along(extent, a, scale) < Along(extent, b, scale)
  {
  }

  lemma LongerAlong(extent: real, a: real, h: real, scale: real)
    ensures Along(extent, a + h, scale) - Along(extent, a, scale) == h * scale
  {
  }

  lemma MiddleAlong(extent: real, a: real, scale: real)
    requires a == 0.0
    ensures Along(extent, a, scale) == extent / 2.0
  {
  }

  lemma EdgesAlong(extent: real, span: real, half: real, scale: real)
    requires scale * span == extent && half == span / 2.0
    ensures Along(extent, half, scale) == extent && Along(extent, -half, scale) == 0.0
  {
    assert half * scale == scale * span / 2.0 && -half * scale == -(half * scale);
  }

  lemma ScaledAlong(extent: real, a: real, scale: real, zoom: real)
    ensures Along(extent, a, scale * zoom) - extent / 2.0 == zoom * (Along(extent, a, scale) - extent / 2.0)
  {
    assert a * (scale * zoom) == zoom * (a * scale);
  }

  /** North is up. */
  lemma NorthIsUp(p: Projection, lon: real, lat: real, lon': real, lat': real)
    requires p.scale > 0.0 && lat < lat'
    ensures Project(p, lon', lat').1 < Project(p, lon, lat).1
  {
    FartherAlong(p.height, p.centreLat - lat', p.centreLat - lat, p.scale);
  }

  /** East is right, as far as half a turn either way, in whatever turn the longitudes are
      given. */
  lemma EastIsRight(p: Projection, d: real, turns: int, lat: real, d': real, turns': int, lat': real)
    requires p.scale > 0.0 && -180.0 < d < d' < 180.0
    ensures Project(p, p.centreLon + d + Turns(turns), lat).0 < Project(p, p.centreLon + d' + Turns(turns'), lat').0
  {
    WrappedIsItself(d, turns);
    WrappedIsItself(d', turns');
    assert p.centreLon + d + Turns(turns) - p.centreLon == d + Turns(turns);
    assert p.centreLon + d' + Turns(turns') - p.centreLon == d' + Turns(turns');
    FartherAlong(p.width, d, d', p.scale);
  }

  /** The centre is drawn in the middle of the widget. */
  lemma CentreIsInTheMiddle(p: Projection, turns: int)
    ensures Project(p, p.centreLon + Turns(turns), p.centreLat) == (p.width / 2.0, p.height / 2.0)
  {
    var d := Wrapped(p.centreLon + Turns(turns) - p.centreLon);
    WrappedIsItself(0.0, turns);
    assert p.centreLon + Turns(turns) - p.centreLon == 0.0 + Turns(turns);
    MiddleAlong(p.width, d, p.scale);
    MiddleAlong(p.height, p.centreLat - p.centreLat, p.scale);
  }

  /** A stretch of as many degrees is as long eastwards, to the right, as it is northwards, up. */
  lemma DegreesAreAlike(p: Projection, d: real, lat: real, h: real)
    requires -180.0 < d < 180.0 && -180.0 < d + h < 180.0
    ensures Project(p, p.centreLon + d + h, lat).0 - Project(p, p.centreLon + d, lat).0
            == Project(p, p.centreLon + d, lat).1 - Project(p, p.centreLon + d, lat + h).1 == h * p.scale
  {
    assert Turns(0) == 0.0;
    WrappedIsItself(d, 0);
    WrappedIsItself(d + h, 0);
    assert p.centreLon + d - p.centreLon == d + Turns(0) && p.centreLon + d + h - p.centreLon == d + h + Turns(0);
    LongerAlong(p.width, d, h, p.scale);
    assert p.centreLat - lat == p.centreLat - (lat + h) + h;
    LongerAlong(p.height, p.centreLat - (lat + h), h, p.scale);
  }

  /** Zooming magnifies about the middle of the widget, and moves nothing else. */
  lemma ZoomMagnifies(w: Bounds, width: real, height: real, zoom: real, lon: real, lat: real)
    requires width >= 0.0 && height >= 0.0
    ensures var (x, y) := Project(Fit(w, width, height, 1.0), lon, lat);
            var (x', y') := Project(Fit(w, width, height, zoom), lon, lat);
            x' - width / 2.0 == zoom * (x - width / 2.0) && y' - height / 2.0 == zoom * (y - height / 2.0)
  {
    var p := Fit(w, width, height, 1.0);
    assert p.scale == Scale(w, width, height);
    ScaledProject(p, Fit(w, width, height, zoom), zoom, lon, lat);
  }

  lemma ScaledProject(p: Projection, q: Projection, zoom: real, lon: real, lat: real)
    requires q == p.(scale := p.scale * zoom)
    ensures var (x, y) := Project(p, lon, lat);
            var (x', y') := Project(q, lon, lat);
            x' - p.width / 2.0 == zoom * (x - p.width / 2.0) && y' - p.height / 2.0 == zoom * (y - p.height / 2.0)
  {
    ScaledAlong(p.width, Wrapped(lon - p.centreLon), p.scale, zoom);
    ScaledAlong(p.height, p.centreLat - lat, p.scale, zoom);
  }

  /** Unzoomed, one of the two spans fills its axis exactly. */
  lemma OneAxisIsFilled(w: Bounds, width: real, height: real)
    requires width >= 0.0 && height >= 0.0
    ensures var s := Fit(w, width, height, 1.0).scale;
            s * Max(w.Width(), 1.0) == width || s * Max(w.Height(), 1.0) == height
  {
    var lonSpan, latSpan := Max(w.Width(), 1.0), Max(w.Height(), 1.0);
    assert width / lonSpan * lonSpan == width && height / latSpan * latSpan == height;
  }

  /** So of a window of at least a degree each way, and at most a turn, two opposite edges are
      drawn along two edges of the widget: west on the left and east on the right, or north at
      the top and south at the bottom. */
  lemma EdgesMeetEdges(w: Bounds, width: real, height: real, lon: real, lat: real)
    requires width >= 0.0 && height >= 0.0 && 1.0 <= w.Width() <= 360.0 && 1.0 <= w.Height()
    ensures var p := Fit(w, width, height, 1.0);
            || (Project(p, w.lonMin, lat).0 == 0.0 && Project(p, w.lonMax, lat).0 == width)
            || (Project(p, lon, w.latMax).1 == 0.0 && Project(p, lon, w.latMin).1 == height)
  {
    var p := Fit(w, width, height, 1.0);
    OneAxisIsFilled(w, width, height);
    var across, down := w.Width() / 2.0, w.Height() / 2.0;
    if p.scale * w.Width() == width {
      EdgesAlong(width, w.Width(), across, p.scale);
      assert w.lonMax - w.CentreLon() == across == Wrapped(across);
      assert w.lonMin - w.CentreLon() == -across == Wrapped(-across);
    } else {
      EdgesAlong(height, w.Height(), down, p.scale);
      assert w.CentreLat() - w.latMin == down && w.CentreLat() - w.latMax == -down;
    }
  }

  /** The window keeps its centre when padded, and grows by the margin asked for, or to the
      least span, and by no more. */
  lemma PaddingKeeps(b: Bounds, fraction: real, minSpan: real)
    requires b.lonMin <= b.lonMax && b.latMin <= b.latMax && fraction >= 0.0
    ensures var p := b.Padded(fraction, minSpan);
            && p.CentreLon() == b.CentreLon() && p.CentreLat() == b.CentreLat()
            && p.Width() >= b.Width() + fraction * b.Width() && p.Width() >= minSpan
            && (p.Width() == b.Width() + fraction * b.Width() || p.Width() == minSpan)
            && p.Height() >= b.Height() + fraction * b.Height() && p.Height() >= minSpan / 2.0
            && (p.Height() == b.Height() + fraction * b.Height() || p.Height() == minSpan / 2.0)
  {
    assert b.Width() * (1.0 + fraction) == b.Width() + fraction * b.Width();
    assert b.Height() * (1.0 + fraction) == b.Height() + fraction * b.Height();
  }

  /** A longitude some copy of which lies within half a span of the centre is wrapped to
      within half a span of it. */
  lemma WrapStaysWithin(lon: real, centre: real, turns: int, half: real)
    requires Abs(lon + Turns(turns) - centre) <= half
    ensures Abs(Wrapped(lon - centre)) <= half
  {
    assert Congruent(lon + Turns(turns) - centre, lon - centre) by {
      assert lon + Turns(turns) - centre == lon - centre + Turns(turns);
    }
    WrappedIsShortest(lon - centre, lon + Turns(turns) - centre);
  }

  /** At the chosen scale neither span exceeds its extent. */
  lemma FitScale(w: Bounds, width: real, height: real, zoom: real)
    requires 0.0 < zoom <= 1.0 && width >= 0.0 && height >= 0.0
    ensures var s := Fit(w, width, height, zoom).scale;
            0.0 <= s && s * Max(w.Width(), 1.0) <= width && s * Max(w.Height(), 1.0) <= height
  {
    var lonSpan, latSpan := Max(w.Width(), 1.0), Max(w.Height(), 1.0);
    var across, down := width / lonSpan, height / latSpan;
    ScaleFits(lonSpan, width, down, zoom);
    ScaleFits(latSpan, height, across, zoom);
    assert Min(across, down) == Min(down, across);
  }

  /** So many times as far from the middle, a position is still in the widget. */
  ghost predicate WellInside(p: Projection, at: (real, real), margin: real) {
    margin * Abs(at.0 - p.width / 2.0) <= p.width / 2.0 && margin * Abs(at.1 - p.height / 2.0) <= p.height / 2.0
  }

  /** A projection shows every position within half its spans of its centre, and one that would
      be within them several times as far out so much farther inside. */
  lemma ProjectShows(p: Projection, lonSpan: real, latSpan: real, lon: real, lat: real, margin: real)
    requires 0.0 <= p.scale && p.scale * lonSpan <= p.width && p.scale * latSpan <= p.height && 0.0 <= margin
    requires margin * Abs(Wrapped(lon - p.centreLon)) <= lonSpan / 2.0
    requires margin * Abs(p.centreLat - lat) <= latSpan / 2.0
    ensures WellInside(p, Project(p, lon, lat), margin)
  {
    AxisFits(Wrapped(lon - p.centreLon), lonSpan, p.width, p.scale, margin);
    AxisFits(p.centreLat - lat, latSpan, p.height, p.scale, margin);
  }

  /** A framed point is within half the window's spans of its centre, once wrapped. */
  lemma FramedIsNearCentre(points: seq<Point>, i: nat)
    requires i < |points|
    ensures var b := Around(points).value;
            && b.lonMin <= b.lonMax && b.latMin <= b.latMax
            && Abs(Wrapped(points[i].lon - b.CentreLon())) <= b.Width() / 2.0
            && Abs(b.CentreLat() - points[i].lat) <= b.Height() / 2.0
  {
    var p, b := points[i], Around(points).value;
    FramesEveryPoint(points, i);
    WrapStaysWithin(p.lon, b.CentreLon(), if b.lonMin <= p.lon <= b.lonMax then 0 else 1, b.Width() / 2.0);
  }

  /** Fitting shows whatever is within half the spans of the window's centre. */
  lemma FitShows(w: Bounds, width: real, height: real, zoom: real, lon: real, lat: real, margin: real)
    requires 0.0 < zoom <= 1.0 && width >= 0.0 && height >= 0.0 && 0.0 <= margin
    requires margin * Abs(Wrapped(lon - w.CentreLon())) <= w.Width() / 2.0
    requires margin * Abs(w.CentreLat() - lat) <= w.Height() / 2.0
    ensures var p := Fit(w, width, height, zoom); WellInside(p, Project(p, lon, lat), margin)
  {
    FitScale(w, width, height, zoom);
    ProjectShows(Fit(w, width, height, zoom), Max(w.Width(), 1.0), Max(w.Height(), 1.0), lon, lat, margin);
  }

  lemma PaddedMargin(offset: real, span: real, padded: real, margin: real, fraction: real)
    requires 0.0 <= offset <= span / 2.0 && fraction >= 0.0 && span + fraction * span <= padded
    requires margin == 1.0 + fraction
    ensures margin * offset <= padded / 2.0
  {
    Products(offset, span / 2.0, margin);
    assert span / 2.0 * margin == (span + fraction * span) / 2.0;
  }

  /** Padding and fitting show whatever is within half the spans of the centre, with the margin
      around it. */
  lemma PaddedFitShows(b: Bounds, w: Bounds, fraction: real, margin: real, width: real, height: real, zoom: real,
                       lon: real, lat: real)
    requires b.lonMin <= b.lonMax && b.latMin <= b.latMax && fraction >= 0.0 && margin == 1.0 + fraction
    requires w.CentreLon() == b.CentreLon() && w.CentreLat() == b.CentreLat()
    requires b.Width() + fraction * b.Width() <= w.Width() && b.Height() + fraction * b.Height() <= w.Height()
    requires 0.0 < zoom <= 1.0 && width >= 0.0 && height >= 0.0
    requires Abs(Wrapped(lon - b.CentreLon())) <= b.Width() / 2.0
    requires Abs(b.CentreLat() - lat) <= b.Height() / 2.0
    ensures var p := Fit(w, width, height, zoom); WellInside(p, Project(p, lon, lat), margin)
  {
    var across, up := Abs(Wrapped(lon - b.CentreLon())), Abs(b.CentreLat() - lat);
    PaddedMargin(across, b.Width(), w.Width(), margin, fraction);
    PaddedMargin(up, b.Height(), w.Height(), margin, fraction);
    FitShows(w, width, height, zoom, lon, lat, margin);
  }

  lemma InsideAxis(x: real, extent: real, margin: real)
    requires margin >= 1.0 && margin * Abs(x - extent / 2.0) <= extent / 2.0
    ensures 0.0 <= x <= extent
    ensures margin > 1.0 && extent > 0.0 ==> 0.0 < x < extent
  {
    var off := Abs(x - extent / 2.0);
    Products(1.0, margin, off);
    assert off <= extent / 2.0;
    if margin > 1.0 && off > 0.0 {
      assert (margin - 1.0) * off > 0.0;
      assert margin * off == off + (margin - 1.0) * off;
    }
  }

  lemma InsideWidget(p: Projection, at: (real, real), margin: real)
    requires margin >= 1.0 && WellInside(p, at, margin)
    ensures 0.0 <= at.0 <= p.width && 0.0 <= at.1 <= p.height
    ensures margin > 1.0 && p.width > 0.0 && p.height > 0.0 ==> 0.0 < at.0 < p.width && 0.0 < at.1 < p.height
  {
    InsideAxis(at.0, p.width, margin);
    InsideAxis(at.1, p.height, margin);
  }

  /** Everything framed is on screen: the drawing pipeline puts every point inside the
      widget, across the antimeridian too, and with the margin asked for around it: so much
      farther from the middle it would still be inside. */
  lemma EverythingFramedIsOnScreen(points: seq<Point>, i: nat, fraction: real, minSpan: real,
                                   width: real, height: real, zoom: real)
    requires i < |points|
    requires fraction >= 0.0 && 0.0 < zoom <= 1.0 && width >= 0.0 && height >= 0.0
    ensures var p := Fit(Around(points).value.Padded(fraction, minSpan), width, height, zoom);
            var (x, y) := Project(p, points[i].lon, points[i].lat);
            && 0.0 <= x <= width && 0.0 <= y <= height && WellInside(p, (x, y), 1.0 + fraction)
            && (fraction > 0.0 && width > 0.0 && height > 0.0 ==> 0.0 < x < width && 0.0 < y < height)
  {
    var b, margin := Around(points).value, 1.0 + fraction;
    var w := b.Padded(fraction, minSpan);
    var p := Fit(w, width, height, zoom);
    FramedIsNearCentre(points, i);
    PaddingKeeps(b, fraction, minSpan);
    PaddedFitShows(b, w, fraction, margin, width, height, zoom, points[i].lon, points[i].lat);
    InsideWidget(p, Project(p, points[i].lon, points[i].lat), margin);
  }
}
