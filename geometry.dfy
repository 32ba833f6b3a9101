/**
 * The point-to-geometry distance visitor used by tile queries
 * (`detail::p2p_distance` and `path_to_point_distance`), and the
 * geometry type names reported by the JSON dump.
 *
 * Each visitor operator is an imperative method proved equal to a
 * specification function; the lemmas state what those functions mean.
 */
module Geometry {

  datatype Point = Point(x: real, y: real)

  /** A polygon: its exterior ring and its interior rings (holes). */
  datatype Polygon = Polygon(exterior: seq<Point>, interiors: seq<seq<Point>>)

  /** The decoded geometry of one feature, in projected coordinates. */
  datatype Geometry =
    | Empty
    | PointGeom(point: Point)
    | LineString(vertices: seq<Point>)
    | PolygonGeom(polygon: Polygon)
    | MultiPoint(points: seq<Point>)
    | MultiLineString(lines: seq<seq<Point>>)
    | MultiPolygon(polygons: seq<Polygon>)
    | Collection(members: seq<Geometry>)

  /** `p2p_result`: a distance (negative means "no hit") and the hit coordinates. */
  datatype Hit = Hit(distance: real, xHit: real, yHit: real)

  /** The value a fresh `p2p_result` starts with. */
  const NoHit: Hit := Hit(-1.0, 0.0, 0.0)

  /**
   * The numeric routines of the geometry library, left uninterpreted:
   * `distance(x0, y0, x1, y1)`, `segmentDistance(px, py, ax, ay, bx, by)`
   * (point to segment) and `crosses(ax, ay, bx, by, px, py)`, the
   * ray-crossing test of one ring edge.
   */
  datatype Metric = Metric(
    distance: (real, real, real, real) -> real,
    segmentDistance: (real, real, real, real, real, real) -> real,
    crosses: (real, real, real, real, real, real) -> bool)

  // ---------------------------------------------------------------------
  // Specification: the running-best reduction shared by every operator

  /** The update test of every loop in the visitor: `sub` replaces `best`. */
  predicate Improves(best: Hit, sub: Hit) {
    sub.distance >= 0.0 && (best.distance < 0.0 || sub.distance < best.distance)
  }

  function Keep(best: Hit, sub: Hit): Hit {
    if Improves(best, sub) then sub else best
  }

  /** The running best after visiting `hs` in order, starting from `NoHit`. */
  function Reduce(hs: seq<Hit>): Hit
    decreases |hs|
  {
    if hs == [] then NoHit else Keep(Reduce(hs[..|hs| - 1]), hs[|hs| - 1])
  }

  predicate NoneAccepted(hs: seq<Hit>) {
    forall j :: 0 <= j < |hs| ==> hs[j].distance < 0.0
  }

  /** `hs[k]` has the least non-negative distance, and no earlier entry ties it. */
  predicate IsFirstMinimum(hs: seq<Hit>, k: int) {
    && 0 <= k < |hs|
    && hs[k].distance >= 0.0
    && (forall j :: 0 <= j < |hs| && hs[j].distance >= 0.0 ==> hs[k].distance <= hs[j].distance)
    && (forall j :: 0 <= j < k && hs[j].distance >= 0.0 ==> hs[k].distance < hs[j].distance)
  }

  // ---------------------------------------------------------------------
  // Specification: one function per visitor operator

  function PointHit(m: Metric, p: Point, x: real, y: real): Hit {
    Hit(m.distance(p.x, p.y, x, y), p.x, p.y)
  }

  function PointHits(m: Metric, pts: seq<Point>, x: real, y: real): seq<Hit> {
    seq(|pts|, i requires 0 <= i < |pts| => PointHit(m, pts[i], x, y))
  }

  /** The candidate of segment `i`: its distance, hit at its start vertex. */
  function SegmentHit(m: Metric, pts: seq<Point>, i: nat, x: real, y: real): Hit
    requires i + 1 < |pts|
  {
    Hit(m.segmentDistance(x, y, pts[i].x, pts[i].y, pts[i + 1].x, pts[i + 1].y), pts[i].x, pts[i].y)
  }

  function SegmentHits(m: Metric, pts: seq<Point>, x: real, y: real): seq<Hit> {
    if |pts| < 2 then []
    else seq(|pts| - 1, i requires 0 <= i < |pts| - 1 => SegmentHit(m, pts, i, x, y))
  }

  function LineHit(m: Metric, pts: seq<Point>, x: real, y: real): Hit {
    Reduce(SegmentHits(m, pts, x, y))
  }

  function LineHits(m: Metric, lines: seq<seq<Point>>, x: real, y: real): seq<Hit> {
    seq(|lines|, i requires 0 <= i < |lines| => LineHit(m, lines[i], x, y))
  }

  function Crossing(m: Metric, a: Point, b: Point, x: real, y: real): bool {
    m.crosses(a.x, a.y, b.x, b.y, x, y)
  }

  /** Parity of the number of edges of `ring` whose crossing test fires. */
  function RingParity(m: Metric, ring: seq<Point>, x: real, y: real): bool
    decreases |ring|
  {
    if |ring| < 2 then false
    else RingParity(m, ring[..|ring| - 1], x, y) != Crossing(m, ring[|ring| - 2], ring[|ring| - 1], x, y)
  }

  /** Whether the interior rings, those with at least 4 points, flip the parity. */
  function InteriorToggles(m: Metric, rings: seq<seq<Point>>, x: real, y: real): bool
    decreases |rings|
  {
    if rings == [] then false
    else
      var ring := rings[|rings| - 1];
      InteriorToggles(m, rings[..|rings| - 1], x, y) != (|ring| >= 4 && RingParity(m, ring, x, y))
  }

  function PolygonHit(m: Metric, poly: Polygon, x: real, y: real): Hit {
    if |poly.exterior| < 4 || !RingParity(m, poly.exterior, x, y) then NoHit
    else if InteriorToggles(m, poly.interiors, x, y) then NoHit
    else Hit(0.0, 0.0, 0.0)
  }

  function PolygonHits(m: Metric, polys: seq<Polygon>, x: real, y: real): seq<Hit> {
    seq(|polys|, i requires 0 <= i < |polys| => PolygonHit(m, polys[i], x, y))
  }

  /** `path_to_point_distance`: the visitor applied to a whole geometry. */
  function DistanceTo(m: Metric, g: Geometry, x: real, y: real): Hit
    decreases g, 1
  {
    match g
    case Empty => NoHit
    case PointGeom(p) => PointHit(m, p, x, y)
    case LineString(pts) => LineHit(m, pts, x, y)
    case PolygonGeom(poly) => PolygonHit(m, poly, x, y)
    case MultiPoint(pts) => Reduce(PointHits(m, pts, x, y))
    case MultiLineString(lines) => Reduce(LineHits(m, lines, x, y))
    case MultiPolygon(polys) => Reduce(PolygonHits(m, polys, x, y))
    case Collection(gs) => Reduce(MemberHits(m, gs, x, y))
  }

  function MemberHits(m: Metric, gs: seq<Geometry>, x: real, y: real): seq<Hit>
    decreases gs, 0
  {
    seq(|gs|, i requires 0 <= i < |gs| => DistanceTo(m, gs[i], x, y))
  }

  /** The per-member results a multi-geometry or a collection reduces. */
  function Members(m: Metric, g: Geometry, x: real, y: real): seq<Hit> {
    match g
    case MultiPoint(pts) => PointHits(m, pts, x, y)
    case MultiLineString(lines) => LineHits(m, lines, x, y)
    case MultiPolygon(polys) => PolygonHits(m, polys, x, y)
    case Collection(gs) => MemberHits(m, gs, x, y)
    case _ => []
  }

  predicate IsMulti(g: Geometry) {
    g.MultiPoint? || g.MultiLineString? || g.MultiPolygon? || g.Collection?
  }

  // ---------------------------------------------------------------------
  // What the specification means

  /**
   * The reduction yields "no hit" exactly when no entry has a non-negative
   * distance; otherwise it yields the first entry of least distance.
   */
  lemma {:induction false} ReduceIsFirstMinimum(hs: seq<Hit>)
    ensures NoneAccepted(hs) ==> Reduce(hs) == NoHit
    ensures !NoneAccepted(hs) ==> exists k :: IsFirstMinimum(hs, k) && Reduce(hs) == hs[k]
    decreases |hs|
  {
    if hs != [] {
      var n := |hs| - 1;
      var prefix := hs[..n];
      assert forall j :: 0 <= j < n ==> prefix[j] == hs[j];
      ReduceIsFirstMinimum(prefix);
      if NoneAccepted(prefix) {
        if !NoneAccepted(hs) {
          assert hs[n].distance >= 0.0;
          assert IsFirstMinimum(hs, n);
        }
      } else {
        var k :| IsFirstMinimum(prefix, k) && Reduce(prefix) == prefix[k];
        if Improves(prefix[k], hs[n]) {
          assert IsFirstMinimum(hs, n);
        } else {
          assert IsFirstMinimum(hs, k);
        }
      }
    }
  }

  /**
   * A multi-point, multi-line-string, multi-polygon or collection gives -1
   * exactly when no member hits, and otherwise the result of the first member
   * attaining the least distance.
   */
  lemma MultiGeometryIsFirstMinimum(m: Metric, g: Geometry, x: real, y: real)
    requires IsMulti(g)
    ensures NoneAccepted(Members(m, g, x, y)) ==> DistanceTo(m, g, x, y) == NoHit
    ensures !NoneAccepted(Members(m, g, x, y)) ==>
      exists k :: IsFirstMinimum(Members(m, g, x, y), k) && DistanceTo(m, g, x, y) == Members(m, g, x, y)[k]
  {
    ReduceIsFirstMinimum(Members(m, g, x, y));
  }

  /**
   * A line string with fewer than two vertices gives -1; otherwise the
   * least non-negative segment distance, hit at the start vertex of the
   * first segment attaining it.
   */
  lemma LineStringIsFirstMinimalSegment(m: Metric, pts: seq<Point>, x: real, y: real)
    ensures |pts| < 2 ==> DistanceTo(m, LineString(pts), x, y) == NoHit
    ensures NoneAccepted(SegmentHits(m, pts, x, y)) ==> DistanceTo(m, LineString(pts), x, y) == NoHit
    ensures !NoneAccepted(SegmentHits(m, pts, x, y)) ==>
      exists k :: 0 <= k < |pts| - 1 && IsFirstMinimum(SegmentHits(m, pts, x, y), k) &&
        DistanceTo(m, LineString(pts), x, y) ==
          Hit(m.segmentDistance(x, y, pts[k].x, pts[k].y, pts[k + 1].x, pts[k + 1].y), pts[k].x, pts[k].y)
  {
    ReduceIsFirstMinimum(SegmentHits(m, pts, x, y));
  }

  /** The interior rings with at least 4 points, in order. */
  function LongRings(rings: seq<seq<Point>>): seq<seq<Point>>
    decreases |rings|
  {
    if rings == [] then []
    else
      var ring := rings[|rings| - 1];
      LongRings(rings[..|rings| - 1]) + (if |ring| >= 4 then [ring] else [])
  }

  /** Interior rings with fewer than 4 points do not affect the parity. */
  lemma {:induction false} ShortRingsIgnored(m: Metric, rings: seq<seq<Point>>, x: real, y: real)
    ensures InteriorToggles(m, rings, x, y) == InteriorToggles(m, LongRings(rings), x, y)
    decreases |rings|
  {
    if rings != [] {
      var n := |rings| - 1;
      ShortRingsIgnored(m, rings[..n], x, y);
      var ring := rings[n];
      if |ring| >= 4 {
        var long := LongRings(rings[..n]) + [ring];
        assert LongRings(rings) == long;
        assert long[..|long| - 1] == LongRings(rings[..n]);
      } else {
        assert LongRings(rings) == LongRings(rings[..n]) + [] == LongRings(rings[..n]);
        assert InteriorToggles(m, rings, x, y) == InteriorToggles(m, rings[..n], x, y);
      }
    }
  }

  /**
   * A polygon never reports hit coordinates; its distance is 0 exactly when
   * the exterior ring has at least 4 points, the exterior parity is odd, and
   * the parity over the exterior and every interior ring of at least 4 points
   * is odd; otherwise it is -1. With an even exterior parity the interior
   * rings are not consulted.
   */
  lemma PolygonIsParityTest(m: Metric, poly: Polygon, x: real, y: real)
    ensures DistanceTo(m, PolygonGeom(poly), x, y).xHit == 0.0
    ensures DistanceTo(m, PolygonGeom(poly), x, y).yHit == 0.0
    ensures DistanceTo(m, PolygonGeom(poly), x, y).distance in {0.0, -1.0}
    ensures DistanceTo(m, PolygonGeom(poly), x, y).distance == 0.0 <==>
      && |poly.exterior| >= 4
      && RingParity(m, poly.exterior, x, y)
      && (RingParity(m, poly.exterior, x, y) != InteriorToggles(m, LongRings(poly.interiors), x, y))
    ensures !RingParity(m, poly.exterior, x, y) ==> DistanceTo(m, PolygonGeom(poly), x, y) == NoHit
  {
    ShortRingsIgnored(m, poly.interiors, x, y);
  }

  // ---------------------------------------------------------------------
  // The visitor operators

  method VisitMultiPoint(m: Metric, pts: seq<Point>, x: real, y: real) returns (r: Hit)
    ensures r == DistanceTo(m, MultiPoint(pts), x, y)
  {
    ghost var hs := PointHits(m, pts, x, y);
    r := NoHit;
    var i := 0;
    while i < |pts|
      invariant 0 <= i <= |pts|
      invariant r == Reduce(hs[..i])
    {
      var sub := PointHit(m, pts[i], x, y);
      if sub.distance >= 0.0 && (r.distance < 0.0 || sub.distance < r.distance) {
        r := Hit(sub.distance, sub.xHit, sub.yHit);
      }
      assert hs[..i + 1][..i] == hs[..i];
      i := i + 1;
    }
    assert hs[..|pts|] == hs;
  }

  method VisitLineString(m: Metric, pts: seq<Point>, x: real, y: real) returns (r: Hit)
    ensures r == DistanceTo(m, LineString(pts), x, y)
  {
    r := NoHit;
    var n := |pts|;
    if n > 1 {
      ghost var hs := SegmentHits(m, pts, x, y);
      var i := 1;
      while i < n
        invariant 1 <= i <= n
        invariant r == Reduce(hs[..i - 1])
      {
        var p0 := pts[i - 1];
        var p1 := pts[i];
        var dist := m.segmentDistance(x, y, p0.x, p0.y, p1.x, p1.y);
        if dist >= 0.0 && (r.distance < 0.0 || dist < r.distance) {
          r := Hit(dist, p0.x, p0.y);
        }
        assert hs[..i][..i - 1] == hs[..i - 1];
        i := i + 1;
      }
      assert hs[..n - 1] == hs;
    }
  }

  method VisitMultiLineString(m: Metric, lines: seq<seq<Point>>, x: real, y: real) returns (r: Hit)
    ensures r == DistanceTo(m, MultiLineString(lines), x, y)
  {
    ghost var hs := LineHits(m, lines, x, y);
    r := NoHit;
    var i := 0;
    while i < |lines|
      invariant 0 <= i <= |lines|
      invariant r == Reduce(hs[..i])
    {
      var sub := VisitLineString(m, lines[i], x, y);
      assert sub == hs[i];
      if sub.distance >= 0.0 && (r.distance < 0.0 || sub.distance < r.distance) {
        r := Hit(sub.distance, sub.xHit, sub.yHit);
      }
      assert hs[..i + 1][..i] == hs[..i];
      i := i + 1;
    }
    assert hs[..|lines|] == hs;
  }

  /** Toggles `inside` once per edge of `ring` whose crossing test fires. */
  method ToggleCrossings(m: Metric, ring: seq<Point>, x: real, y: real, inside: bool) returns (out: bool)
    ensures out == (inside != RingParity(m, ring, x, y))
  {
    out := inside;
    if |ring| < 2 {
      return;
    }
    var i := 1;
    while i < |ring|
      invariant 1 <= i <= |ring|
      invariant out == (inside != RingParity(m, ring[..i], x, y))
    {
      var p0 := ring[i - 1];
      var p1 := ring[i];
      if m.crosses(p0.x, p0.y, p1.x, p1.y, x, y) {
        out := !out;
      }
      assert ring[..i + 1][..i] == ring[..i];
      i := i + 1;
    }
    assert ring[..|ring|] == ring;
  }

  method VisitPolygon(m: Metric, poly: Polygon, x: real, y: real) returns (r: Hit)
    ensures r == DistanceTo(m, PolygonGeom(poly), x, y)
  {
    var exterior := poly.exterior;
    r := NoHit;
    if |exterior| < 4 {
      return;
    }
    var inside := ToggleCrossings(m, exterior, x, y, false);
    if !inside {
      return;
    }
    var rings := poly.interiors;
    var k := 0;
    while k < |rings|
      invariant 0 <= k <= |rings|
      invariant inside == !InteriorToggles(m, rings[..k], x, y)
    {
      var ring := rings[k];
      assert rings[..k + 1][..k] == rings[..k];
      if |ring| < 4 {
        k := k + 1;
        continue;
      }
      inside := ToggleCrossings(m, ring, x, y, inside);
      k := k + 1;
    }
    assert rings[..|rings|] == rings;
    if inside {
      r := Hit(0.0, r.xHit, r.yHit);
    }
  }

  method VisitMultiPolygon(m: Metric, polys: seq<Polygon>, x: real, y: real) returns (r: Hit)
    ensures r == DistanceTo(m, MultiPolygon(polys), x, y)
  {
    ghost var hs := PolygonHits(m, polys, x, y);
    r := NoHit;
    var i := 0;
    while i < |polys|
      invariant 0 <= i <= |polys|
      invariant r == Reduce(hs[..i])
    {
      var sub := VisitPolygon(m, polys[i], x, y);
      if sub.distance >= 0.0 && (r.distance < 0.0 || sub.distance < r.distance) {
        r := Hit(sub.distance, sub.xHit, sub.yHit);
      }
      assert hs[..i + 1][..i] == hs[..i];
      i := i + 1;
    }
    assert hs[..|polys|] == hs;
  }

  method VisitCollection(m: Metric, gs: seq<Geometry>, x: real, y: real) returns (r: Hit)
    ensures r == Reduce(MemberHits(m, gs, x, y))
    decreases gs, 0
  {
    ghost var hs := MemberHits(m, gs, x, y);
    r := NoHit;
    var i := 0;
    while i < |gs|
      invariant 0 <= i <= |gs|
      invariant r == Reduce(hs[..i])
    {
      var sub := PathToPointDistance(m, gs[i], x, y);
      if sub.distance >= 0.0 && (r.distance < 0.0 || sub.distance < r.distance) {
        r := Hit(sub.distance, sub.xHit, sub.yHit);
      }
      assert hs[..i + 1][..i] == hs[..i];
      i := i + 1;
    }
    assert hs[..|gs|] == hs;
  }

  /** `path_to_point_distance`: dispatch on the kind of geometry. */
  method PathToPointDistance(m: Metric, g: Geometry, x: real, y: real) returns (r: Hit)
    ensures r == DistanceTo(m, g, x, y)
    decreases g, 1
  {
    match g
    case Empty => r := NoHit;
    case PointGeom(p) => r := Hit(m.distance(p.x, p.y, x, y), p.x, p.y);
    case LineString(pts) => r := VisitLineString(m, pts, x, y);
    case PolygonGeom(poly) => r := VisitPolygon(m, poly, x, y);
    case MultiPoint(pts) => r := VisitMultiPoint(m, pts, x, y);
    case MultiLineString(lines) => r := VisitMultiLineString(m, lines, x, y);
    case MultiPolygon(polys) => r := VisitMultiPolygon(m, polys, x, y);
    case Collection(gs) => r := VisitCollection(m, gs, x, y);
  }

  // ---------------------------------------------------------------------
  // geometry_type_name

  function GeometryTypeName(g: Geometry): string {
    match g
    case Empty => "Empty"
    case PointGeom(_) => "Point"
    case LineString(_) => "LineString"
    case PolygonGeom(_) => "Polygon"
    case MultiPoint(_) => "MultiPoint"
    case MultiLineString(_) => "MultiLineString"
    case MultiPolygon(_) => "MultiPolygon"
    case Collection(_) => "GeometryCollection"
  }

  /** Which of the eight kinds a geometry is. */
  function Kind(g: Geometry): nat {
    match g
    case Empty => 0
    case PointGeom(_) => 1
    case LineString(_) => 2
    case PolygonGeom(_) => 3
    case MultiPoint(_) => 4
    case MultiLineString(_) => 5
    case MultiPolygon(_) => 6
    case Collection(_) => 7
  }

  /** The type name identifies the kind of geometry, and nothing more. */
  lemma TypeNameIdentifiesKind(g1: Geometry, g2: Geometry)
    ensures GeometryTypeName(g1) == GeometryTypeName(g2) <==> Kind(g1) == Kind(g2)
  {
  }
}
