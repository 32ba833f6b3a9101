/**
 * Multi-point queries (`VectorTile::_queryMany` with `_queryManySort`).
 * The features of one layer are measured against every query point. A
 * feature that is within the tolerance of at least one point gets the next
 * dense index and is recorded under it; each point collects one hit per
 * such feature, and every point's hits are finally sorted by distance.
 */
module QueryMany {
  import opened Wrappers
  import opened Geometry
  import opened Sorting
  import opened Query

  /** `query_hit`: a distance and the index of the feature that was hit. */
  datatype QueryHit = QueryHit(distance: real, featureId: nat)

  /** A recorded feature and the name of its layer. */
  datatype MatchedFeature = MatchedFeature(layer: string, feature: Feature)

  /** `queryMany_result`: features by index, hit lists by query point index. */
  datatype ManyResult = ManyResult(features: map<nat, MatchedFeature>, hits: map<nat, seq<QueryHit>>)

  datatype QueryManyError =
    | LayerRequired   // no layer name was given
    | LayerNotFound   // the tile has no layer of that name

  function HitDistance(h: QueryHit): real { h.distance }

  /** The query points in the tile's projected space. */
  function Projected(proj: Projection, lonlats: seq<Point>): (pts: seq<Point>)
    ensures |pts| == |lonlats|
  {
    seq(|lonlats|, k requires 0 <= k < |lonlats| => proj.forward(lonlats[k].x, lonlats[k].y))
  }

  function PointDistance(m: Metric, f: Feature, pt: Point): real {
    DistanceTo(m, f.geometry, pt.x, pt.y).distance
  }

  /** Feature `f` is within the tolerance of some query point. */
  predicate HitsAny(m: Metric, f: Feature, pts: seq<Point>, tolerance: real) {
    exists p :: 0 <= p < |pts| && Accepted(PointDistance(m, f, pts[p]), tolerance)
  }

  /** The features that hit something, in stream order; a feature's index here is its id. */
  function Matched(m: Metric, fs: seq<Feature>, pts: seq<Point>, tolerance: real): seq<Feature>
    decreases |fs|
  {
    if fs == [] then []
    else
      var n := |fs| - 1;
      Matched(m, fs[..n], pts, tolerance) + (if HitsAny(m, fs[n], pts, tolerance) then [fs[n]] else [])
  }

  /** The hit, if any, that feature `f` with id `id` adds to point `p`. */
  function NewHit(m: Metric, f: Feature, pts: seq<Point>, tolerance: real, p: nat, id: nat): seq<QueryHit> {
    if p < |pts| && Accepted(PointDistance(m, f, pts[p]), tolerance)
    then [QueryHit(PointDistance(m, f, pts[p]), id)]
    else []
  }

  /** The hits of point `p`, in stream order, before sorting. */
  function PointHits(m: Metric, fs: seq<Feature>, pts: seq<Point>, tolerance: real, p: nat): seq<QueryHit>
    decreases |fs|
  {
    if fs == [] then []
    else
      var n := |fs| - 1;
      PointHits(m, fs[..n], pts, tolerance, p) + NewHit(m, fs[n], pts, tolerance, p, |Matched(m, fs[..n], pts, tolerance)|)
  }

  /** The feature table: ids `0 .. |matched| - 1`. */
  function Table(layer: string, matched: seq<Feature>): map<nat, MatchedFeature> {
    map k: nat | k < |matched| :: MatchedFeature(layer, matched[k])
  }

  /** What a successful `_queryMany` on the features `fs` of layer `layer` returns. */
  predicate Outcome(m: Metric, fs: seq<Feature>, layer: string, pts: seq<Point>, tolerance: real, res: ManyResult) {
    && res.features == Table(layer, Matched(m, fs, pts, tolerance))
    && (forall p :: p in res.hits ==> p < |pts|)
    && (forall p: nat :: p < |pts| ==> (p in res.hits <==> PointHits(m, fs, pts, tolerance, p) != []))
    && (forall p :: p in res.hits ==>
          SortedBy(res.hits[p], HitDistance) && multiset(res.hits[p]) == multiset(PointHits(m, fs, pts, tolerance, p)))
  }

  // ---------------------------------------------------------------------
  // Properties of the specification

  /** A feature is recorded exactly when it hits some point. */
  lemma {:induction false} MatchedExactly(m: Metric, fs: seq<Feature>, pts: seq<Point>, tolerance: real, f: Feature)
    ensures f in Matched(m, fs, pts, tolerance) <==> f in fs && HitsAny(m, f, pts, tolerance)
    decreases |fs|
  {
    if fs != [] {
      var n := |fs| - 1;
      MatchedExactly(m, fs[..n], pts, tolerance, f);
      assert fs == fs[..n] + [fs[n]];
    }
  }

  /**
   * Every hit names a recorded feature: its id is below the number of
   * recorded features, and that feature is at the hit's distance, which is
   * accepted.
   */
  lemma {:induction false} HitsReferToMatched(m: Metric, fs: seq<Feature>, pts: seq<Point>, tolerance: real, p: nat)
    requires p < |pts|
    ensures forall h :: h in PointHits(m, fs, pts, tolerance, p) ==>
      && h.featureId < |Matched(m, fs, pts, tolerance)|
      && h.distance == PointDistance(m, Matched(m, fs, pts, tolerance)[h.featureId], pts[p])
      && Accepted(h.distance, tolerance)
    decreases |fs|
  {
    if fs != [] {
      var n := |fs| - 1;
      HitsReferToMatched(m, fs[..n], pts, tolerance, p);
      var before := Matched(m, fs[..n], pts, tolerance);
      if Accepted(PointDistance(m, fs[n], pts[p]), tolerance) {
        assert HitsAny(m, fs[n], pts, tolerance);
        assert Matched(m, fs, pts, tolerance) == before + [fs[n]];
      }
    }
  }

  /**
   * A feature adds at most one hit per point: along the unsorted list the
   * feature ids strictly increase.
   */
  lemma {:induction false} OneHitPerFeature(m: Metric, fs: seq<Feature>, pts: seq<Point>, tolerance: real, p: nat)
    requires p < |pts|
    ensures forall i, j :: 0 <= i < j < |PointHits(m, fs, pts, tolerance, p)| ==>
      PointHits(m, fs, pts, tolerance, p)[i].featureId < PointHits(m, fs, pts, tolerance, p)[j].featureId
    decreases |fs|
  {
    if fs != [] {
      var n := |fs| - 1;
      OneHitPerFeature(m, fs[..n], pts, tolerance, p);
      HitsReferToMatched(m, fs[..n], pts, tolerance, p);
      var before := PointHits(m, fs[..n], pts, tolerance, p);
      forall i | 0 <= i < |before| ensures before[i].featureId < |Matched(m, fs[..n], pts, tolerance)| {
        assert before[i] in before;
      }
    }
  }

  /** A point has a hit list exactly when some feature is within the tolerance of it. */
  lemma {:induction false} PointHitsNonEmpty(m: Metric, fs: seq<Feature>, pts: seq<Point>, tolerance: real, p: nat)
    requires p < |pts|
    ensures PointHits(m, fs, pts, tolerance, p) != [] <==>
      exists f :: f in fs && Accepted(PointDistance(m, f, pts[p]), tolerance)
    decreases |fs|
  {
    if fs != [] {
      var n := |fs| - 1;
      PointHitsNonEmpty(m, fs[..n], pts, tolerance, p);
      assert fs == fs[..n] + [fs[n]];
    }
  }

  /** In a result, every hit's feature id is a key of the feature table, and no feature hits a point twice. */
  lemma OutcomeIsConsistent(m: Metric, fs: seq<Feature>, layer: string, pts: seq<Point>, tolerance: real, res: ManyResult)
    requires Outcome(m, fs, layer, pts, tolerance, res)
    ensures forall p, h :: p in res.hits && h in res.hits[p] ==> h.featureId in res.features && Accepted(h.distance, tolerance)
    ensures forall p, h :: p in res.hits && h in res.hits[p] ==> multiset(res.hits[p])[h] == 1
  {
    forall p, h | p in res.hits && h in res.hits[p]
      ensures h.featureId in res.features && Accepted(h.distance, tolerance)
      ensures multiset(res.hits[p])[h] == 1
    {
      var ph := PointHits(m, fs, pts, tolerance, p);
      assert h in multiset(res.hits[p]);
      assert h in ph;
      HitsReferToMatched(m, fs, pts, tolerance, p);
      OneHitPerFeature(m, fs, pts, tolerance, p);
      DistinctIdsOccurOnce(ph, h);
    }
  }

  /** In a list whose ids strictly increase, each element occurs once. */
  lemma {:induction false} DistinctIdsOccurOnce(hs: seq<QueryHit>, h: QueryHit)
    requires forall i, j :: 0 <= i < j < |hs| ==> hs[i].featureId < hs[j].featureId
    requires h in hs
    ensures multiset(hs)[h] == 1
    decreases |hs|
  {
    var n := |hs| - 1;
    assert hs == hs[..n] + [hs[n]];
    if h == hs[n] {
      assert h !in hs[..n] by {
        forall i | 0 <= i < n ensures hs[..n][i] != h {
          assert hs[i].featureId < hs[n].featureId;
        }
      }
    } else {
      assert h in hs[..n];
      DistinctIdsOccurOnce(hs[..n], h);
    }
  }

  // ---------------------------------------------------------------------
  // The query

  /**
   * The inner loop over the query points for one feature, which gets id
   * `idx` if it hits anything: it records the feature (an insert that keeps
   * an existing entry) and appends one hit to each point it is near.
   */
  method ScanFeature(m: Metric, f: Feature, layer: string, pts: seq<Point>, tolerance: real, idx: nat,
                     features: map<nat, MatchedFeature>, hits: map<nat, seq<QueryHit>>)
    returns (features': map<nat, MatchedFeature>, hits': map<nat, seq<QueryHit>>, hasHit: bool)
    ensures hasHit <==> HitsAny(m, f, pts, tolerance)
    ensures features' == if hasHit && idx !in features then features[idx := MatchedFeature(layer, f)] else features
    ensures forall q :: q in hits' <==> q in hits || (0 <= q < |pts| && Accepted(PointDistance(m, f, pts[q]), tolerance))
    ensures forall q: nat :: q in hits' ==> hits'[q] == HitsOf(hits, q) + NewHit(m, f, pts, tolerance, q, idx)
  {
    ghost var ds := seq(|pts|, q requires 0 <= q < |pts| => PointDistance(m, f, pts[q]));
    features', hits', hasHit := ScanPoints(m, f, layer, pts, tolerance, idx, features, hits, ds);
    ScanDone(m, f, layer, pts, tolerance, idx, features, hits, ds, features', hits', hasHit);
  }

  /** `ds` lists the distances from feature `f` to the query points. */
  ghost predicate DistancesOf(m: Metric, f: Feature, pts: seq<Point>, ds: seq<real>) {
    && |ds| == |pts|
    && forall q {:trigger PointDistance(m, f, pts[q])} :: 0 <= q < |pts| ==> ds[q] == PointDistance(m, f, pts[q])
  }

  /** The hit, if any, that point `q` records for feature id `idx`, given the distances `ds`. */
  function HitAt(ds: seq<real>, tolerance: real, q: nat, idx: nat): seq<QueryHit> {
    if q < |ds| && Accepted(ds[q], tolerance) then [QueryHit(ds[q], idx)] else []
  }

  /**
   * Where the inner loop stands after visiting the first `p` points, whose
   * distances from the feature are `ds`.
   */
  ghost predicate ScanState(ds: seq<real>, f: Feature, layer: string, tolerance: real, p: nat, idx: nat,
                            features: map<nat, MatchedFeature>, hits: map<nat, seq<QueryHit>>,
                            cur: map<nat, MatchedFeature>, curHits: map<nat, seq<QueryHit>>, hasHit: bool)
    requires p <= |ds|
  {
    && (hasHit <==> exists q :: 0 <= q < p && Accepted(ds[q], tolerance))
    && cur == (if hasHit && idx !in features then features[idx := MatchedFeature(layer, f)] else features)
    && (forall q :: q in curHits <==> q in hits || (0 <= q < p && Accepted(ds[q], tolerance)))
    && (forall q: nat :: q in curHits ==> curHits[q] == HitsOf(hits, q) + (if q < p then HitAt(ds, tolerance, q, idx) else []))
  }

  /** The loop of `ScanFeature` itself, visiting the points in order. */
  method ScanPoints(m: Metric, f: Feature, layer: string, pts: seq<Point>, tolerance: real, idx: nat,
                    features: map<nat, MatchedFeature>, hits: map<nat, seq<QueryHit>>, ghost ds: seq<real>)
    returns (features': map<nat, MatchedFeature>, hits': map<nat, seq<QueryHit>>, hasHit: bool)
    requires DistancesOf(m, f, pts, ds)
    ensures ScanState(ds, f, layer, tolerance, |pts|, idx, features, hits, features', hits', hasHit)
  {
    features', hits', hasHit := features, hits, false;
    var p := 0;
    while p < |pts|
      invariant 0 <= p <= |pts|
      invariant ScanState(ds, f, layer, tolerance, p, idx, features, hits, features', hits', hasHit)
    {
      features', hits', hasHit := VisitPoint(m, f, layer, pts, tolerance, idx, p, features, hits, ds, features', hits', hasHit);
      p := p + 1;
    }
  }

  lemma ScanDone(m: Metric, f: Feature, layer: string, pts: seq<Point>, tolerance: real, idx: nat,
                 features: map<nat, MatchedFeature>, hits: map<nat, seq<QueryHit>>, ds: seq<real>,
                 cur: map<nat, MatchedFeature>, curHits: map<nat, seq<QueryHit>>, hasHit: bool)
    requires DistancesOf(m, f, pts, ds)
    requires ScanState(ds, f, layer, tolerance, |pts|, idx, features, hits, cur, curHits, hasHit)
    ensures hasHit <==> HitsAny(m, f, pts, tolerance)
    ensures cur == if hasHit && idx !in features then features[idx := MatchedFeature(layer, f)] else features
    ensures forall q :: q in curHits <==> q in hits || (0 <= q < |pts| && Accepted(PointDistance(m, f, pts[q]), tolerance))
    ensures forall q: nat :: q in curHits ==> curHits[q] == HitsOf(hits, q) + NewHit(m, f, pts, tolerance, q, idx)
  {
    if hasHit {
      var q :| 0 <= q < |pts| && Accepted(ds[q], tolerance);
      assert ds[q] == PointDistance(m, f, pts[q]);
    }
    if HitsAny(m, f, pts, tolerance) {
      var q :| 0 <= q < |pts| && Accepted(PointDistance(m, f, pts[q]), tolerance);
      assert Accepted(ds[q], tolerance);
    }
  }

  /** One turn of the inner loop: measures point `p` and records the hit if it is near enough. */
  method VisitPoint(m: Metric, f: Feature, layer: string, pts: seq<Point>, tolerance: real, idx: nat, p: nat,
                    features: map<nat, MatchedFeature>, hits: map<nat, seq<QueryHit>>, ghost ds: seq<real>,
                    features': map<nat, MatchedFeature>, hits': map<nat, seq<QueryHit>>, hasHit: bool)
    returns (features'': map<nat, MatchedFeature>, hits'': map<nat, seq<QueryHit>>, hasHit': bool)
    requires p < |pts|
    requires DistancesOf(m, f, pts, ds)
    requires ScanState(ds, f, layer, tolerance, p, idx, features, hits, features', hits', hasHit)
    ensures ScanState(ds, f, layer, tolerance, p + 1, idx, features, hits, features'', hits'', hasHit')
  {
    var distance := Measure(m, f, pts, p, ds);
    var hit := distance >= 0.0 && distance <= tolerance;
    features'', hits'', hasHit' := features', hits', hasHit;
    if hit {
      hasHit' := true;
      if idx !in features'' {
        features'' := features''[idx := MatchedFeature(layer, f)];
      }
      hits'' := Append(hits'', p, QueryHit(distance, idx));
    }
    ScanStep(ds, f, layer, tolerance, p, idx, features, hits, features', hits', hasHit, features'', hits'', hit);
  }

  /** One turn of the inner loop keeps its invariant. */
  lemma ScanStep(ds: seq<real>, f: Feature, layer: string, tolerance: real, p: nat, idx: nat,
                 features: map<nat, MatchedFeature>, hits: map<nat, seq<QueryHit>>,
                 cur: map<nat, MatchedFeature>, curHits: map<nat, seq<QueryHit>>, hasHit: bool,
                 next: map<nat, MatchedFeature>, nextHits: map<nat, seq<QueryHit>>, hit: bool)
    requires p < |ds|
    requires ScanState(ds, f, layer, tolerance, p, idx, features, hits, cur, curHits, hasHit)
    requires hit <==> Accepted(ds[p], tolerance)
    requires next == if hit && idx !in cur then cur[idx := MatchedFeature(layer, f)] else cur
    requires hit ==> nextHits.Keys == curHits.Keys + {p}
    requires hit ==> nextHits[p] == HitsOf(curHits, p) + [QueryHit(ds[p], idx)]
    requires hit ==> forall q :: q in curHits && q != p ==> nextHits[q] == curHits[q]
    requires !hit ==> nextHits == curHits
    ensures ScanState(ds, f, layer, tolerance, p + 1, idx, features, hits, next, nextHits, hasHit || hit)
  {
    assert hasHit || hit <==> exists q :: 0 <= q < p + 1 && Accepted(ds[q], tolerance) by {
      if hit {
        assert 0 <= p < p + 1 && Accepted(ds[p], tolerance);
      }
    }
    forall q: nat | q in nextHits
      ensures nextHits[q] == HitsOf(hits, q) + (if q < p + 1 then HitAt(ds, tolerance, q, idx) else [])
    {
      if q == p && !hit {
        assert HitAt(ds, tolerance, q, idx) == [];
      }
    }
  }

  /** `path_to_point_distance` from feature `f` to query point `p`. */
  method Measure(m: Metric, f: Feature, pts: seq<Point>, p: nat, ghost ds: seq<real>) returns (distance: real)
    requires p < |pts|
    requires DistancesOf(m, f, pts, ds)
    ensures distance == ds[p]
  {
    var p2p := PathToPointDistance(m, f.geometry, pts[p].x, pts[p].y);
    distance := p2p.distance;
    assert distance == PointDistance(m, f, pts[p]);
  }

  /** The hits recorded so far for point `q`. */
  function HitsOf(hits: map<nat, seq<QueryHit>>, q: nat): seq<QueryHit> {
    if q in hits then hits[q] else []
  }

  /** Appends `hit` to the list of point `p`, creating the list when it is missing. */
  method Append(hits: map<nat, seq<QueryHit>>, p: nat, hit: QueryHit) returns (hits': map<nat, seq<QueryHit>>)
    ensures hits'.Keys == hits.Keys + {p}
    ensures hits'[p] == HitsOf(hits, p) + [hit]
    ensures forall q :: q in hits && q != p ==> hits'[q] == hits[q]
  {
    if p in hits {
      hits' := hits[p := hits[p] + [hit]];
    } else {
      hits' := hits[p := [hit]];
    }
  }

  /** The feature table after the first `i` features, with `idx` the next id. */
  ghost predicate FeaturesInv(m: Metric, fs: seq<Feature>, layer: string, pts: seq<Point>, tolerance: real, i: nat,
                              idx: nat, features: map<nat, MatchedFeature>)
    requires i <= |fs|
  {
    && idx == |Matched(m, fs[..i], pts, tolerance)|
    && features == Table(layer, Matched(m, fs[..i], pts, tolerance))
  }

  /** The hit lists after the first `i` features. */
  ghost predicate HitsInv(m: Metric, fs: seq<Feature>, pts: seq<Point>, tolerance: real, i: nat, hits: map<nat, seq<QueryHit>>)
    requires i <= |fs|
  {
    && (forall p :: p in hits ==> p < |pts|)
    && (forall p: nat :: p < |pts| ==> (p in hits <==> PointHits(m, fs[..i], pts, tolerance, p) != []))
    && (forall p: nat :: p in hits ==> hits[p] == PointHits(m, fs[..i], pts, tolerance, p))
  }

  /** Measures the feature stream against the projected points (before sorting). */
  method Collect(m: Metric, fs: seq<Feature>, layer: string, pts: seq<Point>, tolerance: real)
    returns (features: map<nat, MatchedFeature>, hits: map<nat, seq<QueryHit>>)
    ensures features == Table(layer, Matched(m, fs, pts, tolerance))
    ensures forall p :: p in hits ==> p < |pts|
    ensures forall p: nat :: p < |pts| ==> (p in hits <==> PointHits(m, fs, pts, tolerance, p) != [])
    ensures forall p: nat :: p in hits ==> hits[p] == PointHits(m, fs, pts, tolerance, p)
  {
    features, hits := map[], map[];
    var idx: nat := 0;
    var i := 0;
    CollectStart(m, fs, layer, pts, tolerance);
    while i < |fs|
      invariant 0 <= i <= |fs|
      invariant FeaturesInv(m, fs, layer, pts, tolerance, i, idx, features)
      invariant HitsInv(m, fs, pts, tolerance, i, hits)
    {
      idx, features, hits := VisitFeature(m, fs, layer, pts, tolerance, i, idx, features, hits);
      i := i + 1;
    }
    CollectDone(m, fs, layer, pts, tolerance, idx, features, hits);
  }

  lemma CollectStart(m: Metric, fs: seq<Feature>, layer: string, pts: seq<Point>, tolerance: real)
    ensures FeaturesInv(m, fs, layer, pts, tolerance, 0, 0, map[])
    ensures HitsInv(m, fs, pts, tolerance, 0, map[])
  {
    assert fs[..0] == [];
  }

  lemma CollectDone(m: Metric, fs: seq<Feature>, layer: string, pts: seq<Point>, tolerance: real, idx: nat,
                    features: map<nat, MatchedFeature>, hits: map<nat, seq<QueryHit>>)
    requires FeaturesInv(m, fs, layer, pts, tolerance, |fs|, idx, features)
    requires HitsInv(m, fs, pts, tolerance, |fs|, hits)
    ensures features == Table(layer, Matched(m, fs, pts, tolerance))
    ensures forall p :: p in hits ==> p < |pts|
    ensures forall p: nat :: p < |pts| ==> (p in hits <==> PointHits(m, fs, pts, tolerance, p) != [])
    ensures forall p: nat :: p in hits ==> hits[p] == PointHits(m, fs, pts, tolerance, p)
  {
    assert fs[..|fs|] == fs;
  }

  /** One turn of the feature loop: measures feature `i` against every point. */
  method VisitFeature(m: Metric, fs: seq<Feature>, layer: string, pts: seq<Point>, tolerance: real, i: nat, idx: nat,
                      features: map<nat, MatchedFeature>, hits: map<nat, seq<QueryHit>>)
    returns (idx': nat, features': map<nat, MatchedFeature>, hits': map<nat, seq<QueryHit>>)
    requires i < |fs|
    requires FeaturesInv(m, fs, layer, pts, tolerance, i, idx, features)
    requires HitsInv(m, fs, pts, tolerance, i, hits)
    ensures FeaturesInv(m, fs, layer, pts, tolerance, i + 1, idx', features')
    ensures HitsInv(m, fs, pts, tolerance, i + 1, hits')
  {
    var hasHit;
    features', hits', hasHit := ScanFeature(m, fs[i], layer, pts, tolerance, idx, features, hits);
    FeaturesAdvance(m, fs, layer, pts, tolerance, i, idx, features, features', hasHit);
    HitsAdvance(m, fs, pts, tolerance, i, idx, hits, hits');
    idx' := if hasHit then idx + 1 else idx;
  }

  /** One turn of the feature loop keeps the feature table's invariant. */
  lemma FeaturesAdvance(m: Metric, fs: seq<Feature>, layer: string, pts: seq<Point>, tolerance: real, i: nat,
                        idx: nat, features: map<nat, MatchedFeature>, features': map<nat, MatchedFeature>, hasHit: bool)
    requires i < |fs|
    requires FeaturesInv(m, fs, layer, pts, tolerance, i, idx, features)
    requires hasHit <==> HitsAny(m, fs[i], pts, tolerance)
    requires features' == if hasHit && idx !in features then features[idx := MatchedFeature(layer, fs[i])] else features
    ensures FeaturesInv(m, fs, layer, pts, tolerance, i + 1, if hasHit then idx + 1 else idx, features')
  {
    var before := Matched(m, fs[..i], pts, tolerance);
    assert fs[..i + 1][..i] == fs[..i];
    assert Matched(m, fs[..i + 1], pts, tolerance) == before + (if hasHit then [fs[i]] else []);
    if hasHit {
      assert idx !in features;
      TableExtend(layer, before, fs[i]);
    }
  }

  /** One turn of the feature loop keeps the hit lists' invariant. */
  lemma HitsAdvance(m: Metric, fs: seq<Feature>, pts: seq<Point>, tolerance: real, i: nat, idx: nat,
                    hits: map<nat, seq<QueryHit>>, hits': map<nat, seq<QueryHit>>)
    requires i < |fs|
    requires idx == |Matched(m, fs[..i], pts, tolerance)|
    requires HitsInv(m, fs, pts, tolerance, i, hits)
    requires forall q :: q in hits' <==> q in hits || (0 <= q < |pts| && Accepted(PointDistance(m, fs[i], pts[q]), tolerance))
    requires forall q: nat :: q in hits' ==> hits'[q] == HitsOf(hits, q) + NewHit(m, fs[i], pts, tolerance, q, idx)
    ensures HitsInv(m, fs, pts, tolerance, i + 1, hits')
  {
    HitKeysStep(m, fs, pts, tolerance, i, hits, hits');
    HitListsStep(m, fs, pts, tolerance, i, hits, hits');
  }

  lemma CollectStep(m: Metric, fs: seq<Feature>, pts: seq<Point>, tolerance: real, i: nat)
    requires i < |fs|
    ensures Matched(m, fs[..i + 1], pts, tolerance) ==
      Matched(m, fs[..i], pts, tolerance) + (if HitsAny(m, fs[i], pts, tolerance) then [fs[i]] else [])
    ensures forall p: nat ::
      PointHits(m, fs[..i + 1], pts, tolerance, p) ==
      PointHits(m, fs[..i], pts, tolerance, p) + NewHit(m, fs[i], pts, tolerance, p, |Matched(m, fs[..i], pts, tolerance)|)
  {
    assert fs[..i + 1][..i] == fs[..i];
  }

  lemma HitKeysStep(m: Metric, fs: seq<Feature>, pts: seq<Point>, tolerance: real, i: nat,
                    oldHits: map<nat, seq<QueryHit>>, hits: map<nat, seq<QueryHit>>)
    requires i < |fs|
    requires forall p: nat :: p < |pts| ==> (p in oldHits <==> PointHits(m, fs[..i], pts, tolerance, p) != [])
    requires forall q :: q in hits <==> q in oldHits || (0 <= q < |pts| && Accepted(PointDistance(m, fs[i], pts[q]), tolerance))
    ensures forall p: nat :: p < |pts| ==> (p in hits <==> PointHits(m, fs[..i + 1], pts, tolerance, p) != [])
  {
    CollectStep(m, fs, pts, tolerance, i);
  }

  lemma HitListsStep(m: Metric, fs: seq<Feature>, pts: seq<Point>, tolerance: real, i: nat,
                     oldHits: map<nat, seq<QueryHit>>, hits: map<nat, seq<QueryHit>>)
    requires i < |fs|
    requires forall p: nat :: p < |pts| ==> (p in oldHits <==> PointHits(m, fs[..i], pts, tolerance, p) != [])
    requires forall p: nat :: p in oldHits ==> oldHits[p] == PointHits(m, fs[..i], pts, tolerance, p)
    requires forall q :: q in hits <==> q in oldHits || (0 <= q < |pts| && Accepted(PointDistance(m, fs[i], pts[q]), tolerance))
    requires forall q: nat :: q in hits ==>
      hits[q] == HitsOf(oldHits, q) + NewHit(m, fs[i], pts, tolerance, q, |Matched(m, fs[..i], pts, tolerance)|)
    ensures forall p: nat :: p in hits ==> hits[p] == PointHits(m, fs[..i + 1], pts, tolerance, p)
  {
    CollectStep(m, fs, pts, tolerance, i);
    forall p: nat | p in hits
      ensures hits[p] == PointHits(m, fs[..i + 1], pts, tolerance, p)
    {
      if p !in oldHits {
        assert PointHits(m, fs[..i], pts, tolerance, p) == [];
      }
    }
  }

  lemma TableExtend(layer: string, matched: seq<Feature>, f: Feature)
    ensures Table(layer, matched + [f]) == Table(layer, matched)[|matched| := MatchedFeature(layer, f)]
  {
  }

  /** `_queryManySort` applied to every point's list, visiting the points in index order. */
  method SortHits(hits: map<nat, seq<QueryHit>>, count: nat) returns (sorted: map<nat, seq<QueryHit>>)
    requires forall p :: p in hits ==> p < count
    ensures sorted.Keys == hits.Keys
    ensures forall p :: p in sorted ==>
      SortedBy(sorted[p], HitDistance) && multiset(sorted[p]) == multiset(hits[p])
  {
    sorted := hits;
    var p: nat := 0;
    while p < count
      invariant p <= count
      invariant sorted.Keys == hits.Keys
      invariant forall q :: q in sorted && q < p ==>
        SortedBy(sorted[q], HitDistance) && multiset(sorted[q]) == multiset(hits[q])
      invariant forall q :: q in sorted && q >= p ==> sorted[q] == hits[q]
    {
      if p in sorted {
        var s := SortSeq(sorted[p], HitDistance);
        sorted := sorted[p := s];
      }
      p := p + 1;
    }
  }

  /**
   * `_queryMany` behind the `queryMany` binding: a layer name is required
   * and must name a layer of the tile; the query points are reprojected,
   * measured against that layer's features, and each point's hits sorted.
   */
  method RunQueryMany(m: Metric, proj: Projection, tile: Tile, lonlats: seq<Point>, tolerance: real, layerName: string)
    returns (r: Result<ManyResult, QueryManyError>)
    ensures layerName == "" ==> r == Failure(LayerRequired)
    ensures layerName != "" && FindLayer(tile.layers, layerName).None? ==> r == Failure(LayerNotFound)
    ensures layerName != "" && FindLayer(tile.layers, layerName).Some? ==>
      r.Success? && Outcome(m, FindLayer(tile.layers, layerName).value.features, layerName,
                            Projected(proj, lonlats), tolerance, r.value)
  {
    if layerName == "" {
      return Failure(LayerRequired);
    }
    var found := FindLayer(tile.layers, layerName);
    if found.None? {
      return Failure(LayerNotFound);
    }
    var pts: seq<Point> := [];
    var k := 0;
    while k < |lonlats|
      invariant 0 <= k <= |lonlats|
      invariant pts == Projected(proj, lonlats[..k])
    {
      pts := pts + [proj.forward(lonlats[k].x, lonlats[k].y)];
      k := k + 1;
    }
    assert lonlats[..|lonlats|] == lonlats;
    var features, hits := Collect(m, found.value.features, layerName, pts, tolerance);
    var sorted := SortHits(hits, |pts|);
    r := Success(ManyResult(features, sorted));
  }
}
