/**
 * Single-point queries (`VectorTile::_query` with `_querySort`): every
 * feature of one named layer, or of all layers, is measured against the
 * query point; hits within the tolerance are kept and ordered by distance.
 *
 * The protobuf layer and feature readers are replaced by their output: a
 * tile is the sequence of its layers, a layer the sequence of its decoded
 * features.
 */
module Query {
  import opened Wrappers
  import opened Geometry
  import opened Sorting

  datatype Feature = Feature(id: nat, geometry: Geometry)

  datatype Layer = Layer(name: string, features: seq<Feature>)

  datatype Tile = Tile(layers: seq<Layer>)

  /**
   * Reprojection between longitude/latitude and the tile's projected
   * space, left uninterpreted; it cannot fail in the source.
   */
  datatype Projection = Projection(forward: (real, real) -> Point, backward: (real, real) -> Point)

  /** `query_result`: the feature, its layer, the distance and the hit in longitude/latitude. */
  datatype QueryResult = QueryResult(layer: string, feature: Feature, distance: real, xHit: real, yHit: real)

  function Distance(r: QueryResult): real { r.distance }

  /** No layer holds a feature. */
  predicate IsEmpty(t: Tile) {
    forall i :: 0 <= i < |t.layers| ==> t.layers[i].features == []
  }

  /** The kept hits: a non-negative distance within the tolerance. */
  predicate Accepted(d: real, tolerance: real) {
    0.0 <= d <= tolerance
  }

  /** The first layer of the given name, as the layer reader finds it. */
  function FindLayer(layers: seq<Layer>, name: string): (r: Option<Layer>)
    ensures r.Some? ==> r.value in layers && r.value.name == name
    ensures r.None? ==> forall l :: l in layers ==> l.name != name
    ensures r.Some? ==> exists i :: 0 <= i < |layers| && layers[i] == r.value && forall j :: 0 <= j < i ==> layers[j].name != name
  {
    if layers == [] then None
    else if layers[0].name == name then Some(layers[0])
    else
      var r := FindLayer(layers[1..], name);
      assert r.Some? ==> exists i :: 0 <= i < |layers| && layers[i] == r.value && forall j :: 0 <= j < i ==> layers[j].name != name by {
        if r.Some? {
          var i :| 0 <= i < |layers| - 1 && layers[1..][i] == r.value && forall j :: 0 <= j < i ==> layers[1..][j].name != name;
          assert layers[i + 1] == r.value && forall j :: 0 <= j < i + 1 ==> layers[j].name != name;
        }
      }
      r
  }

  /** The result recorded for feature `f`, its hit reprojected back. */
  function ResultFor(m: Metric, proj: Projection, layer: string, f: Feature, pt: Point): QueryResult {
    var h := DistanceTo(m, f.geometry, pt.x, pt.y);
    var back := proj.backward(h.xHit, h.yHit);
    QueryResult(layer, f, h.distance, back.x, back.y)
  }

  /** The results one layer contributes, in feature order. */
  function LayerHits(m: Metric, proj: Projection, layer: string, features: seq<Feature>, pt: Point, tolerance: real): seq<QueryResult>
    decreases |features|
  {
    if features == [] then []
    else
      var f := features[|features| - 1];
      var r := ResultFor(m, proj, layer, f, pt);
      LayerHits(m, proj, layer, features[..|features| - 1], pt, tolerance) +
        (if Accepted(r.distance, tolerance) then [r] else [])
  }

  /** The results of every layer, in layer order, each under its own name. */
  function AllLayerHits(m: Metric, proj: Projection, layers: seq<Layer>, pt: Point, tolerance: real): seq<QueryResult>
    decreases |layers|
  {
    if layers == [] then []
    else
      var l := layers[|layers| - 1];
      AllLayerHits(m, proj, layers[..|layers| - 1], pt, tolerance) + LayerHits(m, proj, l.name, l.features, pt, tolerance)
  }

  /** The hits `_query` collects before sorting; an empty name means all layers. */
  function Candidates(m: Metric, proj: Projection, tile: Tile, pt: Point, tolerance: real, layerName: string): seq<QueryResult> {
    if layerName != "" then
      match FindLayer(tile.layers, layerName)
      case None => []
      case Some(l) => LayerHits(m, proj, layerName, l.features, pt, tolerance)
    else AllLayerHits(m, proj, tile.layers, pt, tolerance)
  }

  // ---------------------------------------------------------------------
  // What the candidates are

  /**
   * A layer contributes exactly the results of its features whose distance
   * is accepted, each measured by the distance visitor.
   */
  lemma {:induction false} LayerHitsExactly(m: Metric, proj: Projection, layer: string, features: seq<Feature>, pt: Point, tolerance: real, r: QueryResult)
    ensures r in LayerHits(m, proj, layer, features, pt, tolerance) <==>
      exists f :: f in features && r == ResultFor(m, proj, layer, f, pt) && Accepted(r.distance, tolerance)
    decreases |features|
  {
    if features != [] {
      var n := |features| - 1;
      LayerHitsExactly(m, proj, layer, features[..n], pt, tolerance, r);
      assert features == features[..n] + [features[n]];
      if r !in LayerHits(m, proj, layer, features, pt, tolerance) {
        forall f | f in features && r == ResultFor(m, proj, layer, f, pt)
          ensures !Accepted(r.distance, tolerance)
        {
          if f != features[n] {
            assert f in features[..n];
          }
        }
      }
    }
  }

  /** Every candidate lies within the tolerance and was measured by the visitor. */
  lemma {:induction false} CandidatesAreAccepted(m: Metric, proj: Projection, tile: Tile, pt: Point, tolerance: real, layerName: string)
    ensures forall r :: r in Candidates(m, proj, tile, pt, tolerance, layerName) ==>
      Accepted(r.distance, tolerance) && r.distance == DistanceTo(m, r.feature.geometry, pt.x, pt.y).distance
  {
    if layerName != "" {
      match FindLayer(tile.layers, layerName)
      case None =>
      case Some(l) =>
        forall r | r in LayerHits(m, proj, layerName, l.features, pt, tolerance)
          ensures Accepted(r.distance, tolerance) && r.distance == DistanceTo(m, r.feature.geometry, pt.x, pt.y).distance
        {
          LayerHitsExactly(m, proj, layerName, l.features, pt, tolerance, r);
        }
    } else {
      AllLayerHitsAreAccepted(m, proj, tile.layers, pt, tolerance);
    }
  }

  lemma {:induction false} AllLayerHitsAreAccepted(m: Metric, proj: Projection, layers: seq<Layer>, pt: Point, tolerance: real)
    ensures forall r :: r in AllLayerHits(m, proj, layers, pt, tolerance) ==>
      Accepted(r.distance, tolerance) && r.distance == DistanceTo(m, r.feature.geometry, pt.x, pt.y).distance
    decreases |layers|
  {
    if layers != [] {
      var l := layers[|layers| - 1];
      AllLayerHitsAreAccepted(m, proj, layers[..|layers| - 1], pt, tolerance);
      forall r | r in LayerHits(m, proj, l.name, l.features, pt, tolerance)
        ensures Accepted(r.distance, tolerance) && r.distance == DistanceTo(m, r.feature.geometry, pt.x, pt.y).distance
      {
        LayerHitsExactly(m, proj, l.name, l.features, pt, tolerance, r);
      }
    }
  }

  /** A tile without features has no candidates, so the early return loses nothing. */
  lemma {:induction false} EmptyTileHasNoCandidates(m: Metric, proj: Projection, tile: Tile, pt: Point, tolerance: real, layerName: string)
    requires IsEmpty(tile)
    ensures Candidates(m, proj, tile, pt, tolerance, layerName) == []
  {
    if layerName != "" {
      match FindLayer(tile.layers, layerName)
      case None =>
      case Some(l) =>
        var i :| 0 <= i < |tile.layers| && tile.layers[i] == l;
    } else {
      EmptyLayersHaveNoHits(m, proj, tile.layers, pt, tolerance);
    }
  }

  lemma {:induction false} EmptyLayersHaveNoHits(m: Metric, proj: Projection, layers: seq<Layer>, pt: Point, tolerance: real)
    requires forall i :: 0 <= i < |layers| ==> layers[i].features == []
    ensures AllLayerHits(m, proj, layers, pt, tolerance) == []
    decreases |layers|
  {
    if layers != [] {
      EmptyLayersHaveNoHits(m, proj, layers[..|layers| - 1], pt, tolerance);
    }
  }

  /** Raising the tolerance never removes a hit (it can only add some). */
  lemma {:induction false} LayerHitsMonotone(m: Metric, proj: Projection, layer: string, features: seq<Feature>, pt: Point, low: real, high: real)
    requires low <= high
    ensures multiset(LayerHits(m, proj, layer, features, pt, low)) <= multiset(LayerHits(m, proj, layer, features, pt, high))
    decreases |features|
  {
    if features != [] {
      LayerHitsMonotone(m, proj, layer, features[..|features| - 1], pt, low, high);
    }
  }

  lemma {:induction false} AllLayerHitsMonotone(m: Metric, proj: Projection, layers: seq<Layer>, pt: Point, low: real, high: real)
    requires low <= high
    ensures multiset(AllLayerHits(m, proj, layers, pt, low)) <= multiset(AllLayerHits(m, proj, layers, pt, high))
    decreases |layers|
  {
    if layers != [] {
      var l := layers[|layers| - 1];
      AllLayerHitsMonotone(m, proj, layers[..|layers| - 1], pt, low, high);
      LayerHitsMonotone(m, proj, l.name, l.features, pt, low, high);
    }
  }

  lemma ToleranceMonotone(m: Metric, proj: Projection, tile: Tile, pt: Point, low: real, high: real, layerName: string)
    requires low <= high
    ensures multiset(Candidates(m, proj, tile, pt, low, layerName)) <= multiset(Candidates(m, proj, tile, pt, high, layerName))
  {
    if layerName != "" {
      match FindLayer(tile.layers, layerName)
      case None =>
      case Some(l) => LayerHitsMonotone(m, proj, layerName, l.features, pt, low, high);
    } else {
      AllLayerHitsMonotone(m, proj, tile.layers, pt, low, high);
    }
  }

  // ---------------------------------------------------------------------
  // The query

  /** Appends the accepted hits of one layer's features to `arr`. */
  method ScanLayer(m: Metric, proj: Projection, layer: string, features: seq<Feature>, pt: Point, tolerance: real, arr: seq<QueryResult>)
    returns (out: seq<QueryResult>)
    ensures out == arr + LayerHits(m, proj, layer, features, pt, tolerance)
  {
    out := arr;
    var i := 0;
    while i < |features|
      invariant 0 <= i <= |features|
      invariant out == arr + LayerHits(m, proj, layer, features[..i], pt, tolerance)
    {
      var feature := features[i];
      var p2p := PathToPointDistance(m, feature.geometry, pt.x, pt.y);
      var back := proj.backward(p2p.xHit, p2p.yHit);
      if p2p.distance >= 0.0 && p2p.distance <= tolerance {
        out := out + [QueryResult(layer, feature, p2p.distance, back.x, back.y)];
      }
      assert features[..i + 1][..i] == features[..i];
      i := i + 1;
    }
    assert features[..|features|] == features;
  }

  /**
   * `_query`: the hits of the named layer (or of every layer when the name
   * is empty), sorted by distance. A name no layer carries gives no hits.
   */
  method RunQuery(m: Metric, proj: Projection, tile: Tile, lon: real, lat: real, tolerance: real, layerName: string)
    returns (results: seq<QueryResult>)
    ensures SortedBy(results, Distance)
    ensures multiset(results) == multiset(Candidates(m, proj, tile, proj.forward(lon, lat), tolerance, layerName))
    ensures forall r :: r in results ==> Accepted(r.distance, tolerance)
    ensures IsEmpty(tile) ==> results == []
  {
    var pt := proj.forward(lon, lat);
    if IsEmpty(tile) {
      EmptyTileHasNoCandidates(m, proj, tile, pt, tolerance, layerName);
      return [];
    }
    var arr: seq<QueryResult> := [];
    if layerName != "" {
      var found := FindLayer(tile.layers, layerName);
      if found.Some? {
        arr := ScanLayer(m, proj, layerName, found.value.features, pt, tolerance, arr);
      }
    } else {
      var layers := tile.layers;
      var i := 0;
      while i < |layers|
        invariant 0 <= i <= |layers|
        invariant arr == AllLayerHits(m, proj, layers[..i], pt, tolerance)
      {
        arr := ScanLayer(m, proj, layers[i].name, layers[i].features, pt, tolerance, arr);
        assert layers[..i + 1][..i] == layers[..i];
        i := i + 1;
      }
      assert layers[..|layers|] == layers;
    }
    results := SortSeq(arr, Distance);
    CandidatesAreAccepted(m, proj, tile, pt, tolerance, layerName);
    forall r | r in results ensures Accepted(r.distance, tolerance) {
      assert r in multiset(results);
    }
  }
}
