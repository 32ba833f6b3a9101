/**
 * GeoJSON text assembly (`layer_to_geojson`, `write_geojson_array`,
 * `write_geojson_all`, `write_geojson_layer_index`,
 * `write_geojson_layer_name` and the dispatch of `toGeoJSONSync`).
 *
 * Each feature's GeoJSON text comes from mapnik's serialiser and is taken
 * as given; what is modelled is how those texts are joined into
 * FeatureCollections, with separators written under a `first` flag.
 */
module GeoJson {
  import opened Wrappers
  import opened Js

  /** A layer as the writers see it: its name and its features' GeoJSON texts. */
  datatype GeoLayer = GeoLayer(name: string, features: seq<string>)

  datatype GeoJsonError =
    | MissingLayerArgument      // no argument was passed
    | BadLayerArgument          // neither a string nor a number
    | LayerNameNotFound(name: string)
    | NegativeLayerIndex
    | LayerIndexTooLarge

  const FeatureSeparator: string := "\n,"
  const LayerSeparator: string := ","

  /** The items with `sep` between consecutive ones. */
  function Join(sep: string, items: seq<string>): string
    decreases |items|
  {
    if items == [] then ""
    else if |items| == 1 then items[0]
    else Join(sep, items[..|items| - 1]) + sep + items[|items| - 1]
  }

  function TotalLength(items: seq<string>): nat
    decreases |items|
  {
    if items == [] then 0 else TotalLength(items[..|items| - 1]) + |items[|items| - 1]|
  }

  /** A join holds exactly one separator fewer than it has items. */
  lemma {:induction false} JoinLength(sep: string, items: seq<string>)
    requires items != []
    ensures |Join(sep, items)| == TotalLength(items) + (|items| - 1) * |sep|
    decreases |items|
  {
    if |items| > 1 {
      JoinLength(sep, items[..|items| - 1]);
    } else {
      assert items[..0] == [];
    }
  }

  /** Joining two non-empty runs is joining each and separating the results once. */
  lemma {:induction false} JoinConcat(sep: string, a: seq<string>, b: seq<string>)
    requires a != [] && b != []
    ensures Join(sep, a + b) == Join(sep, a) + sep + Join(sep, b)
    decreases |b|
  {
    var n := |b| - 1;
    assert (a + b)[..|a + b| - 1] == a + b[..n];
    if n == 0 {
      assert a + b[..n] == a;
    } else {
      JoinConcat(sep, a, b[..n]);
    }
  }

  /** A FeatureCollection carrying a name, around an already joined feature list. */
  function NamedCollection(name: string, body: string): string {
    "{\"type\":\"FeatureCollection\"," + "\"name\":\"" + name + "\",\"features\":[" + body + "]}"
  }

  /** The joined features of one layer. */
  function LayerBody(l: GeoLayer): string {
    Join(FeatureSeparator, l.features)
  }

  /** `__array__`: one named FeatureCollection per layer, in a JSON array. */
  function ArrayText(layers: seq<GeoLayer>): string {
    "[" + Join(LayerSeparator, Collections(layers)) + "]"
  }

  /** One named FeatureCollection per layer, in layer order. */
  function Collections(layers: seq<GeoLayer>): (r: seq<string>)
    ensures |r| == |layers|
    decreases |layers|
  {
    if layers == [] then []
    else
      var l := layers[|layers| - 1];
      Collections(layers[..|layers| - 1]) + [NamedCollection(l.name, LayerBody(l))]
  }

  /** The bodies of the layers that have at least one feature, in layer order. */
  function NonEmptyBodies(layers: seq<GeoLayer>): seq<string>
    decreases |layers|
  {
    if layers == [] then []
    else
      var l := layers[|layers| - 1];
      NonEmptyBodies(layers[..|layers| - 1]) + (if l.features != [] then [LayerBody(l)] else [])
  }

  /** `__all__`: every feature of every layer in one unnamed FeatureCollection. */
  function AllText(layers: seq<GeoLayer>): string {
    "{\"type\":\"FeatureCollection\",\"features\":[" + Join(LayerSeparator, NonEmptyBodies(layers)) + "]}"
  }

  /** The first layer of the given name. */
  function FindGeoLayer(layers: seq<GeoLayer>, name: string): (r: Option<GeoLayer>)
    ensures r.Some? ==> r.value in layers && r.value.name == name
    ensures r.None? ==> forall l :: l in layers ==> l.name != name
    ensures r.Some? ==> exists i :: 0 <= i < |layers| && layers[i] == r.value && forall j :: 0 <= j < i ==> layers[j].name != name
  {
    if layers == [] then None
    else if layers[0].name == name then Some(layers[0])
    else
      var r := FindGeoLayer(layers[1..], name);
      assert r.Some? ==> exists i :: 0 <= i < |layers| && layers[i] == r.value && forall j :: 0 <= j < i ==> layers[j].name != name by {
        if r.Some? {
          var i :| 0 <= i < |layers| - 1 && layers[1..][i] == r.value && forall j :: 0 <= j < i ==> layers[1..][j].name != name;
          assert layers[i + 1] == r.value && forall j :: 0 <= j < i + 1 ==> layers[j].name != name;
        }
      }
      r
  }

  // ---------------------------------------------------------------------
  // The writers

  /**
   * `layer_to_geojson`: appends the layer's features separated by `"\n,"`
   * and reports whether it wrote any.
   */
  method LayerToGeoJson(features: seq<string>, result: string) returns (result': string, wrote: bool)
    ensures result' == result + Join(FeatureSeparator, features)
    ensures wrote <==> features != []
  {
    result' := result;
    var first := true;
    var i := 0;
    while i < |features|
      invariant 0 <= i <= |features|
      invariant first <==> i == 0
      invariant result' == result + Join(FeatureSeparator, features[..i])
    {
      if first {
        first := false;
      } else {
        result' := result' + FeatureSeparator;
      }
      result' := result' + features[i];
      assert features[..i + 1][..i] == features[..i];
      i := i + 1;
    }
    assert features[..|features|] == features;
    wrote := !first;
  }

  /** Appends one named FeatureCollection, its features written to a separate string first. */
  method AppendCollection(result: string, name: string, features: seq<string>) returns (result': string)
    ensures result' == result + NamedCollection(name, Join(FeatureSeparator, features))
  {
    result' := result + "{\"type\":\"FeatureCollection\",";
    result' := result' + "\"name\":\"" + name + "\",\"features\":[";
    var text, hit := LayerToGeoJson(features, "");
    assert text == Join(FeatureSeparator, features);
    if hit {
      result' := result' + text;
    }
    result' := result' + "]}";
  }

  /** The join grows by one item: a separator goes in front of it unless it is the first. */
  lemma JoinSnoc(sep: string, items: seq<string>, item: string)
    ensures items == [] ==> Join(sep, items + [item]) == item
    ensures items != [] ==> Join(sep, items + [item]) == Join(sep, items) + sep + item
  {
    assert (items + [item])[..|items|] == items;
  }

  /** `write_geojson_array`. */
  method WriteGeoJsonArray(layers: seq<GeoLayer>, result: string) returns (result': string)
    ensures result' == result + ArrayText(layers)
  {
    result' := result + "[";
    ghost var head := result';
    var first := true;
    var i := 0;
    while i < |layers|
      invariant 0 <= i <= |layers|
      invariant first <==> i == 0
      invariant result' == head + Join(LayerSeparator, Collections(layers[..i]))
    {
      ArrayStep(head, layers, i, result');
      if first {
        first := false;
      } else {
        result' := result' + LayerSeparator;
      }
      result' := AppendCollection(result', layers[i].name, layers[i].features);
      i := i + 1;
    }
    assert layers[..|layers|] == layers;
    result' := result' + "]";
  }

  /** One turn of `write_geojson_array`: the next named collection, after a comma unless it is the first. */
  lemma ArrayStep(head: string, layers: seq<GeoLayer>, i: nat, acc: string)
    requires i < |layers|
    requires acc == head + Join(LayerSeparator, Collections(layers[..i]))
    ensures (if i == 0 then acc else acc + LayerSeparator) + NamedCollection(layers[i].name, LayerBody(layers[i])) ==
      head + Join(LayerSeparator, Collections(layers[..i + 1]))
  {
    var prev := Collections(layers[..i]);
    var piece := NamedCollection(layers[i].name, LayerBody(layers[i]));
    assert layers[..i + 1][..i] == layers[..i];
    assert Collections(layers[..i + 1]) == prev + [piece];
    JoinSnoc(LayerSeparator, prev, piece);
    if i == 0 {
      assert prev == [];
    }
  }

  /** `write_geojson_all`: a comma goes only between layers that wrote a feature. */
  method WriteGeoJsonAll(layers: seq<GeoLayer>, result: string) returns (result': string)
    ensures result' == result + AllText(layers)
  {
    result' := result + "{\"type\":\"FeatureCollection\",\"features\":[";
    ghost var head := result';
    var first := true;
    var i := 0;
    while i < |layers|
      invariant 0 <= i <= |layers|
      invariant first <==> NonEmptyBodies(layers[..i]) == []
      invariant result' == head + Join(LayerSeparator, NonEmptyBodies(layers[..i]))
    {
      var features, hit := LayerToGeoJson(layers[i].features, "");
      AllStep(head, layers, i, result', features, hit);
      if hit {
        if first {
          first := false;
        } else {
          result' := result' + LayerSeparator;
        }
        result' := result' + features;
      }
      i := i + 1;
    }
    assert layers[..|layers|] == layers;
    result' := result' + "]}";
  }

  /** One turn of `write_geojson_all`: a layer that wrote nothing adds nothing, not even a comma. */
  lemma AllStep(head: string, layers: seq<GeoLayer>, i: nat, acc: string, features: string, hit: bool)
    requires i < |layers|
    requires acc == head + Join(LayerSeparator, NonEmptyBodies(layers[..i]))
    requires features == "" + Join(FeatureSeparator, layers[i].features)
    requires hit <==> layers[i].features != []
    ensures !hit ==> NonEmptyBodies(layers[..i + 1]) == NonEmptyBodies(layers[..i])
    ensures hit ==> NonEmptyBodies(layers[..i + 1]) != []
    ensures hit ==>
      (if NonEmptyBodies(layers[..i]) == [] then acc else acc + LayerSeparator) + features ==
      head + Join(LayerSeparator, NonEmptyBodies(layers[..i + 1]))
  {
    var prev := NonEmptyBodies(layers[..i]);
    assert layers[..i + 1][..i] == layers[..i];
    assert features == LayerBody(layers[i]);
    JoinSnoc(LayerSeparator, prev, features);
    if hit {
      assert NonEmptyBodies(layers[..i + 1]) == prev + [features];
    }
  }

  /** `write_geojson_layer_index`: the layer at `idx`, if there is one. */
  method WriteGeoJsonLayerIndex(layers: seq<GeoLayer>, idx: nat, result: string) returns (result': string, found: bool)
    ensures found <==> idx < |layers|
    ensures found ==> result' == result + NamedCollection(layers[idx].name, LayerBody(layers[idx]))
    ensures !found ==> result' == result
  {
    if idx < |layers| {
      var l := layers[idx];
      result' := result + "{\"type\":\"FeatureCollection\",";
      result' := result' + "\"name\":\"" + l.name + "\",\"features\":[";
      var wrote;
      result', wrote := LayerToGeoJson(l.features, result');
      result' := result' + "]}";
      found := true;
    } else {
      result', found := result, false;
    }
  }

  /** `write_geojson_layer_name`: the first layer of that name, if there is one. */
  method WriteGeoJsonLayerName(layers: seq<GeoLayer>, name: string, result: string) returns (result': string, found: bool)
    ensures found <==> exists l :: l in layers && l.name == name
    ensures found ==> result' == result + NamedCollection(name, LayerBody(FindGeoLayer(layers, name).value))
    ensures !found ==> result' == result
  {
    var layer := FindGeoLayer(layers, name);
    if layer.Some? {
      result' := result + "{\"type\":\"FeatureCollection\",";
      result' := result' + "\"name\":\"" + name + "\",\"features\":[";
      var wrote;
      result', wrote := LayerToGeoJson(layer.value.features, result');
      result' := result' + "]}";
      found := true;
    } else {
      result', found := result, false;
    }
  }

  /** What `toGeoJSONSync` asks for: a layer name, one of the two special names, or a layer index. */
  method ToGeoJsonSync(layers: seq<GeoLayer>, arg: Option<JsValue>) returns (r: Result<string, GeoJsonError>)
    requires |layers| < TwoTo31
    ensures arg.None? ==> r == Failure(MissingLayerArgument)
    ensures arg.Some? && !(arg.value.JsString? || arg.value.JsNumber?) ==> r == Failure(BadLayerArgument)
    ensures arg == Some(JsString("__array__")) ==> r == Success(ArrayText(layers))
    ensures arg == Some(JsString("__all__")) ==> r == Success(AllText(layers))
    ensures arg.Some? && arg.value.JsString? && arg.value.s != "__array__" && arg.value.s != "__all__" ==>
      match FindGeoLayer(layers, arg.value.s)
      case None => r == Failure(LayerNameNotFound(arg.value.s))
      case Some(l) => r == Success(NamedCollection(arg.value.s, LayerBody(l)))
    ensures arg.Some? && arg.value.JsNumber? ==>
      var idx := ToInt32(IntegerValue(arg.value.n));
      if idx < 0 then r == Failure(NegativeLayerIndex)
      else if idx >= |layers| then r == Failure(LayerIndexTooLarge)
      else r == Success(NamedCollection(layers[idx].name, LayerBody(layers[idx])))
  {
    if arg.None? {
      return Failure(MissingLayerArgument);
    }
    var layerId := arg.value;
    if !(layerId.JsString? || layerId.JsNumber?) {
      return Failure(BadLayerArgument);
    }
    var result := "";
    assert forall t: string :: "" + t == t;
    if layerId.JsString? {
      var layerName := layerId.s;
      if layerName == "__array__" {
        result := WriteGeoJsonArray(layers, result);
      } else if layerName == "__all__" {
        result := WriteGeoJsonAll(layers, result);
      } else {
        var found;
        result, found := WriteGeoJsonLayerName(layers, layerName, result);
        if !found {
          return Failure(LayerNameNotFound(layerName));
        }
      }
    } else {
      var layerIdx := ToInt32(IntegerValue(layerId.n));
      if layerIdx < 0 {
        return Failure(NegativeLayerIndex);
      } else if layerIdx >= |layers| {
        return Failure(LayerIndexTooLarge);
      }
      var found;
      result, found := WriteGeoJsonLayerIndex(layers, layerIdx, result);
    }
    assert "" + result == result;
    r := Success(result);
  }

  // ---------------------------------------------------------------------
  // Properties of the texts

  lemma {:induction false} NonEmptyBodiesConcat(a: seq<GeoLayer>, b: seq<GeoLayer>)
    ensures NonEmptyBodies(a + b) == NonEmptyBodies(a) + NonEmptyBodies(b)
    decreases |b|
  {
    if b == [] {
      assert a + b == a;
    } else {
      var n := |b| - 1;
      assert (a + b)[..|a + b| - 1] == a + b[..n];
      NonEmptyBodiesConcat(a, b[..n]);
    }
  }

  /** A layer without features leaves no trace in the `__all__` text, not even a separator. */
  lemma EmptyLayerInvisibleInAll(a: seq<GeoLayer>, name: string, b: seq<GeoLayer>)
    ensures AllText(a + [GeoLayer(name, [])] + b) == AllText(a + b)
  {
    var e := GeoLayer(name, []);
    NonEmptyBodiesConcat(a + [e], b);
    NonEmptyBodiesConcat(a, b);
    assert (a + [e])[..|a|] == a;
    assert NonEmptyBodies(a + [e]) == NonEmptyBodies(a);
    assert NonEmptyBodies(a + [e] + b) == NonEmptyBodies(a + b);
  }

  /** When every layer has features, `__all__` joins all bodies, so two layers' texts meet at exactly one comma. */
  lemma {:induction false} AllLayersNonEmpty(layers: seq<GeoLayer>)
    requires forall i :: 0 <= i < |layers| ==> layers[i].features != []
    ensures NonEmptyBodies(layers) == seq(|layers|, i requires 0 <= i < |layers| => LayerBody(layers[i]))
    decreases |layers|
  {
    if layers != [] {
      AllLayersNonEmpty(layers[..|layers| - 1]);
    }
  }

}
