# node-mapnik `VectorTile`: a verified model of its algorithmic core

node-mapnik exposes Mapnik vector tiles to JavaScript through the
`VectorTile` class of `src/mapnik_vector_tile.cpp`. Most of that file is
binding glue, but it holds a number of small algorithms whose behaviour
can be stated and proved. This project models them in Dafny:

- `geometry.dfy`: the point-to-geometry distance visitor (`p2p_distance`,
  `path_to_point_distance`) and `geometry_type_name`. Each operator is a
  method with the source's loops, proved equal to a specification
  function; the reduction over members is proved to pick the first
  member of least non-negative distance, and the polygon case to be a
  crossing-parity test. `mapnik::distance`, `point_to_segment_distance`
  and `detail::pip` are foreign routines and appear as the fields of a
  `Metric` record of functions.
- `sorting.dfy`: the `std::sort` calls by distance, as an insertion sort
  on an array, proved sorted and a permutation.
- `query.dfy`: `query` (one point): the hits of a tile or of one named
  layer within the tolerance, sorted by distance.
- `query_many.dfy`: `queryMany` (several points in one layer): dense
  feature indices, one hit list per point, each sorted.
- `attributes.dfy`: the `toJSON` reading of a layer's value table and of
  a feature's packed tags into its properties, following section 4.4 of
  the Mapbox Vector Tile Specification 2.1.
- `geojson.dfy`: the GeoJSON text assembly of `toGeoJSONSync`
  (`layer_to_geojson`, `write_geojson_array`, `write_geojson_all`,
  `write_geojson_layer_index`, `write_geojson_layer_name`). Each feature's
  GeoJSON text is an opaque string.
- `registration.dfy`: argument validation of the constructor and the
  `tileSize` / `bufferSize` accessors; the tile is a class whose setters
  keep the invariant `tile_size > 0 && tile_size + 2*buffer_size > 0`.
- `composite_options.dfy`: option validation of `compositeSync` and
  `composite`.
- `tile_data.dfy`: option validation and the returned buffer of
  `getDataSync`.
- `js.dfy`, `wrappers.dfy`: JavaScript values as the bindings see them,
  and `Option` / `Result`. A number is a finite real, NaN or an infinity,
  and the binding's comparisons follow IEEE 754, so NaN fails every one
  of them. `IntegerValue` maps NaN to 0, truncates toward zero and
  saturates at the 64-bit bounds; `IsObject` holds for arrays too.

Reprojection between longitude/latitude and web mercator is a pair of
given functions (`Projection`). The tile's protobuf content is given as
sequences of layers, features, keys and values.

Where the code narrows the 64-bit result of `IntegerValue` into a C++
`int`, the model narrows it the same way (`Js.ToInt32`): so a `getData`
level of 2^32 + 5 is taken as 5 (`TileData.HugeLevelWrapsIntoRange`),
while 2^64 first saturates to 2^63 - 1, narrows to -1 and is rejected
(`TileData.SaturatedLevelRejected`). The same narrowing applies to `z`,
`x`, `y`, `tile_size`, `fill_type`, `threading_mode` and a
`toGeoJSONSync` layer index.

## Model

| member | source | states |
|---|---|---|
| Geometry.PathToPointDistance | src/mapnik_vector_tile.cpp:243-246 | the visitor's result for any geometry equals the specification `DistanceTo`, whose meaning the lemmas below give |
| Geometry.VisitMultiPoint | src/mapnik_vector_tile.cpp:105-119 | the strict-`<` running best over the points is the reduction of their hits |
| Geometry.VisitLineString | src/mapnik_vector_tile.cpp:120-140 | the running best over consecutive vertex pairs is the reduction of the segment hits, each hit at the segment's start vertex |
| Geometry.VisitMultiLineString | src/mapnik_vector_tile.cpp:141-155 | the running best over the lines is the reduction of the line results |
| Geometry.ToggleCrossings | src/mapnik_vector_tile.cpp:165-175 | the `inside` flag ends flipped exactly when an odd number of ring edges pass the crossing test |
| Geometry.VisitPolygon | src/mapnik_vector_tile.cpp:156-202 | exterior ring under 4 points or even parity gives no hit; interior rings of under 4 points are skipped; distance 0 exactly when the final parity is odd |
| Geometry.VisitMultiPolygon | src/mapnik_vector_tile.cpp:203-217 | the running best over the polygons is the reduction of the polygon results |
| Geometry.VisitCollection | src/mapnik_vector_tile.cpp:218-235 | the running best over the members, each visited recursively, is their reduction |
| Geometry.ReduceIsFirstMinimum | src/mapnik_vector_tile.cpp:105-119 | the reduction is "no hit" (-1, 0, 0) exactly when no entry has a non-negative distance, and otherwise the first entry of least non-negative distance |
| Geometry.MultiGeometryIsFirstMinimum | src/mapnik_vector_tile.cpp:105-235 | for every multi-geometry and collection: distance -1 when no member is accepted, else the first member attaining the minimum |
| Geometry.LineStringIsFirstMinimalSegment | src/mapnik_vector_tile.cpp:120-140 | fewer than 2 points gives -1; otherwise the least segment distance, hit at the start vertex of the first minimal segment |
| Geometry.ShortRingsIgnored | src/mapnik_vector_tile.cpp:180-186 | interior rings with fewer than 4 points never change the parity |
| Geometry.PolygonIsParityTest | src/mapnik_vector_tile.cpp:156-202 | a polygon's hit coordinates stay 0, its distance is 0 or -1, and 0 exactly when the exterior has at least 4 points, odd parity, and the long interior rings do not cancel it |
| Geometry.TypeNameIdentifiesKind | src/mapnik_vector_tile.cpp:1916-1974 | two geometries get the same type name exactly when they are of the same kind |
| Sorting.SortByKey | src/mapnik_vector_tile.cpp:1541 | the array ends sorted non-decreasing by the key and is a permutation of its old contents |
| Sorting.SortSeq | src/mapnik_vector_tile.cpp:1830-1833 | the result is sorted by the key and a permutation of the input |
| Query.FindLayer | src/mapnik_vector_tile.cpp:1464-1467 | a found layer is the first layer of the tile carrying the name; none is found only when no layer has it |
| Query.LayerHitsExactly | src/mapnik_vector_tile.cpp:1474-1498 | a result belongs to a layer's hits exactly when it comes from one of its features with an accepted distance, hit coordinates projected back |
| Query.CandidatesAreAccepted | src/mapnik_vector_tile.cpp:1488-1536 | every candidate's distance is that of its feature's geometry and lies in `[0, tolerance]` |
| Query.EmptyTileHasNoCandidates | src/mapnik_vector_tile.cpp:1443-1446 | a tile without features yields no results |
| Query.ToleranceMonotone | src/mapnik_vector_tile.cpp:1488-1536 | raising the tolerance never loses a result |
| Query.ScanLayer | src/mapnik_vector_tile.cpp:1476-1498 | the feature loop appends exactly the layer's accepted hits, in feature order |
| Query.RunQuery | src/mapnik_vector_tile.cpp:1440-1548 | the result is sorted by distance, a permutation of the accepted candidates of the projected point, all within the tolerance, and empty for an empty tile |
| QueryMany.MatchedExactly | src/mapnik_vector_tile.cpp:1784-1826 | a feature receives an index exactly when it hits at least one point |
| QueryMany.HitsReferToMatched | src/mapnik_vector_tile.cpp:1801-1805 | every hit's feature id indexes a matched feature, and its distance is accepted |
| QueryMany.OneHitPerFeature | src/mapnik_vector_tile.cpp:1788-1825 | within one point's list the feature ids strictly increase, so each feature adds at most one hit per point |
| QueryMany.PointHitsNonEmpty | src/mapnik_vector_tile.cpp:1807-1819 | a point has hits exactly when some feature is within the tolerance of it |
| QueryMany.OutcomeIsConsistent | src/mapnik_vector_tile.cpp:1784-1836 | in any outcome, every hit refers to a key of `features`, is accepted, and occurs once in its list |
| QueryMany.ScanFeature | src/mapnik_vector_tile.cpp:1787-1821 | `has_hit` is set exactly when the feature hits a point; `features` gets the feature under `idx` unless the key exists; each hit point's list gains this feature's hit |
| QueryMany.Collect | src/mapnik_vector_tile.cpp:1783-1827 | `features` maps `0..k-1` to the matched features in order; `hits` has exactly the points with hits, each with its hits in feature order |
| QueryMany.SortHits | src/mapnik_vector_tile.cpp:1829-1833 | the same points, each list sorted by distance and a permutation of the old one |
| QueryMany.RunQueryMany | src/mapnik_vector_tile.cpp:1673-1843 | an empty layer name and a missing layer are errors; otherwise `features` indexes the matched features densely and each point's list holds its hits sorted by distance |
| Attributes.Int64RoundTrip | src/mapnik_vector_tile.cpp:2288-2290 | reading a varint as a two's-complement `int64` is a bijection with its 64 raw bits |
| Attributes.ZigZagRoundTrip | src/mapnik_vector_tile.cpp:2294-2296 | zigzag decoding of `sint64` values is a bijection with its encoding |
| Attributes.FieldValue | src/mapnik_vector_tile.cpp:2277-2303 | a field yields one value for tags 1 to 7 and none for any other tag |
| Attributes.MessageValuesCount | src/mapnik_vector_tile.cpp:2275-2304 | a value message adds one entry per known field |
| Attributes.ValueTableAligned | src/mapnik_vector_tile.cpp:2273-2305 | when every value message holds one known field, entry i of the table is message i's value |
| Attributes.ReadValueMessage | src/mapnik_vector_tile.cpp:2274-2304 | the field loop appends the message's values in field order |
| Attributes.ReadValueTable | src/mapnik_vector_tile.cpp:2273-2305 | the table read is the concatenation of the messages' values |
| Attributes.ToJs | src/mapnik_vector_tile.cpp:2171-2210 | strings become strings, booleans booleans, every numeric kind a number |
| Attributes.ProtoKeyNeverSet | src/mapnik_vector_tile.cpp:2181-2184 | a key named `__proto__` never becomes a property: V8's `Set` runs the prototype setter, which ignores the value |
| Attributes.DecodeTags | src/mapnik_vector_tile.cpp:2361-2381 | the iterator loop builds the properties the pair-by-pair specification gives |
| Attributes.LaterPairWins | src/mapnik_vector_tile.cpp:2372-2379 | a later pair is applied after all earlier ones, so it overwrites a property of the same name |
| Attributes.TrailingKeyIgnored | src/mapnik_vector_tile.cpp:2366-2370 | an unpaired trailing key changes nothing |
| Attributes.LastPairSets | src/mapnik_vector_tile.cpp:2372-2379 | a final in-range pair sets its key to its value; an out-of-range one, or one keyed `__proto__`, is skipped |
| Attributes.PropertyPresent | src/mapnik_vector_tile.cpp:2364-2381 | a name is a property exactly when some complete pair with both indices in range names it, `__proto__` never |
| GeoJson.JoinLength | src/mapnik_vector_tile.cpp:2448-2476 | joined text has the items' length plus one separator between each two |
| GeoJson.JoinConcat | src/mapnik_vector_tile.cpp:2448-2476 | joining two non-empty runs is joining each with one separator between |
| GeoJson.FindGeoLayer | src/mapnik_vector_tile.cpp:2592-2593 | a found layer is the first layer of the tile with the name; none only when no layer has it |
| GeoJson.LayerToGeoJson | src/mapnik_vector_tile.cpp:2425-2477 | appends the features joined by "\n," and returns true exactly when there was a feature |
| GeoJson.WriteGeoJsonArray | src/mapnik_vector_tile.cpp:2492-2531 | appends `[`, one FeatureCollection per layer separated by commas, and `]` |
| GeoJson.WriteGeoJsonAll | src/mapnik_vector_tile.cpp:2533-2562 | appends one FeatureCollection holding the non-empty layers' feature texts, comma-separated |
| GeoJson.WriteGeoJsonLayerIndex | src/mapnik_vector_tile.cpp:2564-2586 | succeeds exactly for an index below the layer count, appending that layer's collection, and otherwise appends nothing |
| GeoJson.WriteGeoJsonLayerName | src/mapnik_vector_tile.cpp:2588-2606 | succeeds exactly when a layer has the name, appending its collection, and otherwise appends nothing |
| GeoJson.ToGeoJsonSync | src/mapnik_vector_tile.cpp:2608-2668 | the argument is required and must be a string or number; "__array__" and "__all__" select the two whole-tile forms; a name or index selects one layer, with a negative, too large or unknown one an error |
| GeoJson.EmptyLayerInvisibleInAll | src/mapnik_vector_tile.cpp:2548-2559 | a layer without features leaves the "__all__" text unchanged, comma included |
| GeoJson.AllLayersNonEmpty | src/mapnik_vector_tile.cpp:2548-2559 | when every layer has features, "__all__" joins every layer's text |
| Registration.TileSizeOption | src/mapnik_vector_tile.cpp:361-387 | `tile_size` defaults to 4096; a given one is accepted exactly when it is a number whose narrowed value is positive, and that value is the size |
| Registration.BufferSizeOption | src/mapnik_vector_tile.cpp:388-397 | `buffer_size` defaults to 128; a given one is accepted exactly when it is a number, and its narrowed 32-bit value is the size |
| Registration.NewTile | src/mapnik_vector_tile.cpp:330-410 | a constructed tile satisfies `tile_size > 0 && tile_size + 2*buffer_size > 0`, carries the arguments' coordinates and the sizes the two options give (defaults without an options argument), and any options argument passed `IsObject` |
| Registration.NewWithSizes | src/mapnik_vector_tile.cpp:352-409 | in-range `tile_size` and `buffer_size` options that keep the inequality are the sizes the tile gets |
| Registration.NewAcceptsArrayOptions | src/mapnik_vector_tile.cpp:360-370 | an array as the options argument is accepted and gives the default sizes |
| Registration.NewWithDefaults | src/mapnik_vector_tile.cpp:352-362 | `new VectorTile(z, x, y)` with non-negative coordinates succeeds with sizes 4096 and 128 |
| Registration.NegativeCoordinateRejected | src/mapnik_vector_tile.cpp:355-359 | a negative z, x or y is rejected |
| Registration.NewRejectsExactlyBadBuffer | src/mapnik_vector_tile.cpp:399-403 | with valid coordinates and tile size, construction fails exactly when `tile_size + 2*buffer_size <= 0` |
| Registration.CheckBufferSizeAsWritten | src/mapnik_vector_tile.cpp:5171-5187 | a buffer size is accepted exactly when it is a number that is NaN, +Infinity, or finite with `tile_size + 2*value > 0`, and the accepted double is what is stored |
| Registration.BufferSizeAcceptsNaN | src/mapnik_vector_tile.cpp:5180-5186 | NaN and +Infinity pass the check although `tile_size + 2*value > 0` fails for NaN, and neither converts to the stored integer |
| Registration.CheckBufferSize | src/mapnik_vector_tile.cpp:5171-5187 | the corrected setter accepts exactly the finite numbers with `tile_size + 2*value > 0` whose truncation fits the stored `int32`, storing the truncation; it accepts only what the original accepts and rejects beyond it only values whose conversion is undefined |
| Registration.BufferSizeKeepsValid | src/mapnik_vector_tile.cpp:5180-5186 | a buffer size the corrected setter accepts keeps the size invariant |
| Registration.SetTileSizeAsWritten | src/mapnik_vector_tile.cpp:5152-5169 | a tile size is accepted exactly when it is a number that is NaN, +Infinity or finite above 0, with no check against the buffer size, and the accepted double is what is stored |
| Registration.SetTileSizeBreaksBufferInequality | src/mapnik_vector_tile.cpp:5152-5169 | a valid tile 4096 / -2000 accepts tile size 100, after which `100 + 2*(-2000) <= 0` |
| Registration.SetTileSizeStoresZero | src/mapnik_vector_tile.cpp:5161-5167 | the value 0.5 passes the check and is stored as 0 |
| Registration.SetTileSizeAcceptsNaN | src/mapnik_vector_tile.cpp:5161-5167 | NaN and +Infinity pass the check, and neither converts to the stored integer |
| Registration.CheckTileSize | src/mapnik_vector_tile.cpp:5152-5169 | the corrected setter accepts exactly the finite values whose truncation fits the stored `uint32` and keeps `tile_size > 0 && tile_size + 2*buffer_size > 0`, storing the truncation |
| Registration.CheckTileSizeRefinesAsWritten | src/mapnik_vector_tile.cpp:5152-5169 | the corrected setter accepts only what the original accepts, storing the same size, and accepts everything the original stores with a defined conversion that keeps the invariant |
| Registration.VectorTile.TileSize | src/mapnik_vector_tile.cpp:5140-5144 | the tile size read is positive |
| Registration.VectorTile.BufferSize | src/mapnik_vector_tile.cpp:5146-5150 | the buffer size read keeps `tile_size + 2*buffer_size > 0` |
| Registration.VectorTile.SetBufferSize | src/mapnik_vector_tile.cpp:5171-5187 | the corrected setter: keeps the invariant; stores the truncated value when accepted and leaves the state unchanged when rejected |
| Registration.VectorTile.SetTileSize | src/mapnik_vector_tile.cpp:5152-5169 | the corrected setter: keeps the invariant; stores the value when accepted and leaves the state unchanged when rejected |
| CompositeOptions.Check | src/mapnik_vector_tile.cpp:522-628 | the synchronous form accepts a numeric `scale` only above 0, the asynchronous one from 0, and the three thresholds from 0; NaN and +Infinity pass each of these tests |
| CompositeOptions.ParseCompositeOptions | src/mapnik_vector_tile.cpp:477-760 | accepted options lie in range (no threshold below 0, fill type in 0..3, threading mode 1, 2 or 3, scale as per the form, with NaN below nothing), the tile list is a non-empty array of tiles, and an options argument that is not an object (arrays are objects) is an error; without options the defaults apply, and with them every field holds its option's converted value when the option is given and its default otherwise |
| CompositeOptions.StoreSetsField | src/mapnik_vector_tile.cpp:513-730 | storing an option that passed its check sets its own field to the option's converted value and no other field |
| CompositeOptions.ReadSetsField | src/mapnik_vector_tile.cpp:513-730 | after reading a list of options, a field holds the converted value of its option when that option is listed and present, and its old value otherwise |
| CompositeOptions.ReadSetsEveryField | src/mapnik_vector_tile.cpp:513-730 | reading in either form's order sets every present option's field and keeps the others |
| CompositeOptions.NegativeOffsetWraps | src/mapnik_vector_tile.cpp:634-643 | `offset_x` of -1 passes and is stored as 2^32 - 1 in the `unsigned` |
| CompositeOptions.ReadKeepsRange | src/mapnik_vector_tile.cpp:513-730 | reading options one by one keeps every value in its range |
| CompositeOptions.ReadSucceedsIffAllPass | src/mapnik_vector_tile.cpp:513-730 | the options are accepted exactly when every present option passes its own check, whatever the reading order |
| CompositeOptions.CheckSyncVersusAsync | src/mapnik_vector_tile.cpp:935-949 | the two forms' checks differ only for a `scale` of 0 |
| CompositeOptions.SyncAcceptsIffAsyncAcceptsAndScaleNotZero | src/mapnik_vector_tile.cpp:843-1060 | the synchronous form accepts an options object exactly when the asynchronous one does and `scale` is not 0 |
| CompositeOptions.UnknownOptionsIgnored | src/mapnik_vector_tile.cpp:513-730 | an options object with none of the fifteen names gives the defaults |
| CompositeOptions.ScaleIsStored | src/mapnik_vector_tile.cpp:604-618 | the accepted `scale` is the scale factor used, 1 without one |
| TileData.StrategyNamesRoundTrip | src/mapnik_vector_tile.cpp:3792-3828 | the five strategy names and the five strategies correspond one to one |
| TileData.ParseDataOptions | src/mapnik_vector_tile.cpp:3753-3829 | no argument gives the defaults; an argument failing `IsObject` (which arrays pass) is an error; a non-string `compression` and a non-number `level` are errors; compression is on exactly for "gzip"; an accepted level is -1 or in 0..9, is the narrowed `level` option when given and -1 otherwise; an accepted strategy is the one named, DEFAULT when none is |
| TileData.GzipUsesLevel | src/mapnik_vector_tile.cpp:3779-3858 | with "gzip" and an accepted level, whatever the other options, the buffer is the tile compressed at that narrowed level with the chosen strategy |
| TileData.GetDataSync | src/mapnik_vector_tile.cpp:3748-3858 | an option error is reported before the size is looked at |
| TileData.EmptyTileGivesEmptyBuffer | src/mapnik_vector_tile.cpp:3833-3836 | an empty tile gives an empty buffer even when compression was asked for |
| TileData.UncompressedIsRaw | src/mapnik_vector_tile.cpp:3767-3853 | without "gzip" the buffer is the tile's bytes unchanged |
| TileData.LevelAcceptedIffInRange | src/mapnik_vector_tile.cpp:3778-3791 | a level is accepted exactly when its narrowed value lies in 0..9, and is then the level used |
| TileData.HugeLevelWrapsIntoRange | src/mapnik_vector_tile.cpp:3788 | the level 2^32 + 5 narrows to 5 and is accepted |
| TileData.SaturatedLevelRejected | src/mapnik_vector_tile.cpp:3788-3789 | the level 2^64 saturates to 2^63 - 1, narrows to -1 and is rejected |
| TileData.NaNLevelIsZero | src/mapnik_vector_tile.cpp:3788-3789 | a NaN level is taken as level 0 |
| TileData.ArrayOptionsGiveRawBytes | src/mapnik_vector_tile.cpp:3759-3767 | an array passes as the options object and gives the raw tile bytes |
| Js.IntegerValueExactOnIntegers | src/mapnik_vector_tile.cpp:352-354 | `IntegerValue` gives back every integer of the 64-bit range unchanged |
| Js.IntegerValueMonotone | src/mapnik_vector_tile.cpp:352-354 | `IntegerValue` is monotone on finite numbers, with -Infinity and +Infinity at the two ends |
| Js.DoubleToIntAgreesWithIntegerValue | src/mapnik_vector_tile.cpp:5161-5167 | where a C++ double-to-integer conversion is defined it agrees with `IntegerValue`, and a fraction between -1 and 1 converts to 0 |
| Js.ToInt32 | src/mapnik_vector_tile.cpp:352-354 | the narrowing to a 32-bit `int` lands in range, keeps values already in range, and is congruent modulo 2^32 |
| Js.ToUint32 | src/mapnik_vector_tile.cpp:642 | the narrowing to an `unsigned` lands in range, keeps values already in range, and is congruent modulo 2^32 |

## Left out

- Protobuf reading (`protozero` traversal, layer lookup by name or index, the feature streams of `tile_datasource_pbf`): the tile is given as sequences of layers, features, keys and values.
- The bounding-box prefilter of `features_at_point` and of the `queryMany` query: every feature of a layer is visited. A feature outside the padded box is farther than the tolerance from every point, so the results are the same.
- `is_empty` of the tile object is taken to mean "no layer holds a feature"; its definition is not part of this model.
- Reprojection (`proj_transform` forward and backward) is a pair of given total functions; the source never reaches its failure branches.
- `mapnik::distance`, `point_to_segment_distance` and `detail::pip` are given functions; floating-point rounding is not modelled (distances are reals).
- `_compositeSync` / `_composite` themselves (compositing, reencoding, rendering of raster tiles), `zlib_compress`, and the asynchronous scheduling of `composite`, `query`, `queryMany` and `getData`.
- `queryMany`'s argument unpacking and `fields` selection, and the `*ToV8` converters of the query results.
- Error message texts: errors are datatype constructors naming the check that failed.
- Float and double decoding of value fields: a float or double field is given as its decoded number.
- Double rounding: a finite double is an exact real, so rounding and overflow to infinity (of `tile_size + 2*value`, of a 64-bit integer attribute) are not modelled.
- JavaScript functions, which V8's `IsObject` also accepts, are not among the modelled values.
- Attributes.ToJs: the conversion of 64-bit integer attributes to JavaScript numbers rounds above 2^53; the model keeps the exact value.
- Attributes.DecodeTags: the order in which properties are set on the JavaScript object is not modelled; properties are a map.
- Attributes.DecodeTags: keys are given as decoded strings; the UTF-8 decoding of the key bytes, under which distinct invalid byte strings can become the same name, is not modelled.
- JSON escaping of layer names: the source pastes the name into the text as is, and so does the model.
- Registration.NewTile: the `2 * buffer_size` of the constructor is computed in 32-bit `int` arithmetic, whose overflow is not modelled.
- CompositeOptions.ParseCompositeOptions: the cast of `fill_type` and `threading_mode` into their enumerations is modelled as narrowing to a 32-bit `int`.
- Sorting.SortByKey: `std::sort` leaves the order of equal distances unspecified; the model proves only what `std::sort` promises (sorted, a permutation).

## Findings

| source | as written | input that shows it | evidently intended | confidence | as-written member | corrected member |
|---|---|---|---|---|---|---|
| src/mapnik_vector_tile.cpp:5152-5169 | `set_tile_size` checks only `val > 0` and does not re-check `tile_size + 2*buffer_size > 0`, which the constructor and `set_buffer_size` enforce | a tile with tile size 4096 and buffer size -2000, then `tileSize = 100` | reject a tile size that breaks the buffer inequality | medium, not executed | Registration.SetTileSizeAsWritten, Registration.SetTileSizeBreaksBufferInequality | Registration.CheckTileSize, Registration.VectorTile.SetTileSize |
| src/mapnik_vector_tile.cpp:5161-5167 | the check is on the double, but the stored tile size is an integer, so a fraction below 1 passes and is stored as 0 | `tileSize = 0.5` | check the value that is stored, so a stored tile size is always positive | medium, not executed | Registration.SetTileSizeAsWritten, Registration.SetTileSizeStoresZero | Registration.CheckTileSize, Registration.VectorTile.SetTileSize |
| src/mapnik_vector_tile.cpp:5161-5167 | `val <= 0.0` is false for NaN, so NaN (and +Infinity) pass and are converted to the stored integer, which is undefined behaviour | `tileSize = NaN` | reject a value the stored tile size cannot take | medium, not executed | Registration.SetTileSizeAsWritten, Registration.SetTileSizeAcceptsNaN | Registration.CheckTileSize, Registration.VectorTile.SetTileSize |
| src/mapnik_vector_tile.cpp:5180-5186 | `tile_size + 2*val <= 0` is false for NaN, so NaN (and +Infinity) pass and are converted to the stored integer, which is undefined behaviour and can break `tile_size + 2*buffer_size > 0` | `bufferSize = NaN` | reject a value the stored buffer size cannot take | medium, not executed | Registration.CheckBufferSizeAsWritten, Registration.BufferSizeAcceptsNaN | Registration.CheckBufferSize, Registration.VectorTile.SetBufferSize |
