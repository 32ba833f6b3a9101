/**
 * Option validation of `VectorTile.compositeSync` and `VectorTile.composite`.
 *
 * Both read the same fifteen options, one after the other, each with its
 * own type and range check; the first failing check ends the call. The
 * synchronous form rejects `scale <= 0`, the asynchronous one only
 * `scale < 0`, and the two read the options in different orders.
 */
module CompositeOptions {
  import opened Wrappers
  import opened Js

  datatype Mode = Sync | Async

  datatype OptionKey =
    | AreaThreshold | SimplifyDistance | StrictlySimple | MultiPolygonUnion | FillType
    | ThreadingMode | Scale | ScaleDenominator | OffsetX | OffsetY | Reencode
    | MaxExtent | ProcessAllRings | ImageScaling | ImageFormat

  /** The property name of an option. */
  function Name(k: OptionKey): string {
    match k
    case AreaThreshold => "area_threshold"
    case SimplifyDistance => "simplify_distance"
    case StrictlySimple => "strictly_simple"
    case MultiPolygonUnion => "multi_polygon_union"
    case FillType => "fill_type"
    case ThreadingMode => "threading_mode"
    case Scale => "scale"
    case ScaleDenominator => "scale_denominator"
    case OffsetX => "offset_x"
    case OffsetY => "offset_y"
    case Reencode => "reencode"
    case MaxExtent => "max_extent"
    case ProcessAllRings => "process_all_rings"
    case ImageScaling => "image_scaling"
    case ImageFormat => "image_format"
  }

  /** `compositeSync` reads these options before `scale`. */
  const SyncHead: seq<OptionKey> := [AreaThreshold, SimplifyDistance, StrictlySimple, MultiPolygonUnion, FillType, ThreadingMode]

  /** `composite` reads these options before `scale`: the same ones, `simplify_distance` last. */
  const AsyncHead: seq<OptionKey> := [AreaThreshold, StrictlySimple, MultiPolygonUnion, FillType, ThreadingMode, SimplifyDistance]

  /** Both read these options after `scale`, in this order. */
  const CommonTail: seq<OptionKey> := [ScaleDenominator, OffsetX, OffsetY, Reencode, MaxExtent, ProcessAllRings, ImageScaling, ImageFormat]

  const SyncOrder: seq<OptionKey> := SyncHead + [Scale] + CommonTail
  const AsyncOrder: seq<OptionKey> := AsyncHead + [Scale] + CommonTail

  function Order(mode: Mode): seq<OptionKey> {
    if mode == Sync then SyncOrder else AsyncOrder
  }

  /** `polygon_fill_type`: even_odd 0, non_zero 1, positive 2, negative 3; 4 is the bound. */
  const PositiveFill: int := 2
  const FillTypeMax: int := 4

  /** `std::launch`: async 1, deferred 2, either 3. */
  const LaunchAsync: int := 1
  const LaunchDeferred: int := 2

  datatype Box = Box(minx: Num, miny: Num, maxx: Num, maxy: Num)

  datatype Options = Options(
    scaleFactor: Num,
    offsetX: nat,
    offsetY: nat,
    areaThreshold: Num,
    strictlySimple: bool,
    multiPolygonUnion: bool,
    fillType: int,
    scaleDenominator: Num,
    reencode: bool,
    maxExtent: Option<Box>,
    simplifyDistance: Num,
    processAllRings: bool,
    imageFormat: string,
    scalingMethod: nat,
    threadingMode: int)

  /**
   * The defaults; `scalingMethod` is the bilinear method's code in the
   * table of scaling methods passed to the parser.
   */
  function Defaults(bilinear: nat): Options {
    Options(Finite(1.0), 0, 0, Finite(0.1), true, false, PositiveFill, Finite(0.0), false, None, Finite(0.0), false, "webp", bilinear, LaunchDeferred)
  }

  datatype Problem =
    | WrongType      // not a number / boolean / string / array
    | Negative       // below zero where that is refused
    | NotPositive    // zero or below where that is refused
    | OutOfRange     // an enumeration value outside its range
    | NotFourItems   // max_extent without exactly four entries
    | ItemsNotNumbers
    | UnknownMethod  // image_scaling names no scaling method

  datatype CompositeError =
    | TilesNotArray
    | NoTiles
    | OptionsNotObject
    | BadOption(key: OptionKey, problem: Problem)
    | NotVectorTiles

  /**
   * The check one option's value must pass, which does not depend on the
   * other options. The range tests are double comparisons that reject, so
   * NaN passes every one of them.
   */
  function Check(mode: Mode, k: OptionKey, v: JsValue, methods: map<string, nat>): (r: Option<Problem>)
    ensures mode == Sync && k == Scale ==>
      (r.None? <==> v.JsNumber? && (v.n.NaN? || v.n.PosInf? || (v.n.Finite? && v.n.r > 0.0)))
    ensures mode == Async && k == Scale ==>
      (r.None? <==> v.JsNumber? && (v.n.NaN? || v.n.PosInf? || (v.n.Finite? && v.n.r >= 0.0)))
    ensures k in {AreaThreshold, SimplifyDistance, ScaleDenominator} ==>
      (r.None? <==> v.JsNumber? && (v.n.NaN? || v.n.PosInf? || (v.n.Finite? && v.n.r >= 0.0)))
  {
    match k
    case AreaThreshold | SimplifyDistance | ScaleDenominator =>
      if !v.JsNumber? then Some(WrongType) else if Below(v.n, 0.0) then Some(Negative) else None
    case StrictlySimple | MultiPolygonUnion | Reencode | ProcessAllRings =>
      if !v.JsBool? then Some(WrongType) else None
    case FillType =>
      if !v.JsNumber? then Some(WrongType)
      else
        var f := ToInt32(IntegerValue(v.n));
        if f < 0 || f >= FillTypeMax then Some(OutOfRange) else None
    case ThreadingMode =>
      if !v.JsNumber? then Some(WrongType)
      else
        var t := ToInt32(IntegerValue(v.n));
        if t != LaunchAsync && t != LaunchDeferred && t != LaunchAsync + LaunchDeferred then Some(OutOfRange) else None
    case Scale =>
      if !v.JsNumber? then Some(WrongType)
      else if mode == Sync && AtMost(v.n, 0.0) then Some(NotPositive)
      else if mode == Async && Below(v.n, 0.0) then Some(Negative)
      else None
    case OffsetX | OffsetY =>
      if !v.JsNumber? then Some(WrongType) else None
    case MaxExtent =>
      if !v.JsArray? then Some(WrongType)
      else if |v.items| != 4 then Some(NotFourItems)
      else if !(v.items[0].JsNumber? && v.items[1].JsNumber? && v.items[2].JsNumber? && v.items[3].JsNumber?) then Some(ItemsNotNumbers)
      else None
    case ImageScaling =>
      if !v.JsString? then Some(WrongType) else if v.s !in methods then Some(UnknownMethod) else None
    case ImageFormat =>
      if !v.JsString? then Some(WrongType) else None
  }

  /** Stores an option's value once it has passed its check. */
  function Store(k: OptionKey, v: JsValue, methods: map<string, nat>, o: Options): Options
    requires Check(Sync, k, v, methods).None? || Check(Async, k, v, methods).None?
  {
    match k
    case AreaThreshold => o.(areaThreshold := v.n)
    case SimplifyDistance => o.(simplifyDistance := v.n)
    case ScaleDenominator => o.(scaleDenominator := v.n)
    case StrictlySimple => o.(strictlySimple := v.b)
    case MultiPolygonUnion => o.(multiPolygonUnion := v.b)
    case Reencode => o.(reencode := v.b)
    case ProcessAllRings => o.(processAllRings := v.b)
    case FillType => o.(fillType := ToInt32(IntegerValue(v.n)))
    case ThreadingMode => o.(threadingMode := ToInt32(IntegerValue(v.n)))
    case Scale => o.(scaleFactor := v.n)
    case OffsetX => o.(offsetX := ToUint32(IntegerValue(v.n)))
    case OffsetY => o.(offsetY := ToUint32(IntegerValue(v.n)))
    case MaxExtent => o.(maxExtent := Some(Box(v.items[0].n, v.items[1].n, v.items[2].n, v.items[3].n)))
    case ImageScaling => o.(scalingMethod := methods[v.s])
    case ImageFormat => o.(imageFormat := v.s)
  }

  /** Reads the options in `keys` order; an absent option keeps its current value. */
  function ReadOptions(mode: Mode, keys: seq<OptionKey>, props: map<string, JsValue>, methods: map<string, nat>, o: Options)
    : Result<Options, CompositeError>
    decreases |keys|
  {
    if keys == [] then Success(o)
    else
      var k := keys[0];
      if Name(k) !in props then ReadOptions(mode, keys[1..], props, methods, o)
      else
        match Check(mode, k, props[Name(k)], methods)
        case Some(p) => Failure(BadOption(k, p))
        case None => ReadOptions(mode, keys[1..], props, methods, Store(k, props[Name(k)], methods, o))
  }

  /**
   * The ranges every accepted set of options lies in: no threshold below
   * zero and no scale below (or, synchronously, at) zero, where NaN is
   * neither.
   */
  predicate InRange(mode: Mode, o: Options) {
    && !Below(o.areaThreshold, 0.0)
    && !Below(o.simplifyDistance, 0.0)
    && !Below(o.scaleDenominator, 0.0)
    && 0 <= o.fillType < FillTypeMax
    && o.threadingMode in {LaunchAsync, LaunchDeferred, LaunchAsync + LaunchDeferred}
    && (if mode == Sync then !AtMost(o.scaleFactor, 0.0) else !Below(o.scaleFactor, 0.0))
    && o.offsetX < TwoTo32 && o.offsetY < TwoTo32
  }

  /** The value of one option's field, whatever its type; `NoSetting` for a value of the wrong kind. */
  datatype Setting =
    | NumSetting(n: Num)
    | IntSetting(i: int)
    | FlagSetting(b: bool)
    | ExtentSetting(e: Option<Box>)
    | TextSetting(s: string)
    | NoSetting

  /** The field of `o` that option `k` sets. */
  function FieldOf(k: OptionKey, o: Options): Setting {
    match k
    case AreaThreshold => NumSetting(o.areaThreshold)
    case SimplifyDistance => NumSetting(o.simplifyDistance)
    case ScaleDenominator => NumSetting(o.scaleDenominator)
    case Scale => NumSetting(o.scaleFactor)
    case StrictlySimple => FlagSetting(o.strictlySimple)
    case MultiPolygonUnion => FlagSetting(o.multiPolygonUnion)
    case Reencode => FlagSetting(o.reencode)
    case ProcessAllRings => FlagSetting(o.processAllRings)
    case FillType => IntSetting(o.fillType)
    case ThreadingMode => IntSetting(o.threadingMode)
    case OffsetX => IntSetting(o.offsetX)
    case OffsetY => IntSetting(o.offsetY)
    case MaxExtent => ExtentSetting(o.maxExtent)
    case ImageScaling => IntSetting(o.scalingMethod)
    case ImageFormat => TextSetting(o.imageFormat)
  }

  /**
   * The value option `k` takes from `v`: doubles as given, the two
   * enumerations narrowed to a 32-bit `int`, the offsets wrapped to a
   * 32-bit `unsigned`, `max_extent` from its four numbers and
   * `image_scaling` through the table of methods.
   */
  function OptionValue(k: OptionKey, v: JsValue, methods: map<string, nat>): Setting {
    match k
    case AreaThreshold | SimplifyDistance | ScaleDenominator | Scale =>
      if v.JsNumber? then NumSetting(v.n) else NoSetting
    case StrictlySimple | MultiPolygonUnion | Reencode | ProcessAllRings =>
      if v.JsBool? then FlagSetting(v.b) else NoSetting
    case FillType | ThreadingMode =>
      if v.JsNumber? then IntSetting(ToInt32(IntegerValue(v.n))) else NoSetting
    case OffsetX | OffsetY =>
      if v.JsNumber? then IntSetting(ToUint32(IntegerValue(v.n))) else NoSetting
    case MaxExtent =>
      if v.JsArray? && |v.items| == 4 && forall i :: 0 <= i < 4 ==> v.items[i].JsNumber?
      then ExtentSetting(Some(Box(v.items[0].n, v.items[1].n, v.items[2].n, v.items[3].n)))
      else NoSetting
    case ImageScaling =>
      if v.JsString? && v.s in methods then IntSetting(methods[v.s]) else NoSetting
    case ImageFormat =>
      if v.JsString? then TextSetting(v.s) else NoSetting
  }

  /** Storing option `k` sets its own field to the option's value and leaves every other field alone. */
  lemma StoreSetsField(mode: Mode, k: OptionKey, v: JsValue, methods: map<string, nat>, o: Options, j: OptionKey)
    requires Check(mode, k, v, methods).None?
    ensures FieldOf(j, Store(k, v, methods, o)) == if j == k then OptionValue(k, v, methods) else FieldOf(j, o)
  {
  }

  /**
   * After reading `keys`, option `j`'s field holds the value given for it
   * when `j` is among the keys and present, and its old value otherwise.
   */
  lemma {:induction false} ReadSetsField(mode: Mode, keys: seq<OptionKey>, props: map<string, JsValue>, methods: map<string, nat>, o: Options, j: OptionKey)
    requires ReadOptions(mode, keys, props, methods, o).Success?
    ensures FieldOf(j, ReadOptions(mode, keys, props, methods, o).value) ==
      if j in keys && Name(j) in props then OptionValue(j, props[Name(j)], methods) else FieldOf(j, o)
    decreases |keys|
  {
    if keys != [] {
      var k := keys[0];
      var rest := keys[1..];
      assert j in keys <==> k == j || j in rest;
      if Name(k) !in props {
        ReadSetsField(mode, rest, props, methods, o, j);
      } else {
        var v := props[Name(k)];
        StoreSetsField(mode, k, v, methods, o, j);
        ReadSetsField(mode, rest, props, methods, Store(k, v, methods, o), j);
      }
    }
  }

  /** Every field of `o` holds the value `props` gives its option, or the one of `base` when the option is absent. */
  predicate FieldsFrom(o: Options, props: map<string, JsValue>, methods: map<string, nat>, base: Options) {
    forall j :: FieldOf(j, o) == if Name(j) in props then OptionValue(j, props[Name(j)], methods) else FieldOf(j, base)
  }

  /** Reading the options in a form's order sets every option that is present, and only those. */
  lemma ReadSetsEveryField(mode: Mode, props: map<string, JsValue>, methods: map<string, nat>, o: Options)
    requires ReadOptions(mode, Order(mode), props, methods, o).Success?
    ensures FieldsFrom(ReadOptions(mode, Order(mode), props, methods, o).value, props, methods, o)
  {
    forall j
      ensures FieldOf(j, ReadOptions(mode, Order(mode), props, methods, o).value) ==
        if Name(j) in props then OptionValue(j, props[Name(j)], methods) else FieldOf(j, o)
    {
      OrdersHoldEveryKey(j);
      ReadSetsField(mode, Order(mode), props, methods, o, j);
    }
  }

  /**
   * The options of a composite call: `tiles` is the first argument, and
   * `optionsArg` the options argument if one was passed (for the
   * asynchronous form, one before the callback), with `props` its
   * properties; `methods` maps scaling method names to their codes, and
   * `isVectorTile` tells the tile objects apart from other values.
   */
  function ParseCompositeOptions(mode: Mode, tiles: JsValue, optionsArg: Option<JsValue>, props: map<string, JsValue>,
                                 methods: map<string, nat>, bilinear: nat, isVectorTile: JsValue -> bool)
    : (r: Result<Options, CompositeError>)
    ensures r.Success? ==> InRange(mode, r.value)
    ensures r.Success? ==> tiles.JsArray? && |tiles.items| >= 1 && forall i :: 0 <= i < |tiles.items| ==> isVectorTile(tiles.items[i])
    ensures tiles.JsArray? && |tiles.items| >= 1 && optionsArg.Some? && !IsObject(optionsArg.value) ==> r == Failure(OptionsNotObject)
    ensures r.Success? && optionsArg.None? ==> r.value == Defaults(bilinear)
    ensures r.Success? && optionsArg.Some? ==> FieldsFrom(r.value, props, methods, Defaults(bilinear))
  {
    if !tiles.JsArray? then Failure(TilesNotArray)
    else if |tiles.items| < 1 then Failure(NoTiles)
    else
      var read :=
        if optionsArg.None? then Success(Defaults(bilinear))
        else if !IsObject(optionsArg.value) then Failure(OptionsNotObject)
        else ReadOptions(mode, Order(mode), props, methods, Defaults(bilinear));
      ReadKeepsRange(mode, Order(mode), props, methods, Defaults(bilinear));
      if read.Failure? then read
      else if exists i :: 0 <= i < |tiles.items| && !isVectorTile(tiles.items[i]) then Failure(NotVectorTiles)
      else if optionsArg.None? then read
      else
        ReadSetsEveryField(mode, props, methods, Defaults(bilinear));
        read
  }

  // ---------------------------------------------------------------------
  // Properties

  /** Storing a value that passed its check keeps every value in its range. */
  lemma StoreKeepsRange(mode: Mode, k: OptionKey, v: JsValue, methods: map<string, nat>, o: Options)
    requires InRange(mode, o)
    requires Check(mode, k, v, methods).None?
    ensures InRange(mode, Store(k, v, methods, o))
  {
    if k == ThreadingMode {
      var t := ToInt32(IntegerValue(v.n));
      assert t == LaunchAsync || t == LaunchDeferred || t == LaunchAsync + LaunchDeferred;
    }
  }

  /** Reading options keeps every value in its range. */
  lemma {:induction false} ReadKeepsRange(mode: Mode, keys: seq<OptionKey>, props: map<string, JsValue>, methods: map<string, nat>, o: Options)
    requires InRange(mode, o)
    ensures ReadOptions(mode, keys, props, methods, o).Success? ==> InRange(mode, ReadOptions(mode, keys, props, methods, o).value)
    decreases |keys|
  {
    if keys != [] {
      var k := keys[0];
      if Name(k) !in props {
        ReadKeepsRange(mode, keys[1..], props, methods, o);
      } else if Check(mode, k, props[Name(k)], methods).None? {
        StoreKeepsRange(mode, k, props[Name(k)], methods, o);
        ReadKeepsRange(mode, keys[1..], props, methods, Store(k, props[Name(k)], methods, o));
      }
    }
  }

  /** Every option of `keys` that is present passes its check. */
  predicate AllPass(mode: Mode, keys: seq<OptionKey>, props: map<string, JsValue>, methods: map<string, nat>) {
    forall i :: 0 <= i < |keys| && Name(keys[i]) in props ==> Check(mode, keys[i], props[Name(keys[i])], methods).None?
  }

  /** Reading succeeds exactly when every present option passes its own check, whatever the order. */
  lemma {:induction false} ReadSucceedsIffAllPass(mode: Mode, keys: seq<OptionKey>, props: map<string, JsValue>, methods: map<string, nat>, o: Options)
    ensures ReadOptions(mode, keys, props, methods, o).Success? <==> AllPass(mode, keys, props, methods)
    decreases |keys|
  {
    if keys != [] {
      var k := keys[0];
      var rest := keys[1..];
      assert forall i :: 0 < i < |keys| ==> keys[i] == rest[i - 1];
      if Name(k) !in props {
        ReadSucceedsIffAllPass(mode, rest, props, methods, o);
        if AllPass(mode, rest, props, methods) {
          forall i | 0 <= i < |keys| && Name(keys[i]) in props
            ensures Check(mode, keys[i], props[Name(keys[i])], methods).None?
          {
            assert i > 0;
            assert keys[i] == rest[i - 1];
          }
        }
      } else if Check(mode, k, props[Name(k)], methods).None? {
        ReadSucceedsIffAllPass(mode, rest, props, methods, Store(k, props[Name(k)], methods, o));
        if AllPass(mode, rest, props, methods) {
          forall i | 0 <= i < |keys| && Name(keys[i]) in props
            ensures Check(mode, keys[i], props[Name(keys[i])], methods).None?
          {
            if i > 0 {
              assert keys[i] == rest[i - 1];
            }
          }
        }
      } else {
        assert !AllPass(mode, keys, props, methods) by {
          assert keys[0] == k;
        }
      }
    }
  }

  /** The two checks differ only for `scale`, which the synchronous form also refuses at zero. */
  lemma CheckSyncVersusAsync(k: OptionKey, v: JsValue, methods: map<string, nat>)
    ensures Check(Sync, k, v, methods).None? <==>
      Check(Async, k, v, methods).None? && !(k == Scale && v == JsNumber(Finite(0.0)))
  {
  }

  lemma OrdersHoldEveryKey(k: OptionKey)
    ensures k in SyncOrder && k in AsyncOrder
  {
  }

  /** Whether the options object gives `scale` as zero. */
  predicate ScaleZero(props: map<string, JsValue>) {
    "scale" in props && props["scale"] == JsNumber(Finite(0.0))
  }

  lemma {:induction false} AllPassSyncIffAsync(props: map<string, JsValue>, methods: map<string, nat>)
    ensures AllPass(Sync, SyncOrder, props, methods) <==> AllPass(Async, AsyncOrder, props, methods) && !ScaleZero(props)
  {
    if AllPass(Sync, SyncOrder, props, methods) {
      forall i | 0 <= i < |AsyncOrder| && Name(AsyncOrder[i]) in props
        ensures Check(Async, AsyncOrder[i], props[Name(AsyncOrder[i])], methods).None?
      {
        var k := AsyncOrder[i];
        OrdersHoldEveryKey(k);
        var j :| 0 <= j < |SyncOrder| && SyncOrder[j] == k;
        CheckSyncVersusAsync(k, props[Name(k)], methods);
      }
      assert !ScaleZero(props) by {
        if ScaleZero(props) {
          assert SyncOrder[6] == Scale;
          CheckSyncVersusAsync(Scale, props["scale"], methods);
        }
      }
    }
    if AllPass(Async, AsyncOrder, props, methods) && !ScaleZero(props) {
      forall i | 0 <= i < |SyncOrder| && Name(SyncOrder[i]) in props
        ensures Check(Sync, SyncOrder[i], props[Name(SyncOrder[i])], methods).None?
      {
        var k := SyncOrder[i];
        OrdersHoldEveryKey(k);
        var j :| 0 <= j < |AsyncOrder| && AsyncOrder[j] == k;
        CheckSyncVersusAsync(k, props[Name(k)], methods);
      }
    }
  }

  /**
   * The synchronous form accepts a set of options exactly when the
   * asynchronous one does and `scale` is not given as 0.
   */
  lemma SyncAcceptsIffAsyncAcceptsAndScaleNotZero(tiles: JsValue, optionsArg: Option<JsValue>, props: map<string, JsValue>, methods: map<string, nat>, bilinear: nat, isVectorTile: JsValue -> bool)
    ensures ParseCompositeOptions(Sync, tiles, optionsArg, props, methods, bilinear, isVectorTile).Success? <==>
      ParseCompositeOptions(Async, tiles, optionsArg, props, methods, bilinear, isVectorTile).Success? &&
      !(optionsArg.Some? && ScaleZero(props))
  {
    if tiles.JsArray? && |tiles.items| >= 1 && optionsArg.Some? && IsObject(optionsArg.value) {
      ReadSucceedsIffAllPass(Sync, SyncOrder, props, methods, Defaults(bilinear));
      ReadSucceedsIffAllPass(Async, AsyncOrder, props, methods, Defaults(bilinear));
      AllPassSyncIffAsync(props, methods);
    }
  }

  /** An options object without any of the fifteen properties gives the defaults. */
  lemma {:induction false} AbsentOptionsKeepValues(mode: Mode, keys: seq<OptionKey>, props: map<string, JsValue>, methods: map<string, nat>, o: Options)
    requires forall k :: k in keys ==> Name(k) !in props
    ensures ReadOptions(mode, keys, props, methods, o) == Success(o)
    decreases |keys|
  {
    if keys != [] {
      assert keys[0] in keys;
      AbsentOptionsKeepValues(mode, keys[1..], props, methods, o);
    }
  }

  /** An options object naming none of the options changes nothing: the call behaves as without one. */
  lemma UnknownOptionsIgnored(mode: Mode, tiles: JsValue, props: map<string, JsValue>, methods: map<string, nat>, bilinear: nat, isVectorTile: JsValue -> bool)
    requires forall k: OptionKey :: Name(k) !in props
    ensures ParseCompositeOptions(mode, tiles, Some(JsObject), props, methods, bilinear, isVectorTile) ==
      ParseCompositeOptions(mode, tiles, None, props, methods, bilinear, isVectorTile)
  {
    AbsentOptionsKeepValues(mode, Order(mode), props, methods, Defaults(bilinear));
  }

  /** An accepted `scale` is the scale factor used; without one it is 1. */
  lemma ScaleIsStored(mode: Mode, tiles: JsValue, props: map<string, JsValue>, methods: map<string, nat>, bilinear: nat, isVectorTile: JsValue -> bool)
    requires ParseCompositeOptions(mode, tiles, Some(JsObject), props, methods, bilinear, isVectorTile).Success?
    ensures var r := ParseCompositeOptions(mode, tiles, Some(JsObject), props, methods, bilinear, isVectorTile).value;
      if "scale" in props then props["scale"].JsNumber? && r.scaleFactor == props["scale"].n else r.scaleFactor == Finite(1.0)
  {
    var r := ParseCompositeOptions(mode, tiles, Some(JsObject), props, methods, bilinear, isVectorTile).value;
    assert FieldOf(Scale, r) == if Name(Scale) in props then OptionValue(Scale, props[Name(Scale)], methods) else FieldOf(Scale, Defaults(bilinear));
  }

  /** A negative `offset_x` wraps around: -1 is stored as 2^32 - 1. */
  lemma NegativeOffsetWraps(methods: map<string, nat>)
    ensures Check(Sync, OffsetX, JsNumber(Finite(-1.0)), methods).None?
    ensures OptionValue(OffsetX, JsNumber(Finite(-1.0)), methods) == IntSetting(TwoTo32 - 1)
  {
  }
}
