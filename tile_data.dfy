/**
 * `VectorTile.getDataSync`: the options that choose between the raw
 * tile bytes and a gzip-compressed copy, and the buffer returned.
 */
module TileData {
  import opened Wrappers
  import opened Js

  type byte = x: int | 0 <= x < 256

  /** zlib's `Z_DEFAULT_COMPRESSION`. */
  const DefaultLevel: int := -1

  /** zlib's compression strategies, as section "Advanced functions" of zlib.h numbers them. */
  datatype Strategy = DefaultStrategy | Filtered | HuffmanOnly | Rle | Fixed

  function StrategyCode(s: Strategy): (c: int)
    ensures 0 <= c <= 4
  {
    match s
    case DefaultStrategy => 0
    case Filtered => 1
    case HuffmanOnly => 2
    case Rle => 3
    case Fixed => 4
  }

  /** The name the `strategy` option gives each strategy. */
  function StrategyName(s: Strategy): string {
    match s
    case DefaultStrategy => "DEFAULT"
    case Filtered => "FILTERED"
    case HuffmanOnly => "HUFFMAN_ONLY"
    case Rle => "RLE"
    case Fixed => "FIXED"
  }

  /** The strategy a `strategy` option names, if any. */
  function StrategyOf(name: string): Option<Strategy> {
    if name == "FILTERED" then Some(Filtered)
    else if name == "HUFFMAN_ONLY" then Some(HuffmanOnly)
    else if name == "RLE" then Some(Rle)
    else if name == "FIXED" then Some(Fixed)
    else if name == "DEFAULT" then Some(DefaultStrategy)
    else None
  }

  /** Names and strategies correspond one to one. */
  lemma StrategyNamesRoundTrip(s: Strategy, name: string)
    ensures StrategyOf(StrategyName(s)) == Some(s)
    ensures StrategyOf(name) == Some(s) ==> StrategyName(s) == name
  {
  }

  datatype DataOptions = DataOptions(compress: bool, level: int, strategy: Strategy)

  datatype DataError =
    | OptionsNotObject
    | CompressionNotString
    | LevelNotNumber
    | LevelOutOfRange
    | StrategyNotString
    | UnknownStrategy
    | TooLarge

  /** The compression level a `level` number gives once narrowed to a C `int`. */
  function LevelOf(v: Num): int {
    ToInt32(IntegerValue(v))
  }

  /**
   * The options of `getDataSync`: `optionsArg` is the first argument if
   * one was passed and `props` its properties. Any `compression` string
   * other than "gzip" means no compression.
   */
  function ParseDataOptions(optionsArg: Option<JsValue>, props: map<string, JsValue>): (r: Result<DataOptions, DataError>)
    ensures optionsArg.None? ==> r == Success(DataOptions(false, DefaultLevel, DefaultStrategy))
    ensures optionsArg.Some? && !IsObject(optionsArg.value) ==> r == Failure(OptionsNotObject)
    ensures r.Success? ==> r.value.level == DefaultLevel || 0 <= r.value.level <= 9
    ensures r.Success? ==> (r.value.compress <==> optionsArg.Some? && "compression" in props && props["compression"] == JsString("gzip"))
    ensures r.Success? && optionsArg.Some? && "strategy" in props ==> props["strategy"] == JsString(StrategyName(r.value.strategy))
    ensures optionsArg.Some? && "level" in props && props["level"].JsNumber? && !(0 <= LevelOf(props["level"].n) <= 9) ==> r.Failure?
    ensures r.Success? && optionsArg.Some? && "level" in props ==> props["level"].JsNumber? && r.value.level == LevelOf(props["level"].n)
    ensures r.Success? && (optionsArg.None? || "level" !in props) ==> r.value.level == DefaultLevel
    ensures r.Success? && (optionsArg.None? || "strategy" !in props) ==> r.value.strategy == DefaultStrategy
    ensures optionsArg.Some? && IsObject(optionsArg.value) && "compression" in props && !props["compression"].JsString? ==>
      r == Failure(CompressionNotString)
    ensures (optionsArg.Some? && IsObject(optionsArg.value) && !("compression" in props && !props["compression"].JsString?) &&
      "level" in props && !props["level"].JsNumber?) ==> r == Failure(LevelNotNumber)
  {
    if optionsArg.None? then Success(DataOptions(false, DefaultLevel, DefaultStrategy))
    else if !IsObject(optionsArg.value) then Failure(OptionsNotObject)
    else if "compression" in props && !props["compression"].JsString? then Failure(CompressionNotString)
    else
      var compress := "compression" in props && props["compression"].s == "gzip";
      if "level" in props && !props["level"].JsNumber? then Failure(LevelNotNumber)
      else if "level" in props && !(0 <= LevelOf(props["level"].n) <= 9) then Failure(LevelOutOfRange)
      else
        var level := if "level" in props then LevelOf(props["level"].n) else DefaultLevel;
        if "strategy" !in props then Success(DataOptions(compress, level, DefaultStrategy))
        else if !props["strategy"].JsString? then Failure(StrategyNotString)
        else match StrategyOf(props["strategy"].s)
          case None => Failure(UnknownStrategy)
          case Some(s) =>
            StrategyNamesRoundTrip(s, props["strategy"].s);
            Success(DataOptions(compress, level, s))
  }

  /**
   * The buffer `getDataSync` returns for the tile bytes `data`;
   * `maxLength` is the largest buffer size the runtime allows plus one,
   * and `compress` the zlib routine, taking the level and strategy code.
   */
  function GetData(data: seq<byte>, maxLength: nat, options: DataOptions,
                   compress: (seq<byte>, int, int) -> seq<byte>): (r: Result<seq<byte>, DataError>)
    ensures |data| == 0 ==> r == Success([])
    ensures r == Failure(TooLarge) <==> |data| >= maxLength && |data| > 0
    ensures 0 < |data| < maxLength && !options.compress ==> r == Success(data)
    ensures 0 < |data| < maxLength && options.compress ==>
      r == Success(compress(data, options.level, StrategyCode(options.strategy)))
  {
    if |data| == 0 then Success([])
    else if |data| >= maxLength then Failure(TooLarge)
    else if !options.compress then Success(data)
    else Success(compress(data, options.level, StrategyCode(options.strategy)))
  }

  /** `getDataSync` as a whole: options first, then the buffer. */
  function GetDataSync(data: seq<byte>, maxLength: nat, optionsArg: Option<JsValue>, props: map<string, JsValue>,
                       compress: (seq<byte>, int, int) -> seq<byte>): (r: Result<seq<byte>, DataError>)
    ensures ParseDataOptions(optionsArg, props).Failure? ==> r.Failure? && r.error != TooLarge
  {
    match ParseDataOptions(optionsArg, props)
    case Failure(e) => Failure(e)
    case Success(o) => GetData(data, maxLength, o, compress)
  }

  /** An empty tile gives an empty buffer whatever compression was asked for. */
  lemma EmptyTileGivesEmptyBuffer(maxLength: nat, optionsArg: Option<JsValue>, props: map<string, JsValue>,
                                  compress: (seq<byte>, int, int) -> seq<byte>)
    requires ParseDataOptions(optionsArg, props).Success?
    ensures GetDataSync([], maxLength, optionsArg, props, compress) == Success([])
  {
  }

  /** Without the "gzip" compression option, the buffer holds the tile bytes unchanged. */
  lemma UncompressedIsRaw(data: seq<byte>, maxLength: nat, optionsArg: Option<JsValue>, props: map<string, JsValue>,
                          compress: (seq<byte>, int, int) -> seq<byte>)
    requires |data| < maxLength
    requires ParseDataOptions(optionsArg, props).Success?
    requires !("compression" in props && props["compression"] == JsString("gzip"))
    ensures GetDataSync(data, maxLength, optionsArg, props, compress) == Success(data)
  {
  }

  /**
   * With "gzip" and an accepted level, whatever the other options, the
   * buffer is the tile compressed at that narrowed level.
   */
  lemma GzipUsesLevel(data: seq<byte>, maxLength: nat, props: map<string, JsValue>,
                      compress: (seq<byte>, int, int) -> seq<byte>)
    requires 0 < |data| < maxLength
    requires "compression" in props && props["compression"] == JsString("gzip")
    requires "level" in props && props["level"].JsNumber?
    requires ParseDataOptions(Some(JsObject), props).Success?
    ensures GetDataSync(data, maxLength, Some(JsObject), props, compress) ==
      Success(compress(data, LevelOf(props["level"].n), StrategyCode(ParseDataOptions(Some(JsObject), props).value.strategy)))
  {
  }

  /** A level is accepted exactly when it lies in 0..9 once narrowed to an `int`. */
  lemma LevelAcceptedIffInRange(v: Num, props: map<string, JsValue>)
    requires props == map["level" := JsNumber(v)]
    ensures ParseDataOptions(Some(JsObject), props).Success? <==> 0 <= LevelOf(v) <= 9
    ensures ParseDataOptions(Some(JsObject), props).Success? ==> ParseDataOptions(Some(JsObject), props).value.level == LevelOf(v)
  {
  }

  /**
   * The narrowing lets a level far outside 0..9 through: 2^32 + 5 is
   * taken as level 5.
   */
  lemma HugeLevelWrapsIntoRange()
    ensures ParseDataOptions(Some(JsObject), map["level" := JsNumber(Finite(4294967301.0))]) ==
      Success(DataOptions(false, 5, DefaultStrategy))
  {
    assert Truncate(4294967301.0) == 4294967301;
    assert ToInt32(4294967301) == 5;
  }

  /**
   * `IntegerValue` saturates before the narrowing: the level 2^64 becomes
   * the largest 64-bit integer, which narrows to -1 and is rejected.
   */
  lemma SaturatedLevelRejected()
    ensures LevelOf(Finite(18446744073709551616.0)) == -1
    ensures ParseDataOptions(Some(JsObject), map["level" := JsNumber(Finite(18446744073709551616.0))]) ==
      Failure(LevelOutOfRange)
  {
    assert Truncate(18446744073709551616.0) == 18446744073709551616;
    assert ToInt32(MaxInt64) == -1;
  }

  /** A NaN level is taken as level 0, no compression effort. */
  lemma NaNLevelIsZero()
    ensures ParseDataOptions(Some(JsObject), map["level" := JsNumber(NaN)]) ==
      Success(DataOptions(false, 0, DefaultStrategy))
  {
  }

  /** An array passes as the options object; without the options it lacks, the tile bytes come back raw. */
  lemma ArrayOptionsGiveRawBytes(data: seq<byte>, maxLength: nat, compress: (seq<byte>, int, int) -> seq<byte>)
    requires |data| < maxLength
    ensures ParseDataOptions(Some(JsArray([])), map[]) == Success(DataOptions(false, DefaultLevel, DefaultStrategy))
    ensures GetDataSync(data, maxLength, Some(JsArray([])), map[], compress) == Success(data)
  {
  }
}
