/**
 * A vector tile's registration: its z/x/y address, its tile size and its
 * buffer size (`new VectorTile(z, x, y, options)`, the `tileSize` and
 * `bufferSize` properties). Every accepted state keeps a positive tile
 * size and a positive `tile_size + 2 * buffer_size`.
 */
module Registration {
  import opened Wrappers
  import opened Js

  const DefaultTileSize: nat := 4096
  const DefaultBufferSize: int := 128

  /** The sizes a tile may carry. */
  predicate ValidSizes(tileSize: int, bufferSize: int) {
    tileSize > 0 && tileSize + 2 * bufferSize > 0
  }

  datatype Registration = Registration(z: nat, x: nat, y: nat, tileSize: nat, bufferSize: int)

  datatype NewError =
    | NotConstructCall         // called without `new`
    | MissingCoordinates       // fewer than three arguments
    | CoordinatesNotNumbers
    | NegativeCoordinates
    | OptionsNotObject
    | TileSizeNotNumber
    | TileSizeNotPositive
    | BufferSizeNotNumber
    | NegativeBufferTooLarge   // tile_size + 2 * buffer_size <= 0

  datatype SetterError =
    | NotANumber
    | TileSizeNotGreaterThanZero
    | BufferTooNegative
    | NotRepresentable         // NaN, an infinity, or outside the stored integer type

  /** A number argument as the constructor reads it: truncated, then narrowed to a C++ `int`. */
  function IntArg(v: JsValue): int
    requires v.JsNumber?
  {
    ToInt32(IntegerValue(v.n))
  }

  /**
   * The `tile_size` option: absent gives the default; present it must be a
   * number whose narrowed value is positive.
   */
  function TileSizeOption(options: map<string, JsValue>): (r: Result<nat, NewError>)
    ensures r.Success? ==> r.value > 0
    ensures "tile_size" !in options ==> r == Success(DefaultTileSize)
    ensures "tile_size" in options ==>
      (r.Success? <==> options["tile_size"].JsNumber? && IntArg(options["tile_size"]) > 0)
    ensures "tile_size" in options && r.Success? ==> r.value == IntArg(options["tile_size"])
  {
    if "tile_size" !in options then Success(DefaultTileSize)
    else
      var opt := options["tile_size"];
      if !opt.JsNumber? then Failure(TileSizeNotNumber)
      else if IntArg(opt) <= 0 then Failure(TileSizeNotPositive)
      else Success(IntArg(opt))
  }

  /** The `buffer_size` option: absent gives the default; present it must be a number. */
  function BufferSizeOption(options: map<string, JsValue>): (r: Result<int, NewError>)
    ensures "buffer_size" !in options ==> r == Success(DefaultBufferSize)
    ensures r.Success? ==> -TwoTo31 <= r.value < TwoTo31
    ensures "buffer_size" in options ==> (r.Success? <==> options["buffer_size"].JsNumber?)
    ensures "buffer_size" in options && r.Success? ==> r.value == IntArg(options["buffer_size"])
  {
    if "buffer_size" !in options then Success(DefaultBufferSize)
    else
      var opt := options["buffer_size"];
      if !opt.JsNumber? then Failure(BufferSizeNotNumber)
      else Success(IntArg(opt))
  }

  /**
   * `VectorTile::New`: `args` are the positional arguments and `options`
   * the properties of the fourth one, when it is an object.
   */
  function NewTile(isConstructCall: bool, args: seq<JsValue>, options: map<string, JsValue>): (r: Result<Registration, NewError>)
    ensures r.Success? ==> ValidSizes(r.value.tileSize, r.value.bufferSize)
    ensures r.Success? ==>
      && |args| >= 3 && args[0].JsNumber? && args[1].JsNumber? && args[2].JsNumber?
      && r.value.z == IntArg(args[0]) && r.value.x == IntArg(args[1]) && r.value.y == IntArg(args[2])
    ensures r.Success? && |args| > 3 ==> IsObject(args[3])
    ensures r.Success? ==>
      var opts := if |args| > 3 then options else map[];
      TileSizeOption(opts) == Success(r.value.tileSize) && BufferSizeOption(opts) == Success(r.value.bufferSize)
  {
    if !isConstructCall then Failure(NotConstructCall)
    else if |args| < 3 then Failure(MissingCoordinates)
    else if !(args[0].JsNumber? && args[1].JsNumber? && args[2].JsNumber?) then Failure(CoordinatesNotNumbers)
    else
      var z, x, y := IntArg(args[0]), IntArg(args[1]), IntArg(args[2]);
      if z < 0 || x < 0 || y < 0 then Failure(NegativeCoordinates)
      else if |args| > 3 && !IsObject(args[3]) then Failure(OptionsNotObject)
      else
        var opts := if |args| > 3 then options else map[];
        match TileSizeOption(opts)
        case Failure(e) => Failure(e)
        case Success(tileSize) =>
          match BufferSizeOption(opts)
          case Failure(e) => Failure(e)
          case Success(bufferSize) =>
            if tileSize + 2 * bufferSize <= 0 then Failure(NegativeBufferTooLarge)
            else Success(Registration(z, x, y, tileSize, bufferSize))
  }

  /** Three non-negative coordinates and no options give the default sizes. */
  lemma NewWithDefaults(z: nat, x: nat, y: nat, options: map<string, JsValue>)
    requires z < TwoTo31 && x < TwoTo31 && y < TwoTo31
    ensures NewTile(true, [JsNumber(Finite(z as real)), JsNumber(Finite(x as real)), JsNumber(Finite(y as real))], options)
      == Success(Registration(z, x, y, DefaultTileSize, DefaultBufferSize))
  {
    var args := [JsNumber(Finite(z as real)), JsNumber(Finite(x as real)), JsNumber(Finite(y as real))];
    assert Truncate(z as real) == z && Truncate(x as real) == x && Truncate(y as real) == y;
    assert IntArg(args[0]) == z && IntArg(args[1]) == x && IntArg(args[2]) == y;
  }

  /** The two size options, when in range and valid together, are the sizes the tile gets. */
  lemma NewWithSizes(z: nat, x: nat, y: nat, tileSize: nat, bufferSize: int)
    requires z < TwoTo31 && x < TwoTo31 && y < TwoTo31
    requires tileSize < TwoTo31 && -TwoTo31 <= bufferSize < TwoTo31 && ValidSizes(tileSize, bufferSize)
    ensures NewTile(true, [JsNumber(Finite(z as real)), JsNumber(Finite(x as real)), JsNumber(Finite(y as real)), JsObject],
                    map["tile_size" := JsNumber(Finite(tileSize as real)), "buffer_size" := JsNumber(Finite(bufferSize as real))])
      == Success(Registration(z, x, y, tileSize, bufferSize))
  {
  }

  /** An array passes as the options object: it has no size properties, so the defaults apply. */
  lemma NewAcceptsArrayOptions()
    ensures NewTile(true, [JsNumber(Finite(0.0)), JsNumber(Finite(0.0)), JsNumber(Finite(0.0)), JsArray([])], map[])
      == Success(Registration(0, 0, 0, DefaultTileSize, DefaultBufferSize))
  {
    assert Truncate(0.0) == 0;
  }

  /** A negative coordinate is always rejected. */
  lemma NegativeCoordinateRejected(args: seq<JsValue>, options: map<string, JsValue>, k: nat)
    requires k < 3 <= |args| && args[k].JsNumber? && IntArg(args[k]) < 0
    ensures NewTile(true, args, options).Failure?
  {
  }

  /**
   * With well-formed arguments and numeric size options, construction is
   * rejected exactly when `tile_size + 2 * buffer_size <= 0`.
   */
  lemma NewRejectsExactlyBadBuffer(args: seq<JsValue>, options: map<string, JsValue>)
    requires |args| == 4 && args[3] == JsObject
    requires forall k :: 0 <= k < 3 ==> args[k].JsNumber? && IntArg(args[k]) >= 0
    requires "tile_size" in options && options["tile_size"].JsNumber? && IntArg(options["tile_size"]) > 0
    requires "buffer_size" in options && options["buffer_size"].JsNumber?
    ensures NewTile(true, args, options).Success? <==>
      IntArg(options["tile_size"]) + 2 * IntArg(options["buffer_size"]) > 0
  {
    assert args[0].JsNumber? && args[1].JsNumber? && args[2].JsNumber?;
    assert IntArg(args[0]) >= 0 && IntArg(args[1]) >= 0 && IntArg(args[2]) >= 0;
  }

  // ---------------------------------------------------------------------
  // The size setters

  /** The largest value the stored tile size (a C++ `std::uint32_t`) holds. */
  const MaxTileSize: int := TwoTo32 - 1

  /** The stored buffer size is a C++ `std::int32_t`. */
  const MinBufferSize: int := -TwoTo31
  const MaxBufferSize: int := TwoTo31 - 1

  /**
   * The `bufferSize` setter as written: it rejects the number only when
   * the double comparison `tile_size + 2 * value <= 0` holds, so NaN and
   * +Infinity pass; the accepted double is then converted to the stored
   * integer.
   */
  function CheckBufferSizeAsWritten(tileSize: nat, value: JsValue): (r: Result<Num, SetterError>)
    ensures r.Success? <==> (value.JsNumber? &&
      (value.n.NaN? || value.n.PosInf? || (value.n.Finite? && tileSize as real + 2.0 * value.n.r > 0.0)))
    ensures r.Success? ==> r.value == value.n
  {
    if !value.JsNumber? then Failure(NotANumber)
    else if AtMost(PlusTwice(tileSize, value.n), 0.0) then Failure(BufferTooNegative)
    else Success(value.n)
  }

  /**
   * The setter as written accepts NaN and +Infinity, for which `tile_size +
   * 2 * value > 0` does not hold and whose conversion to the stored
   * integer is undefined.
   */
  lemma BufferSizeAcceptsNaN(tileSize: nat)
    ensures CheckBufferSizeAsWritten(tileSize, JsNumber(NaN)) == Success(NaN)
    ensures CheckBufferSizeAsWritten(tileSize, JsNumber(PosInf)) == Success(PosInf)
    ensures !(PlusTwice(tileSize, NaN).Finite? && PlusTwice(tileSize, NaN).r > 0.0)
    ensures DoubleToInt(NaN, MinBufferSize, MaxBufferSize).None? && DoubleToInt(PosInf, MinBufferSize, MaxBufferSize).None?
  {
  }

  /**
   * The `bufferSize` setter, corrected: besides the source's test, the
   * number must be one the stored `std::int32_t` can take, so NaN, the
   * infinities and out-of-range values are rejected.
   */
  function CheckBufferSize(tileSize: nat, value: JsValue): (r: Result<int, SetterError>)
    ensures r.Success? <==> (value.JsNumber? && value.n.Finite? && tileSize as real + 2.0 * value.n.r > 0.0 &&
      MinBufferSize <= Truncate(value.n.r) <= MaxBufferSize)
    ensures r.Success? ==> r.value == Truncate(value.n.r)
    ensures r.Success? ==> CheckBufferSizeAsWritten(tileSize, value) == Success(value.n)
    ensures value.JsNumber? && CheckBufferSizeAsWritten(tileSize, value).Success? && r.Failure? ==>
      DoubleToInt(value.n, MinBufferSize, MaxBufferSize).None?
  {
    if !value.JsNumber? then Failure(NotANumber)
    else if AtMost(PlusTwice(tileSize, value.n), 0.0) then Failure(BufferTooNegative)
    else match DoubleToInt(value.n, MinBufferSize, MaxBufferSize)
      case None => Failure(NotRepresentable)
      case Some(b) => Success(b)
  }

  /** An accepted buffer size keeps the sizes valid: truncation toward zero only raises a negative value. */
  lemma BufferSizeKeepsValid(tileSize: nat, bufferSize: int, value: JsValue)
    requires ValidSizes(tileSize, bufferSize)
    requires CheckBufferSize(tileSize, value).Success?
    ensures ValidSizes(tileSize, CheckBufferSize(tileSize, value).value)
  {
    var b := Truncate(value.n.r);
    assert b as real >= value.n.r || b >= 0;
  }

  /**
   * The `tileSize` setter as written: only the double comparison
   * `value <= 0` rejects, so NaN and +Infinity pass; the accepted double
   * is then converted to the stored integer, and the buffer inequality is
   * not looked at.
   */
  function SetTileSizeAsWritten(value: JsValue): (r: Result<Num, SetterError>)
    ensures r.Success? <==> value.JsNumber? && (value.n.NaN? || value.n.PosInf? || (value.n.Finite? && value.n.r > 0.0))
    ensures r.Success? ==> r.value == value.n
  {
    if !value.JsNumber? then Failure(NotANumber)
    else if AtMost(value.n, 0.0) then Failure(TileSizeNotGreaterThanZero)
    else Success(value.n)
  }

  /** The tile size the setter as written stores for an accepted double; `None` where the conversion is undefined. */
  function StoredTileSize(n: Num): Option<int> {
    DoubleToInt(n, 0, MaxTileSize)
  }

  /** The setter as written accepts a size that breaks the buffer inequality. */
  lemma SetTileSizeBreaksBufferInequality()
    ensures ValidSizes(4096, -2000)
    ensures SetTileSizeAsWritten(JsNumber(Finite(100.0))) == Success(Finite(100.0))
    ensures StoredTileSize(Finite(100.0)) == Some(100)
    ensures !ValidSizes(100, -2000)
  {
  }

  /** The setter as written accepts a fraction below one and stores a zero tile size. */
  lemma SetTileSizeStoresZero()
    ensures SetTileSizeAsWritten(JsNumber(Finite(0.5))) == Success(Finite(0.5))
    ensures StoredTileSize(Finite(0.5)) == Some(0)
    ensures !ValidSizes(0, 128)
  {
  }

  /** The setter as written accepts NaN and +Infinity, whose conversion to the stored integer is undefined. */
  lemma SetTileSizeAcceptsNaN()
    ensures SetTileSizeAsWritten(JsNumber(NaN)) == Success(NaN)
    ensures SetTileSizeAsWritten(JsNumber(PosInf)) == Success(PosInf)
    ensures StoredTileSize(NaN).None? && StoredTileSize(PosInf).None?
  {
  }

  /**
   * The `tileSize` setter with the checks the constructor applies: the
   * number must be one the stored `std::uint32_t` can take, and its
   * truncation must be positive and keep `tile_size + 2 * buffer_size`
   * positive.
   */
  function CheckTileSize(bufferSize: int, value: JsValue): (r: Result<nat, SetterError>)
    ensures r.Success? <==> (value.JsNumber? && value.n.Finite? && Truncate(value.n.r) <= MaxTileSize &&
      ValidSizes(Truncate(value.n.r), bufferSize))
    ensures r.Success? ==> r.value == Truncate(value.n.r) && ValidSizes(r.value, bufferSize)
  {
    if !value.JsNumber? then Failure(NotANumber)
    else if AtMost(value.n, 0.0) then Failure(TileSizeNotGreaterThanZero)
    else match DoubleToInt(value.n, 0, MaxTileSize)
      case None => Failure(NotRepresentable)
      case Some(t) =>
        if t <= 0 then Failure(TileSizeNotGreaterThanZero)
        else if t + 2 * bufferSize <= 0 then Failure(BufferTooNegative)
        else Success(t)
  }

  /**
   * The corrected setter accepts only what the one as written accepts,
   * storing the same size, and accepts everything the one as written
   * stores with a defined conversion that keeps the sizes valid.
   */
  lemma CheckTileSizeRefinesAsWritten(bufferSize: int, value: JsValue)
    ensures CheckTileSize(bufferSize, value).Success? ==>
      SetTileSizeAsWritten(value) == Success(value.n) && StoredTileSize(value.n) == Some(CheckTileSize(bufferSize, value).value)
    ensures SetTileSizeAsWritten(value).Success? && StoredTileSize(value.n).Some? && ValidSizes(StoredTileSize(value.n).value, bufferSize) ==>
      CheckTileSize(bufferSize, value).Success?
  {
  }

  /** A registered vector tile; its sizes change through the two setters. */
  class VectorTile {
    var z: nat
    var x: nat
    var y: nat
    var tileSize: nat
    var bufferSize: int

    ghost predicate Valid()
      reads this
    {
      ValidSizes(tileSize, bufferSize)
    }

    constructor(reg: Registration)
      requires ValidSizes(reg.tileSize, reg.bufferSize)
      ensures Valid()
      ensures z == reg.z && x == reg.x && y == reg.y
      ensures tileSize == reg.tileSize && bufferSize == reg.bufferSize
    {
      z, x, y := reg.z, reg.x, reg.y;
      tileSize, bufferSize := reg.tileSize, reg.bufferSize;
    }

    /** The `tileSize` getter. */
    function TileSize(): (t: nat)
      reads this
      requires Valid()
      ensures t > 0
    {
      tileSize
    }

    /** The `bufferSize` getter. */
    function BufferSize(): (b: int)
      reads this
      requires Valid()
      ensures tileSize + 2 * b > 0
    {
      bufferSize
    }

    /** The `bufferSize` setter, with the checks of `CheckBufferSize`; a rejected value leaves the tile unchanged. */
    method SetBufferSize(value: JsValue) returns (r: Result<int, SetterError>)
      requires Valid()
      modifies this
      ensures Valid()
      ensures r == CheckBufferSize(old(tileSize), value)
      ensures r.Success? ==> bufferSize == r.value
      ensures r.Failure? ==> bufferSize == old(bufferSize)
      ensures tileSize == old(tileSize) && z == old(z) && x == old(x) && y == old(y)
    {
      r := CheckBufferSize(tileSize, value);
      if r.Success? {
        BufferSizeKeepsValid(tileSize, bufferSize, value);
        bufferSize := r.value;
      }
    }

    /** The `tileSize` setter, with the checks of `CheckTileSize`; a rejected value leaves the tile unchanged. */
    method SetTileSize(value: JsValue) returns (r: Result<nat, SetterError>)
      requires Valid()
      modifies this
      ensures Valid()
      ensures r == CheckTileSize(old(bufferSize), value)
      ensures r.Success? ==> tileSize == r.value
      ensures r.Failure? ==> tileSize == old(tileSize)
      ensures bufferSize == old(bufferSize) && z == old(z) && x == old(x) && y == old(y)
    {
      r := CheckTileSize(bufferSize, value);
      if r.Success? {
        tileSize := r.value;
      }
    }
  }
}
