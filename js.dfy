/**
 * The few JavaScript values the option parsers of the tile binding inspect,
 * and the numeric conversions V8 and C++ apply to them.
 */
module Js {
  import opened Wrappers

  /**
   * An IEEE 754 double as the binding sees it: a finite value, NaN or one
   * of the two infinities. Finite values are exact reals: rounding and
   * overflow to infinity are not modelled.
   */
  datatype Num = Finite(r: real) | NaN | PosInf | NegInf

  /** A JavaScript value as seen by the binding's option parsers. */
  datatype JsValue =
    | JsNumber(n: Num)
    | JsBool(b: bool)
    | JsString(s: string)
    | JsArray(items: seq<JsValue>)
    | JsObject
    | JsNull
    | JsUndefined

  predicate IsNumber(v: JsValue) { v.JsNumber? }

  /** V8's `IsObject()`, which holds for arrays as well as for plain objects. */
  predicate IsObject(v: JsValue) { v.JsObject? || v.JsArray? }

  /** The double comparison `a < c` against a constant: false for NaN. */
  predicate Below(a: Num, c: real) {
    match a
    case Finite(x) => x < c
    case NaN => false
    case PosInf => false
    case NegInf => true
  }

  /** The double comparison `a <= c` against a constant: false for NaN. */
  predicate AtMost(a: Num, c: real) {
    match a
    case Finite(x) => x <= c
    case NaN => false
    case PosInf => false
    case NegInf => true
  }

  /** The double `c + 2 * a` for an integer `c`: NaN and the infinities absorb `c`. */
  function PlusTwice(c: int, a: Num): Num {
    match a
    case Finite(x) => Finite(c as real + 2.0 * x)
    case _ => a
  }

  /** Truncation toward zero. */
  function Truncate(r: real): (i: int)
    ensures r >= 0.0 ==> 0 <= i && i as real <= r < i as real + 1.0
    ensures r < 0.0 ==> i <= 0 && i as real - 1.0 < r <= i as real
  {
    if r >= 0.0 then r.Floor else -((-r).Floor)
  }

  const MaxInt64: int := 0x7FFF_FFFF_FFFF_FFFF
  const MinInt64: int := -0x8000_0000_0000_0000

  /**
   * V8's `IntegerValue`: NaN gives 0; otherwise the number truncated toward
   * zero and saturated to the range of a 64-bit integer.
   */
  function IntegerValue(v: Num): (i: int)
    ensures MinInt64 <= i <= MaxInt64
    ensures v.NaN? ==> i == 0
    ensures v.Finite? && MinInt64 <= Truncate(v.r) <= MaxInt64 ==> i == Truncate(v.r)
    ensures v.PosInf? || (v.Finite? && Truncate(v.r) > MaxInt64) ==> i == MaxInt64
    ensures v.NegInf? || (v.Finite? && Truncate(v.r) < MinInt64) ==> i == MinInt64
  {
    match v
    case NaN => 0
    case PosInf => MaxInt64
    case NegInf => MinInt64
    case Finite(x) =>
      var t := Truncate(x);
      if t > MaxInt64 then MaxInt64 else if t < MinInt64 then MinInt64 else t
  }

  /**
   * The C++ conversion of a double to an integer type holding `lo..hi`:
   * truncation toward zero, undefined (`None`) for NaN, the infinities and
   * values whose truncation the type cannot hold.
   */
  function DoubleToInt(v: Num, lo: int, hi: int): (r: Option<int>)
    ensures r.Some? <==> v.Finite? && lo <= Truncate(v.r) <= hi
    ensures r.Some? ==> lo <= r.value <= hi && r.value == Truncate(v.r)
  {
    if v.Finite? && lo <= Truncate(v.r) <= hi then Some(Truncate(v.r)) else None
  }

  /** `IntegerValue` gives back every integer in the 64-bit range unchanged. */
  lemma IntegerValueExactOnIntegers(n: int)
    requires MinInt64 <= n <= MaxInt64
    ensures IntegerValue(Finite(n as real)) == n
  {
  }

  /** `IntegerValue` is monotone on finite numbers, and the infinities lie beyond every finite result. */
  lemma IntegerValueMonotone(a: real, b: real)
    requires a <= b
    ensures IntegerValue(NegInf) <= IntegerValue(Finite(a)) <= IntegerValue(Finite(b)) <= IntegerValue(PosInf)
  {
  }

  /** Where a C++ conversion into a 64-bit-wide or narrower type is defined, it agrees with `IntegerValue`. */
  lemma DoubleToIntAgreesWithIntegerValue(v: Num, lo: int, hi: int)
    requires MinInt64 <= lo && hi <= MaxInt64
    ensures DoubleToInt(v, lo, hi).Some? ==> DoubleToInt(v, lo, hi).value == IntegerValue(v)
    ensures lo <= 0 <= hi && v.Finite? && -1.0 < v.r < 1.0 ==> DoubleToInt(v, lo, hi) == Some(0)
  {
  }

  const TwoTo32: int := 0x1_0000_0000

  /** The conversion of a signed integer to a C++ `unsigned` (32 bits). */
  function ToUint32(i: int): (u: nat)
    ensures u < TwoTo32
    ensures 0 <= i < TwoTo32 ==> u == i
    ensures (u - i) % TwoTo32 == 0
  {
    i % TwoTo32
  }

  const TwoTo31: int := 0x8000_0000

  /** The conversion of a 64-bit integer to a C++ `int` (32 bits, two's complement). */
  function ToInt32(i: int): (r: int)
    ensures -TwoTo31 <= r < TwoTo31
    ensures -TwoTo31 <= i < TwoTo31 ==> r == i
    ensures (r - i) % TwoTo32 == 0
  {
    var u := i % TwoTo32;
    if u < TwoTo31 then u else u - TwoTo32
  }
}
