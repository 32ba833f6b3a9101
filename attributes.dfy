/**
 * Attribute decoding in the tile's JSON dump (`VectorTile::toJSON`).
 *
 * A layer carries a table of key strings and a table of values; every
 * Value message adds one table entry per known field it holds. A feature's
 * packed `tags` are read two at a time as (key index, value index) pairs
 * into those tables (section 4.4 of the Mapbox Vector Tile Specification
 * v2.1) and each in-range pair sets one property of the feature.
 */
module Attributes {
  import opened Js

  const TwoTo63: int := 0x8000_0000_0000_0000
  const TwoTo64: int := 0x1_0000_0000_0000_0000

  /** The 64 bits a varint carries. */
  type Uint64 = v: int | 0 <= v < TwoTo64

  /** A signed 64-bit integer. */
  type Int64 = i: int | -TwoTo63 <= i < TwoTo63

  /**
   * One field of a Value message, by its tag: 1 string, 2 float,
   * 3 double, 4 int64, 5 uint64, 6 sint64, 7 bool; any other tag is
   * skipped. Floating-point payloads are given already decoded (NaN and
   * the infinities included); varint payloads are the raw 64 bits.
   */
  datatype ValueField =
    | StringField(text: string)
    | FloatField(f: Num)
    | DoubleField(d: Num)
    | Int64Field(raw: Uint64)
    | UInt64Field(raw: Uint64)
    | SInt64Field(raw: Uint64)
    | BoolField(raw: Uint64)
    | OtherField(tag: nat)

  /** An entry of the layer's value table. */
  datatype AttrValue =
    | AttrString(s: string)
    | AttrFloat(f: Num)
    | AttrDouble(d: Num)
    | AttrInt(i: Int64)
    | AttrUInt(u: Uint64)
    | AttrBool(b: bool)

  // ---------------------------------------------------------------------
  // Varint payloads

  /** `get_int64`: the 64 raw bits read as two's complement. */
  function Int64Of(raw: Uint64): (i: Int64)
    ensures raw < TwoTo63 ==> i == raw
    ensures raw >= TwoTo63 ==> i < 0
  {
    if raw < TwoTo63 then raw else raw - TwoTo64
  }

  /** The two's complement bits of a signed integer, the partner of `Int64Of`. */
  function Int64Bits(i: Int64): Uint64 {
    if i >= 0 then i else i + TwoTo64
  }

  lemma Int64RoundTrip(i: Int64, raw: Uint64)
    ensures Int64Of(Int64Bits(i)) == i
    ensures Int64Bits(Int64Of(raw)) == raw
  {
  }

  /** `get_sint64`: ZigZag decoding, even raw values are the non-negatives. */
  function ZigZagDecode(raw: Uint64): (i: Int64)
    ensures raw % 2 == 0 ==> i >= 0
    ensures raw % 2 == 1 ==> i < 0
  {
    if raw % 2 == 0 then raw / 2 else -(raw / 2) - 1
  }

  /** ZigZag encoding, the partner of `ZigZagDecode`. */
  function ZigZagEncode(i: Int64): Uint64 {
    if i >= 0 then 2 * i else -2 * i - 1
  }

  lemma ZigZagRoundTrip(i: Int64, raw: Uint64)
    ensures ZigZagDecode(ZigZagEncode(i)) == i
    ensures ZigZagEncode(ZigZagDecode(raw)) == raw
  {
  }

  // ---------------------------------------------------------------------
  // Value messages

  /** The table entry a field adds, if its tag is a known one. */
  function FieldValue(f: ValueField): (r: seq<AttrValue>)
    ensures |r| <= 1
    ensures r == [] <==> f.OtherField?
  {
    match f
    case StringField(t) => [AttrString(t)]
    case FloatField(x) => [AttrFloat(x)]
    case DoubleField(x) => [AttrDouble(x)]
    case Int64Field(raw) => [AttrInt(Int64Of(raw))]
    case UInt64Field(raw) => [AttrUInt(raw)]
    case SInt64Field(raw) => [AttrInt(ZigZagDecode(raw))]
    case BoolField(raw) => [AttrBool(raw != 0)]
    case OtherField(_) => []
  }

  /** The entries one Value message adds, in field order. */
  function MessageValues(fields: seq<ValueField>): seq<AttrValue>
    decreases |fields|
  {
    if fields == [] then []
    else MessageValues(fields[..|fields| - 1]) + FieldValue(fields[|fields| - 1])
  }

  /** The layer's value table: every Value message's entries, in message order. */
  function ValueTable(messages: seq<seq<ValueField>>): seq<AttrValue>
    decreases |messages|
  {
    if messages == [] then []
    else ValueTable(messages[..|messages| - 1]) + MessageValues(messages[|messages| - 1])
  }

  /** The number of fields of a message with a known tag. */
  function KnownFields(fields: seq<ValueField>): nat
    decreases |fields|
  {
    if fields == [] then 0
    else KnownFields(fields[..|fields| - 1]) + (if fields[|fields| - 1].OtherField? then 0 else 1)
  }

  /** A message adds exactly one entry per field with a known tag. */
  lemma {:induction false} MessageValuesCount(fields: seq<ValueField>)
    ensures |MessageValues(fields)| == KnownFields(fields)
    decreases |fields|
  {
    if fields != [] {
      MessageValuesCount(fields[..|fields| - 1]);
    }
  }

  /** The value a well-formed message (exactly one known field) stands for. */
  function SoleValue(fields: seq<ValueField>): (v: AttrValue)
    requires KnownFields(fields) == 1
    ensures MessageValues(fields) == [v]
  {
    MessageValuesCount(fields);
    MessageValues(fields)[0]
  }

  /**
   * When every Value message holds exactly one known field, entry `i` of
   * the table is the value of message `i`, so value indices in tags refer
   * to messages; otherwise later indices shift.
   */
  lemma {:induction false} ValueTableAligned(messages: seq<seq<ValueField>>)
    requires forall i :: 0 <= i < |messages| ==> KnownFields(messages[i]) == 1
    ensures |ValueTable(messages)| == |messages|
    ensures forall i :: 0 <= i < |messages| ==> ValueTable(messages)[i] == SoleValue(messages[i])
  {
    forall i | 0 <= i < |messages|
      ensures |ValueTable(messages)| == |messages| && ValueTable(messages)[i] == SoleValue(messages[i])
    {
      ValueTableAt(messages, i);
    }
    if messages == [] {
      assert ValueTable(messages) == [];
    }
  }

  /** Entry `i` of the table, for one message position at a time. */
  lemma {:induction false} ValueTableAt(messages: seq<seq<ValueField>>, i: nat)
    requires forall k {:trigger KnownFields(messages[k])} :: 0 <= k < |messages| ==> KnownFields(messages[k]) == 1
    requires i < |messages|
    ensures |ValueTable(messages)| == |messages|
    ensures ValueTable(messages)[i] == SoleValue(messages[i])
    decreases |messages|
  {
    var n := |messages| - 1;
    ValueTableSnoc(messages);
    if n > 0 {
      OneKnownPrefix(messages, n);
      ValueTableAt(messages[..n], if i < n then i else 0);
      if i < n {
        assert messages[..n][i] == messages[i];
      }
    }
  }

  lemma ValueTableSnoc(messages: seq<seq<ValueField>>)
    requires messages != []
    requires KnownFields(messages[|messages| - 1]) == 1
    ensures ValueTable(messages) == ValueTable(messages[..|messages| - 1]) + [SoleValue(messages[|messages| - 1])]
  {
  }

  lemma OneKnownPrefix(messages: seq<seq<ValueField>>, n: nat)
    requires forall k {:trigger KnownFields(messages[k])} :: 0 <= k < |messages| ==> KnownFields(messages[k]) == 1
    requires n <= |messages|
    ensures forall k {:trigger KnownFields(messages[..n][k])} :: 0 <= k < n ==> KnownFields(messages[..n][k]) == 1
  {
    forall k | 0 <= k < n ensures KnownFields(messages[..n][k]) == 1 {
      assert messages[..n][k] == messages[k];
    }
  }

  /** The `case 4` branch of the layer scan: one Value message appended to the table. */
  method ReadValueMessage(fields: seq<ValueField>, table: seq<AttrValue>) returns (table': seq<AttrValue>)
    ensures table' == table + MessageValues(fields)
  {
    table' := table;
    var i := 0;
    while i < |fields|
      invariant 0 <= i <= |fields|
      invariant table' == table + MessageValues(fields[..i])
    {
      match fields[i] {
        case StringField(t) => table' := table' + [AttrString(t)];
        case FloatField(x) => table' := table' + [AttrFloat(x)];
        case DoubleField(x) => table' := table' + [AttrDouble(x)];
        case Int64Field(raw) => table' := table' + [AttrInt(Int64Of(raw))];
        case UInt64Field(raw) => table' := table' + [AttrUInt(raw)];
        case SInt64Field(raw) => table' := table' + [AttrInt(ZigZagDecode(raw))];
        case BoolField(raw) => table' := table' + [AttrBool(raw != 0)];
        case OtherField(_) =>
      }
      assert fields[..i + 1][..i] == fields[..i];
      i := i + 1;
    }
    assert fields[..|fields|] == fields;
  }

  /** The value table of a layer whose Value messages are `messages`. */
  method ReadValueTable(messages: seq<seq<ValueField>>) returns (table: seq<AttrValue>)
    ensures table == ValueTable(messages)
  {
    table := [];
    var i := 0;
    while i < |messages|
      invariant 0 <= i <= |messages|
      invariant table == ValueTable(messages[..i])
    {
      table := ReadValueMessage(messages[i], table);
      assert messages[..i + 1][..i] == messages[..i];
      i := i + 1;
    }
    assert messages[..|messages|] == messages;
  }

  // ---------------------------------------------------------------------
  // Tags

  /** `json_value_visitor`: strings and booleans keep their kind, every number becomes a Number. */
  function ToJs(v: AttrValue): (j: JsValue)
    ensures v.AttrString? <==> j.JsString?
    ensures v.AttrBool? <==> j.JsBool?
    ensures j.JsString? || j.JsBool? || j.JsNumber?
  {
    match v
    case AttrString(s) => JsString(s)
    case AttrFloat(f) => JsNumber(f)
    case AttrDouble(d) => JsNumber(d)
    case AttrInt(i) => JsNumber(Finite(i as real))
    case AttrUInt(u) => JsNumber(Finite(u as real))
    case AttrBool(b) => JsBool(b)
  }

  /**
   * The key V8's `Set` does not store as an own property: it runs the
   * prototype setter, which ignores strings, numbers and booleans.
   */
  const ProtoKey: string := "__proto__"

  /** One (key, value) pair: set the property when both indices are in range and the key is not `__proto__`. */
  function ApplyPair(props: map<string, JsValue>, keys: seq<string>, values: seq<AttrValue>, k: nat, v: nat): map<string, JsValue> {
    if k < |keys| && v < |values| && keys[k] != ProtoKey then props[keys[k] := ToJs(values[v])] else props
  }

  /** The pairs of `tags`, read from the front and applied to `props`; an unpaired last key ends the walk. */
  function ApplyTags(props: map<string, JsValue>, keys: seq<string>, values: seq<AttrValue>, tags: seq<nat>): map<string, JsValue>
    decreases |tags|
  {
    if |tags| < 2 then props
    else ApplyTags(ApplyPair(props, keys, values, tags[0], tags[1]), keys, values, tags[2..])
  }

  /** A feature's `properties` object. */
  function Properties(keys: seq<string>, values: seq<AttrValue>, tags: seq<nat>): map<string, JsValue> {
    ApplyTags(map[], keys, values, tags)
  }

  /** The tag loop of `toJSON`. */
  method DecodeTags(keys: seq<string>, values: seq<AttrValue>, tags: seq<nat>) returns (props: map<string, JsValue>)
    ensures props == Properties(keys, values, tags)
  {
    props := map[];
    var i := 0;
    while i < |tags|
      invariant 0 <= i <= |tags|
      invariant ApplyTags(props, keys, values, tags[i..]) == Properties(keys, values, tags)
    {
      var keyName := tags[i];
      i := i + 1;
      if i == |tags| {
        break;
      }
      var keyValue := tags[i];
      i := i + 1;
      assert tags[i - 2..][2..] == tags[i..];
      if keyName < |keys| && keyValue < |values| && keys[keyName] != ProtoKey {
        props := props[keys[keyName] := ToJs(values[keyValue])];
      }
    }
  }

  /** Appending a pair to an even-length tag list applies that pair last, so a later pair with the same key name wins. */
  lemma {:induction false} LaterPairWins(props: map<string, JsValue>, keys: seq<string>, values: seq<AttrValue>, tags: seq<nat>, k: nat, v: nat)
    requires |tags| % 2 == 0
    ensures ApplyTags(props, keys, values, tags + [k, v]) == ApplyPair(ApplyTags(props, keys, values, tags), keys, values, k, v)
    decreases |tags|
  {
    if |tags| >= 2 {
      assert (tags + [k, v])[2..] == tags[2..] + [k, v];
      LaterPairWins(ApplyPair(props, keys, values, tags[0], tags[1]), keys, values, tags[2..], k, v);
    } else {
      assert tags == [];
      assert (tags + [k, v])[2..] == [];
    }
  }

  /** A trailing unpaired key changes nothing. */
  lemma {:induction false} TrailingKeyIgnored(props: map<string, JsValue>, keys: seq<string>, values: seq<AttrValue>, tags: seq<nat>, k: nat)
    requires |tags| % 2 == 0
    ensures ApplyTags(props, keys, values, tags + [k]) == ApplyTags(props, keys, values, tags)
    decreases |tags|
  {
    if |tags| >= 2 {
      assert (tags + [k])[2..] == tags[2..] + [k];
      TrailingKeyIgnored(ApplyPair(props, keys, values, tags[0], tags[1]), keys, values, tags[2..], k);
    } else {
      assert tags == [];
    }
  }

  /** The last pair sets its key's property exactly when both indices are in range and the key is not `__proto__`. */
  lemma LastPairSets(keys: seq<string>, values: seq<AttrValue>, tags: seq<nat>, k: nat, v: nat)
    requires |tags| % 2 == 0
    ensures k < |keys| && v < |values| && keys[k] != ProtoKey ==>
      Properties(keys, values, tags + [k, v]) == Properties(keys, values, tags)[keys[k] := ToJs(values[v])]
    ensures !(k < |keys| && v < |values| && keys[k] != ProtoKey) ==>
      Properties(keys, values, tags + [k, v]) == Properties(keys, values, tags)
  {
    LaterPairWins(map[], keys, values, tags, k, v);
  }

  /** An in-range pair at an even position of the tag list, whose key is not `__proto__`. */
  predicate ValidPairAt(keys: seq<string>, values: seq<AttrValue>, tags: seq<nat>, i: int) {
    0 <= i && i % 2 == 0 && i + 1 < |tags| && tags[i] < |keys| && tags[i + 1] < |values| && keys[tags[i]] != ProtoKey
  }

  /**
   * A property is present exactly when some in-range pair names it; pairs
   * with an index out of range or the key `__proto__` never produce one.
   */
  lemma {:induction false} PropertyPresent(props: map<string, JsValue>, keys: seq<string>, values: seq<AttrValue>, tags: seq<nat>, name: string)
    ensures name in ApplyTags(props, keys, values, tags) <==>
      name in props || exists i :: ValidPairAt(keys, values, tags, i) && keys[tags[i]] == name
    decreases |tags|
  {
    if |tags| >= 2 {
      var rest := tags[2..];
      PropertyPresent(ApplyPair(props, keys, values, tags[0], tags[1]), keys, values, rest, name);
      if exists i :: ValidPairAt(keys, values, rest, i) && keys[rest[i]] == name {
        var i :| ValidPairAt(keys, values, rest, i) && keys[rest[i]] == name;
        assert ValidPairAt(keys, values, tags, i + 2) && keys[tags[i + 2]] == name;
      }
      if exists i :: ValidPairAt(keys, values, tags, i) && keys[tags[i]] == name {
        var i :| ValidPairAt(keys, values, tags, i) && keys[tags[i]] == name;
        if i >= 2 {
          assert ValidPairAt(keys, values, rest, i - 2) && keys[rest[i - 2]] == name;
        }
      }
    } else {
      forall i | ValidPairAt(keys, values, tags, i) ensures false {
      }
    }
  }

  /** No pair makes `__proto__` a property of a feature. */
  lemma ProtoKeyNeverSet(keys: seq<string>, values: seq<AttrValue>, tags: seq<nat>)
    ensures ProtoKey !in Properties(keys, values, tags)
  {
    PropertyPresent(map[], keys, values, tags, ProtoKey);
  }
}
