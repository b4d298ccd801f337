/**
 * A JSON value (RFC 8259) as `serde_json::Value` holds it, with the accessors
 * the decoders use. Numbers are split the way serde_json stores them: an
 * integer literal is `Int` (serde_json's PosInt/NegInt, that is a value in
 * [-2^63, 2^64)), anything with a fraction or exponent is `Float`. Objects have
 * unique keys, so they are maps; key order is not observable by the decoders.
 */
module Json {
  import opened Wrappers

  const U64_LIMIT: int := 0x1_0000_0000_0000_0000
  const I64_MIN: int := -0x8000_0000_0000_0000
  const I64_LIMIT: int := 0x8000_0000_0000_0000

  datatype Json =
    | Null
    | Bool(b: bool)
    | Int(i: int)
    | Float(r: real)
    | Str(s: string)
    | Array(items: seq<Json>)
    | Object(fields: map<string, Json>)

  /** `Value::get(&str)`: a member of an object; None on any other value. */
  function Get(v: Json, key: string): (r: Option<Json>)
    ensures r.Some? <==> v.Object? && key in v.fields
    ensures r.Some? ==> r.value == v.fields[key]
  {
    if v.Object? && key in v.fields then Some(v.fields[key]) else None
  }

  /** `Value::get(usize)`: an element of an array; None on any other value. */
  function At(v: Json, index: nat): (r: Option<Json>)
    ensures r.Some? <==> v.Array? && index < |v.items|
    ensures r.Some? ==> r.value == v.items[index]
  {
    if v.Array? && index < |v.items| then Some(v.items[index]) else None
  }

  /** `value["key"]`: like Get, but a missing member reads as Null. */
  function Index(v: Json, key: string): (r: Json)
    ensures r == Get(v, key).GetOr(Null)
  {
    if v.Object? && key in v.fields then v.fields[key] else Null
  }

  /** `Option<&Value>::and_then(|v| v.get(key))`. */
  function GetOpt(v: Option<Json>, key: string): (r: Option<Json>)
    ensures r.Some? ==> v.Some? && Get(v.value, key) == r
  {
    if v.Some? then Get(v.value, key) else None
  }

  function AsStr(v: Json): (r: Option<string>)
    ensures r.Some? <==> v.Str?
  {
    if v.Str? then Some(v.s) else None
  }

  function AsArray(v: Json): (r: Option<seq<Json>>)
    ensures r.Some? <==> v.Array?
  {
    if v.Array? then Some(v.items) else None
  }

  /** `as_u64`: only an integer literal in [0, 2^64). */
  function AsU64(v: Json): (r: Option<nat>)
    ensures r.Some? <==> v.Int? && 0 <= v.i < U64_LIMIT
    ensures r.Some? ==> r.value == v.i && r.value < U64_LIMIT
  {
    if v.Int? && 0 <= v.i < U64_LIMIT then Some(v.i) else None
  }

  /** `as_i64`: only an integer literal in [-2^63, 2^63). */
  function AsI64(v: Json): (r: Option<int>)
    ensures r.Some? <==> v.Int? && I64_MIN <= v.i < I64_LIMIT
    ensures r.Some? ==> r.value == v.i
  {
    if v.Int? && I64_MIN <= v.i < I64_LIMIT then Some(v.i) else None
  }

  /** `as_f64`: any number, read exactly (f64 rounding is not modelled). */
  function AsF64(v: Json): (r: Option<real>)
    ensures r.Some? <==> v.Int? || v.Float?
  {
    match v
    case Int(i) => Some(i as real)
    case Float(x) => Some(x)
    case _ => None
  }
}
