/**
 * A JSON value as serde_json represents it after parsing (RFC 8259): the
 * parser itself is not modelled. Numbers keep serde_json's three kinds: a
 * non-negative integer, a negative integer, a floating-point number.
 */
module Json {
  import opened Wrappers
  import opened Decimal

  datatype Json =
    | Null
    | Bool(b: bool)
    | PosInt(u: U64)
    | NegInt(i: int)
    | Float
    | Str(s: string)
    | Arr(items: seq<Json>)
    | Obj(members: map<string, Json>)

  /** `Value::get(key)`: the member of an object; nothing for any other value. */
  function Get(v: Json, key: string): (r: Option<Json>)
    ensures r.Some? <==> v.Obj? && key in v.members
    ensures r.Some? ==> r.value == v.members[key]
  {
    if v.Obj? && key in v.members then Some(v.members[key]) else None
  }

  /** `Value::as_str`. */
  function AsStr(v: Json): (r: Option<string>)
    ensures r.Some? <==> v.Str?
    ensures r.Some? ==> r.value == v.s
  {
    if v.Str? then Some(v.s) else None
  }

  /** `Value::as_u64`: only non-negative integers convert. */
  function AsU64(v: Json): (r: Option<U64>)
    ensures r.Some? <==> v.PosInt?
    ensures r.Some? ==> r.value == v.u
  {
    if v.PosInt? then Some(v.u) else None
  }

  /** How serde_json stores an `i32`: as a non-negative or a negative integer. */
  function FromI32(x: I32): (v: Json)
    ensures (v.PosInt? && v.u == x) || (v.NegInt? && v.i == x && x < 0)
  {
    if x >= 0 then PosInt(x) else NegInt(x)
  }
}
