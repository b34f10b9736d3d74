/** Shared vocabulary: optional values, results, fixed-width unsigned integers
    and JSON values as serde_json represents them. */
module Common {

  datatype Option<+T> = None | Some(value: T)

  datatype Result<+T, +E> = Ok(value: T) | Err(error: E)

  /** Rust's `u8` and `u64`, as bounded naturals. */
  type U8 = x: nat | x < 0x100
  type U64 = x: nat | x < 0x1_0000_0000_0000_0000

  /** A `serde_json::Value`. Numbers are kept as reals. */
  datatype Json =
    | JNull
    | JBool(b: bool)
    | JNumber(n: real)
    | JString(s: string)
    | JArray(items: seq<Json>)
    | JObject(fields: map<string, Json>)

  /** `Value::as_str`: the text of a JSON string, nothing for any other value. */
  function AsStr(v: Json): (r: Option<string>)
    ensures r.Some? <==> v.JString?
    ensures r.Some? ==> v == JString(r.value)
  {
    match v
    case JString(s) => Some(s)
    case _ => None
  }

  function Abs(x: real): (r: real)
    ensures r >= 0.0
    ensures r == x || r == -x
  {
    if x < 0.0 then -x else x
  }
}
