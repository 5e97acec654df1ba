/** The untyped JSON value (`serde_json::Value`) the client passes around,
    and the outcome of a decoding step it cannot see into. */
module Json {
  import opened Primitives

  /** A JSON value. Integers are kept exact; other numbers stay opaque. */
  datatype Value =
    | Null
    | Bool(b: bool)
    | Int(i: int)
    | Number(f: Float)
    | Str(s: string)
    | Array(items: seq<Value>)
    | Object(fields: map<string, Value>)

  /** What a serde_json step produced: the decoded value, or the text of the
      `serde_json::Error` it failed with. */
  datatype Decoded<+T> = Decoded(value: T) | Malformed(detail: string)

  /** `Value::as_i64`: an integer that fits in 64 signed bits, nothing else. */
  function AsInt64(v: Value): (r: Option<Int64>)
    ensures r.Some? <==> v.Int? && -0x8000_0000_0000_0000 <= v.i < 0x8000_0000_0000_0000
    ensures r.Some? ==> r.value == v.i
  {
    match v
    case Int(i) =>
      if -0x8000_0000_0000_0000 <= i < 0x8000_0000_0000_0000 then Some(i) else None
    case _ => None
  }
}
