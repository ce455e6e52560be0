/**
 * The slice of `serde_json::Value` the node touches. Turning text into a value
 * (`serde_json::from_str`) and a value into text (`Value::to_string`,
 * `serde_json::to_string`) is an external library: it is kept opaque as a
 * `Codec` of two functions, and the one fact lemmas may assume of it is that
 * parsing what was rendered gives the value back.
 */
module Json {
  import opened Wrappers
  import opened Amounts

  /**
   * A number is an integer (`JNumber`) or, when written with a fraction or
   * an exponent, a float (`JFloat`). The node reads numbers only as `u16` or
   * `u64`, so a float, even an integral one such as 7.0, never reads as one.
   */
  datatype Json =
    | JNull
    | JBool(b: bool)
    | JNumber(n: int)
    | JFloat(f: real)
    | JString(s: string)
    | JArray(items: seq<Json>)
    | JObject(fields: map<string, Json>)

  datatype Codec = Codec(parse: string -> Option<Json>, render: Json -> string)

  /** `serde_json::from_str(render(v))` gives back `v` for every value. */
  ghost predicate Lossless(c: Codec) {
    forall v: Json {:trigger c.render(v)} :: c.parse(c.render(v)) == Some(v)
  }

  /** `value[key]`: a missing key, or indexing something that is not an object, reads as null. */
  function Field(v: Json, key: string): Json {
    if v.JObject? && key in v.fields then v.fields[key] else JNull
  }

  /** `value.as_str()`. */
  function AsStr(v: Json): Option<string> {
    if v.JString? then Some(v.s) else None
  }

  /** `value.as_u64()`: a non-negative integer that fits 64 bits. */
  function AsU64(v: Json): Option<nat> {
    if v.JNumber? && 0 <= v.n < U64_LIMIT then Some(v.n) else None
  }

  /** `value == "text"` for a `serde_json::Value` and a `&str`: only a string value can be equal. */
  predicate IsStr(v: Json, text: string) {
    v == JString(text)
  }

  /** `message["type"] == kind`. */
  predicate HasType(message: Json, kind: string) {
    IsStr(Field(message, "type"), kind)
  }
}
