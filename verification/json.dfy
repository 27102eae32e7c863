/** The decoded JSON values the client reads out of incoming messages. */
module Json {

  /** A decoded JSON value, as `json.loads` builds it: null, booleans,
      integers, floats, strings, arrays and objects. */
  datatype Value =
    | Null
    | Bool(b: bool)
    | Int(i: int)
    | Real(r: real)
    | Text(s: string)
    | List(items: seq<Value>)
    | Object(fields: map<string, Value>)

  /** Python's `dict.get(key, default)`. */
  function Get<V>(m: map<string, V>, key: string, default: V): (v: V)
    ensures key in m ==> v == m[key]
    ensures key !in m ==> v == default
  {
    if key in m then m[key] else default
  }
}
