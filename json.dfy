/**
 * A parsed JSON value, as `JSON.parse` returns it. The parser itself is not
 * modelled: callers receive it as a partial function `string -> Option<Json>`
 * whose `None` stands for the `SyntaxError` it throws.
 */
module JsonValue {
  import opened Wrappers

  datatype Json =
    | Null
    | Bool(b: bool)
    | Number(n: real)
    | Str(s: string)
    | Array(items: seq<Json>)
    | Object(fields: map<string, Json>)

  /** JavaScript truthiness of a parsed value (`if (v)`, `v || d`). */
  predicate Truthy(v: Json) {
    match v
    case Null => false
    case Bool(b) => b
    case Number(n) => n != 0.0
    case Str(s) => s != ""
    case Array(_) => true
    case Object(_) => true
  }

  /** Property access `v[key]` on a parsed value; `None` is `undefined`. */
  function Get(v: Json, key: string): (r: Option<Json>)
    ensures r.Some? <==> v.Object? && key in v.fields
    ensures r.Some? ==> r.value == v.fields[key]
  {
    match v
    case Object(fields) => if key in fields then Some(fields[key]) else None
    case _ => None
  }

  /** `v[key]` is present and truthy. */
  predicate HasTruthy(v: Json, key: string) {
    Get(v, key).Some? && Truthy(Get(v, key).value)
  }
}
