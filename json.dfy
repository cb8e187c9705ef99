/**
 * JSON values as the program receives them (a Figma response body, a layout document),
 * with JavaScript's property lookup and truthiness. A JavaScript number is kept abstract
 * as a `real`; JSON has no NaN or infinities, so every number is ordinary.
 */
module Json {
  import opened Wrappers

  datatype Json =
    | Null
    | Bool(b: bool)
    | Number(n: real)
    | Str(s: string)
    | Array(items: seq<Json>)
    | Object(fields: map<string, Json>)

  /** `v[key]`: the value stored under `key`, or `None` (JavaScript's `undefined`). */
  function Field(v: Json, key: string): (r: Option<Json>)
    ensures r.Some? <==> v.Object? && key in v.fields
    ensures r.Some? ==> r.value == v.fields[key]
  {
    if v.Object? && key in v.fields then Some(v.fields[key]) else None
  }

  /** `v` is an object in which every one of `keys` is present (possibly as `null`). */
  predicate HasKeys(v: Json, keys: set<string>) {
    v.Object? && keys <= v.fields.Keys
  }

  /** JavaScript truthiness: `null`, `false`, `0` and `""` are falsy; arrays and objects are truthy. */
  predicate Truthy(v: Json) {
    match v
    case Null => false
    case Bool(b) => b
    case Number(n) => n != 0.0
    case Str(s) => s != ""
    case Array(_) => true
    case Object(_) => true
  }
}
