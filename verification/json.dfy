/**
 * Parsed JSON values as JavaScript sees them after `response.json()`, with
 * the two JavaScript notions the front end leans on: truthiness (for `||`
 * and `!`) and reading a named member (for `data.output?.output`).
 */
module Json {
  import opened Optional

  datatype Json =
    | Null
    | Bool(b: bool)
    | Number(n: real)
    | Str(s: string)
    | Array(items: seq<Json>)
    | Object(fields: map<string, Json>)

  /** The literal `[]`. */
  const EmptyArray: Json := Array([])

  /**
   * JavaScript truthiness of a parsed JSON value: `null`, `false`, `0` and
   * `""` are falsy; every array and object, even an empty one, is truthy.
   */
  predicate Truthy(j: Json) {
    match j
    case Null => false
    case Bool(b) => b
    case Number(n) => n != 0.0
    case Str(s) => s != ""
    case Array(_) => true
    case Object(_) => true
  }

  /**
   * The property read `j.key` for a key that no built-in prototype defines
   * (such as "output"): only an object's own member can answer, and `None`
   * is `undefined`. Reading a member of `null` throws, so callers rule it out.
   */
  function Member(j: Json, key: string): (r: Option<Json>)
    requires !j.Null?
    ensures r.Some? <==> j.Object? && key in j.fields
    ensures r.Some? ==> r.value == j.fields[key]
  {
    match j
    case Object(fields) => if key in fields then Some(fields[key]) else None
    case _ => None
  }

  /** The envelope `{ error: message }`. */
  function ErrorBody(message: string): Json {
    Object(map["error" := Str(message)])
  }
}
