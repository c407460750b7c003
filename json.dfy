/** JSON values as the backend returns them, with the few JavaScript
    operations the pages apply to them: optional-chaining property access,
    `Array.isArray` and truthiness. */
module Json {
  import opened Common

  datatype Json =
    | JNull
    | JBool(b: bool)
    | JNumber(n: real)
    | JString(s: string)
    | JArray(elems: seq<Json>)
    | JObject(fields: map<string, Json>)

  /** `v?.key`: `undefined` (None) when `v` is itself undefined, is not an
      object, or has no such property. JSON never stores `undefined`, so a
      property that holds `null` is defined. */
  function Member(v: Option<Json>, key: string): Option<Json> {
    match v
    case Some(JObject(fields)) => if key in fields then Some(fields[key]) else None
    case _ => None
  }

  /** `Array.isArray(v)`; `undefined` is not an array. */
  predicate IsArray(v: Option<Json>) {
    v.Some? && v.value.JArray?
  }

  /** JavaScript truthiness of a JSON value. JSON numbers are never NaN, so
      only zero is a falsy number. */
  predicate Truthy(v: Json) {
    match v
    case JNull => false
    case JBool(b) => b
    case JNumber(n) => n != 0.0
    case JString(s) => s != ""
    case JArray(_) => true
    case JObject(_) => true
  }
}
