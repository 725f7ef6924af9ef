/** JSON values as they reach the server in a request body, and the few JavaScript
    run-time tests the source applies to them. `undefined` (an absent key) is `None`
    of an `Option<Json>`; it is not a JSON value. */
module Json {
  import opened Wrappers

  datatype Json =
    | JNull
    | JBool(b: bool)
    | JNum(n: real)
    | JStr(s: string)
    | JArr(items: seq<Json>)
    | JObj(fields: map<string, Json>)

  /** The value at `key` of an object, `undefined` when the key is absent. */
  function Field(fields: map<string, Json>, key: string): (r: Option<Json>)
    ensures r.Some? <==> key in fields
    ensures r.Some? ==> r.value == fields[key]
  {
    if key in fields then Some(fields[key]) else None
  }

  /** JavaScript truthiness of a defined value (`NaN` cannot occur in a JSON number). */
  predicate Truthy(j: Json) {
    match j
    case JNull => false
    case JBool(b) => b
    case JNum(n) => n != 0.0
    case JStr(s) => s != ""
    case JArr(_) => true
    case JObj(_) => true
  }

  /** `typeof v === 'object'`: true for null, arrays and objects. */
  predicate IsObjectType(v: Option<Json>) {
    v.Some? && (v.value.JNull? || v.value.JArr? || v.value.JObj?)
  }

  /** `typeof v === 'string'` */
  predicate IsStringType(v: Option<Json>) {
    v.Some? && v.value.JStr?
  }

  /** `v == null`: loose equality holds for both undefined and null. */
  predicate IsNullish(v: Option<Json>) {
    v.None? || v.value.JNull?
  }
}
