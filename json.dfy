/**
 * JavaScript values as they travel through the client and the relay: the
 * result of `JSON.parse`, the body of an HTTP response, the `result` held by
 * the client.  `null` and `undefined` are both `JNull`: every place this model
 * looks at them treats the two alike (both are falsy, both end an optional
 * chain, both render nothing).
 */
module Json {

  datatype Json =
    | JNull
    | JBool(b: bool)
    | JNum(n: real)
    | JStr(s: string)
    | JArr(items: seq<Json>)
    | JObj(fields: map<string, Json>)

  /** JavaScript truthiness: `null`, `undefined`, `false`, `0` and `""` are falsy. */
  predicate Truthy(j: Json) {
    match j
    case JNull => false
    case JBool(b) => b
    case JNum(n) => n != 0.0
    case JStr(s) => s != ""
    case JArr(_) => true
    case JObj(_) => true
  }

  /**
   * `j.key` on a value that is not null: an object's own field, and
   * `undefined` for a missing field or for a primitive or array (none of the
   * keys read in this program is a built-in property).
   */
  function Field(j: Json, key: string): Json {
    if j.JObj? && key in j.fields then j.fields[key] else JNull
  }
}
