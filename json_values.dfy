/** JSON values as the pages receive them from `JSON.parse` or an HTTP response. */
module JsonValues {

  datatype Json = JNull | JBool(b: bool) | JNum(n: real) | JStr(s: string)
                | JArr(elems: seq<Json>) | JObj(fields: map<string, Json>)

  /** The JavaScript falsy JSON values (`NaN` aside). */
  predicate Falsy(v: Json) {
    v == JNull || v == JBool(false) || v == JNum(0.0) || v == JStr("")
  }
}
