/** JSON values as `JSON.parse` yields them, and the JavaScript truthiness
    test the application applies to them. */
module JsonValue {

  import opened Wrappers

  /** A parsed JSON value. Numbers are kept as reals; object member order is
      not kept, since nothing in the application depends on it. */
  datatype Json =
    | JNull
    | JBool(b: bool)
    | JNum(n: real)
    | JStr(s: string)
    | JArr(elems: seq<Json>)
    | JObj(obj: map<string, Json>)

  /** JavaScript's `!!v` on a parsed value: null, false, 0 and "" are falsy,
      every array and object is truthy. */
  predicate Truthy(j: Json)
  {
    match j
    case JNull => false
    case JBool(b) => b
    case JNum(n) => n != 0.0
    case JStr(s) => s != ""
    case JArr(_) => true
    case JObj(_) => true
  }

  /** `!!s` on a value of TypeScript type `string | null | undefined`. */
  predicate TruthyString(s: Option<string>)
  {
    s.Some? && s.value != ""
  }
}
