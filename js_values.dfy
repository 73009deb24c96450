/** Values as they arrive in a JSON request body, and the small pieces of
    JavaScript semantics the handlers rely on (truthiness, `typeof`). */
module JsValues {

  datatype Option<+T> = None | Some(value: T)

  /** A body field that is expected to hold a `T`: absent (`undefined`),
      explicitly `null`, or present. */
  datatype Field<+T> = Undefined | Null | Given(value: T)

  /** A JSON value read from a request body. Numbers are integers here. */
  datatype Json = Absent | JNull | JBool(b: bool) | JNum(n: int) | JStr(s: string)

  /** JavaScript truthiness of a JSON value: `undefined`, `null`, `false`,
      `0` and `""` are falsy, everything else is truthy. */
  predicate Truthy(v: Json)
  {
    match v
    case Absent => false
    case JNull => false
    case JBool(b) => b
    case JNum(n) => n != 0
    case JStr(s) => s != ""
  }

  /** `typeof v === "number"`. */
  predicate IsNumber(v: Json)
  {
    v.JNum?
  }
}
