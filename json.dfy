/**
 * Untyped JavaScript values as the browser code sees them: the raw input a
 * schema validates, the `details` bag of a stored row, the values a form
 * field holds. Numbers are reals: the code only compares them, and NaN or
 * infinities never reach the parts modelled here.
 */
module JsValue {

  datatype Json =
    | JUndefined
    | JNull
    | JBool(b: bool)
    | JNum(n: real)
    | JStr(s: string)
    | JArr(items: seq<Json>)
    | JObj(fields: map<string, Json>)

  /** `obj[key]`; a key that is absent reads as `undefined`. */
  function Get(obj: map<string, Json>, key: string): (v: Json)
    ensures key !in obj ==> v == JUndefined
    ensures key in obj ==> v == obj[key]
  {
    if key in obj then obj[key] else JUndefined
  }

  /** JavaScript truthiness, as `if (v)` and `v ? a : b` test it. */
  predicate Truthy(v: Json)
    ensures !Truthy(v) <==> v == JUndefined || v == JNull || v == JBool(false) || v == JNum(0.0) || v == JStr("")
  {
    match v
    case JUndefined => false
    case JNull => false
    case JBool(b) => b
    case JNum(n) => n != 0.0
    case JStr(s) => s != ""
    case JArr(_) => true
    case JObj(_) => true
  }

  /** The type name zod reports for a value it did not expect. */
  function TypeName(v: Json): string {
    match v
    case JUndefined => "undefined"
    case JNull => "null"
    case JBool(_) => "boolean"
    case JNum(_) => "number"
    case JStr(_) => "string"
    case JArr(_) => "array"
    case JObj(_) => "object"
  }

  /**
   * JavaScript's `v <= 0`. Exact for numbers, booleans (true is 1),
   * null (0) and undefined (NaN, so false); strings, arrays and objects
   * are converted with Number() by JavaScript, which is not modelled:
   * they compare as NaN here.
   */
  predicate AtMostZero(v: Json) {
    match v
    case JNum(n) => n <= 0.0
    case JBool(b) => !b
    case JNull => true
    case _ => false
  }
}
