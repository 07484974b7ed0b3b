/**
 * JavaScript values as they reach a request handler or a query: `undefined`, `null`,
 * booleans, numbers (exact reals plus NaN), and strings. In the values modelled here,
 * objects and arrays never appear as field values.
 */
module JsValues {

  datatype JsValue = Undefined | Null | Bool(b: bool) | Num(x: real) | NotANumber | Str(s: string)

  /** JavaScript truthiness: `undefined`, `null`, `false`, `0`, `NaN` and `''` are falsy. */
  predicate Truthy(v: JsValue) {
    match v
    case Undefined => false
    case Null => false
    case Bool(b) => b
    case Num(x) => x != 0.0
    case NotANumber => false
    case Str(s) => s != []
  }

  /** `===`: structural equality, except that NaN equals nothing. */
  predicate StrictEquals(a: JsValue, b: JsValue) {
    a == b && !a.NotANumber?
  }

  /** `v || fallback`. */
  function Or(v: JsValue, fallback: JsValue): (r: JsValue)
    ensures Truthy(v) ==> r == v
    ensures !Truthy(v) ==> r == fallback
  {
    if Truthy(v) then v else fallback
  }

  /** `values[i]`, which is `undefined` past the end. */
  function At(values: seq<JsValue>, i: int): (r: JsValue)
    ensures 0 <= i < |values| ==> r == values[i]
    ensures !(0 <= i < |values|) ==> r == Undefined
  {
    if 0 <= i < |values| then values[i] else Undefined
  }
}
