/**
 * The few JavaScript value semantics the access gate relies on: the values a
 * probe or `localStorage.getItem` can produce, truthiness (`if (x)`, `!x`) and
 * the value-returning `||` operator.
 */
module Js {

  /** The JavaScript values that reach a truthiness test in the gate. */
  datatype JsValue = Null | Bool(b: bool) | Str(s: string)

  /** JavaScript truthiness: `null`, `false` and the empty string are falsy. */
  predicate Truthy(v: JsValue)
  {
    match v
    case Null => false
    case Bool(b) => b
    case Str(s) => s != ""
  }

  /**
   * `a || b`: yields its left operand when that is truthy and its right operand
   * otherwise, so the result is one of the operands, not necessarily a boolean.
   */
  function Or(a: JsValue, b: JsValue): (r: JsValue)
    ensures Truthy(r) <==> Truthy(a) || Truthy(b)
    ensures r == a || r == b
    ensures Truthy(a) ==> r == a
    ensures !Truthy(a) ==> r == b
  {
    if Truthy(a) then a else b
  }
}
