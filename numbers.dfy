/**
 * The JavaScript number semantics the ledger and the service depend on.
 * A number is a real or NaN; infinities and floating-point rounding are
 * not modelled.
 */
module Numbers {

  datatype JsNumber = Finite(value: real) | NaN

  const Zero: JsNumber := Finite(0.0)

  /** `a + b`: NaN if either operand is NaN. */
  function Plus(a: JsNumber, b: JsNumber): JsNumber {
    if a.Finite? && b.Finite? then Finite(a.value + b.value) else NaN
  }

  /** `a - b`: NaN if either operand is NaN. */
  function Minus(a: JsNumber, b: JsNumber): JsNumber {
    if a.Finite? && b.Finite? then Finite(a.value - b.value) else NaN
  }

  /** `Math.max(a, b)`: NaN if either argument is NaN. */
  function Max(a: JsNumber, b: JsNumber): JsNumber {
    if a.Finite? && b.Finite? then Finite(if a.value < b.value then b.value else a.value) else NaN
  }

  /** `a > b`: false whenever an operand is NaN. */
  predicate Greater(a: JsNumber, b: JsNumber) {
    a.Finite? && b.Finite? && a.value > b.value
  }

  /** `a === b`: NaN equals nothing, itself included. */
  predicate StrictEquals(a: JsNumber, b: JsNumber) {
    a.Finite? && b.Finite? && a.value == b.value
  }

  /** The truth value of a number in a condition: false for 0 and for NaN. */
  predicate Truthy(a: JsNumber) {
    a.Finite? && a.value != 0.0
  }
}
