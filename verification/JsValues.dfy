/**
 * The few JavaScript value notions the handlers depend on: values that may be
 * absent (`undefined`), the numbers `parseFloat` can produce, and the
 * truthiness tests (`!x`) the handlers apply to them.
 */
module JsValues {

  /** A value that may be absent (`undefined` in JavaScript). */
  datatype Option<+T> = None | Some(value: T)

  /**
   * A JavaScript number as `parseFloat` can produce it. Finite values are kept
   * as exact reals: rounding to IEEE-754 doubles is not modelled.
   */
  datatype JsNumber = NaN | PosInfinity | NegInfinity | Finite(value: real)

  /** `!!n` for a number: NaN and both zeros are falsy, everything else truthy. */
  predicate NumberTruthy(n: JsNumber) {
    match n
    case NaN => false
    case Finite(v) => v != 0.0
    case _ => true
  }

  /** `n < x` for a finite right operand; every comparison with NaN is false. */
  predicate LessThan(n: JsNumber, x: real) {
    match n
    case NaN => false
    case NegInfinity => true
    case PosInfinity => false
    case Finite(v) => v < x
  }

  /** `n > x` for a finite right operand; every comparison with NaN is false. */
  predicate GreaterThan(n: JsNumber, x: real) {
    match n
    case NaN => false
    case NegInfinity => false
    case PosInfinity => true
    case Finite(v) => v > x
  }

  /** `!!s` for a string field that may be absent: `undefined` and `""` are falsy. */
  predicate StringTruthy(s: Option<string>) {
    s.Some? && s.value != ""
  }

  /** The text a regular expression test sees: `String(undefined)` is "undefined". */
  function ToText(s: Option<string>): string {
    match s
    case None => "undefined"
    case Some(v) => v
  }
}
