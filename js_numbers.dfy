/**
 * JavaScript numbers as the calculation uses them: a finite value, or NaN.
 * Every arithmetic operation yields NaN when an operand is NaN,
 * a comparison with NaN is false, and NaN is falsy. Values are exact reals:
 * IEEE-754 rounding and the infinities are not modelled.
 */
module JsNumbers {

  datatype Number = NaN | Finite(value: real)

  /** `a + b` */
  function Add(a: Number, b: Number): Number {
    if a.Finite? && b.Finite? then Finite(a.value + b.value) else NaN
  }

  /** `a - b` */
  function Sub(a: Number, b: Number): Number {
    if a.Finite? && b.Finite? then Finite(a.value - b.value) else NaN
  }

  /** `a * b` */
  function Mul(a: Number, b: Number): Number {
    if a.Finite? && b.Finite? then Finite(a.value * b.value) else NaN
  }

  /** `a * k` for a numeric literal or a value known not to be NaN */
  function Scale(a: Number, k: real): Number {
    if a.Finite? then Finite(a.value * k) else NaN
  }

  /** `a / k` for a divisor known to be a nonzero number */
  function DivBy(a: Number, k: real): Number
    requires k != 0.0
  {
    if a.Finite? then Finite(a.value / k) else NaN
  }

  /** `a > 0`, which is false when `a` is NaN */
  predicate IsPositive(a: Number) {
    a.Finite? && a.value > 0.0
  }

  /** `a || 0`: NaN and 0 are falsy, so both give 0 */
  function OrZero(a: Number): (r: real)
    ensures a.NaN? ==> r == 0.0
    ensures a.Finite? ==> r == a.value
  {
    match a
    case NaN => 0.0
    case Finite(v) => if v == 0.0 then 0.0 else v
  }

  /** Sums regroup, NaN included; the totals reduce relies on this. */
  lemma AddAssociative(a: Number, b: Number, c: Number)
    ensures Add(Add(a, b), c) == Add(a, Add(b, c))
  {
  }
}
