/**
 * What JavaScript's `x / y` gives for non-negative operands, kept exact: a
 * finite quotient, `Infinity` (x > 0, y == 0) or `NaN` (0 / 0). The source
 * computes averages as `total / count || 0` and progress ratios as
 * `current / target * 100`, and compares the outcome with `<` and `>`.
 */
module Quotients {

  datatype Quotient = Finite(value: real) | PosInfinity | NaN

  function Divide(x: real, y: real): (q: Quotient)
    requires x >= 0.0 && y >= 0.0
    ensures q.Finite? <==> y > 0.0
    ensures q.Finite? ==> q.value >= 0.0 && q.value * y == x
    ensures q.NaN? <==> x == 0.0 && y == 0.0
  {
    if y > 0.0 then Finite(x / y) else if x > 0.0 then PosInfinity else NaN
  }

  /** `q || 0`: NaN is falsy and becomes 0; every other value is kept. */
  function OrZero(q: Quotient): (r: Quotient)
    ensures !r.NaN?
    ensures q.NaN? ==> r == Finite(0.0)
    ensures !q.NaN? ==> r == q
  {
    if q.NaN? then Finite(0.0) else q
  }

  /** `q * k` for a positive constant `k`. */
  function Times(q: Quotient, k: real): (r: Quotient)
    requires k > 0.0
    ensures r.Finite? <==> q.Finite?
    ensures q.Finite? ==> r.value == q.value * k
    ensures r.NaN? <==> q.NaN?
  {
    match q
    case Finite(v) => Finite(v * k)
    case PosInfinity => PosInfinity
    case NaN => NaN
  }

  /** `q > b`: true of Infinity, false of NaN. */
  predicate GreaterThan(q: Quotient, b: real) {
    q.PosInfinity? || (q.Finite? && q.value > b)
  }

  /** `q < b`: false of Infinity and of NaN. */
  predicate LessThan(q: Quotient, b: real) {
    q.Finite? && q.value < b
  }
}
