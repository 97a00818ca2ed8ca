/** JavaScript numbers as far as the application's arithmetic needs them:
    finite values (modelled exactly, as reals), NaN and the two infinities.
    Rounding of IEEE doubles is not modelled. */
module JsNumbers {

  datatype Num = Finite(value: real) | NaN | PosInf | NegInf

  /** `Number.isFinite`. */
  predicate IsFinite(n: Num)
  {
    n.Finite?
  }

  /** The numeric order on non-NaN values. */
  predicate LessEq(a: Num, b: Num)
    requires !a.NaN? && !b.NaN?
  {
    match (a, b)
    case (NegInf, _) => true
    case (_, PosInf) => true
    case (Finite(x), Finite(y)) => x <= y
    case _ => false
  }

  /** `Math.max(a, b)`: NaN when either is NaN, otherwise the larger. */
  function Max(a: Num, b: Num): (r: Num)
    ensures r.NaN? <==> a.NaN? || b.NaN?
    ensures !r.NaN? ==> LessEq(a, r) && LessEq(b, r) && (r == a || r == b)
  {
    if a.NaN? || b.NaN? then NaN else if LessEq(a, b) then b else a
  }

  /** `Math.min(a, b)`: NaN when either is NaN, otherwise the smaller. */
  function Min(a: Num, b: Num): (r: Num)
    ensures r.NaN? <==> a.NaN? || b.NaN?
    ensures !r.NaN? ==> LessEq(r, a) && LessEq(r, b) && (r == a || r == b)
  {
    if a.NaN? || b.NaN? then NaN else if LessEq(a, b) then a else b
  }

  /** `1000 / delta` for a finite `delta`: division by zero gives +Infinity. */
  function ThousandOver(delta: real): (r: Num)
    ensures delta != 0.0 ==> r == Finite(1000.0 / delta)
    ensures delta == 0.0 ==> r == PosInf
  {
    if delta == 0.0 then PosInf else Finite(1000.0 / delta)
  }
}
