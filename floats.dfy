/** Go's float64 values as extended reals: finite values are exact reals (rounding is
    not modelled), plus the infinities and NaN that IEEE 754 arithmetic produces when a
    divisor is zero. Signed zero is not modelled: every zero behaves as +0. */
module Floats {

  datatype Float = Fin(r: real) | PosInf | NegInf | NaN

  predicate Negative(f: Float) {
    (f.Fin? && f.r < 0.0) || f.NegInf?
  }

  function Infinity(negative: bool): (f: Float)
    ensures !f.Fin? && !f.NaN? && Negative(f) == negative
  {
    if negative then NegInf else PosInf
  }

  function Neg(a: Float): Float {
    match a
    case Fin(x) => Fin(-x)
    case PosInf => NegInf
    case NegInf => PosInf
    case NaN => NaN
  }

  function Add(a: Float, b: Float): Float {
    if a.NaN? || b.NaN? then NaN
    else if (a.PosInf? && b.NegInf?) || (a.NegInf? && b.PosInf?) then NaN
    else if !a.Fin? then a
    else if !b.Fin? then b
    else Fin(a.r + b.r)
  }

  function Sub(a: Float, b: Float): Float {
    Add(a, Neg(b))
  }

  function Mul(a: Float, b: Float): Float {
    if a.NaN? || b.NaN? then NaN
    else if a.Fin? && b.Fin? then Fin(a.r * b.r)
    else if a == Fin(0.0) || b == Fin(0.0) then NaN
    else Infinity(Negative(a) != Negative(b))
  }

  function Div(a: Float, b: Float): Float {
    if a.NaN? || b.NaN? then NaN
    else if !a.Fin? && !b.Fin? then NaN
    else if a.Fin? && b.Fin? then
      (if b.r != 0.0 then Fin(a.r / b.r)
       else if a.r == 0.0 then NaN
       else Infinity(a.r < 0.0))
    else if a.Fin? then Fin(0.0)
    else Infinity(Negative(a) != Negative(b))
  }

  /** float64(n) for a Go integer. */
  function FromInt(n: int): Float {
    Fin(n as real)
  }
}
