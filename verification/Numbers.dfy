/** The two views of a C++ `float` used by the motor pipeline.

- `real`: exact values, for the bounds.
- `Num`: a real, an infinity or NaN, with the IEEE 754 rules for each operation on
  them, for what a corrupt robot state can do. Rounding, overflow and the sign of
  zero are not modelled.

The `...N` functions are what the code computes; their real twins are the meaning of the
same expression on finite inputs, and `...Exact` lemmas connect the two.
*/
module Numbers {

  datatype Num = NaN | PosInf | NegInf | Fin(r: real)

  predicate IsFinite(a: Num) {
    a.Fin?
  }

  function Neg(a: Num): Num {
    match a
    case NaN => NaN
    case PosInf => NegInf
    case NegInf => PosInf
    case Fin(x) => Fin(-x)
  }

  function Add(a: Num, b: Num): Num {
    match (a, b)
    case (Fin(x), Fin(y)) => Fin(x + y)
    case (NaN, _) => NaN
    case (_, NaN) => NaN
    case (Fin(_), _) => b
    case (_, Fin(_)) => a
    case (_, _) => if a == b then a else NaN
  }

  function Sub(a: Num, b: Num): Num {
    Add(a, Neg(b))
  }

  // -1, 0 or 1; not defined on NaN.
  function Sign(a: Num): int
    requires !a.NaN?
  {
    match a
    case PosInf => 1
    case NegInf => -1
    case Fin(x) => if x > 0.0 then 1 else if x < 0.0 then -1 else 0
  }

  function Infinity(sign: int): Num {
    if sign > 0 then PosInf else if sign < 0 then NegInf else NaN
  }

  function Mul(a: Num, b: Num): Num {
    match (a, b)
    case (Fin(x), Fin(y)) => Fin(x * y)
    case (NaN, _) => NaN
    case (_, NaN) => NaN
    case (_, _) => Infinity(Sign(a) * Sign(b))
  }

  function Div(a: Num, b: Num): Num {
    match (a, b)
    case (Fin(x), Fin(y)) => if y != 0.0 then Fin(x / y) else Infinity(Sign(a))
    case (NaN, _) => NaN
    case (_, NaN) => NaN
    case (Fin(_), _) => Fin(0.0)
    case (_, Fin(y)) => Infinity(Sign(a) * (if y == 0.0 then 1 else Sign(b)))
    case (_, _) => NaN
  }

  // Every comparison with NaN is false.
  predicate Less(a: Num, b: Num) {
    match (a, b)
    case (Fin(x), Fin(y)) => x < y
    case (NaN, _) => false
    case (_, NaN) => false
    case (NegInf, _) => b != NegInf
    case (_, PosInf) => a != PosInf
    case (_, _) => false
  }

  // std::clamp: v unless it is below lo or above hi.
  function ClampN(v: Num, lo: Num, hi: Num): Num {
    if Less(v, lo) then lo else if Less(hi, v) then hi else v
  }

  function Clamp(v: real, lo: real, hi: real): (r: real)
    ensures lo <= hi ==> lo <= r <= hi
  {
    if v < lo then lo else if hi < v then hi else v
  }

  function Abs(x: real): (r: real)
    ensures r >= 0.0
  {
    if x < 0.0 then -x else x
  }

  function Min(x: real, y: real): real {
    if x < y then x else y
  }
}
