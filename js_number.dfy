/** The part of JavaScript number semantics the ledger can reach:
    amounts are exact reals, but a division by zero yields an infinity or
    NaN, and every comparison with NaN is false. */
module JsNumber {

  datatype Num = Finite(v: real) | PosInf | NegInf | NaN

  /** `a / b` as JavaScript evaluates it for finite operands. */
  function Div(a: real, b: real): (r: Num)
    ensures b != 0.0 ==> r == Finite(a / b)
    ensures b == 0.0 ==> (r == PosInf <==> a > 0.0) && (r == NegInf <==> a < 0.0) && (r == NaN <==> a == 0.0)
  {
    if b != 0.0 then Finite(a / b)
    else if a > 0.0 then PosInf
    else if a < 0.0 then NegInf
    else NaN
  }

  /** `x * c` for a positive finite constant `c`. */
  function Scale(x: Num, c: real): (r: Num)
    requires c > 0.0
    ensures r.Finite? <==> x.Finite?
    ensures x.Finite? ==> r.v == x.v * c
  {
    match x
    case Finite(v) => Finite(v * c)
    case _ => x
  }

  /** `x >= y`. */
  predicate Ge(x: Num, y: Num)
  {
    match (x, y)
    case (NaN, _) => false
    case (_, NaN) => false
    case (PosInf, _) => true
    case (_, NegInf) => true
    case (NegInf, _) => false
    case (_, PosInf) => false
    case (Finite(a), Finite(b)) => a >= b
  }

  /** `x > c` for a finite constant `c`. */
  predicate GtReal(x: Num, c: real)
  {
    match x
    case Finite(a) => a > c
    case PosInf => true
    case _ => false
  }

  /** `Ge` is the real order on finite values and false whenever NaN is involved. */
  lemma GeFinite(a: real, b: real)
    ensures Ge(Finite(a), Finite(b)) <==> a >= b
    ensures !Ge(NaN, Finite(b)) && !Ge(Finite(a), NaN)
  {
  }
}
