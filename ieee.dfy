/** The numpy float64 results the analyzer can produce, over exact reals:
    a finite number, or the infinities and NaN that numpy returns (with a
    warning, not an exception) when a float is divided by zero. Rounding is
    not modelled. */
module Ieee {

  datatype Float = Num(v: real) | PosInf | NegInf | NaN

  /** numpy's `a / b` on float64 scalars: the exact quotient when `b` is not
      zero; otherwise +inf, -inf or NaN according to the sign of `a`. */
  function Div(a: real, b: real): (r: Float)
    ensures r.Num? <==> b != 0.0
    ensures r.Num? ==> r.v * b == a
    ensures r == PosInf <==> b == 0.0 && a > 0.0
    ensures r == NegInf <==> b == 0.0 && a < 0.0
    ensures r == NaN <==> b == 0.0 && a == 0.0
  {
    if b != 0.0 then Num(a / b)
    else if a > 0.0 then PosInf
    else if a < 0.0 then NegInf
    else NaN
  }

  /** numpy's `x + c` for a finite `c`: infinities and NaN absorb it. */
  function Plus(x: Float, c: real): (r: Float)
    ensures x.Num? ==> r == Num(x.v + c)
    ensures !x.Num? ==> r == x
  {
    if x.Num? then Num(x.v + c) else x
  }

  /** The order of the extended reals, -inf <= finite <= +inf; NaN is
      comparable with nothing, not even itself. */
  predicate AtMost(x: Float, y: Float)
  {
    match (x, y)
    case (NaN, _) => false
    case (_, NaN) => false
    case (NegInf, _) => true
    case (_, PosInf) => true
    case (Num(a), Num(b)) => a <= b
    case _ => false
  }

  /** Python's `x > y` on floats: every comparison with NaN is false. It is
      the strict part of the order `AtMost`. */
  predicate Greater(x: Float, y: Float)
    ensures Greater(x, y) <==> AtMost(y, x) && x != y
  {
    match (x, y)
    case (NaN, _) => false
    case (_, NaN) => false
    case (Num(a), Num(b)) => a > b
    case (PosInf, _) => y != PosInf
    case (_, NegInf) => x != NegInf
    case _ => false
  }

  /** A value that is at least as large passes every threshold the smaller
      one passes. */
  lemma GreaterMonotone(x: Float, y: Float, t: Float)
    requires AtMost(x, y)
    requires Greater(x, t)
    ensures Greater(y, t)
  {
  }

  /** A lower threshold is passed by everything that passes a higher one. */
  lemma GreaterAntitone(x: Float, t1: Float, t2: Float)
    requires AtMost(t1, t2)
    requires Greater(x, t2)
    ensures Greater(x, t1)
  {
  }

  /** Adding the same offset keeps the order. */
  lemma PlusMonotone(x: Float, y: Float, c: real)
    requires AtMost(x, y)
    ensures AtMost(Plus(x, c), Plus(y, c))
  {
  }

  /** A NaN passes no threshold, and no value passes a NaN threshold. */
  lemma NaNNeverGreater(x: Float)
    ensures !Greater(NaN, x)
    ensures !Greater(x, NaN)
  {
  }
}
