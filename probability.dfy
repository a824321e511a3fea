/** Probabilities as the services hand them back: a heuristic score in
    tenths, or a Python float from a model, clamped with
    `max(0.0, min(1.0, p))`. A float is a real number or one of the IEEE
    special values; Python's `min` and `max` keep their first argument unless
    the second compares strictly smaller (larger), and every comparison with
    NaN is false. */
module Probability {

  datatype PyFloat = Finite(x: real) | PosInf | NegInf | NaN

  /** Python's `a < b` on floats. */
  predicate Less(a: PyFloat, b: PyFloat)
  {
    match (a, b)
    case (Finite(x), Finite(y)) => x < y
    case (NegInf, Finite(_)) => true
    case (NegInf, PosInf) => true
    case (Finite(_), PosInf) => true
    case _ => false
  }

  /** Python's two-argument `min(a, b)`. */
  function PyMin(a: PyFloat, b: PyFloat): PyFloat
  {
    if Less(b, a) then b else a
  }

  /** Python's two-argument `max(a, b)`. */
  function PyMax(a: PyFloat, b: PyFloat): PyFloat
  {
    if Less(a, b) then b else a
  }

  /** `max(0.0, min(1.0, p))`: always a real number in [0, 1]; a value
      already in range is kept, values below and above are cut to the
      bounds, and NaN comes out as 1.0 (`min(1.0, nan)` keeps 1.0). */
  function ClampUnit(p: PyFloat): (r: real)
    ensures 0.0 <= r <= 1.0
    ensures p.Finite? && 0.0 <= p.x <= 1.0 ==> r == p.x
    ensures (p.Finite? && p.x < 0.0) || p.NegInf? ==> r == 0.0
    ensures (p.Finite? && p.x > 1.0) || p.PosInf? || p.NaN? ==> r == 1.0
  {
    var clamped := PyMax(Finite(0.0), PyMin(Finite(1.0), p));
    match clamped
    case Finite(x) => x
    case _ => assert false; 0.0
  }

  /** The value every service falls back to when a model call raises. */
  const Fallback: real := 0.5

  /** A heuristic score in tenths as a probability. */
  function Tenths(t: int): real
  {
    t as real / 10.0
  }
}
