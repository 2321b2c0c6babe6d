/**
 * Numbers shared by the model. Positions and rates, which the app keeps as
 * `Double`/`Float`, are exact reals here; a value that may be non-finite is a
 * `Double`, so that `isFinite` is a test on the value and not a guess.
 */
module Numbers {

  /** A floating-point value as far as the app inspects it: finite or not (NaN, plus or minus infinity). */
  datatype Double = Finite(value: real) | NonFinite {
    predicate IsFinite() { Finite? }
  }

  function Abs(x: real): (r: real)
    ensures r >= 0.0 && (r == x || r == -x)
  {
    if x < 0.0 then -x else x
  }

  function Min(a: real, b: real): (r: real)
    ensures r <= a && r <= b && (r == a || r == b)
  {
    if a <= b then a else b
  }

  function Max(a: real, b: real): (r: real)
    ensures r >= a && r >= b && (r == a || r == b)
  {
    if a >= b then a else b
  }
}
