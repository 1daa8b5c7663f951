/**
 * JavaScript numbers as the model sees them: a finite value is a real, the
 * two infinities are kept apart by sign, and NaN is its own case.
 * No claim is made about IEEE precision; `Round1` is the one-decimal rounding
 * that `toFixed(1)` performs, defined over the reals.
 */
module Numbers {

  datatype Number = Finite(value: real) | Infinite(positive: bool) | NaN

  /** A number is truthy in JavaScript unless it is 0 or NaN; both
      infinities are truthy. */
  function Truthy(n: Number): (r: bool)
    ensures !r <==> n == Finite(0.0) || n == NaN
    ensures n.Infinite? ==> r
  {
    match n
    case Finite(x) => x != 0.0
    case Infinite(_) => true
    case NaN => false
  }

  /** The integer number of tenths `toFixed(1)` chooses: the nearest one, ties
      away from zero (the string is built from the magnitude, then signed). */
  function Tenths(x: real): int {
    if x >= 0.0 then (10.0 * x + 0.5).Floor else -((-10.0 * x + 0.5).Floor)
  }

  /** One-decimal rounding: a whole number of tenths, at most half a tenth away. */
  function Round1(x: real): (r: real)
    ensures (10.0 * r).Floor as real == 10.0 * r
    ensures -0.05 <= r - x <= 0.05
    ensures x >= 0.0 ==> r >= 0.0
    ensures x <= 0.0 ==> r <= 0.0
  {
    Tenths(x) as real / 10.0
  }

  /** Rounding a value that already has one decimal changes nothing. */
  lemma TenthsOfTenths(k: int)
    ensures Tenths(k as real / 10.0) == k
  {
  }

  lemma Round1Idempotent(x: real)
    ensures Round1(Round1(x)) == Round1(x)
  {
    TenthsOfTenths(Tenths(x));
  }

  /** `toFixed` is symmetric: rounding commutes with negation. */
  lemma Round1Odd(x: real)
    ensures Round1(-x) == -Round1(x)
  {
  }

  /** `parseFloat(n.toFixed(1))`: a finite number is rounded to one decimal,
      a non-finite one prints as "NaN", "Infinity" or "-Infinity" and parses
      back unchanged. */
  function RoundNumber(n: Number): (r: Number)
    ensures r.Finite? <==> n.Finite?
    ensures r.Finite? ==> -0.05 <= r.value - n.value <= 0.05
    ensures !n.Finite? ==> r == n
  {
    match n
    case Finite(x) => Finite(Round1(x))
    case _ => n
  }
}
