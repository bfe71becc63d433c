/** Python `decimal.Decimal`, as far as the instrument model uses it: a value that is
    finite (an exact rational), infinite or not a number, and `quantize` with
    `ROUND_HALF_EVEN` to a fixed number of decimal places. */
module Decimals {

  /** A decimal by value: the exponent and the sign of a zero are not kept. */
  datatype Decimal = Finite(value: real) | Infinity(negative: bool) | NaN(signaling: bool)

  /** `d.is_finite() and d > 0`, the test the constructors apply to strikes and multipliers. */
  predicate IsPositiveFinite(d: Decimal) {
    d.Finite? && d.value > 0.0
  }

  predicate IsInteger(x: real) {
    x.Floor as real == x
  }

  /** `n` is `x` rounded to an integer half-to-even: at most half a unit away, and on a tie even. */
  ghost predicate IsHalfEvenRounding(x: real, n: int) {
    var e := n as real - x;
    -0.5 <= e <= 0.5 && ((e == 0.5 || e == -0.5) ==> n % 2 == 0)
  }

  /** Round half to even (banker's rounding) to an integer. */
  function RoundHalfEven(x: real): (n: int)
    ensures IsHalfEvenRounding(x, n)
  {
    var f := x.Floor;
    var frac := x - f as real;
    if frac < 0.5 then f
    else if frac > 0.5 then f + 1
    else if f % 2 == 0 then f else f + 1
  }

  /** Only one integer is the half-even rounding of a given value. */
  lemma HalfEvenRoundingUnique(x: real, n: int, m: int)
    requires IsHalfEvenRounding(x, n) && IsHalfEvenRounding(x, m)
    ensures n == m
  {
  }

  /** A whole number is its own rounding. */
  lemma RoundHalfEvenOfInteger(n: int)
    ensures RoundHalfEven(n as real) == n
  {
    HalfEvenRoundingUnique(n as real, n, RoundHalfEven(n as real));
  }

  /** Rounding never reverses the order of two values. */
  lemma RoundHalfEvenMonotone(x: real, y: real)
    requires x <= y
    ensures RoundHalfEven(x) <= RoundHalfEven(y)
  {
  }

  /** `Instrument.multiplierQuantization`, `Decimal('0.1')`, as the number of steps in one unit. */
  const MultiplierSteps: real := 10.0

  /** `Option.strikeQuantization`, `Decimal('0.001')`, as the number of steps in one unit. */
  const StrikeSteps: real := 1000.0

  /** `Instrument.quantizeMultiplier`: the nearest multiple of 0.1, a tie going to the even tenth. */
  function QuantizeMultiplier(multiplier: real): (q: real)
    ensures IsInteger(q * MultiplierSteps)
    ensures -0.05 <= q - multiplier <= 0.05
    ensures (q - multiplier == 0.05 || multiplier - q == 0.05) ==> (q * MultiplierSteps).Floor % 2 == 0
  {
    RoundHalfEven(multiplier * MultiplierSteps) as real / MultiplierSteps
  }

  /** `Option.quantizeStrike`: the nearest multiple of 0.001, a tie going to the even thousandth. */
  function QuantizeStrike(strike: real): (q: real)
    ensures IsInteger(q * StrikeSteps)
    ensures -0.0005 <= q - strike <= 0.0005
    ensures (q - strike == 0.0005 || strike - q == 0.0005) ==> (q * StrikeSteps).Floor % 2 == 0
  {
    RoundHalfEven(strike * StrikeSteps) as real / StrikeSteps
  }

  /** A multiple of 0.1 at most 0.05 from the input, with an even tenth on a tie, is the
      quantized multiplier: the contract of `QuantizeMultiplier` determines it. */
  lemma QuantizeMultiplierUnique(multiplier: real, q: real)
    requires IsInteger(q * MultiplierSteps)
    requires -0.05 <= q - multiplier <= 0.05
    requires (q - multiplier == 0.05 || multiplier - q == 0.05) ==> (q * MultiplierSteps).Floor % 2 == 0
    ensures q == QuantizeMultiplier(multiplier)
  {
    var x := multiplier * MultiplierSteps;
    assert IsHalfEvenRounding(x, (q * MultiplierSteps).Floor);
    HalfEvenRoundingUnique(x, (q * MultiplierSteps).Floor, RoundHalfEven(x));
  }

  /** The same for strikes and steps of 0.001. */
  lemma QuantizeStrikeUnique(strike: real, q: real)
    requires IsInteger(q * StrikeSteps)
    requires -0.0005 <= q - strike <= 0.0005
    requires (q - strike == 0.0005 || strike - q == 0.0005) ==> (q * StrikeSteps).Floor % 2 == 0
    ensures q == QuantizeStrike(strike)
  {
    var x := strike * StrikeSteps;
    assert IsHalfEvenRounding(x, (q * StrikeSteps).Floor);
    HalfEvenRoundingUnique(x, (q * StrikeSteps).Floor, RoundHalfEven(x));
  }

  /** Quantizing a multiplier twice gives the same result as quantizing it once. */
  lemma QuantizeMultiplierIdempotent(multiplier: real)
    ensures QuantizeMultiplier(QuantizeMultiplier(multiplier)) == QuantizeMultiplier(multiplier)
  {
    var q := QuantizeMultiplier(multiplier);
    RoundHalfEvenOfInteger((q * MultiplierSteps).Floor);
  }

  /** Quantizing a strike twice gives the same result as quantizing it once. */
  lemma QuantizeStrikeIdempotent(strike: real)
    ensures QuantizeStrike(QuantizeStrike(strike)) == QuantizeStrike(strike)
  {
    var q := QuantizeStrike(strike);
    RoundHalfEvenOfInteger((q * StrikeSteps).Floor);
  }

  /** Quantization keeps the order of multipliers and of strikes. */
  lemma QuantizeMonotone(v: real, w: real)
    requires v <= w
    ensures QuantizeMultiplier(v) <= QuantizeMultiplier(w)
    ensures QuantizeStrike(v) <= QuantizeStrike(w)
  {
    RoundHalfEvenMonotone(v * MultiplierSteps, w * MultiplierSteps);
    RoundHalfEvenMonotone(v * StrikeSteps, w * StrikeSteps);
  }

  /** A positive input quantizes to zero or more, and to zero exactly when it is at most half
      a step: the positivity the constructors check is not kept by the stored value. */
  lemma QuantizePositive(v: real)
    requires v > 0.0
    ensures QuantizeMultiplier(v) >= 0.0
    ensures QuantizeMultiplier(v) == 0.0 <==> v <= 0.05
    ensures QuantizeStrike(v) >= 0.0
    ensures QuantizeStrike(v) == 0.0 <==> v <= 0.0005
  {
  }

  /** Exact ties go to the even digit and everything else to the nearest step. */
  lemma QuantizeMultiplierExamples()
    ensures QuantizeMultiplier(100.04) == 100.0
    ensures QuantizeMultiplier(100.05) == 100.0
    ensures QuantizeMultiplier(100.15) == 100.2
    ensures QuantizeMultiplier(100.06) == 100.1
  {
    assert QuantizeMultiplier(100.04) == 100.0 by { QuantizeMultiplierUnique(100.04, 100.0); }
    assert QuantizeMultiplier(100.05) == 100.0 by { QuantizeMultiplierUnique(100.05, 100.0); }
    assert QuantizeMultiplier(100.15) == 100.2 by { QuantizeMultiplierUnique(100.15, 100.2); }
    assert QuantizeMultiplier(100.06) == 100.1 by { QuantizeMultiplierUnique(100.06, 100.1); }
  }

  lemma QuantizeStrikeExamples()
    ensures QuantizeStrike(150.0) == 150.0
    ensures QuantizeStrike(12.3455) == 12.346
    ensures QuantizeStrike(12.3445) == 12.344
    ensures QuantizeStrike(0.0005) == 0.0
  {
    StrikeOnStep();
    StrikeTieUp();
    StrikeTieDown();
    StrikeHalfStep();
  }

  lemma StrikeOnStep()
    ensures QuantizeStrike(150.0) == 150.0
  {
    QuantizeStrikeUnique(150.0, 150.0);
  }

  lemma StrikeTieUp()
    ensures QuantizeStrike(12.3455) == 12.346
  {
    QuantizeStrikeUnique(12.3455, 12.346);
  }

  lemma StrikeTieDown()
    ensures QuantizeStrike(12.3445) == 12.344
  {
    QuantizeStrikeUnique(12.3445, 12.344);
  }

  lemma StrikeHalfStep()
    ensures QuantizeStrike(0.0005) == 0.0
  {
    QuantizeStrikeUnique(0.0005, 0.0);
  }
}
