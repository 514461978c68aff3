/**
 * Python's numeric conversions on `real`: `round(x)` (to the nearest integer,
 * ties to even), `round(x, n)` and `int(x)` (truncation toward zero).
 * Binary floating-point artefacts are not modelled.
 */
module Rounding {
  import opened Text

  /** Python's `round(x)`: the nearest integer, ties going to the even one. */
  function RoundHalfEven(x: real): (r: int)
    ensures -0.5 <= r as real - x <= 0.5
    ensures (r as real - x == 0.5 || x - r as real == 0.5) ==> r % 2 == 0
  {
    var f := x.Floor;
    var d := x - f as real;
    if d < 0.5 then f
    else if d > 0.5 then f + 1
    else if f % 2 == 0 then f
    else f + 1
  }

  /** Python's `round(x, digits)`: `x` to `digits` decimal places, ties to even. */
  function Round(x: real, digits: nat): (r: real)
    ensures -0.5 / Pow10(digits) as real <= r - x <= 0.5 / Pow10(digits) as real
  {
    var p := Pow10(digits) as real;
    var n := RoundHalfEven(x * p);
    assert -0.5 <= n as real - x * p <= 0.5;
    DivideBounds(n as real - x * p, p);
    n as real / p
  }

  /** `round(x, 1)` is within 0.05 of `x`. */
  lemma RoundOneDecimal(x: real)
    ensures -0.05 <= Round(x, 1) - x <= 0.05
  {
    assert Pow10(1) == 10;
  }

  lemma DivideBounds(e: real, p: real)
    requires p >= 1.0 && -0.5 <= e <= 0.5
    ensures -0.5 / p <= e / p <= 0.5 / p
  {
  }

  /** Python's `int(x)` on a float: truncation toward zero. */
  function TruncToInt(x: real): (r: int)
    ensures x >= 0.0 ==> 0.0 <= r as real <= x < r as real + 1.0
    ensures x < 0.0 ==> r as real - 1.0 < x <= r as real <= 0.0
  {
    if x >= 0.0 then x.Floor else -((-x).Floor)
  }
}
