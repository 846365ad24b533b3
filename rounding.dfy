/**
 * Python's `round(x)` and `round(x, n)`: round half to even, here on exact
 * reals rather than on binary floats.
 */
module Rounding {

  function Pow10(n: nat): (p: nat)
    ensures p >= 1
  {
    if n == 0 then 1 else 10 * Pow10(n - 1)
  }

  /** `round(x)`: the nearest integer, ties to the even neighbour. */
  function RoundToInt(x: real): (n: int)
    ensures -0.5 <= x - n as real <= 0.5
    ensures (x - n as real == 0.5 || n as real - x == 0.5) ==> n % 2 == 0
  {
    var f := x.Floor;
    var frac := x - f as real;
    if frac > 0.5 then f + 1
    else if frac < 0.5 then f
    else if f % 2 == 0 then f
    else f + 1
  }

  /** The two properties of `RoundToInt` single out one integer. */
  lemma RoundToIntUnique(x: real, m: int)
    requires -0.5 <= x - m as real <= 0.5
    requires (x - m as real == 0.5 || m as real - x == 0.5) ==> m % 2 == 0
    ensures m == RoundToInt(x)
  {
  }

  /** Rounding never reverses the order of two values. */
  lemma RoundToIntMonotonic(x: real, y: real)
    requires x <= y
    ensures RoundToInt(x) <= RoundToInt(y)
  {
    assert x.Floor <= y.Floor;
  }

  /** `x * 10^digits`. */
  function Scale(x: real, digits: nat): real
  {
    x * Pow10(digits) as real
  }

  /** `n / 10^digits`. */
  function Unscale(n: int, digits: nat): real
  {
    n as real / Pow10(digits) as real
  }

  /** `round(x, digits)`: the nearest multiple of 10^-digits, ties to even. */
  function Round(x: real, digits: nat): (r: real)
    ensures -0.5 <= Scale(x - r, digits) <= 0.5
  {
    ScaledError(x, digits);
    Unscale(RoundToInt(Scale(x, digits)), digits)
  }

  lemma ScaledError(x: real, digits: nat)
    ensures -0.5 <= Scale(x - Unscale(RoundToInt(Scale(x, digits)), digits), digits) <= 0.5
  {
    var p := Pow10(digits) as real;
    var n := RoundToInt(x * p) as real;
    assert (x - n / p) * p == x * p - n;
  }

  lemma ScaleMonotonic(x: real, y: real, digits: nat)
    requires x <= y
    ensures Scale(x, digits) <= Scale(y, digits)
  {
  }

  lemma UnscaleMonotonic(m: int, n: int, digits: nat)
    requires m <= n
    ensures Unscale(m, digits) <= Unscale(n, digits)
  {
    var p := Pow10(digits) as real;
    assert n as real / p - m as real / p == (n - m) as real / p;
  }

  /** `round(x, digits)` never reverses the order of two values. */
  lemma RoundMonotonic(x: real, y: real, digits: nat)
    requires x <= y
    ensures Round(x, digits) <= Round(y, digits)
  {
    ScaleMonotonic(x, y, digits);
    RoundToIntMonotonic(Scale(x, digits), Scale(y, digits));
    UnscaleMonotonic(RoundToInt(Scale(x, digits)), RoundToInt(Scale(y, digits)), digits);
  }

  /** The rounded value of a non-negative value is non-negative. */
  lemma RoundNonNegative(x: real, digits: nat)
    requires x >= 0.0
    ensures Round(x, digits) >= 0.0
  {
    RoundMonotonic(0.0, x, digits);
    assert Scale(0.0, digits) == 0.0;
    assert RoundToInt(0.0) == 0;
    assert Unscale(0, digits) == 0.0;
  }
}
