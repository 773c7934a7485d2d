/** Python's built-in `round`, over exact reals.

    `round(x)` returns the integer nearest to `x`, and at an exact tie the
    even one ("banker's rounding"); `round(x, 2)` rounds to the nearest
    multiple of 0.01 by the same rule.
 */
module PyRound {

  /** `round(x)`: the nearest integer, ties to the even neighbour. */
  function RoundHalfEven(x: real): (n: int)
    ensures -0.5 <= x - n as real <= 0.5
    ensures (x - n as real == 0.5 || n as real - x == 0.5) ==> n % 2 == 0
  {
    var f := x.Floor;
    var d := x - f as real;
    if d < 0.5 then f
    else if d > 0.5 then f + 1
    else if f % 2 == 0 then f
    else f + 1
  }

  /** No integer lies closer to `x` than `round(x)`. */
  lemma RoundIsNearest(x: real, m: int)
    ensures Abs(x - RoundHalfEven(x) as real) <= Abs(x - m as real)
  {
    var n := RoundHalfEven(x);
    if m < n {
      assert m as real <= n as real - 1.0;
    } else if m > n {
      assert m as real >= n as real + 1.0;
    }
  }

  /** An integer is its own rounding. */
  lemma RoundOfInteger(k: int)
    ensures RoundHalfEven(k as real) == k
  {
  }

  /** Ties go to the even neighbour, as in Python: `round(0.5) == 0`,
      `round(1.5) == 2`, `round(-2.5) == -2`. */
  lemma RoundTiesToEven()
    ensures RoundHalfEven(0.5) == 0
    ensures RoundHalfEven(1.5) == 2
    ensures RoundHalfEven(-2.5) == -2
  {
  }

  /** Rounding never reverses the order of two values. */
  lemma RoundMonotone(x: real, y: real)
    requires x <= y
    ensures RoundHalfEven(x) <= RoundHalfEven(y)
  {
    var fx, fy := x.Floor, y.Floor;
    assert fx <= fy;
    if fx < fy {
      assert RoundHalfEven(x) <= fx + 1 <= fy <= RoundHalfEven(y);
    } else {
      assert x - fx as real <= y - fy as real;
    }
  }

  /** `round(x, 2)`: the nearest multiple of 0.01, ties to an even count of
      hundredths. */
  function RoundHundredths(x: real): (r: real)
    ensures -0.005 <= x - r <= 0.005
    ensures (r * 100.0).Floor as real == r * 100.0
  {
    RoundHalfEven(x * 100.0) as real / 100.0
  }

  /** Rounding to hundredths never reverses the order of two values. */
  lemma RoundHundredthsMonotone(x: real, y: real)
    requires x <= y
    ensures RoundHundredths(x) <= RoundHundredths(y)
  {
    RoundMonotone(x * 100.0, y * 100.0);
  }

  /** A value that is already a whole number of hundredths is unchanged. */
  lemma RoundHundredthsOfHundredths(k: int)
    ensures RoundHundredths(k as real / 100.0) == k as real / 100.0
  {
    assert k as real / 100.0 * 100.0 == k as real;
    RoundOfInteger(k);
  }

  function Abs(x: real): real {
    if x < 0.0 then -x else x
  }
}
