/** JavaScript's rounding, on exact reals. */
module JsMath {

  /** `Math.round(x)`: the nearest integer, a half rounded towards +infinity
      (so -2.5 rounds to -2 and 2.5 to 3). */
  function Round(x: real): (n: int)
    ensures x - 0.5 < n as real <= x + 0.5
  {
    (x + 0.5).Floor
  }

  /** `Math.round(x * 100) / 100`: x rounded to two decimals. */
  function RoundTo2(x: real): (r: real)
    ensures x - 0.005 < r <= x + 0.005
  {
    Round(x * 100.0) as real / 100.0
  }

  /** The result of RoundTo2 has at most two decimals. */
  lemma RoundTo2HasTwoDecimals(x: real)
    ensures (RoundTo2(x) * 100.0).Floor as real == RoundTo2(x) * 100.0
  {
  }

  /** The bounds in Round's contract pin the result down: there is exactly
      one integer in the half-open interval (x - 1/2, x + 1/2]. */
  lemma RoundUnique(x: real, k: int)
    requires x - 0.5 < k as real <= x + 0.5
    ensures Round(x) == k
  {
  }

  lemma RoundMonotone(x: real, y: real)
    requires x <= y
    ensures Round(x) <= Round(y)
  {
  }

  /** Scaling by a non-negative factor keeps order. */
  lemma MultiplyMonotone(s: real, a: real, b: real)
    requires s >= 0.0 && a <= b
    ensures s * a <= s * b
  {
    assert s * b - s * a == s * (b - a);
  }

}
