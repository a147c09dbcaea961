/** Number helpers shared by the components. */
module Numeric {

  /**
   * `Math.round(x)`: the nearest integer, halves rounded up (towards +infinity),
   * which is `floor(x + 0.5)`.
   */
  function Round(x: real): (r: int)
    ensures r as real - 0.5 <= x < r as real + 0.5
  {
    (x + 0.5).Floor
  }

  /** Rounding is determined by the half-open interval it states. */
  lemma RoundUnique(x: real, n: int)
    requires n as real - 0.5 <= x < n as real + 0.5
    ensures Round(x) == n
  {
  }

  /** Rounding is monotonic. */
  lemma RoundMonotonic(x: real, y: real)
    requires x <= y
    ensures Round(x) <= Round(y)
  {
  }

  // Facts about dividing by a non-zero real, kept apart so that the proofs
  // that use them stay linear.

  lemma DivSelf(m: real)
    requires m != 0.0
    ensures m / m == 1.0
  {
  }

  lemma DivMonotonic(a: real, b: real, m: real)
    requires m > 0.0 && a <= b
    ensures a / m <= b / m
  {
  }

  lemma DivStrictMonotonic(a: real, b: real, m: real)
    requires m > 0.0 && a < b
    ensures a / m < b / m
  {
  }

  lemma DivAdd(a: real, b: real, t: real)
    requires t != 0.0
    ensures (a + b) / t == a / t + b / t
  {
  }

  lemma CastMul(a: int, b: int)
    ensures (a * b) as real == a as real * b as real
  {
  }

  lemma MulDivCancel(a: real, m: real)
    requires m != 0.0
    ensures a * m / m == a
  {
  }

  /** A total between n * lo and n * hi has a rounded mean between lo and hi. */
  lemma RoundedMeanWithin(total: real, n: real, lo: int, hi: int)
    requires n > 0.0
    requires lo as real * n <= total <= hi as real * n
    ensures lo <= Round(total / n) <= hi
  {
    DivMonotonic(lo as real * n, total, n);
    DivMonotonic(total, hi as real * n, n);
    MulDivCancel(lo as real, n);
    MulDivCancel(hi as real, n);
    RoundMonotonic(lo as real, total / n);
    RoundMonotonic(total / n, hi as real);
    RoundUnique(lo as real, lo);
    RoundUnique(hi as real, hi);
  }

  lemma DivUnit(a: real, m: real)
    requires m > 0.0 && 0.0 <= a <= m
    ensures 0.0 <= a / m <= 1.0
  {
    DivMonotonic(a, m, m);
    DivMonotonic(0.0, a, m);
    DivSelf(m);
  }
}
