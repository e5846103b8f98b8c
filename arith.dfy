/** Facts about real multiplication and division that the solver does not
    find on its own, used by the colour and coordinate proofs. */
module RealArith {
  lemma MulNonNegative(x: real, y: real)
    requires x >= 0.0 && y >= 0.0
    ensures x * y >= 0.0
  {
  }

  lemma MulPositive(x: real, y: real)
    requires x > 0.0 && y > 0.0
    ensures x * y > 0.0
  {
  }

  lemma DivSelf(x: real)
    requires x != 0.0
    ensures x / x == 1.0
  {
  }

  lemma DivNegatedSelf(x: real)
    requires x != 0.0
    ensures (-x) / x == -1.0
  {
    assert (-x) / x * x == -x;
  }

  /** A quotient of a numerator in [0, d] by a positive d lies in [0, 1]. */
  lemma DivInUnit(n: real, d: real)
    requires 0.0 <= n <= d && d > 0.0
    ensures 0.0 <= n / d <= 1.0
  {
    var q := n / d;
    assert q * d == n;
    if q < 0.0 { MulNonNegative(-q, d); }
    if q > 1.0 { MulNonNegative(q - 1.0, d); }
  }

  /** A number of magnitude at most d > 0, divided by d, lies in [-1, 1]. */
  lemma QuotientInUnit(n: real, d: real)
    requires -d <= n <= d && d > 0.0
    ensures -1.0 <= n / d <= 1.0
  {
    var q := n / d;
    assert q * d == n;
    if q > 1.0 { MulPositive(q - 1.0, d); }
    if q < -1.0 { MulPositive(-1.0 - q, d); }
  }

  /** A non-negative number over a positive one is non-negative. */
  lemma DivNonNegative(n: real, d: real)
    requires n >= 0.0 && d > 0.0
    ensures n / d >= 0.0
  {
    var q := n / d;
    assert q * d == n;
    if q < 0.0 { MulPositive(-q, d); }
  }
}
