/** Small facts about multiplication and division of reals, each proved
    once so that the tick and label arguments can cite them instead of
    leaving the non-linear steps to the solver. */
module RealArith {
  /** `y` is the quotient `x / t` whenever `y * t == x`. */
  lemma QuotientOf(x: real, t: real, y: real)
    requires t != 0.0 && y * t == x
    ensures x / t == y
  {
  }

  /** Multiplying a quotient back by its divisor gives the dividend. */
  lemma TimesQuotient(x: real, t: real)
    requires t != 0.0
    ensures t * (x / t) == x
  {
  }

  /** Multiplying by a positive factor keeps (strict) order. */
  lemma MulLeft(a: real, b: real, t: real)
    requires t > 0.0
    ensures a <= b ==> t * a <= t * b
    ensures a < b ==> t * a < t * b
  {
    if a < b {
      assert t * (b - a) > 0.0;
      assert t * (b - a) == t * b - t * a;
    }
  }

  /** A non-zero factor cancels from both sides of an equation. */
  lemma CancelFactor(a: real, b: real, w: real)
    requires w != 0.0 && a * w == b * w
    ensures a == b
  {
    assert (a - b) * w == 0.0;
  }

  /** A product with a positive factor is positive only if the other
      factor is. */
  lemma PositiveFactor(a: real, t: real)
    requires t > 0.0 && a * t > 0.0
    ensures a > 0.0
  {
  }

  /** One more copy of `t`: (k + 1) t == k t + t. */
  lemma SuccTimes(k: int, t: real)
    ensures (k + 1) as real * t == k as real * t + t
  {
  }

  /** Taking one divisor off the dividend takes one off the quotient. */
  lemma ShiftedQuotient(a: real, t: real)
    requires t > 0.0
    ensures (a - t) / t == a / t - 1.0
  {
    var q := a / t;
    TimesQuotient(a, t);
    assert (q - 1.0) * t == a - t;
    QuotientOf(a - t, t, q - 1.0);
  }

  /** A non-negative dividend over a positive divisor has a non-negative
      quotient. */
  lemma QuotientNonNegative(a: real, t: real)
    requires a >= 0.0 && t > 0.0
    ensures a / t >= 0.0
  {
  }

  /** Taking one positive step off a non-negative span leaves one whole step
      fewer in it: the measure of `for (x = start; x <= max; x += t)`. */
  lemma FloorStep(span: real, t: real)
    requires t > 0.0 && span >= 0.0
    ensures (span / t).Floor >= 0
    ensures ((span - t) / t).Floor == (span / t).Floor - 1
  {
    QuotientNonNegative(span, t);
    ShiftedQuotient(span, t);
  }

  /** Scaling integers by a positive factor preserves and reflects order. */
  lemma ScaleOrder(m: int, n: int, t: real)
    requires t > 0.0
    ensures m as real * t <= n as real * t <==> m <= n
  {
    if m <= n {
      assert (n - m) as real * t >= 0.0;
    } else {
      assert (m - n) as real * t > 0.0;
    }
  }
}
