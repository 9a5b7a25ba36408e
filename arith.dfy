/** Small facts about real multiplication and division that the solver does not
    find on its own inside larger contexts. */
module RealArith {

  /** Multiplying by a non-negative factor keeps the order. */
  lemma MulLeft(k: real, x: real, y: real)
    requires 0.0 <= k && x <= y
    ensures k * x <= k * y
  {
  }

  /** Multiplying by a positive factor keeps the strict order. */
  lemma MulStrict(k: real, x: real, y: real)
    requires 0.0 < k && x < y
    ensures k * x < k * y
  {
  }

  /** A non-negative number whose square is at least one is at least one. */
  lemma AtLeastOne(r: real)
    requires 0.0 <= r && 1.0 <= r * r
    ensures 1.0 <= r
  {
    if r < 1.0 {
      MulLeft(r, r, 1.0);
    }
  }

  /** Solving v * d == u + w for v. */
  lemma DivideBack(v: real, d: real, u: real, w: real)
    requires d != 0.0 && v * d == u + w
    ensures v == u / d + w / d
  {
  }

  /** Dividing by a positive number keeps the sign. */
  lemma DivSign(u: real, d: real)
    requires 0.0 < d
    ensures (u / d) * d == u
    ensures 0.0 <= u <==> 0.0 <= u / d
    ensures 0.0 < u <==> 0.0 < u / d
  {
  }

  /** A product with a positive factor is non-negative only if the other
      factor is, and zero only if the other factor is. */
  lemma NonNegativeFactor(k: real, x: real)
    requires 0.0 < k
    ensures 0.0 <= k * x <==> 0.0 <= x
    ensures k * x == 0.0 <==> x == 0.0
  {
    if x < 0.0 {
      MulStrict(k, x, 0.0);
    } else if 0.0 < x {
      MulStrict(k, 0.0, x);
    }
  }
}
