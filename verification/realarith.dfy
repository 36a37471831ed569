/** Small facts of real arithmetic, stated separately so that the solver meets
    each nonlinear step on its own. */
module RealArith {

  lemma MulPos(x: real, y: real)
    requires x > 0.0 && y > 0.0
    ensures x * y > 0.0
  {}

  lemma MulNonNeg(x: real, y: real)
    requires x >= 0.0 && y >= 0.0
    ensures x * y >= 0.0
  {}

  lemma DiffOfSquares(s: real, r: real)
    ensures (s - r) * (s + r) == s * s - r * r
  {}

  /** Scaling by inverses ia, ib of two factors and then by their product
      changes nothing. */
  lemma InverseProduct(a: real, b: real, ia: real, ib: real, x: real)
    requires ia * a == 1.0 && ib * b == 1.0
    ensures (ia * ib * x) * (a * b) == x
  {
    assert (ia * a) * (ib * b) == 1.0;
    assert (ia * ib) * (a * b) == (ia * a) * (ib * b);
    var p := (ia * ib) * (a * b);
    assert (ia * ib * x) * (a * b) == x * p;
  }

  lemma SquareNonNeg(x: real)
    ensures x * x >= 0.0
  {}

  lemma SquareZero(x: real)
    ensures x * x == 0.0 ==> x == 0.0
  {
    if x != 0.0 {
      assert x == (x * x) / x;
    }
  }

  /** Two non-negative reals with the same square are equal. */
  lemma SquareInjective(s: real, r: real)
    requires s >= 0.0 && r >= 0.0 && s * s == r * r
    ensures s == r
  {
    DiffOfSquares(s, r);
    if s > r { MulPos(s - r, s + r); }
    if s < r { MulPos(r - s, s + r); }
  }

  /** A square strictly below 1 has its root strictly between -1 and 1, and back. */
  lemma SquareBelowOne(a: real)
    ensures a * a < 1.0 <==> -1.0 < a < 1.0
  {
    DiffOfSquares(1.0, a);
    if -1.0 < a < 1.0 {
      MulPos(1.0 - a, 1.0 + a);
    } else if a >= 1.0 {
      MulNonNeg(a - 1.0, a + 1.0);
    } else {
      MulNonNeg(1.0 - a, -1.0 - a);
    }
  }

  /** Multiplying by a positive number keeps the sign. */
  lemma ProductSign(k: real, x: real)
    requires k > 0.0
    ensures k * x > 0.0 <==> x > 0.0
    ensures k * x < 0.0 <==> x < 0.0
  {
    if x > 0.0 { MulPos(k, x); }
    if x < 0.0 { MulPos(k, -x); }
    if x == 0.0 { assert k * x == 0.0; }
  }

  /** x = k * y with k > 0 gives x and y the same sign. */
  lemma SameSign(x: real, k: real, y: real)
    requires k > 0.0 && x == k * y
    ensures x > 0.0 <==> y > 0.0
    ensures x < 0.0 <==> y < 0.0
  {
    ProductSign(k, y);
  }

  /** Scaling a coordinate and its depth by the same k leaves their
      perspective quotient unchanged. */
  lemma RayScale(f: real, d: real, k: real, x: real)
    requires d != 0.0 && k != 0.0
    ensures k * d != 0.0 && k * x * (f / (k * d)) == x * (f / d)
  {
    MulNonZero(k, d);
  }

  lemma MulNonZero(x: real, y: real)
    requires x != 0.0 && y != 0.0
    ensures x * y != 0.0
  {
    if x > 0.0 && y > 0.0 { MulPos(x, y); }
    if x > 0.0 && y < 0.0 { MulPos(x, -y); }
    if x < 0.0 && y > 0.0 { MulPos(-x, y); }
    if x < 0.0 && y < 0.0 { MulPos(-x, -y); }
  }

}
