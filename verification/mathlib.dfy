/** The elementary real functions the renderer takes from Python's `math`
    module (`sin`, `cos`, `acos`, `sqrt`).  Dafny has no real trigonometry, so
    they are carried as one value of type `Math` and every property the model
    needs of them is collected in `Lawful`.  Real `math` satisfies all of them
    (up to floating-point rounding, which the model does not describe). */
module MathLib {

  import opened RealArith

  datatype Math = Math(sin: real -> real, cos: real -> real, acos: real -> real, sqrt: real -> real)

  /** `sqrt` is the non-negative square root on the non-negative reals. */
  ghost predicate SqrtLaws(m: Math) {
    forall x: real {:trigger m.sqrt(x)} :: 0.0 <= x ==> 0.0 <= m.sqrt(x) && m.sqrt(x) * m.sqrt(x) == x
  }

  /** sin^2 + cos^2 = 1 everywhere, and cos 0 = 1. */
  ghost predicate CircleLaws(m: Math) {
    && (forall x: real :: m.sin(x) * m.sin(x) + m.cos(x) * m.cos(x) == 1.0)
    && m.cos(0.0) == 1.0
  }

  /** On the open interval (-1, 1), `acos` returns an angle whose cosine is the
      argument and whose sine is the positive root of 1 - a^2. */
  ghost predicate AcosLaws(m: Math) {
    forall a: real {:trigger m.acos(a)} :: -1.0 < a < 1.0 ==>
      && m.cos(m.acos(a)) == a
      && m.sin(m.acos(a)) == m.sqrt(1.0 - a * a)
      && m.sqrt(1.0 - a * a) > 0.0
  }

  ghost predicate Lawful(m: Math) {
    SqrtLaws(m) && CircleLaws(m) && AcosLaws(m)
  }

  /** The square root of r*r is r itself for r >= 0. */
  lemma SqrtOfSquare(m: Math, r: real)
    requires Lawful(m)
    requires 0.0 <= r
    ensures m.sqrt(r * r) == r
  {
    SquareNonNeg(r);
    SquareInjective(m.sqrt(r * r), r);
  }

  /** The root of a non-negative number vanishes exactly when the number does. */
  lemma SqrtZeroIff(m: Math, x: real)
    requires Lawful(m)
    requires 0.0 <= x
    ensures m.sqrt(x) == 0.0 <==> x == 0.0
    ensures x > 0.0 ==> m.sqrt(x) > 0.0
  {
    var s := m.sqrt(x);
    assert 0.0 <= s && s * s == x;
    SquareZero(s);
  }

  /** A number that is neither >= 1 nor <= -1 lies in the domain where the
      `acos` laws apply, and there cos(acos a)^2 + sin(acos a)^2 = 1 agrees
      with sin(acos a) = sqrt(1 - a^2). */
  lemma AcosPair(m: Math, a: real)
    requires Lawful(m)
    requires -1.0 < a < 1.0
    ensures m.cos(m.acos(a)) == a
    ensures m.sin(m.acos(a)) > 0.0
    ensures m.sin(m.acos(a)) * m.sin(m.acos(a)) == 1.0 - a * a
  {
    SquareBelowOne(a);
    assert m.sqrt(1.0 - a * a) * m.sqrt(1.0 - a * a) == 1.0 - a * a;
  }

}
