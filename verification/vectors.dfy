/** Free vectors: `Vector2D` (a pointer drag) and `Vector` (3-D), with the
    operations of app.py lines 74-117.  Points' coordinates are `Vec3` too. */
module Vectors {

  import opened RealArith
  import opened MathLib

  datatype Vec2 = Vec2(x: real, y: real)

  datatype Vec3 = Vec3(x: real, y: real, z: real)

  const Zero: Vec3 := Vec3(0.0, 0.0, 0.0)

  /** `Vector2D.__mul__`: the scalar "cross product" x1*y2 - y1*x2. */
  function Cross2(u: Vec2, v: Vec2): real {
    u.x * v.y - u.y * v.x
  }

  /** `Vector2D.magnitude`: the Euclidean length of a 2-D vector. */
  function Magnitude2(m: Math, u: Vec2): (r: real)
    requires Lawful(m)
    ensures 0.0 <= r && r * r == u.x * u.x + u.y * u.y
    ensures r == 0.0 <==> u == Vec2(0.0, 0.0)
  {
    SquareNonNeg(u.x);
    SquareNonNeg(u.y);
    SquareZero(u.x);
    SquareZero(u.y);
    SqrtZeroIff(m, u.x * u.x + u.y * u.y);
    m.sqrt(u.x * u.x + u.y * u.y)
  }

  function Add(u: Vec3, v: Vec3): Vec3 {
    Vec3(u.x + v.x, u.y + v.y, u.z + v.z)
  }

  function Sub(u: Vec3, v: Vec3): Vec3 {
    Vec3(u.x - v.x, u.y - v.y, u.z - v.z)
  }

  /** `Vector * Vector`: the dot product. */
  function Dot(u: Vec3, v: Vec3): real {
    u.x * v.x + u.y * v.y + u.z * v.z
  }

  /** `Vector * k` for a number k. */
  function Scale(v: Vec3, k: real): Vec3 {
    Vec3(v.x * k, v.y * k, v.z * k)
  }

  /** `Vector / k` (and `Point / k`); Python raises on k = 0. */
  function Div(v: Vec3, k: real): Vec3
    requires k != 0.0
  {
    Vec3(v.x / k, v.y / k, v.z / k)
  }

  function NormSq(v: Vec3): real {
    Dot(v, v)
  }

  /** The 3-D cross product; not in the renderer, used to say "parallel". */
  function Cross(u: Vec3, v: Vec3): Vec3 {
    Vec3(u.y * v.z - u.z * v.y, u.z * v.x - u.x * v.z, u.x * v.y - u.y * v.x)
  }

  /** A squared length is never negative and vanishes only for the zero vector. */
  lemma NormSqZero(v: Vec3)
    ensures 0.0 <= NormSq(v)
    ensures NormSq(v) == 0.0 <==> v == Zero
  {
    SquareNonNeg(v.x);
    SquareNonNeg(v.y);
    SquareNonNeg(v.z);
    SquareZero(v.x);
    SquareZero(v.y);
    SquareZero(v.z);
  }

  lemma SumOfSquaresNonNeg(v: Vec3)
    ensures 0.0 <= NormSq(v)
  {
    SquareNonNeg(v.x);
    SquareNonNeg(v.y);
    SquareNonNeg(v.z);
  }

  lemma NormSqScale(v: Vec3, k: real)
    ensures NormSq(Scale(v, k)) == k * k * NormSq(v)
  {}

  /** `Vector.normalize`: a vector of length zero is left as it is; any other
      vector becomes the unit vector pointing the same way. */
  function Normalize(m: Math, v: Vec3): (n: Vec3)
    requires Lawful(m)
    ensures v == Zero ==> n == v
    ensures v != Zero ==> NormSq(n) == 1.0 && Cross(n, v) == Zero && Dot(n, v) > 0.0
  {
    var r := m.sqrt(NormSq(v));
    RootZeroIff(m, v);
    if r == 0.0 then v
    else
      NormalizeNonZero(m, v);
      Div(v, r)
  }

  /** The length the renderer computes is zero exactly for the zero vector. */
  lemma RootZeroIff(m: Math, v: Vec3)
    requires Lawful(m)
    ensures m.sqrt(NormSq(v)) == 0.0 <==> v == Zero
  {
    NormSqZero(v);
    SqrtZeroIff(m, NormSq(v));
  }

  lemma NormalizeNonZero(m: Math, v: Vec3)
    requires Lawful(m)
    requires v != Zero
    ensures m.sqrt(NormSq(v)) > 0.0
    ensures var n := Div(v, m.sqrt(NormSq(v)));
      NormSq(n) == 1.0 && Cross(n, v) == Zero && Dot(n, v) > 0.0
  {
    NormSqZero(v);
    var r := m.sqrt(NormSq(v));
    SqrtZeroIff(m, NormSq(v));
    DivByLength(v, r);
  }

  /** Dividing a non-zero vector by its length gives a unit vector pointing
      the same way. */
  lemma DivByLength(v: Vec3, r: real)
    requires v != Zero && r > 0.0 && r * r == NormSq(v)
    ensures var n := Div(v, r);
      NormSq(n) == 1.0 && Cross(n, v) == Zero && Dot(n, v) > 0.0
  {
    var k := 1.0 / r;
    DivIsScaleByInverse(v, r);
    NormSqScale(v, k);
    assert k * k * (r * r) == 1.0;
    ScaleParallel(v, k);
    NormSqZero(v);
    assert Dot(Scale(v, k), v) == k * NormSq(v);
    MulPos(k, NormSq(v));
  }

  lemma ScaleParallel(v: Vec3, k: real)
    ensures Cross(Scale(v, k), v) == Zero
  {}

  /** Normalizing twice gives the same vector as normalizing once. */
  lemma NormalizeIdempotent(m: Math, v: Vec3)
    requires Lawful(m)
    ensures Normalize(m, Normalize(m, v)) == Normalize(m, v)
  {
    var n := Normalize(m, v);
    if v != Zero {
      NormalizeUnit(m, n);
    }
  }

  /** A unit vector is its own normalization. */
  lemma NormalizeUnit(m: Math, v: Vec3)
    requires Lawful(m)
    requires NormSq(v) == 1.0
    ensures Normalize(m, v) == v
  {
    SqrtOfSquare(m, 1.0);
    assert m.sqrt(NormSq(v)) == 1.0;
    assert Div(v, 1.0) == v;
  }

  /** A positive multiple of a non-zero vector is parallel to it and points
      the same way. */
  lemma PositiveMultiple(v: Vec3, t: real)
    requires v != Zero && t > 0.0
    ensures Cross(Scale(v, t), v) == Zero && Dot(Scale(v, t), v) > 0.0
  {
    ScaleParallel(v, t);
    NormSqZero(v);
    assert Dot(Scale(v, t), v) == t * NormSq(v);
    MulPos(t, NormSq(v));
  }

  /** Dividing by s, scaling by p and scaling back by s is scaling by p. */
  lemma DivScaleCancel(v: Vec3, s: real, p: real)
    requires s != 0.0
    ensures Scale(Scale(Div(v, s), p), s) == Scale(v, p)
  {
    assert v.x / s * p * s == v.x * p;
    assert v.y / s * p * s == v.y * p;
    assert v.z / s * p * s == v.z * p;
  }

  /** The result of `Normalize` has length one or is the zero vector. */
  ghost predicate UnitOrZero(v: Vec3) {
    NormSq(v) == 1.0 || v == Zero
  }

  /** The dot product of two normalized vectors has the sign of the dot
      product of the vectors themselves. */
  lemma NormalizedDotSign(m: Math, u: Vec3, w: Vec3)
    requires Lawful(m)
    ensures Dot(Normalize(m, u), Normalize(m, w)) > 0.0 <==> Dot(u, w) > 0.0
    ensures Dot(Normalize(m, u), Normalize(m, w)) < 0.0 <==> Dot(u, w) < 0.0
  {
    var nu, nw := Normalize(m, u), Normalize(m, w);
    if u == Zero {
      DotZero(nu, nw);
      DotZero(u, w);
    } else if w == Zero {
      DotZero(nu, nw);
      DotZero(u, w);
    } else {
      var p := InverseLength(m, u);
      var q := InverseLength(m, w);
      DotScale(u, w, p, q);
      MulPos(p, q);
      SameSign(Dot(nu, nw), p * q, Dot(u, w));
    }
  }

  /** For a non-zero v, `Normalize` scales v by a positive factor. */
  lemma InverseLength(m: Math, v: Vec3) returns (p: real)
    requires Lawful(m)
    requires v != Zero
    ensures p > 0.0 && Normalize(m, v) == Scale(v, p)
  {
    NormalizeNonZero(m, v);
    var r := m.sqrt(NormSq(v));
    p := 1.0 / r;
    DivIsScaleByInverse(v, r);
  }

  /** The dot product of the normalized vectors is the cosine of the angle
      between them: times both lengths it gives back the raw dot product.
      When either vector is zero, it is zero. */
  lemma NormalizedDotCosine(m: Math, u: Vec3, w: Vec3)
    requires Lawful(m)
    ensures u != Zero && w != Zero ==>
      Dot(Normalize(m, u), Normalize(m, w)) * (m.sqrt(NormSq(u)) * m.sqrt(NormSq(w))) == Dot(u, w)
    ensures u == Zero || w == Zero ==> Dot(Normalize(m, u), Normalize(m, w)) == 0.0
  {
    if u == Zero || w == Zero {
      DotZero(Normalize(m, u), Normalize(m, w));
    } else {
      NormalizeNonZero(m, u);
      NormalizeNonZero(m, w);
      var ru, rw := m.sqrt(NormSq(u)), m.sqrt(NormSq(w));
      DivIsScaleByInverse(u, ru);
      DivIsScaleByInverse(w, rw);
      DotScale(u, w, 1.0 / ru, 1.0 / rw);
      InverseProduct(ru, rw, 1.0 / ru, 1.0 / rw, Dot(u, w));
    }
  }

  lemma DotScale(u: Vec3, w: Vec3, p: real, q: real)
    ensures Dot(Scale(u, p), Scale(w, q)) == (p * q) * Dot(u, w)
  {}

  lemma NormSqSum(u: Vec3, w: Vec3)
    ensures NormSq(Sub(u, w)) == NormSq(u) - 2.0 * Dot(u, w) + NormSq(w)
    ensures NormSq(Add(u, w)) == NormSq(u) + 2.0 * Dot(u, w) + NormSq(w)
  {}

  /** Two vectors each of length one or zero have a dot product in [-1, 1]. */
  lemma UnitDotBound(u: Vec3, w: Vec3)
    requires UnitOrZero(u) && UnitOrZero(w)
    ensures -1.0 <= Dot(u, w) <= 1.0
  {
    if u == Zero {
      DotZero(u, w);
    } else if w == Zero {
      DotZero(u, w);
    } else {
      UnitDotBoundUnits(u, w);
    }
  }

  lemma DotZero(u: Vec3, w: Vec3)
    requires u == Zero || w == Zero
    ensures Dot(u, w) == 0.0
  {}

  lemma UnitDotBoundUnits(u: Vec3, w: Vec3)
    requires NormSq(u) == 1.0 && NormSq(w) == 1.0
    ensures -1.0 <= Dot(u, w) <= 1.0
  {
    SumOfSquaresNonNeg(Sub(u, w));
    SumOfSquaresNonNeg(Add(u, w));
    NormSqSum(u, w);
  }

  lemma DotSymmetric(u: Vec3, w: Vec3)
    ensures Dot(u, w) == Dot(w, u)
  {}

  /** Dividing by k is scaling by 1/k, and scaling back by k undoes it. */
  lemma DivIsScaleByInverse(v: Vec3, k: real)
    requires k != 0.0
    ensures Div(v, k) == Scale(v, 1.0 / k)
    ensures Scale(Div(v, k), k) == v
  {}

  /** The 2-D cross scalar is antisymmetric and vanishes on a vector with itself. */
  lemma Cross2Antisymmetric(u: Vec2, v: Vec2)
    ensures Cross2(u, v) == -Cross2(v, u)
    ensures Cross2(u, u) == 0.0
  {}

}
