/** `Quaternion` (app.py lines 202-223) and `Vector.toRotationQuaternion`
    (lines 113-117), with the algebra the rotation code relies on. */
module Quaternions {

  import opened RealArith
  import opened MathLib
  import opened Vectors

  /** a is the scalar part, (b, c, d) the vector part. */
  datatype Quat = Quat(a: real, b: real, c: real, d: real)

  const Identity: Quat := Quat(1.0, 0.0, 0.0, 0.0)

  /** `Quaternion.__mul__`: the Hamilton product p * q. */
  function Mul(p: Quat, q: Quat): Quat {
    Quat(p.a * q.a - p.b * q.b - p.c * q.c - p.d * q.d,
         p.a * q.b + p.b * q.a + p.c * q.d - p.d * q.c,
         p.a * q.c - p.b * q.d + p.c * q.a + p.d * q.b,
         p.a * q.d + p.b * q.c - p.c * q.b + p.d * q.a)
  }

  /** `Quaternion.conj`. */
  function Conj(q: Quat): Quat {
    Quat(q.a, -q.b, -q.c, -q.d)
  }

  /** `Quaternion.toVector`: the vector part. */
  function VecPart(q: Quat): Vec3 {
    Vec3(q.b, q.c, q.d)
  }

  /** The quaternion (0, x, y, z) that `Point.transform` builds from a point. */
  function Pure(v: Vec3): Quat {
    Quat(0.0, v.x, v.y, v.z)
  }

  function QNormSq(q: Quat): real {
    q.a * q.a + q.b * q.b + q.c * q.c + q.d * q.d
  }

  ghost predicate Unit(q: Quat) {
    QNormSq(q) == 1.0
  }

  lemma IdentityUnit()
    ensures Unit(Identity)
  {}

  lemma QNormSqSplit(q: Quat)
    ensures QNormSq(q) == q.a * q.a + NormSq(VecPart(q))
  {}

  /** (1, 0, 0, 0) is a two-sided identity of the Hamilton product. */
  lemma MulIdentity(q: Quat)
    ensures Mul(Identity, q) == q
    ensures Mul(q, Identity) == q
  {}

  /** The squared norm is multiplicative: |p q|^2 = |p|^2 |q|^2. */
  lemma MulNormSq(p: Quat, q: Quat)
    ensures QNormSq(Mul(p, q)) == QNormSq(p) * QNormSq(q)
  {}

  /** Conjugation is an involution and keeps the norm. */
  lemma ConjInvolution(q: Quat)
    ensures Conj(Conj(q)) == q
    ensures QNormSq(Conj(q)) == QNormSq(q)
  {}

  /** q * conj(q) = (|q|^2, 0, 0, 0). */
  lemma MulConj(q: Quat)
    ensures Mul(q, Conj(q)) == Quat(QNormSq(q), 0.0, 0.0, 0.0)
  {}

  /** The product of two unit quaternions is a unit quaternion. */
  lemma UnitMul(p: Quat, q: Quat)
    requires Unit(p) && Unit(q)
    ensures Unit(Mul(p, q))
  {
    MulNormSq(p, q);
  }

  /** `Vector.toRotationQuaternion(half_angle)`: (cos h, axis * sin h).  For a
      unit axis the result is a unit quaternion; for the zero axis and a zero
      half angle it is the identity. */
  function ToRotationQuaternion(m: Math, axis: Vec3, half: real): (q: Quat)
    requires Lawful(m)
    ensures NormSq(axis) == 1.0 ==> Unit(q)
    ensures axis == Zero && half == 0.0 ==> q == Identity
    ensures q.a == m.cos(half) && Cross(VecPart(q), axis) == Zero
  {
    RotationQuaternionNorm(m, axis, half);
    Quat(m.cos(half), axis.x * m.sin(half), axis.y * m.sin(half), axis.z * m.sin(half))
  }

  lemma RotationQuaternionNorm(m: Math, axis: Vec3, half: real)
    requires Lawful(m)
    ensures var q := Quat(m.cos(half), axis.x * m.sin(half), axis.y * m.sin(half), axis.z * m.sin(half));
      QNormSq(q) == m.cos(half) * m.cos(half) + m.sin(half) * m.sin(half) * NormSq(axis)
  {}

  /** The sandwich product q w conj(q) of `Point.transform`. */
  function Sandwich(q: Quat, w: Quat): Quat {
    Mul(Mul(q, w), Conj(q))
  }

  /** The point v rotated by q: the vector part of q (0, v) conj(q). */
  function Rotate(v: Vec3, q: Quat): Vec3 {
    VecPart(Sandwich(q, Pure(v)))
  }

  /** The sandwich of a pure quaternion is pure: the scalar part the code
      drops is always zero. */
  lemma SandwichPure(q: Quat, v: Vec3)
    ensures Sandwich(q, Pure(v)).a == 0.0
  {}

  /** The sandwich scales the squared norm by |q|^4. */
  lemma SandwichNormSq(q: Quat, w: Quat)
    ensures QNormSq(Sandwich(q, w)) == QNormSq(q) * QNormSq(w) * QNormSq(q)
  {
    MulNormSq(q, w);
    MulNormSq(Mul(q, w), Conj(q));
    ConjInvolution(q);
  }

  /** Rotating by a unit quaternion keeps the distance from the origin. */
  lemma RotatePreservesLength(v: Vec3, q: Quat)
    requires Unit(q)
    ensures NormSq(Rotate(v, q)) == NormSq(v)
  {
    var s := Sandwich(q, Pure(v));
    SandwichNormSq(q, Pure(v));
    SandwichPure(q, v);
    assert QNormSq(Pure(v)) == NormSq(v);
    assert QNormSq(s) == NormSq(VecPart(s));
  }

  /** Rotating by the identity changes nothing. */
  lemma RotateIdentity(v: Vec3)
    ensures Rotate(v, Identity) == v
  {
    MulIdentity(Pure(v));
  }

  /** Rotation is linear: it maps differences to differences. */
  lemma RotateSub(u: Vec3, v: Vec3, q: Quat)
    ensures Rotate(Sub(u, v), q) == Sub(Rotate(u, q), Rotate(v, q))
  {}


  /** The conjugate of a product is the product of the conjugates, in the
      opposite order. */
  lemma ConjMul(p: Quat, q: Quat)
    ensures Conj(Mul(p, q)) == Mul(Conj(q), Conj(p))
  {}

  /** The Hamilton product is associative. */
  lemma MulAssoc(p: Quat, q: Quat, r: Quat)
    ensures Mul(Mul(p, q), r) == Mul(p, Mul(q, r))
  {
    var u, w := Mul(Mul(p, q), r), Mul(p, Mul(q, r));
    AssocA(p.a, p.b, p.c, p.d, q.a, q.b, q.c, q.d, r.a, r.b, r.c, r.d);
    AssocB(p.a, p.b, p.c, p.d, q.a, q.b, q.c, q.d, r.a, r.b, r.c, r.d);
    AssocC(p.a, p.b, p.c, p.d, q.a, q.b, q.c, q.d, r.a, r.b, r.c, r.d);
    AssocD(p.a, p.b, p.c, p.d, q.a, q.b, q.c, q.d, r.a, r.b, r.c, r.d);
    assert u.a == w.a && u.b == w.b && u.c == w.c && u.d == w.d;
  }

  /** Component a of an associativity step: both bracketings expand to
      the same polynomial. */
  lemma AssocA(a: real, b: real, c: real, d: real, a': real, b': real, c': real, d': real,
      a'': real, b'': real, c'': real, d'': real)
    ensures Mul(Mul(Quat(a, b, c, d), Quat(a', b', c', d')), Quat(a'', b'', c'', d'')).a
         == Mul(Quat(a, b, c, d), Mul(Quat(a', b', c', d'), Quat(a'', b'', c'', d''))).a
  {
    ExpandLeftA(a, b, c, d, a', b', c', d', a'', b'', c'', d'');
    ExpandRightA(a, b, c, d, a', b', c', d', a'', b'', c'', d'');
  }

  lemma ExpandLeftA(a: real, b: real, c: real, d: real, a': real, b': real, c': real, d': real,
      a'': real, b'': real, c'': real, d'': real)
    ensures Mul(Mul(Quat(a, b, c, d), Quat(a', b', c', d')), Quat(a'', b'', c'', d'')).a
         == a * a' * a'' - b * b' * a'' - c * c' * a'' - d * d' * a'' - a * b' * b'' - b * a' * b'' - c * d' * b'' + d * c' * b'' - a * c' * c'' + b * d' * c'' - c * a' * c'' - d * b' * c'' - a * d' * d'' - b * c' * d'' + c * b' * d'' - d * a' * d''
  {
    assert (a * a' - b * b' - c * c' - d * d') * a''
      == a * a' * a'' - b * b' * a'' - c * c' * a'' - d * d' * a'';
    assert (a * b' + b * a' + c * d' - d * c') * b''
      == a * b' * b'' + b * a' * b'' + c * d' * b'' - d * c' * b'';
    assert (a * c' - b * d' + c * a' + d * b') * c''
      == a * c' * c'' - b * d' * c'' + c * a' * c'' + d * b' * c'';
    assert (a * d' + b * c' - c * b' + d * a') * d''
      == a * d' * d'' + b * c' * d'' - c * b' * d'' + d * a' * d'';
  }

  lemma ExpandRightA(a: real, b: real, c: real, d: real, a': real, b': real, c': real, d': real,
      a'': real, b'': real, c'': real, d'': real)
    ensures Mul(Quat(a, b, c, d), Mul(Quat(a', b', c', d'), Quat(a'', b'', c'', d''))).a
         == a * a' * a'' - b * b' * a'' - c * c' * a'' - d * d' * a'' - a * b' * b'' - b * a' * b'' - c * d' * b'' + d * c' * b'' - a * c' * c'' + b * d' * c'' - c * a' * c'' - d * b' * c'' - a * d' * d'' - b * c' * d'' + c * b' * d'' - d * a' * d''
  {
    assert a * (a' * a'' - b' * b'' - c' * c'' - d' * d'')
      == a * a' * a'' - a * b' * b'' - a * c' * c'' - a * d' * d'';
    assert b * (a' * b'' + b' * a'' + c' * d'' - d' * c'')
      == b * a' * b'' + b * b' * a'' + b * c' * d'' - b * d' * c'';
    assert c * (a' * c'' - b' * d'' + c' * a'' + d' * b'')
      == c * a' * c'' - c * b' * d'' + c * c' * a'' + c * d' * b'';
    assert d * (a' * d'' + b' * c'' - c' * b'' + d' * a'')
      == d * a' * d'' + d * b' * c'' - d * c' * b'' + d * d' * a'';
  }

  /** Component b of an associativity step: both bracketings expand to
      the same polynomial. */
  lemma AssocB(a: real, b: real, c: real, d: real, a': real, b': real, c': real, d': real,
      a'': real, b'': real, c'': real, d'': real)
    ensures Mul(Mul(Quat(a, b, c, d), Quat(a', b', c', d')), Quat(a'', b'', c'', d'')).b
         == Mul(Quat(a, b, c, d), Mul(Quat(a', b', c', d'), Quat(a'', b'', c'', d''))).b
  {
    ExpandLeftB(a, b, c, d, a', b', c', d', a'', b'', c'', d'');
    ExpandRightB(a, b, c, d, a', b', c', d', a'', b'', c'', d'');
  }

  lemma ExpandLeftB(a: real, b: real, c: real, d: real, a': real, b': real, c': real, d': real,
      a'': real, b'': real, c'': real, d'': real)
    ensures Mul(Mul(Quat(a, b, c, d), Quat(a', b', c', d')), Quat(a'', b'', c'', d'')).b
         == a * a' * b'' - b * b' * b'' - c * c' * b'' - d * d' * b'' + a * b' * a'' + b * a' * a'' + c * d' * a'' - d * c' * a'' + a * c' * d'' - b * d' * d'' + c * a' * d'' + d * b' * d'' - a * d' * c'' - b * c' * c'' + c * b' * c'' - d * a' * c''
  {
    assert (a * a' - b * b' - c * c' - d * d') * b''
      == a * a' * b'' - b * b' * b'' - c * c' * b'' - d * d' * b'';
    assert (a * b' + b * a' + c * d' - d * c') * a''
      == a * b' * a'' + b * a' * a'' + c * d' * a'' - d * c' * a'';
    assert (a * c' - b * d' + c * a' + d * b') * d''
      == a * c' * d'' - b * d' * d'' + c * a' * d'' + d * b' * d'';
    assert (a * d' + b * c' - c * b' + d * a') * c''
      == a * d' * c'' + b * c' * c'' - c * b' * c'' + d * a' * c'';
  }

  lemma ExpandRightB(a: real, b: real, c: real, d: real, a': real, b': real, c': real, d': real,
      a'': real, b'': real, c'': real, d'': real)
    ensures Mul(Quat(a, b, c, d), Mul(Quat(a', b', c', d'), Quat(a'', b'', c'', d''))).b
         == a * a' * b'' - b * b' * b'' - c * c' * b'' - d * d' * b'' + a * b' * a'' + b * a' * a'' + c * d' * a'' - d * c' * a'' + a * c' * d'' - b * d' * d'' + c * a' * d'' + d * b' * d'' - a * d' * c'' - b * c' * c'' + c * b' * c'' - d * a' * c''
  {
    assert a * (a' * b'' + b' * a'' + c' * d'' - d' * c'')
      == a * a' * b'' + a * b' * a'' + a * c' * d'' - a * d' * c'';
    assert b * (a' * a'' - b' * b'' - c' * c'' - d' * d'')
      == b * a' * a'' - b * b' * b'' - b * c' * c'' - b * d' * d'';
    assert c * (a' * d'' + b' * c'' - c' * b'' + d' * a'')
      == c * a' * d'' + c * b' * c'' - c * c' * b'' + c * d' * a'';
    assert d * (a' * c'' - b' * d'' + c' * a'' + d' * b'')
      == d * a' * c'' - d * b' * d'' + d * c' * a'' + d * d' * b'';
  }

  /** Component c of an associativity step: both bracketings expand to
      the same polynomial. */
  lemma AssocC(a: real, b: real, c: real, d: real, a': real, b': real, c': real, d': real,
      a'': real, b'': real, c'': real, d'': real)
    ensures Mul(Mul(Quat(a, b, c, d), Quat(a', b', c', d')), Quat(a'', b'', c'', d'')).c
         == Mul(Quat(a, b, c, d), Mul(Quat(a', b', c', d'), Quat(a'', b'', c'', d''))).c
  {
    ExpandLeftC(a, b, c, d, a', b', c', d', a'', b'', c'', d'');
    ExpandRightC(a, b, c, d, a', b', c', d', a'', b'', c'', d'');
  }

  lemma ExpandLeftC(a: real, b: real, c: real, d: real, a': real, b': real, c': real, d': real,
      a'': real, b'': real, c'': real, d'': real)
    ensures Mul(Mul(Quat(a, b, c, d), Quat(a', b', c', d')), Quat(a'', b'', c'', d'')).c
         == a * a' * c'' - b * b' * c'' - c * c' * c'' - d * d' * c'' - a * b' * d'' - b * a' * d'' - c * d' * d'' + d * c' * d'' + a * c' * a'' - b * d' * a'' + c * a' * a'' + d * b' * a'' + a * d' * b'' + b * c' * b'' - c * b' * b'' + d * a' * b''
  {
    assert (a * a' - b * b' - c * c' - d * d') * c''
      == a * a' * c'' - b * b' * c'' - c * c' * c'' - d * d' * c'';
    assert (a * b' + b * a' + c * d' - d * c') * d''
      == a * b' * d'' + b * a' * d'' + c * d' * d'' - d * c' * d'';
    assert (a * c' - b * d' + c * a' + d * b') * a''
      == a * c' * a'' - b * d' * a'' + c * a' * a'' + d * b' * a'';
    assert (a * d' + b * c' - c * b' + d * a') * b''
      == a * d' * b'' + b * c' * b'' - c * b' * b'' + d * a' * b'';
  }

  lemma ExpandRightC(a: real, b: real, c: real, d: real, a': real, b': real, c': real, d': real,
      a'': real, b'': real, c'': real, d'': real)
    ensures Mul(Quat(a, b, c, d), Mul(Quat(a', b', c', d'), Quat(a'', b'', c'', d''))).c
         == a * a' * c'' - b * b' * c'' - c * c' * c'' - d * d' * c'' - a * b' * d'' - b * a' * d'' - c * d' * d'' + d * c' * d'' + a * c' * a'' - b * d' * a'' + c * a' * a'' + d * b' * a'' + a * d' * b'' + b * c' * b'' - c * b' * b'' + d * a' * b''
  {
    assert a * (a' * c'' - b' * d'' + c' * a'' + d' * b'')
      == a * a' * c'' - a * b' * d'' + a * c' * a'' + a * d' * b'';
    assert b * (a' * d'' + b' * c'' - c' * b'' + d' * a'')
      == b * a' * d'' + b * b' * c'' - b * c' * b'' + b * d' * a'';
    assert c * (a' * a'' - b' * b'' - c' * c'' - d' * d'')
      == c * a' * a'' - c * b' * b'' - c * c' * c'' - c * d' * d'';
    assert d * (a' * b'' + b' * a'' + c' * d'' - d' * c'')
      == d * a' * b'' + d * b' * a'' + d * c' * d'' - d * d' * c'';
  }

  /** Component d of an associativity step: both bracketings expand to
      the same polynomial. */
  lemma AssocD(a: real, b: real, c: real, d: real, a': real, b': real, c': real, d': real,
      a'': real, b'': real, c'': real, d'': real)
    ensures Mul(Mul(Quat(a, b, c, d), Quat(a', b', c', d')), Quat(a'', b'', c'', d'')).d
         == Mul(Quat(a, b, c, d), Mul(Quat(a', b', c', d'), Quat(a'', b'', c'', d''))).d
  {
    ExpandLeftD(a, b, c, d, a', b', c', d', a'', b'', c'', d'');
    ExpandRightD(a, b, c, d, a', b', c', d', a'', b'', c'', d'');
  }

  lemma ExpandLeftD(a: real, b: real, c: real, d: real, a': real, b': real, c': real, d': real,
      a'': real, b'': real, c'': real, d'': real)
    ensures Mul(Mul(Quat(a, b, c, d), Quat(a', b', c', d')), Quat(a'', b'', c'', d'')).d
         == a * a' * d'' - b * b' * d'' - c * c' * d'' - d * d' * d'' + a * b' * c'' + b * a' * c'' + c * d' * c'' - d * c' * c'' - a * c' * b'' + b * d' * b'' - c * a' * b'' - d * b' * b'' + a * d' * a'' + b * c' * a'' - c * b' * a'' + d * a' * a''
  {
    assert (a * a' - b * b' - c * c' - d * d') * d''
      == a * a' * d'' - b * b' * d'' - c * c' * d'' - d * d' * d'';
    assert (a * b' + b * a' + c * d' - d * c') * c''
      == a * b' * c'' + b * a' * c'' + c * d' * c'' - d * c' * c'';
    assert (a * c' - b * d' + c * a' + d * b') * b''
      == a * c' * b'' - b * d' * b'' + c * a' * b'' + d * b' * b'';
    assert (a * d' + b * c' - c * b' + d * a') * a''
      == a * d' * a'' + b * c' * a'' - c * b' * a'' + d * a' * a'';
  }

  lemma ExpandRightD(a: real, b: real, c: real, d: real, a': real, b': real, c': real, d': real,
      a'': real, b'': real, c'': real, d'': real)
    ensures Mul(Quat(a, b, c, d), Mul(Quat(a', b', c', d'), Quat(a'', b'', c'', d''))).d
         == a * a' * d'' - b * b' * d'' - c * c' * d'' - d * d' * d'' + a * b' * c'' + b * a' * c'' + c * d' * c'' - d * c' * c'' - a * c' * b'' + b * d' * b'' - c * a' * b'' - d * b' * b'' + a * d' * a'' + b * c' * a'' - c * b' * a'' + d * a' * a''
  {
    assert a * (a' * d'' + b' * c'' - c' * b'' + d' * a'')
      == a * a' * d'' + a * b' * c'' - a * c' * b'' + a * d' * a'';
    assert b * (a' * c'' - b' * d'' + c' * a'' + d' * b'')
      == b * a' * c'' - b * b' * d'' + b * c' * a'' + b * d' * b'';
    assert c * (a' * b'' + b' * a'' + c' * d'' - d' * c'')
      == c * a' * b'' + c * b' * a'' + c * c' * d'' - c * d' * c'';
    assert d * (a' * a'' - b' * b'' - c' * c'' - d' * d'')
      == d * a' * a'' - d * b' * b'' - d * c' * c'' - d * d' * d'';
  }


  /** Sandwiching by a product is sandwiching by each factor in turn:
      (p q) w (p q)* = p (q w q*) p*. */
  lemma SandwichCompose(p: Quat, q: Quat, w: Quat)
    ensures Sandwich(Mul(p, q), w) == Sandwich(p, Sandwich(q, w))
  {
    calc {
      Sandwich(Mul(p, q), w);
      Mul(Mul(Mul(p, q), w), Conj(Mul(p, q)));
      { ConjMul(p, q); }
      Mul(Mul(Mul(p, q), w), Mul(Conj(q), Conj(p)));
      { MulAssoc(p, q, w); }
      Mul(Mul(p, Mul(q, w)), Mul(Conj(q), Conj(p)));
      { MulAssoc(Mul(p, Mul(q, w)), Conj(q), Conj(p)); }
      Mul(Mul(Mul(p, Mul(q, w)), Conj(q)), Conj(p));
      { MulAssoc(p, Mul(q, w), Conj(q)); }
      Mul(Mul(p, Mul(Mul(q, w), Conj(q))), Conj(p));
    }
  }

  /** Rotating by the product p q is rotating by q and then by p: this is
      how `transform`'s left-multiplied increment turns the point from where
      it already was. */
  lemma RotateCompose(v: Vec3, p: Quat, q: Quat)
    ensures Rotate(v, Mul(p, q)) == Rotate(Rotate(v, q), p)
  {
    SandwichCompose(p, q, Pure(v));
    SandwichPure(q, v);
    assert Pure(Rotate(v, q)) == Sandwich(q, Pure(v));
  }

  /** The rotation quaternion for a unit axis leaves that axis where it is:
      the turn is about the axis. */
  lemma RotationFixesAxis(m: Math, u: Vec3, half: real)
    requires Lawful(m)
    requires NormSq(u) == 1.0
    ensures Rotate(u, ToRotationQuaternion(m, u, half)) == u
  {
    var c, s := m.cos(half), m.sin(half);
    assert c * c + s * s == 1.0 by { CircleLaw(m, half); }
    SandwichAxis(c, s, u);
    AxisFactorOne(c, s, NormSq(u));
    assert Scale(u, 1.0) == u;
  }

  lemma CircleLaw(m: Math, x: real)
    requires Lawful(m)
    ensures m.cos(x) * m.cos(x) + m.sin(x) * m.sin(x) == 1.0
  {}

  lemma AxisFactorOne(c: real, s: real, n: real)
    requires c * c + s * s == 1.0 && n == 1.0
    ensures c * c + s * s * n == 1.0
  {}

  /** (c, s u) (0, u) (c, s u)* = (0, (c^2 + s^2 |u|^2) u). */
  lemma SandwichAxis(c: real, s: real, u: Vec3)
    ensures Rotate(u, Quat(c, u.x * s, u.y * s, u.z * s)) == Scale(u, c * c + s * s * NormSq(u))
  {
    var q := Quat(c, u.x * s, u.y * s, u.z * s);
    var n := NormSq(u);
    assert Pure(u) == Quat(0.0, u.x, u.y, u.z);
    AxisTimesPure(c, s, u.x, u.y, u.z, n);
    assert Conj(q) == Quat(c, -(u.x * s), -(u.y * s), -(u.z * s));
    SandwichAxisX(c, s, u.x, u.y, u.z, n);
    SandwichAxisY(c, s, u.x, u.y, u.z, n);
    SandwichAxisZ(c, s, u.x, u.y, u.z, n);
  }

  lemma AxisTimesPure(c: real, s: real, x: real, y: real, z: real, n: real)
    requires n == x * x + y * y + z * z
    ensures Mul(Quat(c, x * s, y * s, z * s), Quat(0.0, x, y, z)) == Quat(-s * n, c * x, c * y, c * z)
  {
    assert (x * s) * x + (y * s) * y + (z * s) * z == s * (x * x + y * y + z * z);
    assert (y * s) * z - (z * s) * y == 0.0;
    assert (z * s) * x - (x * s) * z == 0.0;
    assert (x * s) * y - (y * s) * x == 0.0;
  }

  lemma SandwichAxisX(c: real, s: real, x: real, y: real, z: real, n: real)
    requires n == x * x + y * y + z * z
    ensures Mul(Quat(-s * n, c * x, c * y, c * z), Quat(c, -(x * s), -(y * s), -(z * s))).b
         == x * (c * c + s * s * n)
  {}

  lemma SandwichAxisY(c: real, s: real, x: real, y: real, z: real, n: real)
    requires n == x * x + y * y + z * z
    ensures Mul(Quat(-s * n, c * x, c * y, c * z), Quat(c, -(x * s), -(y * s), -(z * s))).c
         == y * (c * c + s * s * n)
  {}

  lemma SandwichAxisZ(c: real, s: real, x: real, y: real, z: real, n: real)
    requires n == x * x + y * y + z * z
    ensures Mul(Quat(-s * n, c * x, c * y, c * z), Quat(c, -(x * s), -(y * s), -(z * s))).d
         == z * (c * c + s * s * n)
  {}
}
