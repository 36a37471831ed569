/** `Point` (app.py lines 158-200): a point that keeps its reference
    coordinates, its current coordinates and the cumulative rotation that
    maps the one to the other, plus the perspective projection. */
module Points {

  import opened RealArith
  import opened MathLib
  import opened Vectors
  import opened Quaternions
  import opened Canvas

  /** `ref` is (defx, defy, defz), `cur` is (x, y, z), `rot` is
      `rotation_quaternion`. */
  datatype PointState = PointState(ref: Vec3, cur: Vec3, rot: Quat)

  /** The current coordinates are the reference coordinates rotated by the
      cumulative quaternion. */
  ghost predicate Consistent(p: PointState) {
    p.cur == Rotate(p.ref, p.rot)
  }

  /** `Point.reset`: back to the reference coordinates and the identity. */
  function Reset(p: PointState): (r: PointState)
    ensures r.ref == p.ref && r.cur == p.ref && r.rot == Identity
  {
    PointState(p.ref, p.ref, Identity)
  }

  /** `Point(x, y, z)`: the constructor stores the reference coordinates and
      calls `reset`. */
  function NewPoint(v: Vec3): (p: PointState)
    ensures p.ref == v && p.cur == v && p.rot == Identity
  {
    Reset(PointState(v, v, Identity))
  }

  /** `Point + Point`: a new point at the sum of the current coordinates. */
  function PointAdd(p: PointState, q: PointState): (r: PointState)
    ensures Sub(r.cur, q.cur) == p.cur && r.ref == r.cur && r.rot == Identity
  {
    NewPoint(Add(p.cur, q.cur))
  }

  /** `Point / k`: a new point at the current coordinates divided by k. */
  function PointDiv(p: PointState, k: real): (r: PointState)
    requires k != 0.0
    ensures Scale(r.cur, k) == p.cur && r.ref == r.cur && r.rot == Identity
  {
    DivIsScaleByInverse(p.cur, k);
    NewPoint(Div(p.cur, k))
  }

  /** `Point - Point`: the vector between the current coordinates. */
  function PointSub(p: PointState, q: PointState): (v: Vec3)
    ensures Add(q.cur, v) == p.cur
  {
    Sub(p.cur, q.cur)
  }

  /** Steps 1-2 of `transform`: the incremental rotation about `axis` by `th`,
      composed on the left of the cumulative one. */
  function Composed(m: Math, p: PointState, axis: Vec3, th: real): Quat
    requires Lawful(m)
  {
    Mul(ToRotationQuaternion(m, axis, th / 2.0), p.rot)
  }

  /** The guard of `transform`: the composed scalar part is outside (-1, 1). */
  predicate Degenerate(q: Quat) {
    q.a >= 1.0 || q.a <= -1.0
  }

  /** Lines 187-191 of `transform`: recover the half angle with `acos`, divide
      the vector part by its sine, normalize it, and rebuild the quaternion.
      The result keeps the scalar part, has its vector part pointing the same
      way as q's, is a unit quaternion whenever q's vector part is non-zero,
      and is q itself when q is already a unit quaternion. */
  function Renormalize(m: Math, q: Quat): (r: Quat)
    requires Lawful(m)
    requires !Degenerate(q)
    ensures r.a == q.a
    ensures Cross(VecPart(r), VecPart(q)) == Zero
    ensures VecPart(q) != Zero ==> Unit(r) && Dot(VecPart(r), VecPart(q)) > 0.0
    ensures Unit(q) ==> r == q
  {
    var h := m.acos(q.a);
    AcosPair(m, q.a);
    var axis := Normalize(m, Div(VecPart(q), m.sin(h)));
    RenormalizeFacts(m, q, axis);
    ToRotationQuaternion(m, axis, h)
  }

  lemma RenormalizeFacts(m: Math, q: Quat, axis: Vec3)
    requires Lawful(m)
    requires !Degenerate(q)
    requires m.sin(m.acos(q.a)) > 0.0
    requires axis == Normalize(m, Div(VecPart(q), m.sin(m.acos(q.a))))
    ensures var r := ToRotationQuaternion(m, axis, m.acos(q.a));
      && r.a == q.a
      && Cross(VecPart(r), VecPart(q)) == Zero
      && (VecPart(q) != Zero ==> Unit(r) && Dot(VecPart(r), VecPart(q)) > 0.0)
      && (Unit(q) ==> r == q)
  {
    AcosPair(m, q.a);
    var s := m.sin(m.acos(q.a));
    RotationParts(m, axis, m.acos(q.a));
    if VecPart(q) == Zero {
      RenormalizeZeroPart(m, q, s, axis);
    } else {
      var t := RenormalizedScale(m, VecPart(q), s, axis);
      PositiveMultiple(VecPart(q), t);
      if Unit(q) {
        RenormalizeUnit(m, q, s, axis);
      }
    }
  }

  /** The quaternion (cos h, axis sin h) split into its two parts. */
  lemma RotationParts(m: Math, axis: Vec3, h: real)
    requires Lawful(m)
    ensures ToRotationQuaternion(m, axis, h).a == m.cos(h)
    ensures VecPart(ToRotationQuaternion(m, axis, h)) == Scale(axis, m.sin(h))
    ensures NormSq(axis) == 1.0 ==> Unit(ToRotationQuaternion(m, axis, h))
  {}

  /** A zero vector part stays zero, and a quaternion with scalar part in
      (-1, 1) and zero vector part is not a unit quaternion. */
  lemma RenormalizeZeroPart(m: Math, q: Quat, s: real, axis: Vec3)
    requires Lawful(m)
    requires !Degenerate(q) && s > 0.0 && VecPart(q) == Zero
    requires axis == Normalize(m, Div(VecPart(q), s))
    ensures Scale(axis, s) == Zero
    ensures !Unit(q)
  {
    assert Div(VecPart(q), s) == Zero;
    assert axis == Zero;
    ScalarNotUnit(q);
  }

  lemma ScalarNotUnit(q: Quat)
    requires !Degenerate(q) && VecPart(q) == Zero
    ensures !Unit(q)
  {
    QNormSqSplit(q);
    SquareBelowOne(q.a);
  }

  /** For a non-zero vector part, the rebuilt vector part is the original one
      scaled by a positive factor. */
  lemma RenormalizedScale(m: Math, v: Vec3, s: real, axis: Vec3) returns (t: real)
    requires Lawful(m)
    requires v != Zero && s > 0.0
    requires axis == Normalize(m, Div(v, s))
    ensures t > 0.0 && Scale(axis, s) == Scale(v, t)
    ensures NormSq(axis) == 1.0
  {
    var u := Div(v, s);
    DivIsScaleByInverse(v, s);
    assert u != Zero;
    var p := InverseLength(m, u);
    DivScaleCancel(v, s, p);
    t := p;
  }

  /** When q is a unit quaternion its vector part has length sin h already,
      so normalizing and rescaling gives it back unchanged. */
  lemma RenormalizeUnit(m: Math, q: Quat, s: real, axis: Vec3)
    requires Lawful(m)
    requires Unit(q) && VecPart(q) != Zero && s > 0.0
    requires s * s == 1.0 - q.a * q.a
    requires axis == Normalize(m, Div(VecPart(q), s))
    ensures Scale(axis, s) == VecPart(q)
  {
    QNormSqSplit(q);
    DivByLength(VecPart(q), s);
    NormalizeUnit(m, Div(VecPart(q), s));
    DivIsScaleByInverse(VecPart(q), s);
  }

  /** `Point.transform(axis, th)`: compose the rotation by th about axis with
      the cumulative one; when the composed scalar part is outside (-1, 1) the
      point is left exactly as it was, otherwise the renormalized quaternion
      is stored and the reference coordinates are rotated by it. */
  function Transform(m: Math, p: PointState, axis: Vec3, th: real): (r: PointState)
    requires Lawful(m)
    ensures Degenerate(Composed(m, p, axis, th)) ==> r == p
    ensures !Degenerate(Composed(m, p, axis, th)) ==>
      && r.ref == p.ref
      && Consistent(r)
      && r.rot.a == Composed(m, p, axis, th).a
    ensures var q := Composed(m, p, axis, th);
      !Degenerate(q) && VecPart(q) != Zero ==> Unit(r.rot)
    ensures var q := Composed(m, p, axis, th);
      !Degenerate(q) && Unit(q) ==> r.rot == q
  {
    var q := Composed(m, p, axis, th);
    if Degenerate(q) then p
    else
      var rot := Renormalize(m, q);
      PointState(p.ref, Rotate(p.ref, rot), rot)
  }

  /** The axes `Cube.update` passes: a unit vector, or the zero vector
      together with the zero angle (a drag of length zero). */
  ghost predicate AxisAngleOk(axis: Vec3, th: real) {
    NormSq(axis) == 1.0 || (axis == Zero && th == 0.0)
  }

  /** The invariant every point keeps: a unit cumulative quaternion whose
      rotation of the reference coordinates gives the current ones. */
  ghost predicate Rigid(p: PointState) {
    Unit(p.rot) && Consistent(p)
  }

  /** `reset` (and so a new point) establishes `Rigid`, whatever the state
      before. */
  lemma ResetRigid(p: PointState)
    ensures Rigid(Reset(p)) && Rigid(NewPoint(p.ref))
  {
    RotateIdentity(p.ref);
    IdentityUnit();
  }

  /** The composed quaternion of a unit-quaternion point and an admissible
      axis and angle is a unit quaternion. */
  lemma ComposedUnit(m: Math, p: PointState, axis: Vec3, th: real)
    requires Lawful(m)
    requires Unit(p.rot) && AxisAngleOk(axis, th)
    ensures Unit(Composed(m, p, axis, th))
  {
    var inc := ToRotationQuaternion(m, axis, th / 2.0);
    if NormSq(axis) != 1.0 {
      assert inc == Identity;
      MulIdentity(p.rot);
    } else {
      UnitMul(inc, p.rot);
    }
  }

  /** `transform` keeps `Rigid`: it either leaves the point alone or stores
      exactly the composed rotation, and so the point stays at the same
      distance from the origin as its reference position. */
  lemma TransformPreservesRigid(m: Math, p: PointState, axis: Vec3, th: real)
    requires Lawful(m)
    requires Rigid(p) && AxisAngleOk(axis, th)
    ensures var r := Transform(m, p, axis, th);
      && Rigid(r)
      && r.ref == p.ref
      && NormSq(r.cur) == NormSq(r.ref)
      && (!Degenerate(Composed(m, p, axis, th)) ==> r.rot == Composed(m, p, axis, th))
  {
    ComposedUnit(m, p, axis, th);
    var r := Transform(m, p, axis, th);
    RotatePreservesLength(r.ref, r.rot);
  }

  /** What `transform` promises: unless the guard fires, the new position is
      the old position turned by the increment, the rotation by th about
      axis, which leaves a unit axis fixed. */
  lemma TransformTurnsFromCurrent(m: Math, p: PointState, axis: Vec3, th: real)
    requires Lawful(m)
    requires Rigid(p) && AxisAngleOk(axis, th)
    requires !Degenerate(Composed(m, p, axis, th))
    ensures var inc := ToRotationQuaternion(m, axis, th / 2.0);
      && Transform(m, p, axis, th).cur == Rotate(p.cur, inc)
      && (NormSq(axis) == 1.0 ==> Rotate(axis, inc) == axis)
  {
    TransformFromCurrent(m, p, axis, th);
    if NormSq(axis) == 1.0 {
      RotationFixesAxis(m, axis, th / 2.0);
    }
  }

  lemma TransformFromCurrent(m: Math, p: PointState, axis: Vec3, th: real)
    requires Lawful(m)
    requires Rigid(p) && AxisAngleOk(axis, th)
    requires !Degenerate(Composed(m, p, axis, th))
    ensures Transform(m, p, axis, th).cur == Rotate(p.cur, ToRotationQuaternion(m, axis, th / 2.0))
  {
    var r := Transform(m, p, axis, th);
    TransformPreservesRigid(m, p, axis, th);
    assert r.cur == Rotate(p.ref, Composed(m, p, axis, th));
    RotateCompose(p.ref, ToRotationQuaternion(m, axis, th / 2.0), p.rot);
  }

  /** A drag of length zero changes nothing. */
  lemma ZeroDragIsNoOp(m: Math, p: PointState)
    requires Lawful(m)
    requires Rigid(p)
    ensures Transform(m, p, Zero, 0.0) == p
  {
    var q := Composed(m, p, Zero, 0.0);
    assert ToRotationQuaternion(m, Zero, 0.0 / 2.0) == Identity;
    MulIdentity(p.rot);
    assert q == p.rot;
  }

  /** A zero-angle call on a fresh point composes to (1, 0, 0, 0), so the
      guard fires and the point is returned unchanged, whatever the axis. */
  lemma ZeroAngleHitsGuard(m: Math, v: Vec3, axis: Vec3)
    requires Lawful(m)
    ensures Degenerate(Composed(m, NewPoint(v), axis, 0.0))
    ensures Transform(m, NewPoint(v), axis, 0.0) == NewPoint(v)
  {
    ZeroAngleComposed(m, v, axis);
  }

  lemma ZeroAngleComposed(m: Math, v: Vec3, axis: Vec3)
    requires Lawful(m)
    ensures Composed(m, NewPoint(v), axis, 0.0) == Identity
  {
    ZeroAngleRotation(m, axis);
    MulIdentity(Identity);
  }

  /** The rotation by angle zero about any axis is the identity quaternion. */
  lemma ZeroAngleRotation(m: Math, axis: Vec3)
    requires Lawful(m)
    ensures ToRotationQuaternion(m, axis, 0.0 / 2.0) == Identity
  {
    SinZero(m);
    assert 0.0 / 2.0 == 0.0;
  }

  /** sin 0 = 0, from cos 0 = 1 and sin^2 + cos^2 = 1. */
  lemma SinZero(m: Math)
    requires Lawful(m)
    ensures m.sin(0.0) == 0.0
  {
    assert m.sin(0.0) * m.sin(0.0) + m.cos(0.0) * m.cos(0.0) == 1.0;
    SquareZero(m.sin(0.0));
  }

  const MinusIdentity: Quat := Quat(-1.0, 0.0, 0.0, 0.0)

  /** For a unit quaternion the guard of `transform` fires exactly at the two
      quaternions that stand for the identity rotation. */
  lemma DegenerateUnit(q: Quat)
    requires Unit(q)
    ensures Degenerate(q) <==> q == Identity || q == MinusIdentity
  {
    if Degenerate(q) {
      DegenerateUnitParts(q);
    }
  }

  lemma DegenerateUnitParts(q: Quat)
    requires Unit(q) && Degenerate(q)
    ensures VecPart(q) == Zero && (q.a == 1.0 || q.a == -1.0)
  {
    QNormSqSplit(q);
    NormSqZero(VecPart(q));
    DegenerateUnitScalar(q.a, NormSq(VecPart(q)));
  }

  lemma DegenerateUnitScalar(a: real, n: real)
    requires a * a + n == 1.0 && n >= 0.0
    requires a >= 1.0 || a <= -1.0
    ensures n == 0.0 && (a == 1.0 || a == -1.0)
  {
    if a >= 1.0 {
      MulNonNeg(a - 1.0, a + 1.0);
      DiffOfSquares(a, 1.0);
    } else {
      MulNonNeg(-1.0 - a, 1.0 - a);
      DiffOfSquares(a, 1.0);
    }
  }

  /** Both quaternions of the identity rotation fix every point. */
  lemma RotateMinusIdentity(v: Vec3)
    ensures Rotate(v, MinusIdentity) == v
  {
    var w := Mul(MinusIdentity, Pure(v));
    assert w == Quat(0.0, -v.x, -v.y, -v.z);
    assert Conj(MinusIdentity) == MinusIdentity;
    assert Mul(w, MinusIdentity) == Pure(v);
  }

  /** The rotation axes of a horizontal drag to the right and to the left. */
  const AxisY: Vec3 := Vec3(0.0, 1.0, 0.0)
  const AxisMinusY: Vec3 := Vec3(0.0, -1.0, 0.0)

  /** The guard drops an increment that undoes the stored rotation.  A fresh
      point at (1, 0, 0) is turned about +y by 2h (with sin h != 0), then
      about -y by 2h.  The composed quaternion is (1, 0, 0, 0), so the guard
      fires and the point stays turned, although the composed rotation would
      put it back at its reference position. */
  lemma UndoIsDropped(m: Math, h: real)
    requires Lawful(m)
    requires m.sin(h) != 0.0
    ensures var p := Transform(m, NewPoint(Vec3(1.0, 0.0, 0.0)), AxisY, 2.0 * h);
      && Composed(m, p, AxisMinusY, 2.0 * h) == Identity
      && Transform(m, p, AxisMinusY, 2.0 * h) == p
      && p.cur != p.ref
      && Rotate(p.ref, Composed(m, p, AxisMinusY, 2.0 * h)) == p.ref
  {
    var ref := Vec3(1.0, 0.0, 0.0);
    var q := Quat(m.cos(h), 0.0, m.sin(h), 0.0);
    UndoFirstTurn(m, h);
    var p := Transform(m, NewPoint(ref), AxisY, 2.0 * h);
    assert p == PointState(ref, Rotate(ref, q), q);
    UndoSecondTurn(m, h);
    assert 2.0 * h / 2.0 == h;
    assert Composed(m, p, AxisMinusY, 2.0 * h) == Identity;
    UndoMoved(m, h);
    RotateIdentity(ref);
  }

  /** The first turn composes to (cos h, 0, sin h, 0), which passes the guard
      and is stored as it is. */
  lemma UndoFirstTurn(m: Math, h: real)
    requires Lawful(m)
    requires m.sin(h) != 0.0
    ensures var q := Quat(m.cos(h), 0.0, m.sin(h), 0.0);
      && Composed(m, NewPoint(Vec3(1.0, 0.0, 0.0)), AxisY, 2.0 * h) == q
      && Unit(q)
      && !Degenerate(q)
  {
    UndoFirstComposed(m, h);
    TurnYUnit(m.cos(h), m.sin(h));
  }

  lemma UndoFirstComposed(m: Math, h: real)
    requires Lawful(m)
    ensures Composed(m, NewPoint(Vec3(1.0, 0.0, 0.0)), AxisY, 2.0 * h) == Quat(m.cos(h), 0.0, m.sin(h), 0.0)
  {
    var q := Quat(m.cos(h), 0.0, m.sin(h), 0.0);
    var t := ToRotationQuaternion(m, AxisY, h);
    assert t == q by {
      RotationParts(m, AxisY, h);
      ScaleAxisY(m.sin(h));
    }
    assert Composed(m, NewPoint(Vec3(1.0, 0.0, 0.0)), AxisY, 2.0 * h) == Mul(t, Identity) by {
      HalfOfDouble(h);
    }
    MulIdentity(q);
  }

  /** (c, 0, s, 0) with c^2 + s^2 = 1 and s != 0 is a unit quaternion that
      passes the guard. */
  lemma TurnYUnit(c: real, s: real)
    requires c * c + s * s == 1.0 && s != 0.0
    ensures Unit(Quat(c, 0.0, s, 0.0)) && !Degenerate(Quat(c, 0.0, s, 0.0))
  {
    TurnNotDegenerate(Quat(c, 0.0, s, 0.0));
  }

  lemma ScaleAxisY(s: real)
    ensures Scale(AxisY, s) == Vec3(0.0, s, 0.0)
    ensures Scale(AxisMinusY, s) == Vec3(0.0, -s, 0.0)
  {}

  lemma HalfOfDouble(h: real)
    ensures 2.0 * h / 2.0 == h
  {}

  /** A unit quaternion with a non-zero vector part passes the guard. */
  lemma TurnNotDegenerate(q: Quat)
    requires Unit(q) && VecPart(q) != Zero
    ensures !Degenerate(q)
  {
    if Degenerate(q) {
      DegenerateUnitParts(q);
      assert false;
    }
  }

  /** The turn back about -y by the same angle composes with the first to the
      identity quaternion. */
  lemma UndoSecondTurn(m: Math, h: real)
    requires Lawful(m)
    ensures Mul(ToRotationQuaternion(m, AxisMinusY, h), Quat(m.cos(h), 0.0, m.sin(h), 0.0)) == Identity
  {
    var c, s := m.cos(h), m.sin(h);
    assert ToRotationQuaternion(m, AxisMinusY, h) == Quat(c, 0.0, -s, 0.0);
    assert c * c + s * s == 1.0;
  }

  /** After the first turn the point is no longer at its reference position:
      its x coordinate is cos^2 h - sin^2 h = 1 - 2 sin^2 h < 1. */
  lemma UndoMoved(m: Math, h: real)
    requires Lawful(m)
    requires m.sin(h) != 0.0
    ensures Rotate(Vec3(1.0, 0.0, 0.0), Quat(m.cos(h), 0.0, m.sin(h), 0.0)) != Vec3(1.0, 0.0, 0.0)
  {
    var c, s := m.cos(h), m.sin(h);
    var q := Quat(c, 0.0, s, 0.0);
    assert Mul(q, Pure(Vec3(1.0, 0.0, 0.0))) == Quat(0.0, c, 0.0, -s);
    assert Mul(Quat(0.0, c, 0.0, -s), Conj(q)) == Quat(0.0, c * c - s * s, 0.0, -2.0 * c * s);
    assert c * c + s * s == 1.0;
    SquareNonNeg(s);
    SquareZero(s);
    assert Rotate(Vec3(1.0, 0.0, 0.0), q).x == 1.0 - 2.0 * (s * s) < 1.0;
  }

  /** `transform` as its guard evidently intends: when the composed scalar
      part is outside (-1, 1) there is no axis to recover, but the composed
      quaternion is still the rotation to store. */
  function TransformIntended(m: Math, p: PointState, axis: Vec3, th: real): (r: PointState)
    requires Lawful(m)
    ensures r.ref == p.ref
    ensures Degenerate(Composed(m, p, axis, th)) || Consistent(p) ==> Consistent(r)
    ensures !Degenerate(Composed(m, p, axis, th)) ==> r == Transform(m, p, axis, th)
  {
    var q := Composed(m, p, axis, th);
    if Degenerate(q) then PointState(p.ref, Rotate(p.ref, q), q)
    else Transform(m, p, axis, th)
  }

  /** The intended transform always stores exactly the composed rotation and
      keeps the point rigid. */
  lemma IntendedStoresComposed(m: Math, p: PointState, axis: Vec3, th: real)
    requires Lawful(m)
    requires Rigid(p) && AxisAngleOk(axis, th)
    ensures var r := TransformIntended(m, p, axis, th);
      Rigid(r) && r.ref == p.ref && r.rot == Composed(m, p, axis, th)
  {
    ComposedUnit(m, p, axis, th);
    TransformPreservesRigid(m, p, axis, th);
  }

  /** The corrected transform always turns the old position by the
      increment, at the guard as well. */
  lemma IntendedTurnsFromCurrent(m: Math, p: PointState, axis: Vec3, th: real)
    requires Lawful(m)
    requires Rigid(p) && AxisAngleOk(axis, th)
    ensures TransformIntended(m, p, axis, th).cur == Rotate(p.cur, ToRotationQuaternion(m, axis, th / 2.0))
  {
    IntendedStoresComposed(m, p, axis, th);
    RotateCompose(p.ref, ToRotationQuaternion(m, axis, th / 2.0), p.rot);
  }

  /** With the intended transform, the turn back returns the point of
      `UndoIsDropped` to its reference position. */
  lemma IntendedUndoes(m: Math, h: real)
    requires Lawful(m)
    requires m.sin(h) != 0.0
    ensures var p := Transform(m, NewPoint(Vec3(1.0, 0.0, 0.0)), AxisY, 2.0 * h);
      TransformIntended(m, p, AxisMinusY, 2.0 * h).cur == p.ref
  {
    UndoIsDropped(m, h);
  }

  /** What `perspectivepoint` reads from the canvas: the viewer-to-screen and
      screen-to-centre distances and the canvas centre.  The viewer sits on
      the z axis at z = vts + stc, looking toward -z. */
  datatype Camera = Camera(vts: real, stc: real, center: Pixel)

  function ViewerZ(cam: Camera): real {
    cam.vts + cam.stc
  }

  /** The scale factor vts / (vts + stc - z); Python raises
      `ZeroDivisionError` for a point level with the viewer, hence the
      precondition. */
  function Ratio(cam: Camera, z: real): (r: real)
    requires z != ViewerZ(cam)
    ensures r * (ViewerZ(cam) - z) == cam.vts
    ensures cam.vts > 0.0 && z < ViewerZ(cam) ==> r > 0.0
  {
    cam.vts / (ViewerZ(cam) - z)
  }

  /** `Point.perspectivepoint`: the central projection onto the screen plane,
      shifted to the canvas centre.  The offsets from the centre satisfy the
      intercept theorem: offset * depth = vts * coordinate. */
  function Project(cam: Camera, v: Vec3): (s: Vec2)
    requires v.z != ViewerZ(cam)
    ensures (s.x - cam.center.x as real) * (ViewerZ(cam) - v.z) == cam.vts * v.x
    ensures (s.y - cam.center.y as real) * (ViewerZ(cam) - v.z) == cam.vts * v.y
    ensures v.x == 0.0 && v.y == 0.0 ==> s == Vec2(cam.center.x as real, cam.center.y as real)
  {
    var r := Ratio(cam, v.z);
    Vec2(v.x * r + cam.center.x as real, v.y * r + cam.center.y as real)
  }

  /** Nearer points (larger z, still in front of the viewer) are magnified
      more. */
  lemma RatioIncreasing(cam: Camera, z1: real, z2: real)
    requires cam.vts > 0.0 && z1 < z2 < ViewerZ(cam)
    ensures 0.0 < Ratio(cam, z1) < Ratio(cam, z2)
  {
    var d1, d2 := ViewerZ(cam) - z1, ViewerZ(cam) - z2;
    var r1, r2 := Ratio(cam, z1), Ratio(cam, z2);
    assert r1 * d1 == r2 * d2;
    if r1 >= r2 {
      MulPos(r1, d1 - d2);
      MulNonNeg(r1 - r2, d2);
      assert false;
    }
  }

  /** A point on the screen plane z = stc is drawn at its own x and y. */
  lemma ProjectScreenPlane(cam: Camera, v: Vec3)
    requires cam.vts != 0.0 && v.z == cam.stc
    ensures Project(cam, v) == Vec2(v.x + cam.center.x as real, v.y + cam.center.y as real)
  {
    assert ViewerZ(cam) - v.z == cam.vts;
  }

  /** Every point on one ray from the viewer is drawn at the same place: w
      lies on the ray through v when its offsets from the viewer are k times
      those of v. */
  lemma ProjectAlongRay(cam: Camera, v: Vec3, w: Vec3, k: real)
    requires v.z != ViewerZ(cam) && k != 0.0
    requires w.x == k * v.x && w.y == k * v.y
    requires ViewerZ(cam) - w.z == k * (ViewerZ(cam) - v.z)
    ensures w.z != ViewerZ(cam) && Project(cam, w) == Project(cam, v)
  {
    var d := ViewerZ(cam) - v.z;
    RayScale(cam.vts, d, k, v.x);
    RayScale(cam.vts, d, k, v.y);
    assert Ratio(cam, w.z) == cam.vts / (k * d);
  }

  /** The drawing parameters of the application: vts = stc = 2 * 250 and a
      1300 x 650 canvas. */
  const AppCamera: Camera := Camera(500.0, 500.0, Center(1300, 650))

  lemma ProjectExample()
    ensures Project(AppCamera, Vec3(100.0, 0.0, 0.0)) == Vec2(700.0, 325.0)
  {
    assert AppCamera.center == Pixel(650, 325);
  }

}
