/** `Cube` (app.py lines 225-270): nine points in an arena (index 0 is the
    centre, 1-8 the corners), six faces as index quadruples, the per-frame
    update driven by the pointer, and the paints of one frame. */
module Cubes {

  import opened RealArith
  import opened MathLib
  import opened Optional
  import opened Vectors
  import opened Quaternions
  import opened Points
  import opened Canvas
  import opened Faces

  const EdgeLength: real := 250.0
  const Sensitivity: real := 0.01
  /** `GROUND_DISTANCE = 100 + EDGE_LENGTH`. */
  const GroundDistance: real := 100.0 + EdgeLength
  /** `e / 2` with `e = EDGE_LENGTH / 2`: the corners' offset on each axis. */
  const Half: real := EdgeLength / 2.0 / 2.0

  /** The sign of each coordinate offset of points 1-8, in the order the
      constructor lists them; entry 0 belongs to the centre. */
  const CornerSigns: seq<Vec3> := [
    Zero,
    Vec3( 1.0,  1.0,  1.0),
    Vec3( 1.0,  1.0, -1.0),
    Vec3( 1.0, -1.0, -1.0),
    Vec3( 1.0, -1.0,  1.0),
    Vec3(-1.0, -1.0,  1.0),
    Vec3(-1.0, -1.0, -1.0),
    Vec3(-1.0,  1.0, -1.0),
    Vec3(-1.0,  1.0,  1.0)
  ]

  /** The six faces, each as four indices into the arena, in drawing order. */
  const FaceIndices: seq<seq<nat>> := [
    [1, 2, 7, 8],
    [1, 8, 5, 4],
    [1, 4, 3, 2],
    [6, 5, 8, 7],
    [6, 3, 4, 5],
    [6, 7, 2, 3]
  ]

  /** The outward axis of each face: +y, +z, +x, -x, -y, -z. */
  const FaceDirections: seq<Vec3> := [
    Vec3( 0.0,  1.0,  0.0),
    Vec3( 0.0,  0.0,  1.0),
    Vec3( 1.0,  0.0,  0.0),
    Vec3(-1.0,  0.0,  0.0),
    Vec3( 0.0, -1.0,  0.0),
    Vec3( 0.0,  0.0, -1.0)
  ]

  /** `points`, `color` and `last_mouse_pos`. */
  datatype Cube = Cube(points: seq<PointState>, hue: int, last: Option<Pixel>)

  /** The constructor's list of points: the centre itself, then each corner
      as a new point at the centre's current coordinates plus its offset. */
  function Arena(centre: PointState): (ps: seq<PointState>)
    ensures |ps| == 9 && ps[0] == centre
    ensures forall i :: 1 <= i < 9 ==> ps[i] == NewPoint(Corner(centre.cur, i))
  {
    [centre,
     NewPoint(Corner(centre.cur, 1)), NewPoint(Corner(centre.cur, 2)),
     NewPoint(Corner(centre.cur, 3)), NewPoint(Corner(centre.cur, 4)),
     NewPoint(Corner(centre.cur, 5)), NewPoint(Corner(centre.cur, 6)),
     NewPoint(Corner(centre.cur, 7)), NewPoint(Corner(centre.cur, 8))]
  }

  /** Where corner i of a cube centred at c starts. */
  function Corner(c: Vec3, i: nat): Vec3
    requires i < 9
  {
    Add(Scale(CornerSigns[i], Half), c)
  }

  /** Corner i of the arena is a fresh, unrotated point at offset
      (+-Half, +-Half, +-Half) from the centre, with the signs of the
      constructor's table. */
  lemma ArenaCorners(centre: PointState, i: nat)
    requires 1 <= i < 9
    ensures var p := Arena(centre)[i];
      && p.rot == Identity
      && p.cur == p.ref
      && Sub(p.cur, centre.cur) == Scale(CornerSigns[i], Half)
      && Rigid(p)
  {
    var p := Arena(centre)[i];
    AddSubCancel(Scale(CornerSigns[i], Half), centre.cur);
    ResetRigid(p);
  }

  lemma AddSubCancel(u: Vec3, v: Vec3)
    ensures Sub(Add(u, v), v) == u
  {}

  /** A drag of the pointer: `Point2D.__sub__` of two pixel positions. */
  function Drag(now: Pixel, before: Pixel): Vec2 {
    Vec2((now.x - before.x) as real, (now.y - before.y) as real)
  }

  /** Swapping the two samples reverses the drag, and a pointer that did not
      move gives the zero drag. */
  lemma DragAntisymmetric(a: Pixel, b: Pixel)
    ensures Drag(b, a) == Vec2(-Drag(a, b).x, -Drag(a, b).y)
    ensures Drag(a, a) == Vec2(0.0, 0.0)
  {}

  /** `Vector(-rot_dir.y, rot_dir.x, 0, norm=True)`: the screen-plane axis
      perpendicular to the drag, of length one, or zero for a zero drag. */
  function DragAxis(m: Math, d: Vec2): (axis: Vec3)
    requires Lawful(m)
    ensures axis.z == 0.0
    ensures Dot(axis, Vec3(d.x, d.y, 0.0)) == 0.0
    ensures axis == Zero <==> d == Vec2(0.0, 0.0)
    ensures d != Vec2(0.0, 0.0) ==> NormSq(axis) == 1.0
    ensures d != Vec2(0.0, 0.0) ==> Cross2(d, Vec2(axis.x, axis.y)) > 0.0
  {
    PerpendicularAxis(m, d);
    DragAxisZero(m, d);
    DragAxisTurn(m, d);
    Normalize(m, Vec3(-d.y, d.x, 0.0))
  }

  lemma DragAxisZero(m: Math, d: Vec2)
    requires Lawful(m)
    ensures var axis := Normalize(m, Vec3(-d.y, d.x, 0.0));
      && (axis == Zero <==> d == Vec2(0.0, 0.0))
      && (d != Vec2(0.0, 0.0) ==> NormSq(axis) == 1.0)
  {
    var raw := Vec3(-d.y, d.x, 0.0);
    if d != Vec2(0.0, 0.0) {
      assert raw != Zero;
      assert NormSq(Zero) == 0.0;
    }
  }

  /** The axis is the drag turned a quarter counter-clockwise in the screen
      plane, not clockwise: with unit length and perpendicularity this pins
      it down. */
  lemma DragAxisTurn(m: Math, d: Vec2)
    requires Lawful(m)
    ensures var axis := Normalize(m, Vec3(-d.y, d.x, 0.0));
      d != Vec2(0.0, 0.0) ==> Cross2(d, Vec2(axis.x, axis.y)) > 0.0
  {
    var raw := Vec3(-d.y, d.x, 0.0);
    if d != Vec2(0.0, 0.0) {
      assert raw != Zero;
      var p := InverseLength(m, raw);
      var axis := Scale(raw, p);
      calc {
        Cross2(d, Vec2(axis.x, axis.y));
        d.x * (d.x * p) - d.y * (-d.y * p);
        p * (d.x * d.x + d.y * d.y);
      }
      SquareNonNeg(d.x);
      SquareNonNeg(d.y);
      SquareZero(d.x);
      SquareZero(d.y);
      MulPos(p, d.x * d.x + d.y * d.y);
    }
  }

  lemma PerpendicularAxis(m: Math, d: Vec2)
    requires Lawful(m)
    ensures var axis := Normalize(m, Vec3(-d.y, d.x, 0.0));
      axis.z == 0.0 && Dot(axis, Vec3(d.x, d.y, 0.0)) == 0.0
  {
    var raw := Vec3(-d.y, d.x, 0.0);
    if raw != Zero {
      var p := InverseLength(m, raw);
      DotScale(raw, Vec3(d.x, d.y, 0.0), p, 1.0);
      assert Scale(Vec3(d.x, d.y, 0.0), 1.0) == Vec3(d.x, d.y, 0.0);
    }
  }

  /** `rot_dir.magnitude() * INPUT_SENSITIVITY`: the rotation angle is
      proportional to the drag length. */
  function DragAngle(m: Math, d: Vec2): (th: real)
    requires Lawful(m)
    ensures th >= 0.0
    ensures th == 0.0 <==> d == Vec2(0.0, 0.0)
  {
    Magnitude2(m, d) * Sensitivity
  }

  /** The angle is the drag's Euclidean length times the sensitivity. */
  lemma DragAngleLength(m: Math, d: Vec2)
    requires Lawful(m)
    ensures var len := DragAngle(m, d) / Sensitivity;
      len >= 0.0 && len * len == d.x * d.x + d.y * d.y
  {
    assert DragAngle(m, d) / Sensitivity == Magnitude2(m, d);
  }

  /** The axis and angle of one drag are always admissible for `transform`. */
  lemma DragAdmissible(m: Math, d: Vec2)
    requires Lawful(m)
    ensures AxisAngleOk(DragAxis(m, d), DragAngle(m, d))
  {}

  /** `Cube.update(mouse_pos)`: when both the current and the last pointer
      positions are known, rotate all points about the drag axis by the drag
      angle; always remember the current position; report the depth of the
      centre. */
  function Update(m: Math, c: Cube, pos: Option<Pixel>): (r: (Cube, real))
    requires Lawful(m)
    requires |c.points| == 9
    ensures |r.0.points| == 9 && r.0.hue == c.hue && r.0.last == pos
    ensures r.1 == r.0.points[0].cur.z
    ensures !(pos.Some? && c.last.Some?) ==> r.0.points == c.points
    ensures pos.Some? && c.last.Some? ==>
      var d := Drag(pos.value, c.last.value);
      forall i :: 0 <= i < 9 ==>
        r.0.points[i] == Transform(m, c.points[i], DragAxis(m, d), DragAngle(m, d))
  {
    var points :=
      if pos.Some? && c.last.Some? then
        var d := Drag(pos.value, c.last.value);
        var axis, th := DragAxis(m, d), DragAngle(m, d);
        TurnAll(m, c.points, axis, th)
      else c.points;
    (Cube(points, c.hue, pos), points[0].cur.z)
  }

  /** Every point transformed by the same axis and angle. */
  function TurnAll(m: Math, ps: seq<PointState>, axis: Vec3, th: real): (r: seq<PointState>)
    requires Lawful(m)
    ensures |r| == |ps|
    ensures forall i :: 0 <= i < |ps| ==> r[i] == Transform(m, ps[i], axis, th)
  {
    seq(|ps|, i requires 0 <= i < |ps| => Transform(m, ps[i], axis, th))
  }

  /** `Cube(cube_center, canv, color)`: build the arena with no last position
      and run `update` once; that first call never rotates. */
  function NewCube(m: Math, centre: PointState, hue: int, pos: Option<Pixel>): (c: Cube)
    requires Lawful(m)
    ensures c.points == Arena(centre) && c.hue == hue && c.last == pos
  {
    Update(m, Cube(Arena(centre), hue, None), pos).0
  }

  /** The invariant of a cube between frames: nine points, each a rigid
      rotation of its reference position, all by one shared quaternion. */
  ghost predicate Inv(c: Cube) {
    RigidTogether(c.points)
  }

  ghost predicate RigidTogether(ps: seq<PointState>) {
    && |ps| == 9
    && (forall i :: 0 <= i < 9 ==> Rigid(ps[i]))
    && (forall i :: 0 <= i < 9 ==> ps[i].rot == ps[0].rot)
  }

  /** The arena around an unrotated centre at its reference position
      satisfies `Inv`. */
  lemma ArenaInv(centre: PointState, hue: int, last: Option<Pixel>)
    requires centre.cur == centre.ref && centre.rot == Identity
    ensures Inv(Cube(Arena(centre), hue, last))
  {
    ArenaFresh(centre);
    AllFreshRigid(Arena(centre));
  }

  lemma ArenaFresh(c: PointState)
    requires c.cur == c.ref && c.rot == Identity
    ensures forall i :: 0 <= i < 9 ==> Arena(c)[i].cur == Arena(c)[i].ref && Arena(c)[i].rot == Identity
  {}

  lemma AllFreshRigid(ps: seq<PointState>)
    requires |ps| == 9
    requires forall i :: 0 <= i < 9 ==> ps[i].cur == ps[i].ref && ps[i].rot == Identity
    ensures RigidTogether(ps)
  {
    forall i | 0 <= i < 9
      ensures Rigid(ps[i])
    {
      FreshRigid(ps[i]);
    }
  }

  lemma FreshRigid(p: PointState)
    requires p.cur == p.ref && p.rot == Identity
    ensures Rigid(p)
  {
    ResetRigid(p);
    assert p == Reset(p);
  }

  /** A freshly built cube around a freshly made centre point keeps `Inv`. */
  lemma NewCubeInv(m: Math, v: Vec3, hue: int, pos: Option<Pixel>)
    requires Lawful(m)
    ensures Inv(NewCube(m, NewPoint(v), hue, pos))
  {
    ArenaInv(NewPoint(v), hue, pos);
  }

  /** The rotation `transform` stores depends on the point only through its
      quaternion. */
  lemma TransformRotOnlyFromRot(m: Math, p: PointState, p': PointState, axis: Vec3, th: real)
    requires Lawful(m)
    requires p.rot == p'.rot
    ensures Transform(m, p, axis, th).rot == Transform(m, p', axis, th).rot
  {}

  /** `update` keeps `Inv` and never touches the reference coordinates. */
  lemma UpdatePreservesInv(m: Math, c: Cube, pos: Option<Pixel>)
    requires Lawful(m)
    requires Inv(c)
    ensures Inv(Update(m, c, pos).0)
    ensures forall i :: 0 <= i < 9 ==> Update(m, c, pos).0.points[i].ref == c.points[i].ref
  {
    var r := Update(m, c, pos).0;
    if pos.Some? && c.last.Some? {
      var d := Drag(pos.value, c.last.value);
      var axis, th := DragAxis(m, d), DragAngle(m, d);
      DragAdmissible(m, d);
      forall i | 0 <= i < 9
        ensures Rigid(r.points[i]) && r.points[i].ref == c.points[i].ref
        ensures r.points[i].rot == r.points[0].rot
      {
        TransformPreservesRigid(m, c.points[i], axis, th);
        TransformRotOnlyFromRot(m, c.points[i], c.points[0], axis, th);
      }
    }
  }

  /** The state after a sequence of pointer samples, one `update` per frame.
      Any number of frames keep `Inv` (all nine points share one unit
      quaternion and sit where it rotates their reference positions) and
      leave the reference positions alone. */
  function UpdateAll(m: Math, c: Cube, samples: seq<Option<Pixel>>): (r: Cube)
    requires Lawful(m)
    requires |c.points| == 9
    ensures |r.points| == 9 && r.hue == c.hue
    ensures |samples| == 0 ==> r == c
    ensures |samples| > 0 ==> r.last == samples[|samples| - 1]
    ensures Inv(c) ==> Inv(r)
    ensures Inv(c) ==> forall i :: 0 <= i < 9 ==> r.points[i].ref == c.points[i].ref
    decreases |samples|
  {
    if |samples| == 0 then c
    else
      UpdateKeepsInvIf(m, c, samples[0]);
      UpdateAll(m, Update(m, c, samples[0]).0, samples[1..])
  }

  lemma UpdateKeepsInvIf(m: Math, c: Cube, pos: Option<Pixel>)
    requires Lawful(m)
    requires |c.points| == 9
    ensures Inv(c) ==> Inv(Update(m, c, pos).0)
    ensures Inv(c) ==> forall i :: 0 <= i < 9 ==> Update(m, c, pos).0.points[i].ref == c.points[i].ref
  {
    if Inv(c) {
      UpdatePreservesInv(m, c, pos);
    }
  }

  /** Under `Inv` the cube moves rigidly: all distances between its points are
      those between their reference positions. */
  lemma InvRigidDistances(c: Cube, i: nat, j: nat)
    requires Inv(c) && i < 9 && j < 9
    ensures NormSq(Sub(c.points[i].cur, c.points[j].cur))
         == NormSq(Sub(c.points[i].ref, c.points[j].ref))
  {
    var q := c.points[0].rot;
    RotateSub(c.points[i].ref, c.points[j].ref, q);
    RotatePreservesLength(Sub(c.points[i].ref, c.points[j].ref), q);
  }

  /** Each corner's offset has a sign on every axis, and the eight corners
      carry eight different sign patterns, so each pattern occurs once. */
  lemma CornerSignsCover()
    ensures forall i :: 1 <= i < 9 ==> IsSignPattern(CornerSigns[i])
    ensures forall i, j :: 1 <= i < j < 9 ==> CornerSigns[i] != CornerSigns[j]
    ensures forall s :: IsSignPattern(s) ==> exists i :: 1 <= i < 9 && CornerSigns[i] == s
  {
    forall s | IsSignPattern(s)
      ensures exists i :: 1 <= i < 9 && CornerSigns[i] == s
    {
      var i := SignIndex(s);
    }
  }

  /** A vector whose coordinates are each 1 or -1. */
  predicate IsSignPattern(s: Vec3) {
    (s.x == 1.0 || s.x == -1.0) && (s.y == 1.0 || s.y == -1.0) && (s.z == 1.0 || s.z == -1.0)
  }

  /** The corner that carries a given sign pattern. */
  lemma SignIndex(s: Vec3) returns (i: nat)
    requires IsSignPattern(s)
    ensures 1 <= i < 9 && CornerSigns[i] == s
  {
    if s.x == 1.0 {
      if s.y == 1.0 { i := if s.z == 1.0 then 1 else 2; }
      else { i := if s.z == 1.0 then 4 else 3; }
    } else {
      if s.y == 1.0 { i := if s.z == 1.0 then 8 else 7; }
      else { i := if s.z == 1.0 then 5 else 6; }
    }
  }

  /** Every face names four different corners. */
  lemma FacesWellFormed()
    ensures |FaceIndices| == 6
    ensures forall f :: 0 <= f < 6 ==> |FaceIndices[f]| == 4
    ensures forall f, k :: 0 <= f < 6 && 0 <= k < 4 ==> 1 <= FaceIndices[f][k] < 9
    ensures forall f, k, l :: 0 <= f < 6 && 0 <= k < l < 4 ==> FaceIndices[f][k] != FaceIndices[f][l]
  {}

  /** On how many of the six faces corner i lies. */
  function FaceCount(i: nat): nat {
    (if OnFace(i, 0) then 1 else 0) + (if OnFace(i, 1) then 1 else 0) +
    (if OnFace(i, 2) then 1 else 0) + (if OnFace(i, 3) then 1 else 0) +
    (if OnFace(i, 4) then 1 else 0) + (if OnFace(i, 5) then 1 else 0)
  }

  /** Corner i is one of the four corners of face f. */
  predicate OnFace(i: nat, f: nat)
    requires f < 6
  {
    var ix := FaceIndices[f];
    ix[0] == i || ix[1] == i || ix[2] == i || ix[3] == i
  }

  /** Every corner lies on exactly three faces. */
  lemma EveryCornerOnThreeFaces(i: nat)
    requires 1 <= i < 9
    ensures FaceCount(i) == 3
  {}

  /** Going round a face, consecutive corners differ in exactly one sign (they
      span an edge of the cube), and all four corners lie on the side of the
      face's outward axis. */
  lemma FacesAreSquares(f: nat)
    requires f < 6
    ensures SquareFace(FaceSigns(f), FaceDirections[f])
  {
    if f == 0 {
      assert SquareFace(FaceSigns(0), FaceDirections[0]);
    } else if f == 1 {
      assert SquareFace(FaceSigns(1), FaceDirections[1]);
    } else if f == 2 {
      assert SquareFace(FaceSigns(2), FaceDirections[2]);
    } else if f == 3 {
      assert SquareFace(FaceSigns(3), FaceDirections[3]);
    } else if f == 4 {
      assert SquareFace(FaceSigns(4), FaceDirections[4]);
    } else {
      assert SquareFace(FaceSigns(5), FaceDirections[5]);
    }
  }

  /** The sign patterns of a face's corners, in the face's order. */
  function FaceSigns(f: nat): (s: seq<Vec3>)
    requires f < 6
    ensures |s| == 4
  {
    var ix := FaceIndices[f];
    [CornerSigns[ix[0]], CornerSigns[ix[1]], CornerSigns[ix[2]], CornerSigns[ix[3]]]
  }

  /** Four sign patterns going round a square face of the cube with outward
      axis `dir`. */
  predicate SquareFace(s: seq<Vec3>, dir: Vec3)
    requires |s| == 4
  {
    && SignDifferences(s[0], s[1]) == 1 && SignDifferences(s[1], s[2]) == 1
    && SignDifferences(s[2], s[3]) == 1 && SignDifferences(s[3], s[0]) == 1
    && (forall k :: 0 <= k < 4 ==> Dot(s[k], dir) == 1.0)
  }

  /** The number of axes on which two sign patterns differ. */
  function SignDifferences(s: Vec3, t: Vec3): nat {
    (if s.x != t.x then 1 else 0) + (if s.y != t.y then 1 else 0) + (if s.z != t.z then 1 else 0)
  }

  /** The six outward axes are distinct unit axis vectors. */
  lemma FaceDirectionsDistinct()
    ensures forall f :: 0 <= f < 6 ==> NormSq(FaceDirections[f]) == 1.0
    ensures forall f, g :: 0 <= f < g < 6 ==> FaceDirections[f] != FaceDirections[g]
  {}

  /** The corners' current coordinates, in the face's order. */
  function FaceQuad(ps: seq<PointState>, f: nat): Quad
    requires |ps| == 9 && f < 6
  {
    FacesWellFormed();
    var ix := FaceIndices[f];
    [ps[ix[0]].cur, ps[ix[1]].cur, ps[ix[2]].cur, ps[ix[3]].cur]
  }

  /** The corners of a cube centred at v that are still where the
      constructor put them. */
  ghost predicate Unrotated(ps: seq<PointState>, v: Vec3) {
    |ps| == 9 && forall i :: 1 <= i < 9 ==> ps[i].cur == Corner(v, i)
  }

  lemma ArenaUnrotated(v: Vec3)
    ensures Unrotated(Arena(NewPoint(v)), v)
  {}

  /** In an unrotated cube, the midpoint of each face's diagonal is the
      centre moved by Half along the face's outward axis. */
  lemma UnrotatedFaceCentre(ps: seq<PointState>, v: Vec3, f: nat)
    requires Unrotated(ps, v) && f < 6
    ensures FaceCentre(FaceQuad(ps, f)) == Add(v, Scale(FaceDirections[f], Half))
  {
    var ix := FaceIndices[f];
    FacesWellFormed();
    DiagonalSigns(f);
    var q := FaceQuad(ps, f);
    assert q[1] == Corner(v, ix[1]) && q[3] == Corner(v, ix[3]);
    CornerMidpoint(v, CornerSigns[ix[1]], CornerSigns[ix[3]], FaceDirections[f]);
  }

  /** The sign patterns at the ends of each face's diagonal add up to twice
      the face's outward axis. */
  lemma DiagonalSigns(f: nat)
    requires f < 6
    ensures Add(CornerSigns[FaceIndices[f][1]], CornerSigns[FaceIndices[f][3]]) == Scale(FaceDirections[f], 2.0)
  {}

  lemma CornerMidpoint(v: Vec3, s: Vec3, t: Vec3, dir: Vec3)
    requires Add(s, t) == Scale(dir, 2.0)
    ensures Div(Add(Add(Scale(s, Half), v), Add(Scale(t, Half), v)), 2.0) == Add(v, Scale(dir, Half))
  {}

  /** When face f of an unrotated cube centred at v faces the viewer: its
      outward axis points to the viewer's side of the face's plane. */
  predicate FacesViewer(cam: Camera, v: Vec3, f: nat)
    requires f < 6
  {
    if f == 0 then v.y < -Half
    else if f == 1 then v.z + Half < ViewerZ(cam)
    else if f == 2 then v.x < -Half
    else if f == 3 then v.x > Half
    else if f == 4 then v.y > Half
    else v.z - Half > ViewerZ(cam)
  }

  /** For an unrotated cube, `Face.draw` paints face f exactly when the face's
      plane has the viewer on its outer side. */
  lemma UnrotatedVisibility(m: Math, cam: Camera, v: Vec3, f: nat)
    requires Lawful(m) && f < 6
    ensures Viewability(m, cam, FaceQuad(Arena(NewPoint(v)), f), v) > 0.0 <==> FacesViewer(cam, v, f)
  {
    ArenaUnrotated(v);
    UnrotatedNormal(Arena(NewPoint(v)), v, f);
    var dir := FaceDirections[f];
    var q := FaceQuad(Arena(NewPoint(v)), f);
    assert ToViewer(cam, q) == Sub(Viewer(cam), Add(v, Scale(dir, Half)));
    OutwardDot(cam, v, f);
  }

  lemma UnrotatedNormal(ps: seq<PointState>, v: Vec3, f: nat)
    requires Unrotated(ps, v) && f < 6
    ensures FaceCentre(FaceQuad(ps, f)) == Add(v, Scale(FaceDirections[f], Half))
    ensures RawNormal(FaceQuad(ps, f), v) == Scale(FaceDirections[f], Half)
  {
    UnrotatedFaceCentre(ps, v, f);
    AddSubCancel(Scale(FaceDirections[f], Half), v);
  }

  /** The dot product that decides visibility, for a face at offset Half
      along its axis. */
  lemma OutwardDot(cam: Camera, v: Vec3, f: nat)
    requires f < 6
    ensures var dir := FaceDirections[f];
      Dot(Scale(dir, Half), Sub(Viewer(cam), Add(v, Scale(dir, Half)))) > 0.0 <==> FacesViewer(cam, v, f)
  {}

  /** The application's camera sees an unrotated cube at the origin from the
      front: only face 1, the +z face, is painted. */
  lemma OriginShowsOnlyFrontFace(m: Math, f: nat)
    requires Lawful(m) && f < 6
    ensures Viewability(m, AppCamera, FaceQuad(Arena(NewPoint(Zero)), f), Zero) > 0.0 <==> f == 1
  {
    UnrotatedVisibility(m, AppCamera, Zero, f);
    OriginFacesViewer(f);
  }

  lemma OriginFacesViewer(f: nat)
    requires f < 6
    ensures FacesViewer(AppCamera, Zero, f) <==> f == 1
  {}

  /** Every corner can be projected. */
  predicate CornersInFront(cam: Camera, ps: seq<PointState>) {
    |ps| == 9 && forall i :: 1 <= i < 9 ==> ps[i].cur.z != ViewerZ(cam)
  }

  lemma FaceQuadInFront(cam: Camera, ps: seq<PointState>, f: nat)
    requires CornersInFront(cam, ps) && f < 6
    ensures InFront(cam, FaceQuad(ps, f))
  {
    FacesWellFormed();
  }

  /** The paints for one face in `Cube.draw`: the face itself when visible,
      then its shadow when the stored normal has negative y (the face looks
      away from the ground plane y = GroundDistance). */
  function FacePaints(m: Math, cam: Camera, c: Cube, f: nat): (ps: seq<Paint>)
    requires Lawful(m) && f < 6
    requires CornersInFront(cam, c.points)
    ensures var q := FaceQuad(c.points, f);
      && |ps| in {0, 1, 4, 5}
      && ((|ps| == 1 || |ps| == 5) <==> Dot(RawNormal(q, c.points[0].cur), ToViewer(cam, q)) > 0.0)
      && (|ps| >= 4 <==> RawNormal(q, c.points[0].cur).y < 0.0)
    ensures forall k :: 0 <= k < |ps| && ps[k].Fill? ==>
      k == 0 && ps[k].hue == c.hue && 0.0 < ps[k].brightness <= 1.0
    ensures var q := FaceQuad(c.points, f);
      (|ps| == 1 || |ps| == 5) ==>
        && ps[0].Fill?
        && ps[0].polygon == FacePolygon(cam, q)
        && ps[0].brightness == Viewability(m, cam, q, c.points[0].cur)
    ensures var q := FaceQuad(c.points, f);
      |ps| >= 4 ==> ps[|ps| - 4..] == DrawShadow(cam, q, GroundDistance)
  {
    var q := FaceQuad(c.points, f);
    var centre := c.points[0].cur;
    FaceQuadInFront(cam, c.points, f);
    ShadowConditionRaw(m, q, centre);
    DrawFace(m, cam, q, centre, c.hue)
      + (if Normal(m, q, centre).y < 0.0 then DrawShadow(cam, q, GroundDistance) else [])
  }

  /** `Cube.draw`, faces f to 5 in order. */
  function DrawFrom(m: Math, cam: Camera, c: Cube, f: nat): (ps: seq<Paint>)
    requires Lawful(m) && f <= 6
    requires CornersInFront(cam, c.points)
    ensures |ps| <= 5 * (6 - f)
    ensures forall k :: 0 <= k < |ps| && ps[k].Fill? ==> ps[k].hue == c.hue && 0.0 < ps[k].brightness <= 1.0
    decreases 6 - f
  {
    if f == 6 then [] else FacePaints(m, cam, c, f) + DrawFrom(m, cam, c, f + 1)
  }

  /** `Cube.draw`: all six faces with their shadows. */
  function DrawCube(m: Math, cam: Camera, c: Cube): (ps: seq<Paint>)
    requires Lawful(m)
    requires CornersInFront(cam, c.points)
    ensures |ps| <= 30
    ensures forall k :: 0 <= k < |ps| && ps[k].Fill? ==> ps[k].hue == c.hue && 0.0 < ps[k].brightness <= 1.0
  {
    DrawFrom(m, cam, c, 0)
  }

  /** A horizontal drag of 10 pixels to the right turns the cube about the
      vertical axis (0, 1, 0) by 0.1 radians. */
  lemma DragExample(m: Math)
    requires Lawful(m)
    ensures DragAxis(m, Drag(Pixel(10, 0), Pixel(0, 0))) == Vec3(0.0, 1.0, 0.0)
    ensures DragAngle(m, Drag(Pixel(10, 0), Pixel(0, 0))) == 0.1
  {
    var d := Drag(Pixel(10, 0), Pixel(0, 0));
    assert d == Vec2(10.0, 0.0);
    DragAxisExample(m);
    DragAngleExample(m);
  }

  /** The drag straight back, 10 pixels to the left, turns about -y by the
      same 0.1 radians; with h = 0.05 this is the turn back of
      `UndoIsDropped`. */
  lemma DragBackExample(m: Math)
    requires Lawful(m)
    ensures DragAxis(m, Drag(Pixel(0, 0), Pixel(10, 0))) == AxisMinusY
    ensures DragAngle(m, Drag(Pixel(0, 0), Pixel(10, 0))) == 2.0 * 0.05
  {
    var d := Drag(Pixel(0, 0), Pixel(10, 0));
    assert d == Vec2(-10.0, 0.0);
    DragAxisBackExample(m);
    DragAngleBackExample(m);
  }

  lemma DragAxisBackExample(m: Math)
    requires Lawful(m)
    ensures DragAxis(m, Vec2(-10.0, 0.0)) == AxisMinusY
  {
    SqrtHundred(m);
    var raw := Vec3(-0.0, -10.0, 0.0);
    assert NormSq(raw) == 100.0;
    assert Div(raw, 10.0) == AxisMinusY;
  }

  lemma DragAngleBackExample(m: Math)
    requires Lawful(m)
    ensures DragAngle(m, Vec2(-10.0, 0.0)) == 0.1
  {
    SqrtHundred(m);
    assert -10.0 * -10.0 + 0.0 * 0.0 == 100.0;
  }

  lemma DragAxisExample(m: Math)
    requires Lawful(m)
    ensures DragAxis(m, Vec2(10.0, 0.0)) == Vec3(0.0, 1.0, 0.0)
  {
    SqrtHundred(m);
    var raw := Vec3(-0.0, 10.0, 0.0);
    assert NormSq(raw) == 100.0;
    assert Div(raw, 10.0) == Vec3(0.0, 1.0, 0.0);
  }

  lemma DragAngleExample(m: Math)
    requires Lawful(m)
    ensures DragAngle(m, Vec2(10.0, 0.0)) == 0.1
  {
    SqrtHundred(m);
    assert 10.0 * 10.0 + 0.0 * 0.0 == 100.0;
  }

  lemma SqrtHundred(m: Math)
    requires Lawful(m)
    ensures m.sqrt(100.0) == 10.0
  {
    SqrtOfSquare(m, 10.0);
    assert 10.0 * 10.0 == 100.0;
  }

}
