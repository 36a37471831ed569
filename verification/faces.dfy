/** `Face` (app.py lines 119-146): the viewability test that decides whether a
    face is painted and how bright, and the projected polygons of a face and
    of its shadow on the ground plane. */
module Faces {

  import opened RealArith
  import opened MathLib
  import opened Vectors
  import opened Points
  import opened Canvas

  /** One call to the canvas's painters: `drawFace` with the projected polygon,
      the brightness and the hue, or `drawShadow` with a polygon. */
  datatype Paint = Fill(polygon: seq<Vec2>, brightness: real, hue: int) | Shadow(polygon: seq<Vec2>)

  /** The current coordinates of a face's four corners, in face order. */
  type Quad = s: seq<Vec3> | |s| == 4 witness [Zero, Zero, Zero, Zero]

  /** `(points[1] + points[3]) / 2`: the midpoint of the diagonal through the
      second and fourth corners. */
  function FaceCentre(q: Quad): (c: Vec3)
    ensures Add(c, c) == Add(q[1], q[3])
  {
    PointDiv(PointAdd(NewPoint(q[1]), NewPoint(q[3])), 2.0).cur
  }

  /** `Point(0, 0, canv.vts + canv.stc)`: where the viewer stands. */
  function Viewer(cam: Camera): Vec3 {
    Vec3(0.0, 0.0, ViewerZ(cam))
  }

  /** The outward direction of the face before normalization: from the cube
      centre to the face centre. */
  function RawNormal(q: Quad, centre: Vec3): Vec3 {
    PointSub(NewPoint(FaceCentre(q)), NewPoint(centre))
  }

  /** The direction from the face centre to the viewer, before normalization. */
  function ToViewer(cam: Camera, q: Quad): Vec3 {
    PointSub(NewPoint(Viewer(cam)), NewPoint(FaceCentre(q)))
  }

  /** `face_normal_vector` after `viewability` normalized it. */
  function Normal(m: Math, q: Quad, centre: Vec3): Vec3
    requires Lawful(m)
  {
    Normalize(m, RawNormal(q, centre))
  }

  /** The raw normal runs from the cube centre to the face centre, and the
      direction to the viewer from the face centre to the viewer. */
  lemma FaceVectorsMeet(cam: Camera, q: Quad, centre: Vec3)
    ensures Add(centre, RawNormal(q, centre)) == FaceCentre(q)
    ensures Add(FaceCentre(q), ToViewer(cam, q)) == Viewer(cam)
  {}

  /** The stored normal has length one and points the way of the raw one,
      unless the face centre coincides with the cube centre. */
  lemma NormalOfFace(m: Math, q: Quad, centre: Vec3)
    requires Lawful(m)
    ensures RawNormal(q, centre) == Zero ==> Normal(m, q, centre) == Zero
    ensures RawNormal(q, centre) != Zero ==>
      NormSq(Normal(m, q, centre)) == 1.0 && Dot(Normal(m, q, centre), RawNormal(q, centre)) > 0.0
  {}

  /** `Face.viewability`: the cosine of the angle between the face normal and
      the direction to the viewer, so times both vectors' lengths it is their
      dot product, and it is zero when either is zero.  It lies in [-1, 1] and has the sign of the
      un-normalized dot product, so the face is visible exactly when its
      normal points toward the viewer's side. */
  function Viewability(m: Math, cam: Camera, q: Quad, centre: Vec3): (v: real)
    requires Lawful(m)
    ensures -1.0 <= v <= 1.0
    ensures v > 0.0 <==> Dot(RawNormal(q, centre), ToViewer(cam, q)) > 0.0
    ensures v < 0.0 <==> Dot(RawNormal(q, centre), ToViewer(cam, q)) < 0.0
    ensures var n, t := RawNormal(q, centre), ToViewer(cam, q);
      n != Zero && t != Zero ==> v * (m.sqrt(NormSq(n)) * m.sqrt(NormSq(t))) == Dot(n, t)
    ensures RawNormal(q, centre) == Zero || ToViewer(cam, q) == Zero ==> v == 0.0
  {
    var n, t := RawNormal(q, centre), ToViewer(cam, q);
    NormalizedDotSign(m, n, t);
    NormalizedDotCosine(m, n, t);
    UnitDotBound(Normalize(m, n), Normalize(m, t));
    Dot(Normalize(m, n), Normalize(m, t))
  }

  /** The corners can be projected: none is level with the viewer. */
  predicate InFront(cam: Camera, q: Quad) {
    forall i :: 0 <= i < 4 ==> q[i].z != ViewerZ(cam)
  }

  /** The polygon `Face.draw` hands to the painter: each corner projected. */
  function FacePolygon(cam: Camera, q: Quad): (ps: seq<Vec2>)
    requires InFront(cam, q)
    ensures |ps| == 4
    ensures forall i :: 0 <= i < 4 ==> ps[i] == Project(cam, q[i])
  {
    [Project(cam, q[0]), Project(cam, q[1]), Project(cam, q[2]), Project(cam, q[3])]
  }

  /** `Face.draw`: one `drawFace` call when the viewability is positive, with
      the viewability as brightness; nothing otherwise. */
  function DrawFace(m: Math, cam: Camera, q: Quad, centre: Vec3, hue: int): (ps: seq<Paint>)
    requires Lawful(m)
    requires InFront(cam, q)
    ensures |ps| <= 1
    ensures |ps| == 1 <==> Dot(RawNormal(q, centre), ToViewer(cam, q)) > 0.0
    ensures |ps| == 1 ==>
      && ps[0].Fill?
      && ps[0].polygon == FacePolygon(cam, q)
      && ps[0].hue == hue
      && ps[0].brightness == Viewability(m, cam, q, centre)
      && 0.0 < ps[0].brightness <= 1.0
      && 55.0 < Shade(ps[0].brightness) <= 255.0
  {
    var v := Viewability(m, cam, q, centre);
    if v > 0.0 then [Fill(FacePolygon(cam, q), v, hue)] else []
  }

  /** A corner moved to the ground plane y = gnd, keeping its x and z:
      `Point(point.x, gnd, point.z)`. */
  function Flatten(v: Vec3, gnd: real): (w: Vec3)
    ensures w.x == v.x && w.z == v.z && w.y == gnd
  {
    Vec3(v.x, gnd, v.z)
  }

  /** The projected shadow corners after the first k corners were visited. */
  function ShadowPrefix(cam: Camera, q: Quad, gnd: real, k: nat): (ps: seq<Vec2>)
    requires InFront(cam, q) && k <= 4
    ensures |ps| == k
    ensures forall i :: 0 <= i < k ==> ps[i] == Project(cam, Flatten(q[i], gnd))
  {
    if k == 0 then [] else ShadowPrefix(cam, q, gnd, k - 1) + [Project(cam, Flatten(q[k - 1], gnd))]
  }

  /** `Face.drawShadow`: the painter is called inside the loop, so it receives
      the growing list of projected shadow corners four times, with 1, 2, 3
      and 4 corners; the last call paints the whole shadow quadrilateral. */
  function DrawShadow(cam: Camera, q: Quad, gnd: real): (ps: seq<Paint>)
    requires InFront(cam, q)
    ensures |ps| == 4
    ensures forall k :: 0 <= k < 4 ==> ps[k].Shadow? && |ps[k].polygon| == k + 1
    ensures forall k :: 0 <= k < 4 ==> ps[k].polygon == ps[3].polygon[..k + 1]
    ensures forall i :: 0 <= i < 4 ==> ps[3].polygon[i] == Project(cam, Flatten(q[i], gnd))
  {
    var full := ShadowPrefix(cam, q, gnd, 4);
    [Shadow(full[..1]), Shadow(full[..2]), Shadow(full[..3]), Shadow(full)]
  }

  /** A shadow corner is drawn straight above or below its corner: the same
      screen x. */
  lemma ShadowBelowCorner(cam: Camera, q: Quad, gnd: real, i: nat)
    requires InFront(cam, q) && i < 4
    ensures DrawShadow(cam, q, gnd)[3].polygon[i].x == FacePolygon(cam, q)[i].x
  {
    var full := ShadowPrefix(cam, q, gnd, 4);
    assert DrawShadow(cam, q, gnd)[3].polygon == full;
    FlattenSameX(cam, q[i], gnd);
  }

  lemma FlattenSameX(cam: Camera, v: Vec3, gnd: real)
    requires v.z != ViewerZ(cam)
    ensures Project(cam, Flatten(v, gnd)).x == Project(cam, v).x
  {}

  /** `Cube.draw` asks for a shadow when the stored normal has negative y,
      that is, when the face looks away from the ground plane (y = 350 in
      `Cube.draw`, below the cube on the screen); normalizing does not change that sign. */
  lemma ShadowConditionRaw(m: Math, q: Quad, centre: Vec3)
    requires Lawful(m)
    ensures Normal(m, q, centre).y < 0.0 <==> RawNormal(q, centre).y < 0.0
  {
    var n := RawNormal(q, centre);
    if n != Zero {
      var p := InverseLength(m, n);
      ProductSign(p, n.y);
    }
  }

}
