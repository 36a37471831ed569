/** `MainWindow` (app.py lines 283-310): the eight cubes around the origin,
    and one frame of `update`: every cube is updated with the same pointer
    position, then the cubes are drawn far to near. */
module Scene {

  import opened RealArith
  import opened MathLib
  import opened Optional
  import opened Vectors
  import opened Quaternions
  import opened Points
  import opened Canvas
  import opened Faces
  import opened Cubes
  import opened DepthSort

  const Interspace: real := 20.0
  /** `EDGE_LENGTH / 4 + INTERSPACE / 2`: the offset of each cube's centre
      from the origin on every axis. */
  const Disp: real := EdgeLength / 4.0 + Interspace / 2.0

  /** `colors`, the hues of `QColor.fromHsv`. */
  const Colors: seq<int> := [0, 45, 90, 135, 180, 225, 270, 315]

  /** The cube centres' sign patterns and the colour each cube takes, in the
      order the window lists them. */
  const CubeSigns: seq<Vec3> := [
    Vec3( 1.0,  1.0,  1.0), Vec3( 1.0,  1.0, -1.0), Vec3( 1.0, -1.0, -1.0), Vec3( 1.0, -1.0,  1.0),
    Vec3(-1.0, -1.0,  1.0), Vec3(-1.0,  1.0,  1.0), Vec3(-1.0,  1.0, -1.0), Vec3(-1.0, -1.0, -1.0)
  ]
  const CubeColors: seq<nat> := [3, 0, 6, 1, 4, 7, 2, 5]

  /** `MainWindow.__init__`: eight cubes, each built around a new centre
      point while the pointer is at `pos`. */
  function InitialCubes(m: Math, pos: Option<Pixel>): (cs: seq<Cube>)
    requires Lawful(m)
    ensures |cs| == 8
    ensures forall k :: 0 <= k < 8 ==>
      && cs[k].points == Arena(NewPoint(Scale(CubeSigns[k], Disp)))
      && cs[k].hue == Colors[CubeColors[k]]
      && cs[k].last == pos
  {
    seq(8, k requires 0 <= k < 8 =>
      NewCube(m, NewPoint(Scale(CubeSigns[k], Disp)), Colors[CubeColors[k]], pos))
  }

  /** The cubes after each was updated with the same pointer position, and
      the depth each reported. */
  function UpdateCubes(m: Math, cs: seq<Cube>, pos: Option<Pixel>): (r: (seq<Cube>, seq<real>))
    requires Lawful(m)
    requires forall k :: 0 <= k < |cs| ==> |cs[k].points| == 9
    ensures |r.0| == |cs| && |r.1| == |cs|
    ensures forall k :: 0 <= k < |cs| ==> r.0[k] == Update(m, cs[k], pos).0 && r.1[k] == r.0[k].points[0].cur.z
  {
    (seq(|cs|, k requires 0 <= k < |cs| => Update(m, cs[k], pos).0),
     seq(|cs|, k requires 0 <= k < |cs| => Update(m, cs[k], pos).1))
  }

  /** Every cube can be drawn. */
  predicate AllInFront(cam: Camera, cs: seq<Cube>) {
    forall k :: 0 <= k < |cs| ==> CornersInFront(cam, cs[k].points)
  }

  /** The paints of the cubes listed by `order`, in that order: the first
      listed cube is painted first and the last listed cube last, so its
      faces end up on top. */
  function DrawInOrder(m: Math, cam: Camera, cs: seq<Cube>, order: seq<nat>): (ps: seq<Paint>)
    requires Lawful(m) && AllInFront(cam, cs)
    requires forall k :: 0 <= k < |order| ==> order[k] < |cs|
    ensures |ps| <= 30 * |order|
    ensures |order| == 0 ==> ps == []
    ensures |order| > 0 ==> DrawCube(m, cam, cs[order[0]]) <= ps
    decreases |order|
  {
    if |order| == 0 then []
    else DrawCube(m, cam, cs[order[0]]) + DrawInOrder(m, cam, cs, order[1..])
  }

  /** Drawing the cubes of o1 and then those of o2 paints exactly what drawing
      o1 + o2 does. */
  lemma {:induction false} DrawInOrderAppend(m: Math, cam: Camera, cs: seq<Cube>, o1: seq<nat>, o2: seq<nat>)
    requires Lawful(m) && AllInFront(cam, cs)
    requires forall k :: 0 <= k < |o1| ==> o1[k] < |cs|
    requires forall k :: 0 <= k < |o2| ==> o2[k] < |cs|
    ensures DrawInOrder(m, cam, cs, o1 + o2) == DrawInOrder(m, cam, cs, o1) + DrawInOrder(m, cam, cs, o2)
    decreases |o1|
  {
    if |o1| == 0 {
      assert o1 + o2 == o2;
    } else {
      assert (o1 + o2)[1..] == o1[1..] + o2;
      DrawInOrderAppend(m, cam, cs, o1[1..], o2);
    }
  }

  /** The last cube of the order is painted last: its paints close the list,
      after everything the cubes before it painted. */
  lemma DrawInOrderLast(m: Math, cam: Camera, cs: seq<Cube>, front: seq<nat>, i: nat)
    requires Lawful(m) && AllInFront(cam, cs)
    requires forall k :: 0 <= k < |front| ==> front[k] < |cs|
    requires i < |cs|
    ensures DrawInOrder(m, cam, cs, front + [i]) == DrawInOrder(m, cam, cs, front) + DrawCube(m, cam, cs[i])
  {
    DrawInOrderAppend(m, cam, cs, front, [i]);
    DrawInOrderSingle(m, cam, cs, i);
  }

  /** A one-cube order paints exactly that cube. */
  lemma DrawInOrderSingle(m: Math, cam: Camera, cs: seq<Cube>, i: nat)
    requires Lawful(m) && AllInFront(cam, cs) && i < |cs|
    ensures DrawInOrder(m, cam, cs, [i]) == DrawCube(m, cam, cs[i])
  {
    assert [i][1..] == [];
  }

  /** One frame of `MainWindow.update`: update all cubes, then draw them in the
      stable ascending order of the depths they reported. */
  function Frame(m: Math, cam: Camera, cs: seq<Cube>, pos: Option<Pixel>): (r: (seq<Cube>, seq<nat>, seq<Paint>))
    requires Lawful(m)
    requires forall k :: 0 <= k < |cs| ==> |cs[k].points| == 9
    requires AllInFront(cam, UpdateCubes(m, cs, pos).0)
    ensures r.0 == UpdateCubes(m, cs, pos).0
    ensures |r.1| == |cs| && multiset(r.1) == multiset(Range(|cs|))
    ensures Indices(UpdateCubes(m, cs, pos).1, r.1) && Sorted(UpdateCubes(m, cs, pos).1, r.1)
    ensures r.2 == DrawInOrder(m, cam, r.0, r.1)
  {
    var (cs', zs) := UpdateCubes(m, cs, pos);
    var order := DrawOrder(zs);
    (cs', order, DrawInOrder(m, cam, cs', order))
  }

  /** The whole assembly turns as one body: every cube keeps `Inv`, all cubes
      share one cumulative quaternion, and all remember the same pointer
      position. */
  ghost predicate SceneInv(cs: seq<Cube>) {
    && |cs| > 0
    && (forall k :: 0 <= k < |cs| ==> Inv(cs[k]))
    && (forall k :: 0 <= k < |cs| ==> cs[k].points[0].rot == cs[0].points[0].rot)
    && (forall k :: 0 <= k < |cs| ==> cs[k].last == cs[0].last)
  }

  /** The window's eight fresh cubes satisfy `SceneInv`. */
  lemma InitialSceneInv(m: Math, pos: Option<Pixel>)
    requires Lawful(m)
    ensures SceneInv(InitialCubes(m, pos))
  {
    var cs := InitialCubes(m, pos);
    forall k | 0 <= k < 8
      ensures Inv(cs[k]) && cs[k].points[0].rot == Identity
    {
      NewCubeInv(m, Scale(CubeSigns[k], Disp), Colors[CubeColors[k]], pos);
    }
  }

  /** A frame keeps `SceneInv`, and afterwards every cube remembers the
      position of this frame. */
  lemma FramePreservesSceneInv(m: Math, cs: seq<Cube>, pos: Option<Pixel>)
    requires Lawful(m)
    requires SceneInv(cs)
    ensures SceneInv(UpdateCubes(m, cs, pos).0)
    ensures forall k :: 0 <= k < |cs| ==> UpdateCubes(m, cs, pos).0[k].last == pos
  {
    var cs' := UpdateCubes(m, cs, pos).0;
    forall k | 0 <= k < |cs|
      ensures Inv(cs'[k]) && cs'[k].points[0].rot == cs'[0].points[0].rot
    {
      UpdatePreservesInv(m, cs[k], pos);
      UpdateSameRot(m, cs[k], cs[0], pos);
    }
  }

  /** Two cubes with the same quaternion and the same last position still
      share their quaternion after an update. */
  lemma UpdateSameRot(m: Math, c: Cube, d: Cube, pos: Option<Pixel>)
    requires Lawful(m)
    requires |c.points| == 9 && |d.points| == 9
    requires c.points[0].rot == d.points[0].rot && c.last == d.last
    ensures Update(m, c, pos).0.points[0].rot == Update(m, d, pos).0.points[0].rot
  {
    if pos.Some? && c.last.Some? {
      var dr := Drag(pos.value, c.last.value);
      TransformRotOnlyFromRot(m, c.points[0], d.points[0], DragAxis(m, dr), DragAngle(m, dr));
    }
  }


  /** How far any point of the assembly can be from the origin, squared:
      every reference coordinate is within `Disp + Half` = 135 of 0. */
  const Reach: real := 3.0 * (Disp + Half) * (Disp + Half)

  /** Every reference position lies within `Reach` of the origin. */
  ghost predicate RefsWithinReach(cs: seq<Cube>) {
    forall k :: 0 <= k < |cs| ==>
      forall i :: 0 <= i < |cs[k].points| ==> NormSq(cs[k].points[i].ref) <= Reach
  }

  /** All coordinates of v lie within b of 0. */
  predicate InBox(v: Vec3, b: real) {
    -b <= v.x <= b && -b <= v.y <= b && -b <= v.z <= b
  }

  lemma BoxNormSq(v: Vec3, b: real)
    requires InBox(v, b)
    ensures NormSq(v) <= 3.0 * b * b
  {
    SquareInBox(v.x, b);
    SquareInBox(v.y, b);
    SquareInBox(v.z, b);
  }

  lemma SquareInBox(x: real, b: real)
    requires -b <= x <= b
    ensures x * x <= b * b
  {
    MulNonNeg(b - x, b + x);
  }

  lemma SignsInUnitBox()
    ensures forall i :: 0 <= i < 9 ==> InBox(CornerSigns[i], 1.0)
    ensures forall k :: 0 <= k < 8 ==> InBox(CubeSigns[k], 1.0)
  {}

  lemma ScaleInBox(s: Vec3, k: real)
    requires InBox(s, 1.0) && k >= 0.0
    ensures InBox(Scale(s, k), k)
  {
    assert -k <= s.x * k <= k by { MulNonNeg(1.0 - s.x, k); MulNonNeg(1.0 + s.x, k); }
    assert -k <= s.y * k <= k by { MulNonNeg(1.0 - s.y, k); MulNonNeg(1.0 + s.y, k); }
    assert -k <= s.z * k <= k by { MulNonNeg(1.0 - s.z, k); MulNonNeg(1.0 + s.z, k); }
  }

  /** The arena around a centre within `Disp` of the origin on every axis has
      all its reference positions within `Reach`. */
  lemma ArenaWithinReach(v: Vec3)
    requires InBox(v, Disp)
    ensures forall i :: 0 <= i < 9 ==> NormSq(Arena(NewPoint(v))[i].ref) <= Reach
  {
    SignsInUnitBox();
    forall i | 0 <= i < 9
      ensures NormSq(Arena(NewPoint(v))[i].ref) <= Reach
    {
      ScaleInBox(CornerSigns[i], Half);
      assert InBox(Arena(NewPoint(v))[i].ref, Disp + Half);
      BoxNormSq(Arena(NewPoint(v))[i].ref, Disp + Half);
    }
  }

  /** The window's eight fresh cubes have their reference positions within
      `Reach`. */
  lemma InitialWithinReach(m: Math, pos: Option<Pixel>)
    requires Lawful(m)
    ensures RefsWithinReach(InitialCubes(m, pos))
  {
    var cs := InitialCubes(m, pos);
    SignsInUnitBox();
    forall k | 0 <= k < 8
      ensures forall i :: 0 <= i < |cs[k].points| ==> NormSq(cs[k].points[i].ref) <= Reach
    {
      ScaleInBox(CubeSigns[k], Disp);
      ArenaWithinReach(Scale(CubeSigns[k], Disp));
    }
  }

  /** A frame never moves the reference positions. */
  lemma FrameKeepsReach(m: Math, cs: seq<Cube>, pos: Option<Pixel>)
    requires Lawful(m)
    requires SceneInv(cs) && RefsWithinReach(cs)
    ensures RefsWithinReach(UpdateCubes(m, cs, pos).0)
  {
    var cs' := UpdateCubes(m, cs, pos).0;
    forall k | 0 <= k < |cs|
      ensures forall i :: 0 <= i < |cs'[k].points| ==> NormSq(cs'[k].points[i].ref) <= Reach
    {
      UpdatePreservesInv(m, cs[k], pos);
    }
  }

  /** A point within `Reach` of the origin is never level with the
      application's viewer at z = 1000. */
  lemma ReachBelowViewer(v: Vec3)
    requires NormSq(v) <= Reach
    ensures v.z != ViewerZ(AppCamera)
  {
    SquareNonNeg(v.x);
    SquareNonNeg(v.y);
  }

  /** A cube satisfying `Inv` with its reference positions within `Reach`
      can be drawn by the application's camera: rotation keeps each point's
      distance from the origin. */
  lemma InvWithinReachInFront(c: Cube)
    requires Inv(c)
    requires forall i :: 0 <= i < 9 ==> NormSq(c.points[i].ref) <= Reach
    ensures CornersInFront(AppCamera, c.points)
  {
    forall i | 1 <= i < 9
      ensures c.points[i].cur.z != ViewerZ(AppCamera)
    {
      RotatePreservesLength(c.points[i].ref, c.points[i].rot);
      ReachBelowViewer(c.points[i].cur);
    }
  }

  /** From a scene satisfying `SceneInv` within `Reach`, the next frame can
      be drawn by the application's camera: `Frame`'s requirement holds. */
  lemma NextFrameDrawable(m: Math, cs: seq<Cube>, pos: Option<Pixel>)
    requires Lawful(m)
    requires SceneInv(cs) && RefsWithinReach(cs)
    ensures AllInFront(AppCamera, UpdateCubes(m, cs, pos).0)
  {
    var cs' := UpdateCubes(m, cs, pos).0;
    FramePreservesSceneInv(m, cs, pos);
    FrameKeepsReach(m, cs, pos);
    forall k | 0 <= k < |cs'|
      ensures CornersInFront(AppCamera, cs'[k].points)
    {
      InvWithinReachInFront(cs'[k]);
    }
  }

  /** The cubes after one frame per pointer sample. */
  function Run(m: Math, cs: seq<Cube>, samples: seq<Option<Pixel>>): (r: seq<Cube>)
    requires Lawful(m)
    requires forall k :: 0 <= k < |cs| ==> |cs[k].points| == 9
    ensures |r| == |cs|
    ensures forall k :: 0 <= k < |r| ==> |r[k].points| == 9
    decreases |samples|
  {
    if |samples| == 0 then cs
    else Run(m, UpdateCubes(m, cs, samples[0]).0, samples[1..])
  }

  /** Whatever the pointer did since the window opened, the scene keeps
      `SceneInv` within `Reach`, so every frame the application shows can be
      drawn: no corner ever reaches the viewer's depth. */
  lemma {:induction false} AppFramesDrawable(m: Math, cs: seq<Cube>, samples: seq<Option<Pixel>>, pos: Option<Pixel>)
    requires Lawful(m)
    requires SceneInv(cs) && RefsWithinReach(cs)
    ensures SceneInv(Run(m, cs, samples)) && RefsWithinReach(Run(m, cs, samples))
    ensures AllInFront(AppCamera, UpdateCubes(m, Run(m, cs, samples), pos).0)
    decreases |samples|
  {
    if |samples| > 0 {
      FramePreservesSceneInv(m, cs, samples[0]);
      FrameKeepsReach(m, cs, samples[0]);
      AppFramesDrawable(m, UpdateCubes(m, cs, samples[0]).0, samples[1..], pos);
    } else {
      NextFrameDrawable(m, cs, pos);
    }
  }

  /** The window as the application opens it: every frame it ever draws is
      defined. */
  lemma WindowFramesDrawable(m: Math, pos0: Option<Pixel>, samples: seq<Option<Pixel>>, pos: Option<Pixel>)
    requires Lawful(m)
    ensures AllInFront(AppCamera, UpdateCubes(m, Run(m, InitialCubes(m, pos0), samples), pos).0)
  {
    InitialSceneInv(m, pos0);
    InitialWithinReach(m, pos0);
    AppFramesDrawable(m, InitialCubes(m, pos0), samples, pos);
  }
}
