# interactive-cube, modelled in Dafny

The model covers the geometry of a small PyQt program called interactive-cube. It draws eight coloured cubes, packed into one larger block. The user drags the mouse to rotate the whole block. On every timer tick the program does three things in order:

1. Each cube turns its nine points (the centre and eight corners) by a rotation taken from the last mouse drag. The rotation is stored as a cumulative unit quaternion.
2. The cubes are sorted by the depth of their centres.
3. In that order, each cube paints its faces one after another. For each face it first paints the face, if the face points toward a fixed viewer, projected in perspective onto the canvas. It then paints the face's grey shadow on the ground plane y = 350, if the face's outward normal has a negative y component. Qt's y axis grows downward, so the ground lies below the cube on the screen, and these are the faces that look away from it.

Modelling choices:

- All arithmetic is on `real`.
- `sqrt`, `sin`, `cos` and `acos` are a `Math` parameter. `Lawful(m)` states the laws the proofs rely on:
  - `sqrt` of a non-negative number is its non-negative square root;
  - `sin² + cos² = 1`;
  - `cos 0 = 1`;
  - on (-1, 1), `cos (acos a) = a` and `sin (acos a)` is the positive root of `1 - a²`.
- Pointer positions are integer pixels. A painted frame is a list of `Paint` values (filled polygons and shadows) in the order the program issues its painter calls.

Modules, one file each:

| module | covers |
|---|---|
| `Vectors` | `Vector2D`, `Vector` |
| `Quaternions` | `Quaternion` |
| `Points` | `Point`, `Point2D`, the perspective camera |
| `Faces` | `Face` |
| `Cubes` | `Cube` and the constants that shape it |
| `DepthSort` | the `sorted` call in `MainWindow.update` |
| `Scene` | `MainWindow`'s cubes and its frame |
| `Canvas` | the canvas's centre, its shade mapping and the mouse handlers |
| `Ease` | `MainWindow.ease` |

The support modules are `RealArith`, `MathLib` and `Optional`.

`tools/components.py` is a copy of app.py lines 74-270; its lines are app.py's lines minus 71. `tools/visual.py` repeats app.py's `Canvas` and `MainWindow`. The rows below cite app.py; the same members model the copies.

Behaviour the proofs pin down:

- `Point.transform` returns early whenever the composed quaternion's scalar part is at least 1 in absolute value. For a unit quaternion, that happens exactly at the identity and at its negation (`Points.DegenerateUnit`). Both of these rotate no point (`Points.RotateMinusIdentity`). The early return still loses rotation when the composed quaternion is ±identity but the stored one is not: the point keeps its old rotation instead of returning to its reference. See "Findings".
- A zero-length drag hits the guard only when the stored quaternion is itself ±identity, as for a fresh point (`Points.ZeroAngleHitsGuard`). From any other unit quaternion it passes the guard, and the renormalization returns the same quaternion, so the point does not move (`Points.ZeroDragIsNoOp`).
- With the app's viewer at z = 1000, a cube centred at the origin shows only its +z face (`Cubes.OriginShowsOnlyFrontFace`). Visibility is the sign of the dot product of the face normal and the direction from the face centre to the viewer.
- `Face.drawShadow` calls the painter inside its loop. It therefore paints four growing polygons of 1, 2, 3 and 4 vertices, the projections of the face's corners moved to the ground. `Faces.DrawShadow` states exactly that.
- No corner of the assembly ever reaches the viewer's depth, whatever the pointer does. Every reference position is within 135 of the origin on each axis, and rotation keeps distances from the origin. So every frame the window draws is defined (`Scene.WindowFramesDrawable`).

## Model

| member | source | states |
|---|---|---|
| Vectors.Magnitude2 | app.py:86-87 | the drag length is non-negative, its square is x² + y², and it is zero exactly for the zero drag |
| Vectors.Normalize | app.py:107-111 | a zero vector is left unchanged; any other vector becomes a unit vector parallel to it and pointing the same way |
| Vectors.NormalizeIdempotent | app.py:107-111 | normalizing an already normalized vector changes nothing |
| Vectors.NormalizeUnit | app.py:107-111 | a vector of length one is its own normalization |
| Vectors.NormalizedDotSign | app.py:137-139 | the dot product of two normalized vectors has the same sign as that of the raw vectors, in both directions |
| Vectors.UnitDotBound | app.py:137-139 | two vectors each of length one or zero have a dot product in [-1, 1] |
| Vectors.NormalizedDotCosine | app.py:137-139 | the dot product of two normalized vectors is the cosine of their angle: multiplied by both lengths it gives the raw dot product, and it is zero when either vector is zero |
| Vectors.InverseLength | app.py:107-111 | normalizing a non-zero vector scales it by a positive factor |
| Vectors.DivIsScaleByInverse | app.py:104-105 | `Div`, the vector divided by k, is scaling by 1/k, and scaling back by k recovers the vector |
| Vectors.NormSqScale | app.py:101-102 | `Scale`, the vector times a number k, multiplies the squared length by k² |
| Vectors.DotSymmetric | app.py:99-100 | `Dot`, the vector-times-vector product, does not depend on the order of its arguments |
| Vectors.NormSqZero | app.py:108-109 | the squared length is non-negative and is zero only for the zero vector, which is when `normalize` returns early |
| Vectors.Cross2Antisymmetric | app.py:83-84 | the 2-D cross scalar changes sign when its arguments swap and is zero for a vector with itself |
| Quaternions.MulIdentity | app.py:206-213 | the reset quaternion (1, 0, 0, 0) is a two-sided unit of `Mul`, the Hamilton product |
| Quaternions.MulNormSq | app.py:206-213 | the norm of a `Mul` product is the product of the norms |
| Quaternions.UnitMul | app.py:206-213 | a product of unit quaternions is a unit quaternion |
| Quaternions.ConjInvolution | app.py:218-220 | `Conj` applied twice gives the original quaternion, and it keeps the norm |
| Quaternions.MulConj | app.py:206-220 | a quaternion times its conjugate is the real quaternion holding its squared norm |
| Quaternions.QNormSqSplit | app.py:222-223 | the squared norm is the scalar part squared plus the squared length of `VecPart`, the model of `toVector` |
| Quaternions.ToRotationQuaternion | app.py:113-117 | the scalar part is cos(half), the vector part is parallel to the axis, a unit axis gives a unit quaternion, and a zero axis at half angle 0 gives the identity |
| Quaternions.RotationQuaternionNorm | app.py:113-117 | the norm is cos² + sin² times the squared length of the axis |
| Quaternions.SandwichPure | app.py:192-193 | `Sandwich`, q·w·q*, of a pure quaternion w has zero scalar part |
| Quaternions.SandwichNormSq | app.py:193 | the sandwich multiplies the norm by the square of q's norm |
| Quaternions.RotatePreservesLength | app.py:192-194 | `Rotate` by a unit quaternion keeps the distance of a point from the origin |
| Quaternions.RotateIdentity | app.py:176-179 | the reset quaternion leaves every point where it is |
| Quaternions.RotateSub | app.py:192-194 | rotation is linear: it commutes with the difference of two points |
| Quaternions.ConjMul | app.py:206-220 | the conjugate of a product is the product of the conjugates in the opposite order |
| Quaternions.MulAssoc | app.py:206-213 | `Mul` is associative |
| Quaternions.SandwichCompose | app.py:192-193 | sandwiching by a product p q is sandwiching by q and then by p |
| Quaternions.RotateCompose | app.py:183-194 | rotating by the product p q is rotating by q and then by p |
| Quaternions.RotationFixesAxis | app.py:113-117 | the rotation quaternion for a unit axis leaves that axis where it is, so the turn is about the axis |
| Canvas.Center | app.py:35 | the canvas centre is the floor of half the width and of half the height |
| Canvas.Shade | app.py:46 | a brightness in (0, 1] gives an HSV value in (55, 255]; a brightness of 0 or less gives a value of at most 55 |
| Canvas.Handle | app.py:62-72 | a press records the position and sets pressed; a move records the position only while pressed; a release clears both |
| Canvas.RunPreservesValid | app.py:40-41 | over any sequence of mouse events, a position is held exactly while the button is down |
| Canvas.HandlePreservesValid | app.py:62-72 | each handler keeps the rule that a position is held exactly while the button is down |
| Canvas.InitialIsValid | app.py:40-41 | a fresh canvas is not pressed and holds no position |
| Points.Reset | app.py:176-179 | reset puts the point back at its reference position with the identity rotation, keeping the reference |
| Points.NewPoint | app.py:159-161 | a new point starts at its reference position with the identity rotation |
| Points.PointAdd | app.py:166-167 | the sum is a fresh point; subtracting the second point from it gives back the first |
| Points.PointDiv | app.py:173-174 | multiplying the quotient's coordinates by k recovers the original coordinates |
| Points.PointSub | app.py:169-171 | adding the difference vector to the second point gives the first |
| Points.Renormalize | app.py:187-191 | re-deriving the quaternion from acos and sin keeps the scalar part and keeps the vector part's direction; it gives a unit quaternion when the vector part is non-zero, and returns a unit input unchanged |
| Points.RenormalizeFacts | app.py:187-191 | the same facts for the axis computed by dividing `toVector` by sin(acos a) and normalizing |
| Points.Transform | app.py:181-194 | as written: at the guard nothing changes; otherwise the reference is kept, the position is the reference rotated by the new quaternion, and the new quaternion has the composed scalar part (it equals the composed quaternion when that is a unit quaternion). That this turns the old position by the increment is `Points.TransformTurnsFromCurrent` |
| Points.TransformTurnsFromCurrent | app.py:182-194 | unless the guard fires, a transform turns the point from where it was by the rotation by th about the axis, and that rotation leaves a unit axis fixed |
| Points.TransformPreservesRigid | app.py:181-194 | from a unit quaternion and a unit axis, a transform keeps a unit quaternion, keeps the position equal to the reference rotated by it, keeps the distance from the origin, and stores exactly the composed rotation |
| Points.ComposedUnit | app.py:183-184 | `Composed`, composing a unit rotation with the rotation for a unit axis (or the zero axis at angle 0) gives a unit quaternion |
| Points.ResetRigid | app.py:159-161 | a reset or new point is rigid: unit rotation and position equal to its rotated reference |
| Points.ZeroDragIsNoOp | app.py:181-194 | transforming a rigid point about the zero axis by angle 0 leaves it unchanged |
| Points.ZeroAngleHitsGuard | app.py:183-186 | a fresh point turned by angle 0 hits the guard and stays unchanged |
| Points.DegenerateUnit | app.py:185-186 | a unit quaternion hits the guard (`Degenerate`) exactly when it is the identity or its negation |
| Points.RotateMinusIdentity | app.py:185-186 | the negated identity, like the identity, moves no point |
| Points.UndoIsDropped | app.py:181-186 | as written: after a turn about y and the same turn back about -y, which compose to the identity, `transform` returns early and the point stays turned away from its reference |
| Points.TransformIntended | app.py:181-194 | the corrected transform: it keeps the reference, keeps a consistent point consistent with its quaternion (and makes it so at the guard), and agrees with `transform` whenever the guard does not fire |
| Points.IntendedStoresComposed | app.py:181-194 | the corrected transform stores exactly the composed rotation and keeps the point rigid, at the guard as well |
| Points.IntendedTurnsFromCurrent | app.py:182-194 | the corrected transform always turns the point from where it was by the rotation by th about the axis |
| Points.IntendedUndoes | app.py:181-194 | with the corrected transform, turning back by the same angle returns the point to its reference |
| Points.Ratio | app.py:198 | the perspective ratio times the point's distance from the viewer plane is the viewer-to-screen distance, and it is positive in front of the viewer |
| Points.Project | app.py:196-200 | the screen offset from the centre, times the distance from the viewer, is vts times the coordinate; points on the axis land on the centre |
| Points.RatioIncreasing | app.py:198 | points nearer the viewer are magnified more |
| Points.ProjectScreenPlane | app.py:196-200 | a point in the screen plane is drawn at its own x and y shifted by the centre |
| Points.ProjectAlongRay | app.py:196-200 | all points on one ray from the viewer project to the same pixel |
| Points.ProjectExample | app.py:17-23 | with the program's constants, (100, 0, 0) is drawn at (700, 325) |
| Faces.FaceCentre | app.py:133 | the face centre is the midpoint of the face's second and fourth points |
| Faces.FaceVectorsMeet | app.py:133-136 | `RawNormal` runs from the cube centre to the face centre, and `ToViewer` from the face centre to the viewer |
| Faces.NormalOfFace | app.py:137 | `Normal` has length one and points the way of the raw normal, or is zero when the face centre is the cube centre |
| Faces.Viewability | app.py:132-139 | the viewability is the cosine of the angle between the face normal and the direction to the viewer: times both vectors' lengths it is their dot product, and it is zero when either vector is zero. So it lies in [-1, 1], and its sign is the sign of the raw dot product, in both directions |
| Faces.FacePolygon | app.py:124-127 | the polygon is the four corners projected in order |
| Faces.DrawFace | app.py:123-130 | a face paints one fill exactly when it faces the viewer; the fill is the projected polygon with the cube's hue, and its brightness is the face's viewability, which is in (0, 1] and gives a shade in (55, 255] |
| Faces.Flatten | app.py:144 | a shadow point keeps x and z and sits at the ground height |
| Faces.ShadowPrefix | app.py:142-145 | the first k shadow vertices are the flattened corners projected in order |
| Faces.DrawShadow | app.py:141-146 | the shadow is painted four times, the k-th time as the first k + 1 vertices of the full shadow polygon, whose vertices are the face's corners moved to the ground and projected |
| Faces.ShadowBelowCorner | app.py:141-146 | each shadow vertex has the same screen x as the corner it comes from |
| Faces.FlattenSameX | app.py:144 | moving a point to the ground does not change its projected x |
| Faces.ShadowConditionRaw | app.py:266-270 | the normalized normal has negative y, facing away from the ground, exactly when the raw normal does |
| Cubes.Arena | app.py:229-240 | a cube's points are its centre followed by the eight fresh corners at ±e/2 from it |
| Cubes.ArenaCorners | app.py:229-240 | each corner starts unrotated, at its reference, offset from the centre by its sign pattern times e/2 |
| Cubes.CornerSignsCover | app.py:232-239 | the eight corners are distinct and are exactly the eight sign patterns |
| Cubes.FacesWellFormed | app.py:242-249 | there are six faces, each of four distinct corner indices |
| Cubes.FacesAreSquares | app.py:242-249 | each face's corners lie on one side of the cube and go round a square in order |
| Cubes.FaceDirectionsDistinct | app.py:242-249 | the six face directions are distinct unit vectors |
| Cubes.EveryCornerOnThreeFaces | app.py:242-249 | every corner belongs to exactly three faces |
| Cubes.DiagonalSigns | app.py:242-249 | the second and fourth corners of each face are diagonal, so their midpoint is the face centre |
| Cubes.UnrotatedFaceCentre | app.py:242-249 | for an unrotated cube, each face centre lies e/2 out from the cube centre along the face's direction |
| Cubes.UnrotatedVisibility | app.py:132-139 | an unrotated face is visible exactly when the viewer lies beyond its plane |
| Cubes.OriginShowsOnlyFrontFace | app.py:132-139 | a cube at the origin, seen from the app's viewer, shows only its +z face |
| Cubes.DragAxis | app.py:257-258 | the rotation axis lies in the screen plane, is perpendicular to the drag, is zero exactly when there is no drag, and otherwise has length one and is the drag turned a quarter counter-clockwise (the 2-D cross product of drag and axis is positive), which together fix it exactly |
| Cubes.DragAngle | app.py:259 | the rotation angle is non-negative and zero exactly when there is no drag |
| Cubes.DragAngleLength | app.py:259 | the angle divided by the sensitivity is the drag length |
| Cubes.DragAdmissible | app.py:257-259 | the axis and angle from any drag are admissible for a rigid transform |
| Cubes.DragAntisymmetric | app.py:153-156 | `Drag`, the pointer difference, reverses when the samples swap and is zero when the pointer did not move |
| Cubes.DragExample | app.py:257-259 | a 10-pixel drag to the right turns about the y axis by 0.1 radians |
| Cubes.DragBackExample | app.py:257-259 | the 10-pixel drag back to the left turns about the -y axis by the same 0.1 radians |
| Cubes.Update | app.py:254-264 | the points move only when both this sample and the last one exist, and then each is transformed by the drag's axis and angle; the sample is remembered and the centre's depth is returned |
| Cubes.NewCube | app.py:226-252 | a new cube has the standard points, the given hue and the current pointer sample |
| Cubes.NewCubeInv | app.py:226-252 | a new cube's nine points are rigid and share one rotation |
| Cubes.ArenaInv | app.py:229-240 | a cube built around a fresh centre satisfies the cube invariant |
| Cubes.UpdatePreservesInv | app.py:254-264 | an update keeps all nine points rigid under one shared rotation and keeps their references |
| Cubes.UpdateAll | app.py:254-264 | any number of updates keep nine points and the hue, remember the last sample, keep the cube invariant and never move the reference positions |
| Cubes.InvRigidDistances | app.py:254-264 | while the invariant holds, the distance between any two points of a cube never changes |
| Cubes.FaceQuadInFront | app.py:123-127 | if all corners are in front of the viewer, so is every face |
| Cubes.FacePaints | app.py:267-270 | per face: a fill exactly when it faces the viewer, and four shadow paints exactly when its normal has negative y; the fill comes first with the projected face polygon, the cube's hue and the face's viewability as brightness, and the last four paints are the face's shadow |
| Cubes.DrawFrom | app.py:266-270 | the remaining faces paint at most five times each, and every fill has the cube's hue and a brightness in (0, 1] |
| Cubes.DrawCube | app.py:266-270 | a cube paints at most 30 polygons, and every fill has the cube's hue and a brightness in (0, 1] |
| DepthSort.Range | app.py:304-307 | the cube indices 0 .. n-1 in order |
| DepthSort.Insert | app.py:309 | inserting a later index into a depth-sorted order keeps it sorted and adds exactly that index |
| DepthSort.SortPrefix | app.py:309 | the first n cubes in depth order: sorted, and a permutation of 0 .. n-1 |
| DepthSort.DrawOrder | app.py:309 | the draw order is a permutation of all cube indices, sorted by depth, with ties kept in list order (as Python's stable sort does) |
| DepthSort.SortedUnique | app.py:309 | there is only one such order, so the model's order is the one the program uses |
| DepthSort.BeforeAsymmetric | app.py:309 | no two cubes are each drawn before the other |
| Scene.InitialCubes | app.py:282-294 | eight cubes centred at (±disp, ±disp, ±disp) with the listed colours, all with the same pointer sample |
| Scene.UpdateCubes | app.py:304-307 | every cube is updated with the same sample, and the reported depth is its new centre's z |
| Scene.DrawInOrder | app.py:309-310 | drawing the cubes in a given order paints at most 30 polygons per cube, nothing for no cubes, and starts with the first listed cube's paints |
| Scene.DrawInOrderAppend | app.py:309-310 | drawing o1 then o2 paints exactly what drawing o1 + o2 paints |
| Scene.DrawInOrderLast | app.py:309-310 | the last listed cube is painted last, after all the cubes before it |
| Scene.DrawInOrderSingle | app.py:309-310 | drawing a single cube paints exactly that cube's paints |
| Scene.Frame | app.py:302-310 | after the update, the cubes are drawn in an order that is a permutation of all indices, sorted by the reported depths, and the painted list is the cubes' paints in that order |
| Scene.InitialSceneInv | app.py:282-294 | the eight starting cubes are rigid, share one rotation and one pointer sample |
| Scene.FramePreservesSceneInv | app.py:302-310 | a frame keeps every cube rigid, keeps one shared rotation, and stores the sample |
| Scene.UpdateSameRot | app.py:254-264 | two cubes with the same rotation and the same last sample end with the same rotation |
| Scene.ArenaWithinReach | app.py:229-240 | a cube whose centre is within disp of the origin on each axis has every reference position within 135·√3 of the origin |
| Scene.InitialWithinReach | app.py:284-294 | the eight starting cubes have every reference position within 135·√3 of the origin |
| Scene.FrameKeepsReach | app.py:302-307 | a frame keeps every reference position where it was |
| Scene.InvWithinReachInFront | app.py:196-200 | a rigid cube within that distance never has a corner at the viewer's depth, so it can be projected |
| Scene.NextFrameDrawable | app.py:302-310 | from a rigid scene within that distance, the next frame can be drawn |
| Scene.AppFramesDrawable | app.py:302-310 | after any sequence of pointer samples, the scene stays rigid and within that distance, and the next frame can be drawn |
| Scene.WindowFramesDrawable | app.py:282-310 | every frame the window draws, after any pointer history, is defined |
| Ease.EaseBreakpoints | app.py:312-327 | `Ease` is 0, 1.5, 3, 3, 1.5, 0 at t = 10, 20, 30, 40, 50, 60 |
| Ease.EaseFlat | app.py:315-322 | `Ease` is 0 before t = 10 and 3 on [30, 40) |
| Ease.EaseBounds | app.py:312-327 | for t up to 60 the value stays between 0 and 3 |
| Ease.EaseLipschitz | app.py:312-327 | up to t = 60 the curve changes by at most 0.3 per unit of t, so it is continuous at every breakpoint |
| MathLib.SqrtZeroIff | app.py:108-109 | the root the program computes is zero exactly for a zero argument |
| MathLib.AcosPair | app.py:187-188 | on (-1, 1), cos(acos a) = a and sin(acos a) is the positive root of 1 - a² |

## Left out

- The Qt widgets, the pixmap, `QPainter`, `QTimer`, the window geometry and `mainloop` are left out. A frame is the list of paints it would issue.
- Floating-point rounding is left out; all arithmetic is exact real arithmetic. In particular, the guard in `Point.transform` compares the scalar part against ±1 exactly.
- The conversion of projected points to integer `QPoint`s inside `drawFace`/`drawShadow` is left out, because it is part of the Qt call.
- `sqrt`, `sin`, `cos` and `acos` are left abstract (the `Math` parameter), with only the laws listed above.
- `Vector2D.__sub__` (app.py:78-81) is left out. It assigns `self.y` instead of computing a difference and builds a 3-D `Vector` from two arguments, which would raise. Nothing calls it: pointer differences use `Point2D.__sub__`, which `Cubes.Drag` models.
- `Quaternion.__str__` and the `__iter__` methods are left out, because they only format or unpack.
- `MainWindow.ease` is modelled, but nothing in the program calls it.
- `Points.Project` requires the point not to lie in the viewer's plane. There, app.py:198 divides by zero and raises `ZeroDivisionError`; the model does not represent the exception. The window never gets there (`Scene.WindowFramesDrawable`).
- The imports at the top of `tools/components.py` and `tools/visual.py` are unfinished (`# TODO`), so those files do not run on their own. Their logic is the app.py logic modelled here.
- Cubes.DrawCube: states how many paints there are and what every fill carries, not the whole paint list. It is the six faces' paints in face order, and each face's exact paints (fill polygon and shadow polygons) are stated by `Cubes.FacePaints`.
- Cubes.DrawFrom: states the same bounds as `Cubes.DrawCube`, for the faces from index f on.

## Findings

| source | as written | input that shows it | evidently intended | confidence | as-written member | corrected member |
|---|---|---|---|---|---|---|
| app.py:185-186 | `transform` returns before storing anything when the composed quaternion q has a scalar part of absolute value at least 1, so when q is ±identity the increment is dropped and the point keeps its previous rotation | a fresh corner turned by 2h about y and then by 2h about -y, for any h with sin h ≠ 0; with h = 0.05 these are a 10-pixel drag right and the drag back left (`Cubes.DragExample`, `Cubes.DragBackExample`). The second composed quaternion is exactly the identity, yet the point stays turned | store q and put the point at its reference rotated by q, as the non-degenerate branch does | not executed; in exact arithmetic. In floating point, rounding decides whether the scalar part reaches ±1 | Points.UndoIsDropped | Points.IntendedUndoes |

The program model (`Cubes.Update`) keeps the as-written `Points.Transform`, because that is what `Cube.update` calls. `Points.TransformIntended` is the corrected definition, and `Points.IntendedStoresComposed` proves it always stores the composed rotation.
