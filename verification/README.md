# Geometry core of a wireframe renderer, in Dafny

This project models the geometry pipeline of a small real-time wireframe renderer
(Rust, crate `r1`). The renderer holds a pinhole camera and triangle meshes, and
turns every triangle edge into a pair of pixel coordinates for a line-drawing
surface. The model covers that pipeline from the vector algebra up to the segment
list, and proves the properties the code and its tests rely on.

| file | module | models |
|---|---|---|
| `trig.dfy` | `Trigonometry` | `sin`/`cos` as a parameter, with the facts the proofs use |
| `vec.dfy` | `Vectors` | `Vec3` and its operators (`src/renderer/types/vec.rs`) |
| `matrix.dfy` | `Matrices` | `Matrix3x3`, the per-axis rotations and `rotate` (`src/renderer/types/matrix.rs`) |
| `quaternion.dfy` | `Quaternions` | `Quaternion`, which the source keeps in `src/renderer/types/matrix.rs` next to `Matrix3x3`; the model gives it its own file and module because nothing else uses it |
| `camera.dfy` | `Cameras` | `Camera` (`src/renderer/camera.rs`) |
| `polygon.dfy` | `Polygons` | `Triangle`, `Mesh`, `calc_pt`, `gen_cube` (`src/renderer/types/polygon.rs`) |

The model uses these representations:
- `f64` is `real`. Each division requires a nonzero divisor.
- `sin` and `cos` are a parameter `Trig`. Lemmas that need `sin 0 = 0`, `cos 0 = 1` or
  `sin² + cos² = 1` require `ZeroAngle` or `Pythagorean`.
- There is no square root. A magnitude is passed in as a witness `m` with
  `m >= 0 && m * m == |v|²`.
- The camera takes `d = 1 / tan(fov / 2)` in place of the field of view.
- Drawing returns the list of segments that the renderer would pass to
  `draw_line`, in the order it would pass them.
- The `as i32` cast truncates toward zero and saturates at the bounds of the
  `i32` range, as Rust's float-to-int cast does.

## Model

| member | source | states |
|---|---|---|
| Vectors.EqualIsIdentity | src/renderer/types/vec.rs:63-67 | `==` on vectors is exact component-wise comparison. It holds exactly when the two values are identical, so it is reflexive and symmetric. |
| Vectors.EqualityOracle | src/renderer/types/vec.rs:114-117 | (2,4,20) equals (2,4,20). |
| Vectors.DotCommutative | src/renderer/types/vec.rs:21-23 | `a·b == b·a`. |
| Vectors.DotAdditive | src/renderer/types/vec.rs:21-23 | The dot product distributes over vector addition and subtraction in its second argument. |
| Vectors.DotHomogeneous | src/renderer/types/vec.rs:21-23 | Scaling the second argument of a dot product scales the result by the same factor. |
| Vectors.DotOracle | src/renderer/types/vec.rs:118-123 | (2,4,20)·(5,8,2) = 82. |
| Vectors.CrossAntiCommutative | src/renderer/types/vec.rs:25-31 | `a×b` is `b×a` negated. |
| Vectors.CrossOrthogonal | src/renderer/types/vec.rs:25-31 | `a×b` is orthogonal to `a` and to `b`. |
| Vectors.CrossOracle | src/renderer/types/vec.rs:124-129 | (2,4,20)×(5,8,2) = (−152,96,−4). |
| Vectors.MagnitudeSqIsSelfDot | src/renderer/types/vec.rs:33-35 | The squared magnitude is `v·v`, and it is 0 for the zero vector. |
| Vectors.ToUnit | src/renderer/types/vec.rs:37-40 | For a nonzero magnitude, `to_unit` has squared magnitude 1, and scaling it back by the magnitude gives the original vector. |
| Vectors.ScaleMagnitudeSq | src/renderer/types/vec.rs:42-44 | Multiplying a vector by `k` multiplies its squared magnitude by `k²`. |
| Vectors.DivUndoesScale | src/renderer/types/vec.rs:42-54 | For a nonzero scalar, `div` undoes `mul` and `mul` undoes `div`. |
| Vectors.MulEq | src/renderer/types/vec.rs:46-50 | Scaling the fields one at a time in place gives `mul` of the old value. |
| Vectors.DivEq | src/renderer/types/vec.rs:56-60 | Dividing the fields one at a time in place gives `div` of the old value. |
| Vectors.AddAssign | src/renderer/types/vec.rs:89-95 | `+=` applied field by field gives `+` of the old value. |
| Vectors.SubAssign | src/renderer/types/vec.rs:102-108 | `-=` applied field by field gives `-` of the old value. |
| Vectors.SubUndoesAdd | src/renderer/types/vec.rs:83-101 | `(a + b) − b == a` and `(a − b) + b == a`. |
| Vectors.SubSelfIsZero | src/renderer/types/vec.rs:96-101 | `a − a` is the zero vector. |
| Matrices.DirectNewRowMajor | src/renderer/types/matrix.rs:20-36 | `direct_new(a..i)` reads its arguments row by row: transforming `v` gives `(a·vx+b·vy+c·vz, d·vx+e·vy+f·vz, g·vx+h·vy+i·vz)`. |
| Matrices.DirectNewIsTranspose | src/renderer/types/matrix.rs:20-36 | `direct_new` stores the columns `(a,d,g)`, `(b,e,h)`, `(c,f,i)`. This is the transpose of the matrix whose columns are the argument triples. |
| Matrices.DeterminantIsTripleProduct | src/renderer/types/matrix.rs:38-42 | The cofactor expansion equals the scalar triple product `c1·(c2×c3)` of the columns. |
| Matrices.DeterminantOfTranspose | src/renderer/types/matrix.rs:38-42 | Transposing a matrix keeps its determinant. |
| Matrices.DeterminantOfIdentity | src/renderer/types/matrix.rs:38-42 | The identity matrix has determinant 1. |
| Matrices.DeterminantOracle | src/renderer/types/matrix.rs:108-115 | Columns (0,5,8), (3,2,10), (5,1,6) have determinant 104. |
| Matrices.TransformByRows | src/renderer/types/matrix.rs:44-50 | Each output coordinate of `transform` is the dot product of one row with the input. |
| Matrices.TransformIsColumnCombination | src/renderer/types/matrix.rs:44-50 | `transform(m, v)` is the sum of the columns weighted by the coordinates of `v`. |
| Matrices.TransformZero | src/renderer/types/matrix.rs:44-50 | `transform` maps the zero vector to zero. |
| Matrices.TransformAdditive | src/renderer/types/matrix.rs:44-50 | `transform` distributes over vector addition and subtraction. |
| Matrices.TransformHomogeneous | src/renderer/types/matrix.rs:44-50 | `transform` commutes with scalar multiplication. |
| Matrices.TransformProduct | src/renderer/types/matrix.rs:44-50 | Transforming by `b` and then by `a` is transforming by the product `a·b`. |
| Matrices.TransformIdentity | src/renderer/types/matrix.rs:44-50 | The identity matrix leaves every vector unchanged. |
| Matrices.TransformOracle | src/renderer/types/matrix.rs:116-125 | The test matrix applied to (4,3,12) gives (69,38,134). |
| Matrices.RotateIsComposite | src/renderer/types/matrix.rs:53-70 | `rotate` is one matrix, X·Y·Z, applied to `point − origin` and moved back by `origin`. So Z acts first and X last. |
| Matrices.RotateFixesOrigin | src/renderer/types/matrix.rs:53-70 | `rotate(origin, origin, r) == origin` for every rotation `r`. |
| Matrices.ZeroAngleRotationsAreIdentity | src/renderer/types/matrix.rs:54-68 | Given sin 0 = 0 and cos 0 = 1, each per-axis matrix at angle 0 is the identity. |
| Matrices.RotateByZeroIsIdentity | src/renderer/types/matrix.rs:53-70 | Given sin 0 = 0 and cos 0 = 1, rotating by (0,0,0) about any origin leaves the point unchanged. |
| Matrices.AxisRotationsAreUnimodular | src/renderer/types/matrix.rs:54-68 | Given sin² + cos² = 1, each per-axis matrix has determinant 1. |
| Matrices.AxisRotationsKeepLength | src/renderer/types/matrix.rs:54-68 | Given sin² + cos² = 1, each per-axis matrix keeps the squared length of a vector. |
| Matrices.Rotate | src/renderer/types/matrix.rs:53-70 | Given sin² + cos² = 1, `rotate` keeps the squared distance of the point from `origin`: it turns the point about `origin` without stretching. |
| Quaternions.Normalize | src/renderer/types/matrix.rs:86-93 | For a nonzero magnitude, `normalize` has squared norm 1, and multiplying back by the magnitude restores each component. |
| Quaternions.ScaledNormSq | src/renderer/types/matrix.rs:86-88 | Multiplying all four components by `m` multiplies the squared norm by `m²`. |
| Quaternions.MulAgainstHamilton | src/renderer/types/matrix.rs:95-102 | `mul` as written, against the Hamilton product `h` with `w` as scalar: its fields are `(h.w, h.x, h', h'')`, where `h'` is `h.y` computed with `other.y` in place of `other.z` and `h''` is `h.z` computed with `other.z` in place of `other.y`. |
| Quaternions.MulByOne | src/renderer/types/matrix.rs:95-102 | `mul` as written sends `q·(0,0,0,1)` to `(q.w, q.x, q.y, q.z)`: the fields shift by one place instead of staying put. |
| Quaternions.MulHasZeroDivisors | src/renderer/types/matrix.rs:95-102 | `mul` as written sends `(1,0,0,1)·(0,1,0,0)` to zero, although both factors are nonzero. |
| Quaternions.HamiltonOne | src/renderer/types/matrix.rs:95-102 | `(0,0,0,1)` is a two-sided identity of the corrected product. |
| Quaternions.HamiltonByUnits | src/renderer/types/matrix.rs:95-102 | Left multiplication by i, j and k in the corrected product, in closed form. |
| Quaternions.HamiltonBasis | src/renderer/types/matrix.rs:95-102 | In the corrected product, i·j = k, j·k = i and k·i = j. |
| Cameras.New | src/renderer/camera.rs:17-51 | `new` keeps `position` and `rotation` and sets `surface_offset = (0,0,d)`. Its projection matrix is `direct_new(1,0,0, 0,1,0, 0,0,1/d)`, which maps `v` to `(v.x, v.y, v.z/d)`. Its cached matrices rotate exactly as `rotate` about zero does. |
| Cameras.RecalculateMatrices | src/renderer/camera.rs:53-69 | `recalculate_matrices` keeps `position`, `surface_offset`, `rotation` and the projection. It rebuilds the cached matrices to rotate by the current `rotation`. |
| Cameras.RotateAboutZero | src/renderer/camera.rs:77-83 | The camera's chain Z, then Y, then X is `rotate` about the zero vector. |
| Cameras.RecalculateAfterNew | src/renderer/camera.rs:19-33 | Building a camera with angles `a`, setting `rotation` to `b` and recalculating gives the camera built with `b`. |
| Cameras.RecalculateIdempotent | src/renderer/camera.rs:53-69 | Recalculating a freshly built camera changes nothing. |
| Cameras.TransformIgnoresRotationField | src/renderer/camera.rs:73-94 | `transform` reads only `position` and the cached matrices. Changing `rotation` without recalculating changes no result. |
| Cameras.PerspectiveDivide | src/renderer/camera.rs:88-92 | The output keeps the projected depth. Its x and y multiplied by that depth give back the projected x and y, and the depth must be nonzero. |
| Cameras.Transform | src/renderer/camera.rs:73-94 | `transform` keeps the projected depth, and the screen x and y multiplied by that depth are the projected x and y. |
| Cameras.RotatedProject | src/renderer/camera.rs:73-85 | For a camera built with angles `a`, the projection of `p` is `(r.x, r.y, r.z/d)`, where `r` is `p − position` rotated by `a` about the zero vector. |
| Cameras.RotatedTransform | src/renderer/camera.rs:73-94 | For a camera built with angles `a` and a point whose rotated offset `r` has nonzero depth, the screen point is `(d·r.x/r.z, d·r.y/r.z, r.z/d)`, stated by multiplying out the divisions. |
| Cameras.UnrotatedProject | src/renderer/camera.rs:73-85 | With zero rotation, the projection of `p` is `(o.x, o.y, o.z/d)`, where `o = p − position`. |
| Cameras.UnrotatedTransform | src/renderer/camera.rs:73-94 | With zero rotation and `o.z ≠ 0`, the screen point is `(d·o.x/o.z, d·o.y/o.z, o.z/d)`, stated by multiplying out the divisions. |
| Cameras.DivideScaledDepth | src/renderer/camera.rs:88-92 | The perspective divide of `(o.x, o.y, o.z/d)` is the screen point of `o`. |
| Cameras.OnAxis | src/renderer/camera.rs:73-94 | A point `(0,0,z)` ahead of an unrotated camera at the origin maps to `(0, 0, z/d)`, the centre of the screen; for `z > 0` and `d > 0` that depth is positive. |
| Cameras.PerspectiveOnAxis | src/renderer/camera.rs:88-92 | A projected point on the axis keeps x = y = 0 through the divide. |
| Polygons.TruncToI32 | src/renderer/types/polygon.rs:33-35 | `as i32` stays in the `i32` range. In range, it truncates toward zero. Past either bound, it saturates to that bound. |
| Polygons.IsI32CastUnique | src/renderer/types/polygon.rs:33-35 | The description of the cast pins down a single integer for every float. |
| Polygons.TruncToI32Monotone | src/renderer/types/polygon.rs:33-35 | The cast never reverses the order of two values. |
| Polygons.TruncToI32OfInteger | src/renderer/types/polygon.rs:33-35 | The cast leaves every integer in the `i32` range unchanged. |
| Polygons.CalcPt | src/renderer/types/polygon.rs:33-35 | Each coordinate of `calc_pt(v)` is the `as i32` cast of `(c + 1)·500`: truncated toward zero while in range, and saturated past the bounds of `i32`. |
| Polygons.CalcPtInViewport | src/renderer/types/polygon.rs:33-35 | Screen coordinates in [−1, 1] land inside the 1000×1000 viewport [0, 1000]². |
| Polygons.CalcPtOracles | src/renderer/types/polygon.rs:33-35 | (0,0) ↦ (500,500), (−1,−1) ↦ (0,0), (1,1) ↦ (1000,1000). |
| Polygons.DrawTriangle | src/renderer/types/polygon.rs:22-30 | `draw` emits three segments that start at the projected v1, v2 and v3. Each segment ends where the next one starts, so the outline closes from v3 back to v1. |
| Polygons.ProjectVertex | src/renderer/types/polygon.rs:24-26 | The pixel of a vertex is the `as i32` cast of `(c + 1)·500` for each coordinate `c` of the camera's screen point of the vertex, placed at `origin` and rotated about it. |
| Polygons.UnrotatedVertex | src/renderer/types/polygon.rs:24-26 | For an unrotated mesh and an unrotated camera, a vertex whose offset `o = v + origin − position` has nonzero depth is visible, and its screen point is `(d·o.x/o.z, d·o.y/o.z, o.z/d)`. |
| Polygons.UnrotatedPlacement | src/renderer/types/polygon.rs:24-26 | Given sin 0 = 0 and cos 0 = 1, a vertex of an unrotated mesh reaches the camera translated by the mesh position only. |
| Polygons.NewMesh | src/renderer/types/polygon.rs:46-52 | `Mesh::new` keeps the position and the triangle sequence and starts with rotation (0,0,0). |
| Polygons.NewMeshIsTranslated | src/renderer/types/polygon.rs:46-59 | Given sin 0 = 0 and cos 0 = 1, a new mesh draws each vertex at `vertex + position`. |
| Polygons.DrawMesh | src/renderer/types/polygon.rs:54-59 | `Mesh::draw` emits `3·n` segments for `n` triangles. Segments `3k..3k+3` are triangle `k` drawn at the mesh's position and rotation, in order. |
| Polygons.GenCube | src/renderer/types/polygon.rs:62-93 | `gen_cube(s)` returns 12 triangles, and every coordinate of every vertex is `s` or `−s`. |
| Polygons.CubeVertices | src/renderer/types/polygon.rs:64-90 | The triangles use exactly the 8 corners. That is 8 distinct vertices for `s ≠ 0`, and only the origin for `s = 0`. |
| Polygons.CornersDistinct | src/renderer/types/polygon.rs:64-71 | For `s ≠ 0`, the eight named corners are pairwise different. |
| Polygons.CubeFacePlanes | src/renderer/types/polygon.rs:73-90 | All three vertices of triangles `2k` and `2k+1` lie on face `k`'s plane: back z=−s, front z=s, top y=s, bottom y=−s, left x=−s, right x=s. |
| Polygons.CubeFaceDiagonals | src/renderer/types/polygon.rs:73-90 | Triangles `2k` and `2k+1` share their first two vertices, the face diagonal. |
| Polygons.CubeFaceCorners | src/renderer/types/polygon.rs:64-90 | For `s ≠ 0`, the two diagonal ends and the two third vertices of a face pair are four different corners. |
| Polygons.TriangleCreationOracle | src/renderer/types/polygon.rs:95-105 | `Triangle::new` with the unit axes keeps `v2.y == 1`. |

## Left out

- `src/main.rs` is not part of this model. It holds SDL set-up, the window, the event loop, key handling and frame pacing, which are all I/O and timing.
- `Canvas::draw_line` and its `.unwrap()` are not modelled. Drawing returns the segment list instead, so errors from the drawing surface are out of scope.
- IEEE-754 behaviour is not modelled: rounding, infinities and NaN. Every division requires a nonzero divisor instead. As a result, `Cameras.Transform`, `Polygons.ProjectVertex`, `Polygons.DrawTriangle` and `Polygons.DrawMesh` require that each projected vertex has nonzero depth. The source would produce infinities or NaN there, and its cast would turn those into `i32` bounds or 0.
- `sqrt`, `sin`, `cos` and `tan` are not definable over the reals here. Magnitudes are witnesses (`Vectors.IsMagnitude`, `Quaternions.IsMagnitude`), and `magnitude` itself has no separate member. Trig is the `Trig` parameter. The camera takes `d = 1 / tan(fov / 2)`, with `d ≠ 0`, in place of `fov`.
- Cameras.UnrotatedTransform: states the screen point multiplied out (`r.x·o.z == d·o.x`, `r.z·d == o.z`) instead of as quotients. The two forms are equivalent because `d` and `o.z` are nonzero.
- Cameras.RotatedTransform: states the screen point `s` of a point whose rotated offset is `r` multiplied out (`s.x·r.z == d·r.x`, `s.z·d == r.z`) instead of as quotients. The two forms are equivalent because `d` and `r.z` are nonzero.
- Vectors.MagnitudeSqIsSelfDot: proves only the direction "zero vector ⇒ zero magnitude". The converse is a sign argument over a sum of squares, which the proofs here do not make.
- The `Debug` and `Display` formatting of `Vec3` (src/renderer/types/vec.rs:70-79) is cosmetic and is not modelled.
- `Vec3::new`, `Matrix3x3::new`, `Quaternion::new` and `Triangle::new` are the datatype constructors.
- The corrected quaternion product `Quaternions.HamiltonMul` carries its identity and basis laws only. Multiplicativity of the norm (Euler's four-square identity) is left unproved, because it is a degree-four polynomial identity that the solver does not discharge reliably.
- `Quaternions.Mul` is the product exactly as written, not the Hamilton product it evidently aims at (see Findings).

## Findings

| source | as written | input that shows it | evidently intended | confidence | as-written member | corrected member |
|---|---|---|---|---|---|---|
| src/renderer/types/matrix.rs:95-102 | `mul` puts the scalar part `w·w' − x·x' − y·y' − z·z'` into field `x`, and the `x·y'` and `x·z'` terms of the third and fourth components are swapped: the third component has `− x·y'` where the Hamilton product has `− x·z'`, and the fourth has `+ x·z'` where it has `+ x·y'` | `q·(0,0,0,1)` gives `(q.w, q.x, q.y, q.z)` instead of `q`: for `q = (1,0,0,0)` the result is `(0,1,0,0)`. Also, `(1,0,0,1)·(0,1,0,0)` gives zero although both factors are nonzero | the Hamilton product with `w` as the scalar part: the struct lists `w` last (src/renderer/types/matrix.rs:73-78), and the first component of `mul`, `w·w' − x·x' − y·y' − z·z'`, is exactly the scalar part of that product (src/renderer/types/matrix.rs:97). That product has `(0,0,0,1)` as a two-sided identity and `i·j = k` | high: the formula is compared with the Hamilton product symbolically (not executed) | Quaternions.MulByOne | Quaternions.HamiltonOne |
