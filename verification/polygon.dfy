/**
 Triangles and meshes of src/renderer/types/polygon.rs. Drawing is modelled as the
 list of line segments the renderer would hand to the canvas, in order; the canvas
 itself is not part of the model. Pixel coordinates are `i32` values, kept as `int`
 within the `i32` range.
 */
module Polygons {
  import opened Vectors
  import opened Trigonometry
  import M = Matrices
  import C = Cameras

  datatype Triangle = Triangle(v1: Vec3, v2: Vec3, v3: Vec3)

  /** A point on the canvas, in pixels. */
  datatype Pixel = Pixel(x: int, y: int)

  /** A line from one pixel to another. */
  datatype Segment = Segment(from: Pixel, to: Pixel)

  /** A group of triangles placed at `position` and turned by the Euler angles `rotation`. */
  datatype Mesh = Mesh(position: Vec3, rotation: Vec3, triangles: seq<Triangle>)

  const I32Min: int := -0x8000_0000
  const I32Max: int := 0x7FFF_FFFF

  /** The integer part of `r`, rounding toward zero. */
  function TruncateTowardZero(r: real): int {
    if r >= 0.0 then r.Floor else -((-r).Floor)
  }

  /**
   `t` is the `as i32` cast of `r`: in the `i32` range, `r` truncated toward zero
   while `r` is in range, and the nearer bound of the range once it is not.
   */
  predicate IsI32Cast(r: real, t: int) {
    && I32Min <= t <= I32Max
    && (r >= 0.0 ==> 0 <= t && t as real <= r)
    && (0.0 <= r < (I32Max + 1) as real ==> r < (t + 1) as real)
    && (r <= 0.0 ==> t <= 0 && r <= t as real)
    && ((I32Min - 1) as real < r <= 0.0 ==> (t - 1) as real < r)
    && (r >= (I32Max + 1) as real ==> t == I32Max)
    && (r <= (I32Min - 1) as real ==> t == I32Min)
  }

  /** The cast of a float: truncation toward zero, saturating at the bounds of the `i32` range. */
  function TruncToI32(r: real): (t: int)
    ensures IsI32Cast(r, t)
  {
    var n := TruncateTowardZero(r);
    if n < I32Min then I32Min else if n > I32Max then I32Max else n
  }

  /** At most one integer is the cast of a given float. */
  lemma IsI32CastUnique(r: real, a: int, b: int)
    requires IsI32Cast(r, a) && IsI32Cast(r, b)
    ensures a == b
  {}

  /** The cast never reverses the order of two values. */
  lemma TruncToI32Monotone(a: real, b: real)
    requires a <= b
    ensures TruncToI32(a) <= TruncToI32(b)
  {
    if a >= 0.0 {
      assert a.Floor <= b.Floor by {
        assert (a.Floor as real) <= b;
      }
    } else if b <= 0.0 {
      assert (-b).Floor <= (-a).Floor by {
        assert ((-b).Floor as real) <= -a;
      }
    }
  }

  /** The cast leaves integers in the `i32` range unchanged. */
  lemma TruncToI32OfInteger(n: int)
    requires I32Min <= n <= I32Max
    ensures TruncToI32(n as real) == n
  {}

  /** `calc_pt`: screen coordinates in [-1, 1] scaled to a 1000-pixel square. */
  function CalcPt(v: Vec3): (p: Pixel)
    ensures IsI32Cast((v.x + 1.0) * 500.0, p.x) && IsI32Cast((v.y + 1.0) * 500.0, p.y)
  {
    Pixel(TruncToI32((v.x + 1.0) * 500.0), TruncToI32((v.y + 1.0) * 500.0))
  }

  /** Coordinates in [-1, 1] land inside the 1000 x 1000 viewport. */
  lemma CalcPtInViewport(v: Vec3)
    requires -1.0 <= v.x <= 1.0 && -1.0 <= v.y <= 1.0
    ensures 0 <= CalcPt(v).x <= 1000 && 0 <= CalcPt(v).y <= 1000
  {
    TruncToI32Monotone((v.x + 1.0) * 500.0, 1000.0);
    TruncToI32Monotone((v.y + 1.0) * 500.0, 1000.0);
    TruncToI32OfInteger(1000);
  }

  /** The centre and the two extreme corners of the viewport. */
  lemma CalcPtOracles()
    ensures CalcPt(Vec3(0.0, 0.0, 0.0)) == Pixel(500, 500)
    ensures CalcPt(Vec3(-1.0, -1.0, 0.0)) == Pixel(0, 0)
    ensures CalcPt(Vec3(1.0, 1.0, 0.0)) == Pixel(1000, 1000)
  {
    TruncToI32OfInteger(500);
    TruncToI32OfInteger(0);
    TruncToI32OfInteger(1000);
  }

  /** The world position of vertex `v` of a mesh at `origin`, turned about that origin. */
  function Place(v: Vec3, origin: Vec3, rotation: Vec3, trig: Trig): Vec3 {
    M.Rotate(Add(v, origin), origin, rotation, trig)
  }

  /** The placed vertex does not project to depth zero, so the perspective divide is defined. */
  predicate VertexVisible(v: Vec3, origin: Vec3, rotation: Vec3, cam: C.Camera, trig: Trig) {
    C.Project(cam, Place(v, origin, rotation, trig)).z != 0.0
  }

  predicate TriangleVisible(t: Triangle, origin: Vec3, rotation: Vec3, cam: C.Camera, trig: Trig) {
    VertexVisible(t.v1, origin, rotation, cam, trig)
    && VertexVisible(t.v2, origin, rotation, cam, trig)
    && VertexVisible(t.v3, origin, rotation, cam, trig)
  }

  /** The pixel of one vertex: placed, transformed by the camera, scaled to the viewport. */
  function ProjectVertex(v: Vec3, origin: Vec3, rotation: Vec3, cam: C.Camera, trig: Trig): (p: Pixel)
    requires VertexVisible(v, origin, rotation, cam, trig)
    ensures var s := C.Transform(cam, Place(v, origin, rotation, trig));
            IsI32Cast((s.x + 1.0) * 500.0, p.x) && IsI32Cast((s.y + 1.0) * 500.0, p.y)
  {
    CalcPt(C.Transform(cam, Place(v, origin, rotation, trig)))
  }

  /**
   `Triangle::draw`: three segments from vertex 1 to 2, 2 to 3 and 3 back to 1, so
   the outline is a closed loop through the three projected vertices.
   */
  function DrawTriangle(t: Triangle, origin: Vec3, rotation: Vec3, cam: C.Camera, trig: Trig): (r: seq<Segment>)
    requires TriangleVisible(t, origin, rotation, cam, trig)
    ensures |r| == 3
    ensures r[0].from == ProjectVertex(t.v1, origin, rotation, cam, trig)
    ensures r[1].from == ProjectVertex(t.v2, origin, rotation, cam, trig)
    ensures r[2].from == ProjectVertex(t.v3, origin, rotation, cam, trig)
    ensures r[0].to == r[1].from && r[1].to == r[2].from && r[2].to == r[0].from
  {
    var p1 := ProjectVertex(t.v1, origin, rotation, cam, trig);
    var p2 := ProjectVertex(t.v2, origin, rotation, cam, trig);
    var p3 := ProjectVertex(t.v3, origin, rotation, cam, trig);
    [Segment(p1, p2), Segment(p2, p3), Segment(p3, p1)]
  }

  /** With zero rotation a vertex is only translated by the mesh position before the camera sees it. */
  lemma UnrotatedPlacement(v: Vec3, origin: Vec3, trig: Trig)
    requires ZeroAngle(trig)
    ensures Place(v, origin, Zero, trig) == Add(v, origin)
  {
    M.RotateByZeroIsIdentity(Add(v, origin), origin, trig);
  }

  /**
   End to end for an unrotated mesh seen by an unrotated camera: the vertex is
   visible when its offset `o` from the camera has nonzero depth, and its screen
   point is `(d·o.x/o.z, d·o.y/o.z, o.z/d)`.
   */
  lemma UnrotatedVertex(v: Vec3, origin: Vec3, position: Vec3, d: real, trig: Trig)
    requires ZeroAngle(trig) && d != 0.0
    requires Sub(Add(v, origin), position).z != 0.0
    ensures VertexVisible(v, origin, Zero, C.New(position, d, Zero, trig), trig)
    ensures C.ScreenPointOf(C.Transform(C.New(position, d, Zero, trig), Place(v, origin, Zero, trig)),
                            Sub(Add(v, origin), position), d)
  {
    UnrotatedPlacement(v, origin, trig);
    C.UnrotatedTransform(position, d, Add(v, origin), trig);
  }

  /** `Mesh::new`: a mesh starts unrotated. */
  function NewMesh(position: Vec3, triangles: seq<Triangle>): (m: Mesh)
    ensures m.position == position && m.triangles == triangles
    ensures m.rotation == Zero
  {
    Mesh(position, Zero, triangles)
  }

  /** A freshly built mesh places every vertex by translation alone. */
  lemma NewMeshIsTranslated(position: Vec3, triangles: seq<Triangle>, v: Vec3, trig: Trig)
    requires ZeroAngle(trig)
    ensures var m := NewMesh(position, triangles);
            Place(v, m.position, m.rotation, trig) == Add(v, position)
  {
    UnrotatedPlacement(v, position, trig);
  }

  predicate MeshVisible(m: Mesh, cam: C.Camera, trig: Trig) {
    forall i :: 0 <= i < |m.triangles| ==> TriangleVisible(m.triangles[i], m.position, m.rotation, cam, trig)
  }

  /**
   `Mesh::draw`: the segments of every triangle, triangle by triangle in order, each
   triangle drawn at the mesh's position and rotation.
   */
  method DrawMesh(m: Mesh, cam: C.Camera, trig: Trig) returns (segs: seq<Segment>)
    requires MeshVisible(m, cam, trig)
    ensures |segs| == 3 * |m.triangles|
    ensures forall k :: 0 <= k < |m.triangles| ==>
              segs[3 * k .. 3 * k + 3] == DrawTriangle(m.triangles[k], m.position, m.rotation, cam, trig)
  {
    segs := [];
    var i := 0;
    while i < |m.triangles|
      invariant 0 <= i <= |m.triangles|
      invariant |segs| == 3 * i
      invariant forall k :: 0 <= k < i ==>
                  segs[3 * k .. 3 * k + 3] == DrawTriangle(m.triangles[k], m.position, m.rotation, cam, trig)
    {
      var next := DrawTriangle(m.triangles[i], m.position, m.rotation, cam, trig);
      assert forall k :: 0 <= k < i ==> (segs + next)[3 * k .. 3 * k + 3] == segs[3 * k .. 3 * k + 3];
      assert (segs + next)[3 * i .. 3 * i + 3] == next;
      segs := segs + next;
      i := i + 1;
    }
  }

  // The cube

  /** The eight corners in the order the generator names them. */
  function Corners(s: real): seq<Vec3> {
    [Vec3(-s, s, -s),   // back top left
     Vec3(-s, -s, -s),  // back bottom left
     Vec3(s, s, -s),    // back top right
     Vec3(s, -s, -s),   // back bottom right
     Vec3(-s, s, s),    // front top left
     Vec3(-s, -s, s),   // front bottom left
     Vec3(s, s, s),     // front top right
     Vec3(s, -s, s)]    // front bottom right
  }

  /** Every coordinate of `v` is `s` or `-s`. */
  predicate OnCube(v: Vec3, s: real) {
    (v.x == s || v.x == -s) && (v.y == s || v.y == -s) && (v.z == s || v.z == -s)
  }

  /**
   `gen_cube`: two triangles per face, each pair split along the same diagonal, in the
   order back, front, top, bottom, left, right.
   */
  function GenCube(s: real): (tris: seq<Triangle>)
    ensures |tris| == 12
    ensures forall i :: 0 <= i < |tris| ==>
              OnCube(tris[i].v1, s) && OnCube(tris[i].v2, s) && OnCube(tris[i].v3, s)
  {
    var c := Corners(s);
    var (btl, bbl, btr, bbr) := (c[0], c[1], c[2], c[3]);
    var (ftl, fbl, ftr, fbr) := (c[4], c[5], c[6], c[7]);
    [Triangle(btl, bbr, btr), Triangle(btl, bbr, bbl),   // back
     Triangle(ftl, fbr, ftr), Triangle(ftl, fbr, fbl),   // front
     Triangle(ftl, btr, ftr), Triangle(ftl, btr, btl),   // top
     Triangle(fbl, bbr, fbr), Triangle(fbl, bbr, bbl),   // bottom
     Triangle(fbl, btl, ftl), Triangle(fbl, btl, bbl),   // left
     Triangle(fbr, btr, ftr), Triangle(fbr, btr, bbr)]   // right
  }

  /** All the vertices the triangles use. */
  function Vertices(tris: seq<Triangle>): (vs: set<Vec3>)
    ensures forall i :: 0 <= i < |tris| ==> tris[i].v1 in vs && tris[i].v2 in vs && tris[i].v3 in vs
  {
    if |tris| == 0 then {} else {tris[0].v1, tris[0].v2, tris[0].v3} + Vertices(tris[1..])
  }

  /** A vertex is used only if some triangle has it. */
  lemma {:induction false} VerticesAreUsed(tris: seq<Triangle>, v: Vec3)
    requires v in Vertices(tris)
    ensures exists i :: 0 <= i < |tris| && (tris[i].v1 == v || tris[i].v2 == v || tris[i].v3 == v)
  {
    if v !in {tris[0].v1, tris[0].v2, tris[0].v3} {
      VerticesAreUsed(tris[1..], v);
      var i :| 0 <= i < |tris[1..]| && (tris[1..][i].v1 == v || tris[1..][i].v2 == v || tris[1..][i].v3 == v);
      assert tris[i + 1] == tris[1..][i];
    }
  }

  /** The elements of a sequence without repetitions number exactly its length. */
  lemma {:induction false} DistinctCardinality(xs: seq<Vec3>)
    requires forall i, j :: 0 <= i < j < |xs| ==> xs[i] != xs[j]
    ensures |set x | x in xs| == |xs|
  {
    if |xs| > 0 {
      var rest := xs[1..];
      DistinctCardinality(rest);
      assert (set x | x in xs) == (set x | x in rest) + {xs[0]};
      assert xs[0] !in (set x | x in rest);
    }
  }

  /** For a nonzero side the eight corners are pairwise different. */
  lemma CornersDistinct(s: real)
    requires s != 0.0
    ensures forall i, j :: 0 <= i < j < 8 ==> Corners(s)[i] != Corners(s)[j]
  {
    assert s != -s;
  }

  /**
   The cube uses exactly its eight corners: eight distinct vertices for a nonzero side,
   all collapsing to the origin for side zero.
   */
  lemma CubeVertices(s: real)
    ensures Vertices(GenCube(s)) == set v | v in Corners(s)
    ensures s != 0.0 ==> |Vertices(GenCube(s))| == 8
    ensures s == 0.0 ==> Vertices(GenCube(s)) == {Zero}
  {
    var tris, c := GenCube(s), Corners(s);
    forall v | v in Vertices(tris) ensures v in c {
      VerticesAreUsed(tris, v);
    }
    forall v | v in c ensures v in Vertices(tris) {
      var j :| 0 <= j < 8 && c[j] == v;
      // every corner is the third vertex of some triangle, or else a diagonal end
      assert c[0] == tris[0].v1 && c[1] == tris[1].v3 && c[2] == tris[0].v3 && c[3] == tris[0].v2;
      assert c[4] == tris[2].v1 && c[5] == tris[3].v3 && c[6] == tris[2].v3 && c[7] == tris[2].v2;
    }
    if s != 0.0 {
      CornersDistinct(s);
      DistinctCardinality(c);
    } else {
      assert forall j :: 0 <= j < 8 ==> c[j] == Zero;
    }
  }

  /** The coordinate axes. */
  datatype Axis = X | Y | Z

  function Coordinate(v: Vec3, a: Axis): real {
    match a
    case X => v.x
    case Y => v.y
    case Z => v.z
  }

  /** All three vertices of `t` lie in the plane where axis `a` has value `c`. */
  predicate InPlane(t: Triangle, a: Axis, c: real) {
    Coordinate(t.v1, a) == c && Coordinate(t.v2, a) == c && Coordinate(t.v3, a) == c
  }

  /** The axis perpendicular to face `k` (back, front, top, bottom, left, right). */
  function FaceAxis(k: nat): Axis {
    if k < 2 then Z else if k < 4 then Y else X
  }

  /** The side of face `k`: `-1` for back, bottom and left, `1` for front, top and right. */
  function FaceSide(k: nat): real {
    if k == 0 || k == 3 || k == 4 then -1.0 else 1.0
  }

  /** All three vertices of triangle `i` lie on the plane of face `i / 2`. */
  lemma CubeFacePlanes(s: real)
    ensures forall i :: 0 <= i < 12 ==> InPlane(GenCube(s)[i], FaceAxis(i / 2), FaceSide(i / 2) * s)
  {}

  /** Triangles `2k` and `2k + 1` share their first two vertices: they split face `k` along one diagonal. */
  lemma CubeFaceDiagonals(s: real)
    ensures forall i :: 0 <= i < 12 && i % 2 == 0 ==>
              GenCube(s)[i].v1 == GenCube(s)[i + 1].v1 && GenCube(s)[i].v2 == GenCube(s)[i + 1].v2
  {}

  /**
   For a nonzero side the four vertices of a face pair are pairwise different: the
   diagonal's two ends and the two remaining corners of the face.
   */
  lemma CubeFaceCorners(s: real)
    requires s != 0.0
    ensures forall i :: 0 <= i < 12 && i % 2 == 0 ==> FourCorners(GenCube(s)[i], GenCube(s)[i + 1])
  {
    assert s != -s;
  }

  /** `t` and `u` share the diagonal `t.v1`-`t.v2` and their third vertices are two further corners. */
  predicate FourCorners(t: Triangle, u: Triangle) {
    t.v1 != t.v2 && t.v3 != u.v3
    && t.v3 != t.v1 && t.v3 != t.v2 && u.v3 != t.v1 && u.v3 != t.v2
  }

  /** `Triangle::new` keeps its vertices: the second vertex of the unit-axis triangle has `y == 1`. */
  lemma TriangleCreationOracle()
    ensures Triangle(Vec3(1.0, 0.0, 0.0), Vec3(0.0, 1.0, 0.0), Vec3(0.0, 0.0, 1.0)).v2.y == 1.0
  {}
}
