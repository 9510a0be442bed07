/**
 The pinhole camera of src/renderer/camera.rs. The field of view is replaced by the
 distance `d = 1 / tan(fov / 2)` from the camera to its image plane. The rotation and
 projection matrices are cached when the camera is built, and `Transform` reads only
 the cache, so changing `rotation` has no effect until `RecalculateMatrices`.
 */
module Cameras {
  import opened Vectors
  import opened Trigonometry
  import M = Matrices

  datatype Camera = Camera(
    position: Vec3,
    surfaceOffset: Vec3,   // relative to the camera position
    rotation: Vec3,        // Euler angles, radians
    xRotation: M.Mat3,
    yRotation: M.Mat3,
    zRotation: M.Mat3,
    projection: M.Mat3)

  /** The projection matrix derived from the surface offset. */
  function ProjectionMatrix(offset: Vec3): M.Mat3
    requires offset.z != 0.0
  {
    M.DirectNew(1.0, 0.0, offset.x / offset.z,
                0.0, 1.0, offset.y / offset.z,
                0.0, 0.0, 1.0 / offset.z)
  }

  /** The cached rotations applied to `v`: Z first, then Y, then X. */
  function Orient(cam: Camera, v: Vec3): Vec3 {
    M.Transform(cam.xRotation, M.Transform(cam.yRotation, M.Transform(cam.zRotation, v)))
  }

  /** Camera whose three cached matrices rotate vectors as `rotate` would, about the zero vector. */
  ghost predicate OrientsBy(cam: Camera, rotation: Vec3, trig: Trig) {
    forall v :: Orient(cam, v) == M.Rotate(v, Zero, rotation, trig)
  }

  /** Rotating about the zero vector is the bare matrix chain. */
  lemma RotateAboutZero(v: Vec3, rotation: Vec3, trig: Trig)
    ensures M.Rotate(v, Zero, rotation, trig)
         == M.Transform(M.XRotation(rotation.x, trig),
              M.Transform(M.YRotation(rotation.y, trig),
                M.Transform(M.ZRotation(rotation.z, trig), v)))
  {
    assert Sub(v, Zero) == v;
  }

  /** `Camera::new`, with the image-plane distance `d` in place of the field of view. */
  function New(position: Vec3, d: real, rotation: Vec3, trig: Trig): (cam: Camera)
    requires d != 0.0
    ensures cam.position == position && cam.rotation == rotation
    ensures cam.surfaceOffset == Vec3(0.0, 0.0, d)
    ensures cam.projection == M.DirectNew(1.0, 0.0, 0.0, 0.0, 1.0, 0.0, 0.0, 0.0, 1.0 / d)
    ensures forall v :: M.Transform(cam.projection, v) == Vec3(v.x, v.y, v.z / d)
    ensures OrientsBy(cam, rotation, trig)
  {
    var surfaceOffset := Vec3(0.0, 0.0, d);
    var cam := Camera(position, surfaceOffset, rotation,
                      M.XRotation(rotation.x, trig),
                      M.YRotation(rotation.y, trig),
                      M.ZRotation(rotation.z, trig),
                      ProjectionMatrix(surfaceOffset));
    assert forall v :: M.Transform(cam.projection, v) == Vec3(v.x, v.y, v.z / d) by {
      forall v ensures M.Transform(cam.projection, v) == Vec3(v.x, v.y, v.z / d) {
        assert v.z * (1.0 / d) == v.z / d;
      }
    }
    assert OrientsBy(cam, rotation, trig) by {
      forall v ensures Orient(cam, v) == M.Rotate(v, Zero, rotation, trig) {
        RotateAboutZero(v, rotation, trig);
      }
    }
    cam
  }

  /**
   `recalculate_matrices`: rebuild the three rotation matrices from the current
   `rotation`; every other field is kept.
   */
  function RecalculateMatrices(cam: Camera, trig: Trig): (r: Camera)
    ensures r.position == cam.position && r.surfaceOffset == cam.surfaceOffset
    ensures r.rotation == cam.rotation && r.projection == cam.projection
    ensures OrientsBy(r, cam.rotation, trig)
  {
    var r := cam.(xRotation := M.XRotation(cam.rotation.x, trig),
                  yRotation := M.YRotation(cam.rotation.y, trig),
                  zRotation := M.ZRotation(cam.rotation.z, trig));
    assert OrientsBy(r, cam.rotation, trig) by {
      forall v ensures Orient(r, v) == M.Rotate(v, Zero, cam.rotation, trig) {
        RotateAboutZero(v, cam.rotation, trig);
      }
    }
    r
  }

  /** The point offset from the camera, rotated by the cached matrices and projected. */
  function Project(cam: Camera, point: Vec3): Vec3 {
    M.Transform(cam.projection, Orient(cam, Sub(point, cam.position)))
  }

  /**
   The perspective divide: `x` and `y` divided by the depth `z`, which is kept.
   The depth must not be zero.
   */
  function PerspectiveDivide(p: Vec3): (r: Vec3)
    requires p.z != 0.0
    ensures r.z == p.z && r.x * p.z == p.x && r.y * p.z == p.y
  {
    Vec3(p.x / p.z, p.y / p.z, p.z)
  }

  /**
   `transform`: world point to screen point, the perspective divide of the projection.
   The screen point keeps the projected depth, and its x and y scaled back by that
   depth are the projected x and y.
   */
  function Transform(cam: Camera, point: Vec3): (r: Vec3)
    requires Project(cam, point).z != 0.0
    ensures var p := Project(cam, point);
            r.z == p.z && r.x * r.z == p.x && r.y * r.z == p.y
  {
    PerspectiveDivide(Project(cam, point))
  }

  // Laws

  /**
   `transform` reads only the position and the cached matrices: changing `rotation`
   without recalculating leaves every result unchanged.
   */
  lemma TransformIgnoresRotationField(cam: Camera, rotation: Vec3, point: Vec3)
    ensures Project(cam.(rotation := rotation), point) == Project(cam, point)
    ensures Project(cam, point).z != 0.0 ==>
              Transform(cam.(rotation := rotation), point) == Transform(cam, point)
  {}

  /** Re-aiming a camera and recalculating yields the camera built with the new angles. */
  lemma RecalculateAfterNew(position: Vec3, d: real, before: Vec3, after: Vec3, trig: Trig)
    requires d != 0.0
    ensures RecalculateMatrices(New(position, d, before, trig).(rotation := after), trig)
         == New(position, d, after, trig)
  {}

  /** Recalculating a freshly built camera changes nothing. */
  lemma RecalculateIdempotent(position: Vec3, d: real, rotation: Vec3, trig: Trig)
    requires d != 0.0
    ensures RecalculateMatrices(New(position, d, rotation, trig), trig) == New(position, d, rotation, trig)
  {}

  /**
   For any camera built by `New`, the projection is the offset of the point from the
   camera, rotated by the camera's angles about the zero vector, with its depth divided by `d`.
   */
  lemma RotatedProject(position: Vec3, d: real, rotation: Vec3, point: Vec3, trig: Trig)
    requires d != 0.0
    ensures var r := M.Rotate(Sub(point, position), Zero, rotation, trig);
            Project(New(position, d, rotation, trig), point) == Vec3(r.x, r.y, r.z / d)
  {}

  /**
   For any camera built by `New`, a point whose rotated offset `r` has nonzero depth
   lands at `(d·r.x/r.z, d·r.y/r.z, r.z/d)` (stated without division).
   */
  lemma RotatedTransform(position: Vec3, d: real, rotation: Vec3, point: Vec3, trig: Trig)
    requires d != 0.0
    requires M.Rotate(Sub(point, position), Zero, rotation, trig).z != 0.0
    ensures Project(New(position, d, rotation, trig), point).z != 0.0
    ensures ScreenPointOf(Transform(New(position, d, rotation, trig), point),
                          M.Rotate(Sub(point, position), Zero, rotation, trig), d)
  {
    var r := M.Rotate(Sub(point, position), Zero, rotation, trig);
    RotatedProject(position, d, rotation, point, trig);
    DepthNonzero(r.z, d);
    DivideScaledDepth(r, d);
  }

  /** With zero rotation the projection only divides the depth of the offset by `d`. */
  lemma UnrotatedProject(position: Vec3, d: real, point: Vec3, trig: Trig)
    requires ZeroAngle(trig) && d != 0.0
    ensures var o := Sub(point, position);
            Project(New(position, d, Zero, trig), point) == Vec3(o.x, o.y, o.z / d)
  {
    var cam := New(position, d, Zero, trig);
    var o := Sub(point, position);
    M.ZeroAngleRotationsAreIdentity(trig);
    M.TransformIdentity(o);
    assert Orient(cam, o) == o;
  }

  /**
   With zero rotation, a point at offset `o` from the camera lands at
   `(d * o.x / o.z, d * o.y / o.z)` with depth `o.z / d` (stated without division).
   */
  lemma UnrotatedTransform(position: Vec3, d: real, point: Vec3, trig: Trig)
    requires ZeroAngle(trig) && d != 0.0
    requires Sub(point, position).z != 0.0
    ensures Project(New(position, d, Zero, trig), point).z != 0.0
    ensures ScreenPointOf(Transform(New(position, d, Zero, trig), point), Sub(point, position), d)
  {
    var o := Sub(point, position);
    UnrotatedProject(position, d, point, trig);
    DepthNonzero(o.z, d);
    DivideScaledDepth(o, d);
  }

  /**
   `r` is the screen point of camera-space offset `o` at image-plane distance `d`:
   `r = (d * o.x / o.z, d * o.y / o.z, o.z / d)`, written without division.
   */
  predicate ScreenPointOf(r: Vec3, o: Vec3, d: real) {
    r.x * o.z == d * o.x && r.y * o.z == d * o.y && r.z * d == o.z
  }

  /** The perspective divide of an offset whose depth was divided by `d`. */
  lemma DivideScaledDepth(o: Vec3, d: real)
    requires d != 0.0 && o.z != 0.0
    ensures o.z / d != 0.0
    ensures ScreenPointOf(PerspectiveDivide(Vec3(o.x, o.y, o.z / d)), o, d)
  {
    DepthNonzero(o.z, d);
    var r := PerspectiveDivide(Vec3(o.x, o.y, o.z / d));
    ClearDepth(r.x, o.x, o.z, d);
    ClearDepth(r.y, o.y, o.z, d);
  }

  /** A nonzero depth stays nonzero when divided by `d`. */
  lemma DepthNonzero(z: real, d: real)
    requires z != 0.0 && d != 0.0
    ensures z / d != 0.0 && (z / d) * d == z
  {}

  /** `a * (z / d) == b` gives `a * z == d * b`. */
  lemma ClearDepth(a: real, b: real, z: real, d: real)
    requires d != 0.0 && a * (z / d) == b
    ensures a * z == d * b
  {
    var q := z / d;
    assert q * d == z;
    assert a * z == (a * q) * d;
  }

  /**
   A point on the axis at depth `z` ahead of an unrotated camera at the origin lands at
   the centre of the screen with depth `z / d`; for example `(0, 0, 5)` maps to `(0, 0, 5 / d)`.
   */
  lemma OnAxis(z: real, d: real, trig: Trig)
    requires ZeroAngle(trig) && d != 0.0 && z != 0.0
    ensures Project(New(Zero, d, Zero, trig), Vec3(0.0, 0.0, z)) == Vec3(0.0, 0.0, z / d)
    ensures z / d != 0.0
    ensures z > 0.0 && d > 0.0 ==> z / d > 0.0
    ensures Transform(New(Zero, d, Zero, trig), Vec3(0.0, 0.0, z)) == Vec3(0.0, 0.0, z / d)
  {
    UnrotatedProject(Zero, d, Vec3(0.0, 0.0, z), trig);
    DepthNonzero(z, d);
    PerspectiveOnAxis(z / d);
  }

  /** A point on the optical axis stays at the centre of the screen. */
  lemma PerspectiveOnAxis(z: real)
    requires z != 0.0
    ensures PerspectiveDivide(Vec3(0.0, 0.0, z)) == Vec3(0.0, 0.0, z)
  {
    var r := PerspectiveDivide(Vec3(0.0, 0.0, z));
    assert r.x * z == 0.0;
    assert r.y * z == 0.0;
  }
}
