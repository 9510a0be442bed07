/**
 3x3 matrices stored as three column vectors (`Matrix3x3` of
 src/renderer/types/matrix.rs), the per-axis Euler rotation matrices, and the
 free function `rotate` that turns a point about an origin.
 */
module Matrices {
  import opened Vectors
  import opened Trigonometry

  /** A matrix as its three columns; row `i` is `(column1[i], column2[i], column3[i])`. */
  datatype Mat3 = Mat3(column1: Vec3, column2: Vec3, column3: Vec3)

  /** `direct_new`: nine values read in row-major order, stored as columns. */
  function DirectNew(a: real, b: real, c: real,
                     d: real, e: real, f: real,
                     g: real, h: real, i: real): Mat3
  {
    Mat3(Vec3(a, d, g), Vec3(b, e, h), Vec3(c, f, i))
  }

  /** Cofactor expansion along the first row. */
  function Determinant(m: Mat3): real {
    m.column1.x * (m.column2.y * m.column3.z - m.column2.z * m.column3.y)
    - m.column2.x * (m.column1.y * m.column3.z - m.column1.z * m.column3.y)
    + m.column3.x * (m.column1.y * m.column2.z - m.column1.z * m.column2.y)
  }

  /** The matrix-vector product `m * v`. */
  function Transform(m: Mat3, v: Vec3): Vec3 {
    Vec3(m.column1.x * v.x + m.column2.x * v.y + m.column3.x * v.z,
         m.column1.y * v.x + m.column2.y * v.y + m.column3.y * v.z,
         m.column1.z * v.x + m.column2.z * v.y + m.column3.z * v.z)
  }

  // Reference definitions used to state the laws below

  /** The matrix whose columns are the rows of `m`. */
  function Transpose(m: Mat3): Mat3 {
    Mat3(Vec3(m.column1.x, m.column2.x, m.column3.x),
         Vec3(m.column1.y, m.column2.y, m.column3.y),
         Vec3(m.column1.z, m.column2.z, m.column3.z))
  }

  /** The matrix product `a * b`, column by column. */
  function Product(a: Mat3, b: Mat3): Mat3 {
    Mat3(Transform(a, b.column1), Transform(a, b.column2), Transform(a, b.column3))
  }

  const Identity: Mat3 := Mat3(Vec3(1.0, 0.0, 0.0), Vec3(0.0, 1.0, 0.0), Vec3(0.0, 0.0, 1.0))

  /** Rotation by `angle` about the X axis. */
  function XRotation(angle: real, trig: Trig): Mat3 {
    DirectNew(1.0, 0.0, 0.0,
              0.0, trig.cos(angle), trig.sin(angle),
              0.0, -trig.sin(angle), trig.cos(angle))
  }

  /** Rotation by `angle` about the Y axis. */
  function YRotation(angle: real, trig: Trig): Mat3 {
    DirectNew(trig.cos(angle), 0.0, -trig.sin(angle),
              0.0, 1.0, 0.0,
              trig.sin(angle), 0.0, trig.cos(angle))
  }

  /** Rotation by `angle` about the Z axis. */
  function ZRotation(angle: real, trig: Trig): Mat3 {
    DirectNew(trig.cos(angle), trig.sin(angle), 0.0,
              -trig.sin(angle), trig.cos(angle), 0.0,
              0.0, 0.0, 1.0)
  }

  /**
   `rotate`: move `point` into origin-relative space, apply the Z rotation, then Y,
   then X, and move back by `origin`.
   */
  function Rotate(point: Vec3, origin: Vec3, rotation: Vec3, trig: Trig): (r: Vec3)
    ensures Pythagorean(trig) ==> MagnitudeSq(Sub(r, origin)) == MagnitudeSq(Sub(point, origin))
  {
    var relative := Sub(point, origin);
    var afterZ := Transform(ZRotation(rotation.z, trig), relative);
    var afterY := Transform(YRotation(rotation.y, trig), afterZ);
    var turned := Transform(XRotation(rotation.x, trig), afterY);
    assert Pythagorean(trig) ==> MagnitudeSq(Sub(Add(turned, origin), origin)) == MagnitudeSq(relative) by {
      SubUndoesAdd(turned, origin);
      if Pythagorean(trig) {
        AxisRotationsKeepLength(rotation.z, trig, relative);
        AxisRotationsKeepLength(rotation.y, trig, afterZ);
        AxisRotationsKeepLength(rotation.x, trig, afterY);
      }
    }
    Add(turned, origin)
  }

  // Layout of `direct_new`

  /** Row `r` of `DirectNew`'s arguments is the `r`-th output coordinate of the product. */
  lemma DirectNewRowMajor(a: real, b: real, c: real, d: real, e: real, f: real,
                          g: real, h: real, i: real, v: Vec3)
    ensures Transform(DirectNew(a, b, c, d, e, f, g, h, i), v)
         == Vec3(a * v.x + b * v.y + c * v.z,
                 d * v.x + e * v.y + f * v.z,
                 g * v.x + h * v.y + i * v.z)
  {}

  /** `direct_new` builds the transpose of the matrix whose columns are its argument triples. */
  lemma DirectNewIsTranspose(a: real, b: real, c: real, d: real, e: real, f: real,
                             g: real, h: real, i: real)
    ensures DirectNew(a, b, c, d, e, f, g, h, i)
         == Transpose(Mat3(Vec3(a, b, c), Vec3(d, e, f), Vec3(g, h, i)))
  {}

  // Determinant

  /** The cofactor expansion equals the scalar triple product of the columns. */
  lemma DeterminantIsTripleProduct(m: Mat3)
    ensures Determinant(m) == Dot(m.column1, Cross(m.column2, m.column3))
  {}

  lemma DeterminantOfTranspose(m: Mat3)
    ensures Determinant(Transpose(m)) == Determinant(m)
  {}

  lemma DeterminantOfIdentity()
    ensures Determinant(Identity) == 1.0
  {}

  // Transform

  /** Each output coordinate is the dot product of a row with the input. */
  lemma TransformByRows(m: Mat3, v: Vec3)
    ensures Transform(m, v).x == Dot(Transpose(m).column1, v)
    ensures Transform(m, v).y == Dot(Transpose(m).column2, v)
    ensures Transform(m, v).z == Dot(Transpose(m).column3, v)
  {}

  /** The product is the combination of the columns weighted by the input's coordinates. */
  lemma TransformIsColumnCombination(m: Mat3, v: Vec3)
    ensures Transform(m, v) == Add(Add(Scale(m.column1, v.x), Scale(m.column2, v.y)),
                                   Scale(m.column3, v.z))
  {}

  /** `transform` maps zero to zero. */
  lemma TransformZero(m: Mat3)
    ensures Transform(m, Zero) == Zero
  {}

  /** `transform` distributes over addition and subtraction. */
  lemma TransformAdditive(m: Mat3, u: Vec3, v: Vec3)
    ensures Transform(m, Add(u, v)) == Add(Transform(m, u), Transform(m, v))
    ensures Transform(m, Sub(u, v)) == Sub(Transform(m, u), Transform(m, v))
  {
    var t := Transpose(m);
    TransformByRows(m, u);
    TransformByRows(m, v);
    TransformByRows(m, Add(u, v));
    TransformByRows(m, Sub(u, v));
    DotAdditive(t.column1, u, v);
    DotAdditive(t.column2, u, v);
    DotAdditive(t.column3, u, v);
  }

  /** `transform` commutes with scaling. */
  lemma TransformHomogeneous(m: Mat3, v: Vec3, k: real)
    ensures Transform(m, Scale(v, k)) == Scale(Transform(m, v), k)
  {
    var t := Transpose(m);
    TransformByRows(m, v);
    TransformByRows(m, Scale(v, k));
    DotHomogeneous(t.column1, v, k);
    DotHomogeneous(t.column2, v, k);
    DotHomogeneous(t.column3, v, k);
  }

  /** Applying two matrices in turn is applying their product. */
  lemma TransformProduct(a: Mat3, b: Mat3, v: Vec3)
    ensures Transform(a, Transform(b, v)) == Transform(Product(a, b), v)
  {
    var w := Transform(b, v);
    var p := Product(a, b);
    assert w == Add(Add(Scale(b.column1, v.x), Scale(b.column2, v.y)), Scale(b.column3, v.z));
    TransformAdditive(a, Add(Scale(b.column1, v.x), Scale(b.column2, v.y)), Scale(b.column3, v.z));
    TransformAdditive(a, Scale(b.column1, v.x), Scale(b.column2, v.y));
    TransformHomogeneous(a, b.column1, v.x);
    TransformHomogeneous(a, b.column2, v.y);
    TransformHomogeneous(a, b.column3, v.z);
    TransformIsColumnCombination(p, v);
  }

  lemma TransformIdentity(v: Vec3)
    ensures Transform(Identity, v) == v
  {}

  // Rotation

  /** `rotate` applies the single matrix X * Y * Z about the origin. */
  lemma RotateIsComposite(point: Vec3, origin: Vec3, rotation: Vec3, trig: Trig)
    ensures Rotate(point, origin, rotation, trig)
         == Add(Transform(Product(XRotation(rotation.x, trig),
                                  Product(YRotation(rotation.y, trig),
                                          ZRotation(rotation.z, trig))),
                          Sub(point, origin)),
                origin)
  {
    var x := XRotation(rotation.x, trig);
    var y := YRotation(rotation.y, trig);
    var z := ZRotation(rotation.z, trig);
    var r := Sub(point, origin);
    TransformProduct(y, z, r);
    TransformProduct(x, Product(y, z), r);
  }

  /** The origin is a fixed point of every rotation about it. */
  lemma RotateFixesOrigin(origin: Vec3, rotation: Vec3, trig: Trig)
    ensures Rotate(origin, origin, rotation, trig) == origin
  {
    SubSelfIsZero(origin);
    TransformZero(ZRotation(rotation.z, trig));
    TransformZero(YRotation(rotation.y, trig));
    TransformZero(XRotation(rotation.x, trig));
  }

  /** With sin 0 = 0 and cos 0 = 1 every axis matrix at angle zero is the identity. */
  lemma ZeroAngleRotationsAreIdentity(trig: Trig)
    requires ZeroAngle(trig)
    ensures XRotation(0.0, trig) == Identity
    ensures YRotation(0.0, trig) == Identity
    ensures ZRotation(0.0, trig) == Identity
  {}

  /** Rotating by the zero angles leaves every point where it is. */
  lemma RotateByZeroIsIdentity(point: Vec3, origin: Vec3, trig: Trig)
    requires ZeroAngle(trig)
    ensures Rotate(point, origin, Zero, trig) == point
  {
    ZeroAngleRotationsAreIdentity(trig);
    var r := Sub(point, origin);
    TransformIdentity(r);
    SubUndoesAdd(point, origin);
  }

  /** Given sin^2 + cos^2 = 1, every axis rotation has determinant 1. */
  lemma AxisRotationsAreUnimodular(angle: real, trig: Trig)
    requires Pythagorean(trig)
    ensures Determinant(XRotation(angle, trig)) == 1.0
    ensures Determinant(YRotation(angle, trig)) == 1.0
    ensures Determinant(ZRotation(angle, trig)) == 1.0
  {
    var c, s := trig.cos(angle), trig.sin(angle);
    assert s * s + c * c == 1.0;
  }

  /** A plane rotation by (c, s) with c^2 + s^2 = 1 keeps the sum of squares. */
  lemma PlaneRotationKeepsLength(c: real, s: real, p: real, q: real)
    requires c * c + s * s == 1.0
    ensures (c * p + s * q) * (c * p + s * q) + (-s * p + c * q) * (-s * p + c * q)
         == p * p + q * q
  {
    calc {
      (c * p + s * q) * (c * p + s * q) + (-s * p + c * q) * (-s * p + c * q);
      (c * c + s * s) * (p * p) + (c * c + s * s) * (q * q);
      p * p + q * q;
    }
  }

  /** Given sin^2 + cos^2 = 1, every axis rotation keeps the squared length of a vector. */
  lemma AxisRotationsKeepLength(angle: real, trig: Trig, v: Vec3)
    requires Pythagorean(trig)
    ensures MagnitudeSq(Transform(XRotation(angle, trig), v)) == MagnitudeSq(v)
    ensures MagnitudeSq(Transform(YRotation(angle, trig), v)) == MagnitudeSq(v)
    ensures MagnitudeSq(Transform(ZRotation(angle, trig), v)) == MagnitudeSq(v)
  {
    var c, s := trig.cos(angle), trig.sin(angle);
    assert c * c + s * s == 1.0;
    XRotationKeepsLength(angle, c, s, trig, v);
    YRotationKeepsLength(angle, c, s, trig, v);
    ZRotationKeepsLength(angle, c, s, trig, v);
  }

  lemma XRotationKeepsLength(angle: real, c: real, s: real, trig: Trig, v: Vec3)
    requires c == trig.cos(angle) && s == trig.sin(angle) && c * c + s * s == 1.0
    ensures MagnitudeSq(Transform(XRotation(angle, trig), v)) == MagnitudeSq(v)
  {
    var t := Transform(XRotation(angle, trig), v);
    assert t.x == v.x && t.y == c * v.y + s * v.z && t.z == -s * v.y + c * v.z;
    PlaneRotationKeepsLength(c, s, v.y, v.z);
  }

  lemma YRotationKeepsLength(angle: real, c: real, s: real, trig: Trig, v: Vec3)
    requires c == trig.cos(angle) && s == trig.sin(angle) && c * c + s * s == 1.0
    ensures MagnitudeSq(Transform(YRotation(angle, trig), v)) == MagnitudeSq(v)
  {
    var t := Transform(YRotation(angle, trig), v);
    assert t.x == c * v.x + (-s) * v.z && t.y == v.y && t.z == -(-s) * v.x + c * v.z;
    assert c * c + (-s) * (-s) == 1.0;
    PlaneRotationKeepsLength(c, -s, v.x, v.z);
  }

  lemma ZRotationKeepsLength(angle: real, c: real, s: real, trig: Trig, v: Vec3)
    requires c == trig.cos(angle) && s == trig.sin(angle) && c * c + s * s == 1.0
    ensures MagnitudeSq(Transform(ZRotation(angle, trig), v)) == MagnitudeSq(v)
  {
    var t := Transform(ZRotation(angle, trig), v);
    assert t.x == c * v.x + s * v.y && t.y == -s * v.x + c * v.y && t.z == v.z;
    PlaneRotationKeepsLength(c, s, v.x, v.y);
  }

  // Test oracles

  lemma DeterminantOracle()
    ensures Determinant(Mat3(Vec3(0.0, 5.0, 8.0), Vec3(3.0, 2.0, 10.0), Vec3(5.0, 1.0, 6.0))) == 104.0
  {}

  lemma TransformOracle()
    ensures Transform(Mat3(Vec3(0.0, 5.0, 8.0), Vec3(3.0, 2.0, 10.0), Vec3(5.0, 1.0, 6.0)),
                      Vec3(4.0, 3.0, 12.0))
         == Vec3(69.0, 38.0, 134.0)
  {}
}
