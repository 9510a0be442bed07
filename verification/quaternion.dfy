/**
 Quaternions (`Quaternion` of src/renderer/types/matrix.rs): magnitude, normalize
 and multiplication. The renderer never calls them. `Mul` is the formula exactly as
 the source writes it. It is not the Hamilton product (see `MulHasZeroDivisors`);
 `HamiltonMul` is the evidently intended product.
 */
module Quaternions {
  import V = Vectors

  /** Fields in the source's order; `w` is the scalar part. */
  datatype Quaternion = Quaternion(x: real, y: real, z: real, w: real)

  /** The square of `magnitude`; the model has no square root. */
  function NormSq(q: Quaternion): real {
    q.x * q.x + q.y * q.y + q.z * q.z + q.w * q.w
  }

  /** `m` is the Euclidean norm of the four components: the value `magnitude` returns. */
  predicate IsMagnitude(q: Quaternion, m: real) {
    m >= 0.0 && m * m == NormSq(q)
  }

  /** `normalize`: divide every component by the magnitude `m`, which must be nonzero. */
  function Normalize(q: Quaternion, m: real): (u: Quaternion)
    requires IsMagnitude(q, m) && m != 0.0
    ensures NormSq(u) == 1.0
    ensures u.x * m == q.x && u.y * m == q.y && u.z * m == q.z && u.w * m == q.w
  {
    var u := Quaternion(q.x / m, q.y / m, q.z / m, q.w / m);
    assert NormSq(u) * (m * m) == NormSq(q) by {
      assert q.x == u.x * m && q.y == u.y * m && q.z == u.z * m && q.w == u.w * m;
      ScaledNormSq(u, m);
    }
    V.CancelSquare(NormSq(u), m, NormSq(q));
    u
  }

  lemma ScaledNormSq(u: Quaternion, m: real)
    ensures NormSq(Quaternion(u.x * m, u.y * m, u.z * m, u.w * m)) == NormSq(u) * (m * m)
  {}

  /**
   `mul` as written: the scalar part of the product is stored in `x`, and the
   `x * other.y` and `x * other.z` terms of the third and fourth components are swapped.
   */
  function Mul(q: Quaternion, other: Quaternion): Quaternion {
    Quaternion(q.w * other.w - q.x * other.x - q.y * other.y - q.z * other.z,
               q.w * other.x + q.x * other.w + q.y * other.z - q.z * other.y,
               q.w * other.y - q.x * other.y + q.y * other.w + q.z * other.x,
               q.w * other.z + q.x * other.z - q.y * other.x + q.z * other.w)
  }

  /**
   `mul` against the Hamilton product: the fields are shifted by one place, the third
   component reads `other.y` where the Hamilton product reads `other.z`, and the
   fourth reads `other.z` where it reads `other.y`.
   */
  lemma MulAgainstHamilton(q: Quaternion, other: Quaternion)
    ensures Mul(q, other)
         == Quaternion(HamiltonMul(q, other).w, HamiltonMul(q, other).x,
                       HamiltonMul(q, other.(z := other.y)).y,
                       HamiltonMul(q, other.(y := other.z)).z)
  {
    MulScalarPart(q, other);
    MulVectorX(q, other);
    MulVectorY(q, other);
    MulVectorZ(q, other);
  }

  lemma MulScalarPart(q: Quaternion, other: Quaternion)
    ensures Mul(q, other).x == HamiltonMul(q, other).w
  {}

  lemma MulVectorX(q: Quaternion, other: Quaternion)
    ensures Mul(q, other).y == HamiltonMul(q, other).x
  {}

  lemma MulVectorY(q: Quaternion, other: Quaternion)
    ensures Mul(q, other).z == HamiltonMul(q, other.(z := other.y)).y
  {}

  lemma MulVectorZ(q: Quaternion, other: Quaternion)
    ensures Mul(q, other).w == HamiltonMul(q, other.(y := other.z)).z
  {}

  const One: Quaternion := Quaternion(0.0, 0.0, 0.0, 1.0)

  /** Multiplying by the unit quaternion rotates the fields: `(x, y, z, w)` becomes `(w, x, y, z)`. */
  lemma MulByOne(q: Quaternion)
    ensures Mul(q, One) == Quaternion(q.w, q.x, q.y, q.z)
  {}

  /** As written, `(1 + i) * j` is zero although neither factor is. */
  lemma MulHasZeroDivisors()
    ensures NormSq(Quaternion(1.0, 0.0, 0.0, 1.0)) == 2.0
    ensures NormSq(Quaternion(0.0, 1.0, 0.0, 0.0)) == 1.0
    ensures Mul(Quaternion(1.0, 0.0, 0.0, 1.0), Quaternion(0.0, 1.0, 0.0, 0.0))
         == Quaternion(0.0, 0.0, 0.0, 0.0)
  {}

  /** The Hamilton product with `w` as the scalar part. */
  function HamiltonMul(q: Quaternion, other: Quaternion): Quaternion {
    Quaternion(q.w * other.x + q.x * other.w + q.y * other.z - q.z * other.y,
               q.w * other.y - q.x * other.z + q.y * other.w + q.z * other.x,
               q.w * other.z + q.x * other.y - q.y * other.x + q.z * other.w,
               q.w * other.w - q.x * other.x - q.y * other.y - q.z * other.z)
  }

  /** The unit quaternion is a two-sided identity of the Hamilton product. */
  lemma HamiltonOne(q: Quaternion)
    ensures HamiltonMul(q, One) == q
    ensures HamiltonMul(One, q) == q
  {}

  const I: Quaternion := Quaternion(1.0, 0.0, 0.0, 0.0)
  const J: Quaternion := Quaternion(0.0, 1.0, 0.0, 0.0)
  const K: Quaternion := Quaternion(0.0, 0.0, 1.0, 0.0)

  /** Left multiplication by i, j and k in closed form. */
  lemma HamiltonByUnits(q: Quaternion)
    ensures HamiltonMul(I, q) == Quaternion(q.w, -q.z, q.y, -q.x)
    ensures HamiltonMul(J, q) == Quaternion(q.z, q.w, -q.x, -q.y)
    ensures HamiltonMul(K, q) == Quaternion(-q.y, q.x, q.w, -q.z)
  {}

  /** i * j = k, j * k = i, k * i = j. */
  lemma HamiltonBasis()
    ensures HamiltonMul(I, J) == K
    ensures HamiltonMul(J, K) == I
    ensures HamiltonMul(K, I) == J
  {
    HamiltonByUnits(J);
    HamiltonByUnits(K);
    HamiltonByUnits(I);
  }
}
