/**
 Three-component vectors over the reals: the `Vec3` value type of
 src/renderer/types/vec.rs with its operators written as named functions.
 `f64` is modelled by `real`; a division requires a nonzero divisor instead of
 producing an IEEE infinity or NaN.
 */
module Vectors {

  datatype Vec3 = Vec3(x: real, y: real, z: real)

  const Zero: Vec3 := Vec3(0.0, 0.0, 0.0)

  /** `PartialEq`: exact component-wise comparison, no tolerance. */
  predicate Equal(a: Vec3, b: Vec3) {
    a.x == b.x && a.y == b.y && a.z == b.z
  }

  function Add(a: Vec3, b: Vec3): Vec3 {
    Vec3(a.x + b.x, a.y + b.y, a.z + b.z)
  }

  function Sub(a: Vec3, b: Vec3): Vec3 {
    Vec3(a.x - b.x, a.y - b.y, a.z - b.z)
  }

  function Dot(a: Vec3, b: Vec3): real {
    a.x * b.x + a.y * b.y + a.z * b.z
  }

  /** Right-handed cross product. */
  function Cross(a: Vec3, b: Vec3): Vec3 {
    Vec3(a.y * b.z - a.z * b.y,
         a.z * b.x - a.x * b.z,
         a.x * b.y - a.y * b.x)
  }

  /** The vector multiplied by a scalar (`mul`). */
  function Scale(v: Vec3, k: real): Vec3 {
    Vec3(v.x * k, v.y * k, v.z * k)
  }

  /** The vector divided by a scalar (`div`). */
  function Div(v: Vec3, k: real): Vec3
    requires k != 0.0
  {
    Vec3(v.x / k, v.y / k, v.z / k)
  }

  /** The square of `magnitude`; the model has no square root. */
  function MagnitudeSq(v: Vec3): real {
    v.x * v.x + v.y * v.y + v.z * v.z
  }

  /** `m` is the Euclidean norm of `v`: the value `magnitude` returns. */
  predicate IsMagnitude(v: Vec3, m: real) {
    m >= 0.0 && m * m == MagnitudeSq(v)
  }

  /** `to_unit`: divide by the magnitude `m`, which must be nonzero. */
  function ToUnit(v: Vec3, m: real): (u: Vec3)
    requires IsMagnitude(v, m) && m != 0.0
    ensures MagnitudeSq(u) == 1.0
    ensures Scale(u, m) == v
  {
    var u := Div(v, m);
    assert Scale(u, m) == v;
    ScaleMagnitudeSq(u, m);
    CancelSquare(MagnitudeSq(u), m, MagnitudeSq(v));
    u
  }

  /** Scaling by `k` scales the squared magnitude by `k * k`. */
  lemma ScaleMagnitudeSq(v: Vec3, k: real)
    ensures MagnitudeSq(Scale(v, k)) == MagnitudeSq(v) * (k * k)
  {}

  /** `t * m^2 == m^2` forces `t == 1` when `m` is nonzero. */
  lemma CancelSquare(t: real, m: real, s: real)
    requires m != 0.0 && s == m * m && t * (m * m) == s
    ensures t == 1.0
  {
    var q := t - 1.0;
    assert (q * m) * m == 0.0;
    assert q * m == 0.0;
  }

  /** `add_assign`: the fields updated one at a time, in place. */
  function AddAssign(self: Vec3, other: Vec3): (r: Vec3)
    ensures r == Add(self, other)
  {
    var s1 := self.(x := self.x + other.x);
    var s2 := s1.(y := s1.y + other.y);
    s2.(z := s2.z + other.z)
  }

  /** `sub_assign`: the fields updated one at a time, in place. */
  function SubAssign(self: Vec3, other: Vec3): (r: Vec3)
    ensures r == Sub(self, other)
  {
    var s1 := self.(x := self.x - other.x);
    var s2 := s1.(y := s1.y - other.y);
    s2.(z := s2.z - other.z)
  }

  /** `mul_eq`: the fields scaled one at a time, in place. */
  function MulEq(self: Vec3, scalar: real): (r: Vec3)
    ensures r == Scale(self, scalar)
  {
    var s1 := self.(x := self.x * scalar);
    var s2 := s1.(y := s1.y * scalar);
    s2.(z := s2.z * scalar)
  }

  /** `div_eq`: the fields divided one at a time, in place. */
  function DivEq(self: Vec3, scalar: real): (r: Vec3)
    requires scalar != 0.0
    ensures r == Div(self, scalar)
  {
    var s1 := self.(x := self.x / scalar);
    var s2 := s1.(y := s1.y / scalar);
    s2.(z := s2.z / scalar)
  }

  // Algebraic laws

  /** Component-wise equality is exactly value identity, hence reflexive and symmetric. */
  lemma EqualIsIdentity(a: Vec3, b: Vec3)
    ensures Equal(a, b) <==> a == b
    ensures Equal(a, a)
    ensures Equal(a, b) ==> Equal(b, a)
  {}

  lemma DotCommutative(a: Vec3, b: Vec3)
    ensures Dot(a, b) == Dot(b, a)
  {}

  /** The dot product is additive in its second argument. */
  lemma DotAdditive(r: Vec3, u: Vec3, v: Vec3)
    ensures Dot(r, Add(u, v)) == Dot(r, u) + Dot(r, v)
    ensures Dot(r, Sub(u, v)) == Dot(r, u) - Dot(r, v)
  {
    assert r.x * (u.x + v.x) == r.x * u.x + r.x * v.x;
    assert r.y * (u.y + v.y) == r.y * u.y + r.y * v.y;
    assert r.z * (u.z + v.z) == r.z * u.z + r.z * v.z;
    assert r.x * (u.x - v.x) == r.x * u.x - r.x * v.x;
    assert r.y * (u.y - v.y) == r.y * u.y - r.y * v.y;
    assert r.z * (u.z - v.z) == r.z * u.z - r.z * v.z;
  }

  /** Scaling the second argument scales the dot product. */
  lemma DotHomogeneous(r: Vec3, v: Vec3, k: real)
    ensures Dot(r, Scale(v, k)) == Dot(r, v) * k
  {
    assert r.x * (v.x * k) == (r.x * v.x) * k;
    assert r.y * (v.y * k) == (r.y * v.y) * k;
    assert r.z * (v.z * k) == (r.z * v.z) * k;
  }

  lemma CrossAntiCommutative(a: Vec3, b: Vec3)
    ensures Cross(a, b) == Scale(Cross(b, a), -1.0)
  {}

  /** The cross product is orthogonal to both of its operands. */
  lemma CrossOrthogonal(a: Vec3, b: Vec3)
    ensures Dot(a, Cross(a, b)) == 0.0
    ensures Dot(b, Cross(a, b)) == 0.0
  {}

  lemma SubUndoesAdd(a: Vec3, b: Vec3)
    ensures Sub(Add(a, b), b) == a
    ensures Add(Sub(a, b), b) == a
  {}

  lemma SubSelfIsZero(a: Vec3)
    ensures Sub(a, a) == Zero
  {}

  lemma DivUndoesScale(v: Vec3, k: real)
    requires k != 0.0
    ensures Div(Scale(v, k), k) == v
    ensures Scale(Div(v, k), k) == v
  {}

  lemma MagnitudeSqIsSelfDot(v: Vec3)
    ensures MagnitudeSq(v) == Dot(v, v)
    ensures v == Zero ==> MagnitudeSq(v) == 0.0
  {}

  // Test oracles

  lemma DotOracle()
    ensures Dot(Vec3(2.0, 4.0, 20.0), Vec3(5.0, 8.0, 2.0)) == 82.0
  {}

  lemma CrossOracle()
    ensures Cross(Vec3(2.0, 4.0, 20.0), Vec3(5.0, 8.0, 2.0)) == Vec3(-152.0, 96.0, -4.0)
  {}

  lemma EqualityOracle()
    ensures Equal(Vec3(2.0, 4.0, 20.0), Vec3(2.0, 4.0, 20.0))
  {}
}
