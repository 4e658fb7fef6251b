/** Exact-arithmetic stand-in for glm::vec3 and the few glm operations the solver uses. */
module Vectors {

  /** A 3-component vector; `float` components become `real`. */
  datatype Vec3 = Vec3(x: real, y: real, z: real)

  /** glm::vec3(0.0f) */
  const ZERO: Vec3 := Vec3(0.0, 0.0, 0.0)

  function Add(a: Vec3, b: Vec3): Vec3 {
    Vec3(a.x + b.x, a.y + b.y, a.z + b.z)
  }

  function Sub(a: Vec3, b: Vec3): Vec3 {
    Vec3(a.x - b.x, a.y - b.y, a.z - b.z)
  }

  function Neg(a: Vec3): Vec3 {
    Vec3(-a.x, -a.y, -a.z)
  }

  /** Scalar times vector (glm's `s * v` and `v * s`). */
  function Scale(s: real, a: Vec3): Vec3 {
    Vec3(s * a.x, s * a.y, s * a.z)
  }

  /** Vector divided by a scalar (glm's `v / s`). */
  function Div(a: Vec3, s: real): Vec3
    requires s != 0.0
  {
    Vec3(a.x / s, a.y / s, a.z / s)
  }

  /** glm::dot */
  function Dot(a: Vec3, b: Vec3): real {
    a.x * b.x + a.y * b.y + a.z * b.z
  }

  /** `v[i]` for i in 0..2 */
  function Component(v: Vec3, i: nat): real
    requires i < 3
  {
    if i == 0 then v.x else if i == 1 then v.y else v.z
  }

  /** `v[i] = c` for i in 0..2 */
  function WithComponent(v: Vec3, i: nat, c: real): Vec3
    requires i < 3
  {
    if i == 0 then v.(x := c) else if i == 1 then v.(y := c) else v.(z := c)
  }

  /**
   * What the solver relies on of glm::length: it is the non-negative square root
   * of the dot product of a vector with itself. glm::length is a library call with
   * no definition here, so the solver takes it as a parameter constrained by this.
   */
  ghost predicate IsLength(length: Vec3 -> real) {
    forall v: Vec3 :: length(v) >= 0.0 && length(v) * length(v) == Dot(v, v)
  }

  /**
   * The product of two reals. Facts about products are proved once, for two
   * independent factors, in the lemmas below, and used through this name.
   */
  function Mul(a: real, b: real): real {
    a * b
  }

  lemma MulSigns(a: real, b: real)
    ensures a > 0.0 && b > 0.0 ==> Mul(a, b) > 0.0
    ensures a < 0.0 && b < 0.0 ==> Mul(a, b) > 0.0
    ensures a > 0.0 && b < 0.0 ==> Mul(a, b) < 0.0
    ensures a == 0.0 || b == 0.0 ==> Mul(a, b) == 0.0
    ensures Mul(-a, -b) == Mul(a, b)
    ensures Mul(a, -b) == -Mul(a, b)
    ensures Mul(a, b) == Mul(b, a)
  {
  }

  lemma MulLeft(c: real, p: real, q: real)
    requires c >= 0.0 && p <= q
    ensures Mul(c, p) <= Mul(c, q)
  {
    assert c * (q - p) >= 0.0;
  }

  lemma MulLeftStrict(c: real, p: real, q: real)
    requires c > 0.0 && p < q
    ensures Mul(c, p) < Mul(c, q)
  {
    assert c * (q - p) > 0.0;
  }

  lemma SquareFacts(a: real)
    ensures Mul(a, a) >= 0.0
    ensures a != 0.0 ==> Mul(a, a) > 0.0
  {
    MulSigns(a, a);
  }

  /** Two non-negative reals with equal squares are equal. */
  lemma SquareRootUnique(a: real, b: real)
    requires a >= 0.0 && b >= 0.0 && Mul(a, a) == Mul(b, b)
    ensures a == b
  {
    if a < b {
      MulLeft(a, a, b);
      MulLeftStrict(b, a, b);
      MulSigns(a, b);
    } else if b < a {
      MulLeft(b, b, a);
      MulLeftStrict(a, b, a);
      MulSigns(a, b);
    }
  }

  lemma DotSelfPositive(v: Vec3)
    ensures Dot(v, v) >= 0.0
    ensures v != ZERO ==> Dot(v, v) > 0.0
  {
    SquareFacts(v.x);
    SquareFacts(v.y);
    SquareFacts(v.z);
    assert Dot(v, v) == Mul(v.x, v.x) + Mul(v.y, v.y) + Mul(v.z, v.z);
    if v.x == 0.0 && v.y == 0.0 && v.z == 0.0 {
      assert v == ZERO;
    }
  }

  lemma DotOfNeg(v: Vec3)
    ensures Dot(Neg(v), Neg(v)) == Dot(v, v)
  {
    MulSigns(v.x, v.x);
    MulSigns(v.y, v.y);
    MulSigns(v.z, v.z);
    assert Dot(Neg(v), Neg(v)) == Mul(-v.x, -v.x) + Mul(-v.y, -v.y) + Mul(-v.z, -v.z);
    assert Dot(v, v) == Mul(v.x, v.x) + Mul(v.y, v.y) + Mul(v.z, v.z);
  }

  /** |a - b|^2 == |b - a|^2 */
  lemma DotSubSymmetric(a: Vec3, b: Vec3)
    ensures Dot(Sub(a, b), Sub(a, b)) == Dot(Sub(b, a), Sub(b, a))
  {
    assert Sub(b, a) == Neg(Sub(a, b));
    DotOfNeg(Sub(a, b));
  }

  /** A length function vanishes exactly at the zero vector. */
  lemma LengthZeroIff(length: Vec3 -> real, v: Vec3)
    requires IsLength(length)
    ensures length(v) >= 0.0
    ensures length(v) == 0.0 <==> v == ZERO
  {
    var l := length(v);
    assert Mul(l, l) == Dot(v, v);
    DotSelfPositive(v);
    SquareFacts(l);
    MulSigns(l, l);
  }

  /** A length function is even: |-v| == |v|. */
  lemma LengthOfNeg(length: Vec3 -> real, v: Vec3)
    requires IsLength(length)
    ensures length(Neg(v)) == length(v)
  {
    var a, b := length(Neg(v)), length(v);
    assert Mul(a, a) == Dot(Neg(v), Neg(v));
    assert Mul(b, b) == Dot(v, v);
    DotOfNeg(v);
    SquareRootUnique(a, b);
  }

  lemma ComponentOfWith(v: Vec3, i: nat, j: nat, c: real)
    requires i < 3 && j < 3
    ensures Component(WithComponent(v, i, c), j) == if i == j then c else Component(v, j)
  {
  }
}
