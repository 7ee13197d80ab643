// Vectors and quaternions over the reals: the part of the linear-algebra
// library (nalgebra's Vector3, Quaternion and UnitQuaternion) that the player
// and camera scripts use. f32 rounding is not modelled.
module Algebra {

  /** A 3-component vector. */
  datatype Vec3 = Vec3(x: real, y: real, z: real)

  /** A quaternion with scalar part `s` and vector part `u` (nalgebra's
      `scalar()` and `vector()`). */
  datatype Quat = Quat(s: real, u: Vec3)

  const Zero: Vec3 := Vec3(0.0, 0.0, 0.0)
  const XAxis: Vec3 := Vec3(1.0, 0.0, 0.0)
  const YAxis: Vec3 := Vec3(0.0, 1.0, 0.0)
  const ZAxis: Vec3 := Vec3(0.0, 0.0, 1.0)

  /** The identity rotation: scalar part 1, vector part zero. */
  const Identity: Quat := Quat(1.0, Zero)

  function Add(a: Vec3, b: Vec3): Vec3
  {
    Vec3(a.x + b.x, a.y + b.y, a.z + b.z)
  }

  function Neg(a: Vec3): Vec3
  {
    Vec3(-a.x, -a.y, -a.z)
  }

  function Scale(a: Vec3, k: real): Vec3
  {
    Vec3(a.x * k, a.y * k, a.z * k)
  }

  function Dot(a: Vec3, b: Vec3): real
  {
    a.x * b.x + a.y * b.y + a.z * b.z
  }

  function Cross(a: Vec3, b: Vec3): Vec3
  {
    Vec3(a.y * b.z - a.z * b.y, a.z * b.x - a.x * b.z, a.x * b.y - a.y * b.x)
  }

  /** The squared length (nalgebra's `magnitude_squared`). */
  function NormSq(a: Vec3): real
  {
    Dot(a, a)
  }

  /** The squared norm of a quaternion; 1 for a unit quaternion. */
  function QNormSq(q: Quat): real
  {
    q.s * q.s + NormSq(q.u)
  }

  predicate IsUnit(q: Quat)
  {
    QNormSq(q) == 1.0
  }

  /** The quaternion whose scalar part is 0 and whose vector part is `v`. */
  function Pure(v: Vec3): Quat
  {
    Quat(0.0, v)
  }

  function Conj(q: Quat): Quat
  {
    Quat(q.s, Neg(q.u))
  }

  /** The Hamilton product `p * q`, which composes rotations: rotating by
      `p * q` rotates by `q` first and then by `p`. */
  function Mul(p: Quat, q: Quat): Quat
  {
    Quat(p.s * q.s - Dot(p.u, q.u),
         Add(Add(Scale(q.u, p.s), Scale(p.u, q.s)), Cross(p.u, q.u)))
  }

  /** The textbook rotation of `v` by `q`: the vector part of `q v q*`. */
  function Sandwich(v: Vec3, q: Quat): Quat
  {
    Mul(Mul(q, Pure(v)), Conj(q))
  }

  lemma MulIdentity(q: Quat)
    ensures Mul(Identity, q) == q && Mul(q, Identity) == q
  {
  }

  /** The norm of a product is the product of the norms, so a product of
      unit quaternions is a unit quaternion. */
  lemma MulNorm(p: Quat, q: Quat)
    ensures QNormSq(Mul(p, q)) == QNormSq(p) * QNormSq(q)
  {
    MulComponents(p, q);
    QNormSqComponents(Mul(p, q));
    QNormSqComponents(p);
    QNormSqComponents(q);
    FourSquaresFor(QNormSq(Mul(p, q)), QNormSq(p), QNormSq(q),
                   Mul(p, q).s, Mul(p, q).u.x, Mul(p, q).u.y, Mul(p, q).u.z,
                   p.s, p.u.x, p.u.y, p.u.z, q.s, q.u.x, q.u.y, q.u.z);
  }

  lemma UnitMul(p: Quat, q: Quat)
    requires IsUnit(p) && IsUnit(q)
    ensures IsUnit(Mul(p, q))
  {
    MulNorm(p, q);
  }

  lemma MulComponents(p: Quat, q: Quat)
    ensures Mul(p, q).s == p.s * q.s - p.u.x * q.u.x - p.u.y * q.u.y - p.u.z * q.u.z
    ensures Mul(p, q).u.x == p.s * q.u.x + p.u.x * q.s + p.u.y * q.u.z - p.u.z * q.u.y
    ensures Mul(p, q).u.y == p.s * q.u.y - p.u.x * q.u.z + p.u.y * q.s + p.u.z * q.u.x
    ensures Mul(p, q).u.z == p.s * q.u.z + p.u.x * q.u.y - p.u.y * q.u.x + p.u.z * q.s
  {
    MulScalarPart(p, q);
    MulVectorX(p, q);
    MulVectorY(p, q);
    MulVectorZ(p, q);
  }

  lemma MulScalarPart(p: Quat, q: Quat)
    ensures Mul(p, q).s == p.s * q.s - p.u.x * q.u.x - p.u.y * q.u.y - p.u.z * q.u.z
  {
  }

  lemma MulVectorX(p: Quat, q: Quat)
    ensures Mul(p, q).u.x == p.s * q.u.x + p.u.x * q.s + p.u.y * q.u.z - p.u.z * q.u.y
  {
  }

  lemma MulVectorY(p: Quat, q: Quat)
    ensures Mul(p, q).u.y == p.s * q.u.y - p.u.x * q.u.z + p.u.y * q.s + p.u.z * q.u.x
  {
  }

  lemma MulVectorZ(p: Quat, q: Quat)
    ensures Mul(p, q).u.z == p.s * q.u.z + p.u.x * q.u.y - p.u.y * q.u.x + p.u.z * q.s
  {
  }

  lemma QNormSqComponents(m: Quat)
    ensures QNormSq(m) == m.s * m.s + m.u.x * m.u.x + m.u.y * m.u.y + m.u.z * m.u.z
  {
  }

  /** Euler's four-square identity. */
  lemma FourSquares(a1: real, a2: real, a3: real, a4: real, b1: real, b2: real, b3: real, b4: real)
    ensures (a1 * b1 - a2 * b2 - a3 * b3 - a4 * b4) * (a1 * b1 - a2 * b2 - a3 * b3 - a4 * b4)
          + (a1 * b2 + a2 * b1 + a3 * b4 - a4 * b3) * (a1 * b2 + a2 * b1 + a3 * b4 - a4 * b3)
          + (a1 * b3 - a2 * b4 + a3 * b1 + a4 * b2) * (a1 * b3 - a2 * b4 + a3 * b1 + a4 * b2)
          + (a1 * b4 + a2 * b3 - a3 * b2 + a4 * b1) * (a1 * b4 + a2 * b3 - a3 * b2 + a4 * b1)
         == (a1 * a1 + a2 * a2 + a3 * a3 + a4 * a4) * (b1 * b1 + b2 * b2 + b3 * b3 + b4 * b4)
  {
  }

  /** The four-square identity with the products and norms named. */
  lemma FourSquaresFor(nc: real, na: real, nb: real, c1: real, c2: real, c3: real, c4: real,
                       a1: real, a2: real, a3: real, a4: real, b1: real, b2: real, b3: real, b4: real)
    requires c1 == a1 * b1 - a2 * b2 - a3 * b3 - a4 * b4
    requires c2 == a1 * b2 + a2 * b1 + a3 * b4 - a4 * b3
    requires c3 == a1 * b3 - a2 * b4 + a3 * b1 + a4 * b2
    requires c4 == a1 * b4 + a2 * b3 - a3 * b2 + a4 * b1
    requires nc == c1 * c1 + c2 * c2 + c3 * c3 + c4 * c4
    requires na == a1 * a1 + a2 * a2 + a3 * a3 + a4 * a4
    requires nb == b1 * b1 + b2 * b2 + b3 * b3 + b4 * b4
    ensures nc == na * nb
  {
    SquaresOf(c1, c2, c3, c4, a1, a2, a3, a4, b1, b2, b3, b4);
    ProductCongruence(c1 * c1 + c2 * c2 + c3 * c3 + c4 * c4,
                      a1 * a1 + a2 * a2 + a3 * a3 + a4 * a4,
                      b1 * b1 + b2 * b2 + b3 * b3 + b4 * b4, nc, na, nb);
  }

  lemma SquaresOf(c1: real, c2: real, c3: real, c4: real,
                  a1: real, a2: real, a3: real, a4: real, b1: real, b2: real, b3: real, b4: real)
    requires c1 == a1 * b1 - a2 * b2 - a3 * b3 - a4 * b4
    requires c2 == a1 * b2 + a2 * b1 + a3 * b4 - a4 * b3
    requires c3 == a1 * b3 - a2 * b4 + a3 * b1 + a4 * b2
    requires c4 == a1 * b4 + a2 * b3 - a3 * b2 + a4 * b1
    ensures c1 * c1 + c2 * c2 + c3 * c3 + c4 * c4
         == (a1 * a1 + a2 * a2 + a3 * a3 + a4 * a4) * (b1 * b1 + b2 * b2 + b3 * b3 + b4 * b4)
  {
    FourSquares(a1, a2, a3, a4, b1, b2, b3, b4);
  }

  lemma ProductCongruence(c: real, a: real, b: real, nc: real, na: real, nb: real)
    requires c == a * b && nc == c && na == a && nb == b
    ensures nc == na * nb
  {
  }

  // Identities of vector algebra the rotation proofs are built from.

  lemma ScaleOne(a: Vec3)
    ensures Scale(a, 1.0) == a
  {
  }

  lemma ScaleOfZero(k: real)
    ensures Scale(Zero, k) == Zero
  {
  }

  lemma AddZero(a: Vec3)
    ensures Add(a, Zero) == a && Add(Zero, a) == a
  {
  }

  lemma ScaleScale(a: Vec3, j: real, k: real)
    ensures Scale(Scale(a, j), k) == Scale(a, j * k)
  {
  }

  lemma DotSymmetric(a: Vec3, b: Vec3)
    ensures Dot(a, b) == Dot(b, a)
  {
  }

  lemma DotScaleBoth(a: Vec3, b: Vec3, j: real, k: real)
    ensures Dot(Scale(a, j), Scale(b, k)) == (j * k) * Dot(a, b)
  {
  }

  lemma NormSqScale(a: Vec3, k: real)
    ensures NormSq(Scale(a, k)) == (k * k) * NormSq(a)
  {
  }

  lemma NormSqSum3(a: Vec3, b: Vec3, c: Vec3)
    ensures NormSq(Add(Add(a, b), c))
         == NormSq(a) + NormSq(b) + NormSq(c) + 2.0 * Dot(a, b) + 2.0 * Dot(a, c) + 2.0 * Dot(b, c)
  {
  }

  /** The cross product is orthogonal to both factors. */
  lemma CrossOrthogonal(a: Vec3, b: Vec3)
    ensures Dot(a, Cross(a, b)) == 0.0 && Dot(b, Cross(a, b)) == 0.0
  {
  }

  /** Lagrange's identity. */
  lemma Lagrange(a: Vec3, b: Vec3)
    ensures NormSq(Cross(a, b)) == NormSq(a) * NormSq(b) - Dot(a, b) * Dot(a, b)
  {
  }

  lemma CrossZero(a: Vec3)
    ensures Cross(Zero, a) == Zero && Cross(a, Zero) == Zero
  {
  }
}
