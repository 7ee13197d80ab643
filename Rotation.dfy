// The rotation `Thrust::to_rotated_vector` (game/src/player/mod.rs) applies to
// the thrust vector: the closed-form quaternion-vector product, written without
// building a rotation matrix, and what it does to lengths.
module Rotation {
  import opened Algebra

  /** The closed-form rotation `to_rotated_vector` applies to the thrust
      vector: v (s^2 - |u|^2) + 2 u (u . v) + 2 s (u x v) for the rotation
      with scalar part s and vector part u. */
  function Rotate(v: Vec3, rotation: Quat): Vec3
  {
    Add(Add(Scale(v, rotation.s * rotation.s - NormSq(rotation.u)),
            Scale(Scale(rotation.u, Dot(v, rotation.u)), 2.0)),
        Scale(Scale(Cross(rotation.u, v), rotation.s), 2.0))
  }

  /** The three terms of the closed form, named for the proofs below. */
  function ScaledTerm(v: Vec3, q: Quat): Vec3
  {
    Scale(v, q.s * q.s - NormSq(q.u))
  }

  function AxisTerm(v: Vec3, q: Quat): Vec3
  {
    Scale(Scale(q.u, Dot(v, q.u)), 2.0)
  }

  function CrossTerm(v: Vec3, q: Quat): Vec3
  {
    Scale(Scale(Cross(q.u, v), q.s), 2.0)
  }

  lemma RotateSplit(v: Vec3, q: Quat)
    ensures Rotate(v, q) == Add(Add(ScaledTerm(v, q), AxisTerm(v, q)), CrossTerm(v, q))
  {
  }

  /** With no vector part only the first term remains. */
  lemma VectorFreeTerms(v: Vec3, q: Quat)
    requires q.u == Zero
    ensures AxisTerm(v, q) == Zero && CrossTerm(v, q) == Zero
  {
    CrossZero(v);
    ScaleOfZero(Dot(v, Zero));
    ScaleOfZero(q.s);
    ScaleOfZero(2.0);
  }

  /** A vector part of length 0 leaves only s^2 in the first term. */
  lemma ScaledTermWithoutAxis(v: Vec3, q: Quat)
    requires NormSq(q.u) == 0.0
    ensures ScaledTerm(v, q) == Scale(v, q.s * q.s)
  {
    assert q.s * q.s - NormSq(q.u) == q.s * q.s;
  }

  lemma ScaleByEqual(a: Vec3, j: real, k: real)
    requires j == k
    ensures Scale(a, j) == Scale(a, k)
  {
  }

  lemma AddTwoZeros(a: Vec3)
    ensures Add(Add(a, Zero), Zero) == a
  {
    AddZero(a);
  }

  /** Without a vector part the closed form only scales by s^2. */
  lemma RotateWithoutAxis(v: Vec3, q: Quat)
    requires q.u == Zero
    ensures Rotate(v, q) == Scale(v, q.s * q.s)
  {
    RotateSplit(v, q);
    VectorFreeTerms(v, q);
    AddTwoZeros(ScaledTerm(v, q));
    assert NormSq(q.u) == 0.0;
    ScaledTermWithoutAxis(v, q);
  }

  /** A rotation with scalar part 1 and no vector part (the identity)
      returns the vector unchanged. */
  lemma RotateIdentity(v: Vec3, q: Quat)
    requires q.s == 1.0 && q.u == Zero
    ensures Rotate(v, q) == v
  {
    RotateWithoutAxis(v, q);
    ScaleByEqual(v, q.s * q.s, 1.0);
    ScaleOne(v);
  }

  /** The zero vector rotates to zero under any quaternion. */
  lemma RotateZero(q: Quat)
    ensures Rotate(Zero, q) == Zero
  {
    RotateSplit(Zero, q);
    assert ScaledTerm(Zero, q) == Zero by {
      ScaleOfZero(q.s * q.s - NormSq(q.u));
    }
    assert AxisTerm(Zero, q) == Zero by {
      assert Scale(q.u, Dot(Zero, q.u)) == Zero;
      ScaleOfZero(2.0);
    }
    assert CrossTerm(Zero, q) == Zero by {
      CrossZero(q.u);
      ScaleOfZero(q.s);
      ScaleOfZero(2.0);
    }
    AddZero(Zero);
  }

  lemma ScaledTermLength(v: Vec3, q: Quat)
    ensures NormSq(ScaledTerm(v, q)) == ((q.s * q.s - NormSq(q.u)) * (q.s * q.s - NormSq(q.u))) * NormSq(v)
  {
    NormSqScale(v, q.s * q.s - NormSq(q.u));
  }

  lemma AxisTermLength(v: Vec3, q: Quat)
    ensures NormSq(AxisTerm(v, q)) == ((Dot(v, q.u) * 2.0) * (Dot(v, q.u) * 2.0)) * NormSq(q.u)
  {
    ScaleScale(q.u, Dot(v, q.u), 2.0);
    NormSqScale(q.u, Dot(v, q.u) * 2.0);
  }

  lemma CrossTermLength(v: Vec3, q: Quat)
    ensures NormSq(CrossTerm(v, q)) == ((q.s * 2.0) * (q.s * 2.0)) * NormSq(Cross(q.u, v))
  {
    ScaleScale(Cross(q.u, v), q.s, 2.0);
    NormSqScale(Cross(q.u, v), q.s * 2.0);
  }

  lemma ScaledAxisProduct(v: Vec3, q: Quat)
    ensures Dot(ScaledTerm(v, q), AxisTerm(v, q))
         == ((q.s * q.s - NormSq(q.u)) * (Dot(v, q.u) * 2.0)) * Dot(v, q.u)
  {
    ScaleScale(q.u, Dot(v, q.u), 2.0);
    DotScaleBoth(v, q.u, q.s * q.s - NormSq(q.u), Dot(v, q.u) * 2.0);
  }

  lemma ScaledCrossProduct(v: Vec3, q: Quat)
    ensures Dot(ScaledTerm(v, q), CrossTerm(v, q)) == 0.0
  {
    ScaleScale(Cross(q.u, v), q.s, 2.0);
    DotScaleBoth(v, Cross(q.u, v), q.s * q.s - NormSq(q.u), q.s * 2.0);
    CrossOrthogonal(q.u, v);
  }

  lemma AxisCrossProduct(v: Vec3, q: Quat)
    ensures Dot(AxisTerm(v, q), CrossTerm(v, q)) == 0.0
  {
    ScaleScale(q.u, Dot(v, q.u), 2.0);
    ScaleScale(Cross(q.u, v), q.s, 2.0);
    DotScaleBoth(q.u, Cross(q.u, v), Dot(v, q.u) * 2.0, q.s * 2.0);
    CrossOrthogonal(q.u, v);
  }

  lemma CrossLength(v: Vec3, q: Quat)
    ensures NormSq(Cross(q.u, v)) == NormSq(q.u) * NormSq(v) - Dot(v, q.u) * Dot(v, q.u)
  {
    Lagrange(q.u, v);
    DotSymmetric(q.u, v);
  }

  /** The algebra that closes the length proof, over plain numbers: with
      s the scalar part, n = |u|^2, w = |v|^2, d = u . v and x = |u x v|^2. */
  lemma LengthAlgebra(r: real, na: real, nb: real, nc: real, dab: real, dac: real, dbc: real,
                      s: real, n: real, w: real, d: real, x: real)
    requires r == na + nb + nc + 2.0 * dab + 2.0 * dac + 2.0 * dbc
    requires na == ((s * s - n) * (s * s - n)) * w
    requires nb == ((d * 2.0) * (d * 2.0)) * n
    requires nc == ((s * 2.0) * (s * 2.0)) * x
    requires x == n * w - d * d
    requires dab == ((s * s - n) * (d * 2.0)) * d
    requires dac == 0.0 && dbc == 0.0
    ensures r == (s * s + n) * (s * s + n) * w
  {
  }

  lemma SumOfTermsLength(a: Vec3, b: Vec3, c: Vec3, v: Vec3, q: Quat)
    requires NormSq(a) == ((q.s * q.s - NormSq(q.u)) * (q.s * q.s - NormSq(q.u))) * NormSq(v)
    requires NormSq(b) == ((Dot(v, q.u) * 2.0) * (Dot(v, q.u) * 2.0)) * NormSq(q.u)
    requires NormSq(c) == ((q.s * 2.0) * (q.s * 2.0)) * NormSq(Cross(q.u, v))
    requires Dot(a, b) == ((q.s * q.s - NormSq(q.u)) * (Dot(v, q.u) * 2.0)) * Dot(v, q.u)
    requires Dot(a, c) == 0.0 && Dot(b, c) == 0.0
    ensures NormSq(Add(Add(a, b), c)) == QNormSq(q) * QNormSq(q) * NormSq(v)
  {
    NormSqSum3(a, b, c);
    CrossLength(v, q);
    LengthAlgebra(NormSq(Add(Add(a, b), c)), NormSq(a), NormSq(b), NormSq(c), Dot(a, b), Dot(a, c), Dot(b, c),
                  q.s, NormSq(q.u), NormSq(v), Dot(v, q.u), NormSq(Cross(q.u, v)));
  }

  /** The closed form scales squared length by the square of the quaternion's
      squared norm: a rotation for a unit quaternion, a rotation and a scaling
      otherwise (nothing re-normalises the quaternion). */
  lemma RotateScalesLength(v: Vec3, q: Quat)
    ensures NormSq(Rotate(v, q)) == QNormSq(q) * QNormSq(q) * NormSq(v)
  {
    RotateSplit(v, q);
    ScaledTermLength(v, q);
    AxisTermLength(v, q);
    CrossTermLength(v, q);
    ScaledAxisProduct(v, q);
    ScaledCrossProduct(v, q);
    AxisCrossProduct(v, q);
    SumOfTermsLength(ScaledTerm(v, q), AxisTerm(v, q), CrossTerm(v, q), v, q);
  }

  /** The closed form is the textbook rotation: conjugating the pure
      quaternion of `v` by `q` gives the pure quaternion of `Rotate(v, q)`,
      for every quaternion, unit or not. */
  lemma RotateIsSandwich(v: Vec3, q: Quat)
    ensures Sandwich(v, q) == Pure(Rotate(v, q))
  {
    SandwichScalar(v, q);
    SandwichX(v, q);
    SandwichY(v, q);
    SandwichZ(v, q);
  }

  /** The two halves of the product q v q*, component by component. */
  lemma InnerProduct(v: Vec3, q: Quat)
    ensures Mul(q, Pure(v)) == Quat(-(q.u.x * v.x + q.u.y * v.y + q.u.z * v.z),
      Vec3(q.s * v.x + q.u.y * v.z - q.u.z * v.y,
           q.s * v.y + q.u.z * v.x - q.u.x * v.z,
           q.s * v.z + q.u.x * v.y - q.u.y * v.x))
  {
    MulComponents(q, Pure(v));
  }

  lemma OuterProduct(m: Quat, q: Quat)
    ensures Mul(m, Conj(q)) == Quat(m.s * q.s + m.u.x * q.u.x + m.u.y * q.u.y + m.u.z * q.u.z,
      Vec3(-m.s * q.u.x + m.u.x * q.s - m.u.y * q.u.z + m.u.z * q.u.y,
           -m.s * q.u.y + m.u.x * q.u.z + m.u.y * q.s - m.u.z * q.u.x,
           -m.s * q.u.z - m.u.x * q.u.y + m.u.y * q.u.x + m.u.z * q.s))
  {
    MulComponents(m, Conj(q));
  }

  // The polynomial identities behind each component, over plain numbers:
  // s and (a, b, c) the parts of q, (x, y, z) the vector, m the product q v.

  lemma ScalarAlgebra(s: real, a: real, b: real, c: real, x: real, y: real, z: real,
                      m0: real, m1: real, m2: real, m3: real, r: real)
    requires m0 == -(a * x + b * y + c * z)
    requires m1 == s * x + b * z - c * y
    requires m2 == s * y + c * x - a * z
    requires m3 == s * z + a * y - b * x
    requires r == m0 * s + m1 * a + m2 * b + m3 * c
    ensures r == 0.0
  {
  }

  lemma XAlgebra(s: real, a: real, b: real, c: real, x: real, y: real, z: real,
                 m0: real, m1: real, m2: real, m3: real, r: real,
                 n: real, d: real, k: real)
    requires m0 == -(a * x + b * y + c * z)
    requires m1 == s * x + b * z - c * y
    requires m2 == s * y + c * x - a * z
    requires m3 == s * z + a * y - b * x
    requires r == -m0 * a + m1 * s - m2 * c + m3 * b
    requires n == a * a + b * b + c * c && d == x * a + y * b + z * c && k == b * z - c * y
    ensures r == x * (s * s - n) + a * d * 2.0 + k * s * 2.0
  {
  }

  lemma SandwichScalar(v: Vec3, q: Quat)
    ensures Sandwich(v, q).s == 0.0
  {
    var m := Mul(q, Pure(v));
    InnerProduct(v, q);
    OuterProduct(m, q);
    ScalarAlgebra(q.s, q.u.x, q.u.y, q.u.z, v.x, v.y, v.z, m.s, m.u.x, m.u.y, m.u.z, Sandwich(v, q).s);
  }

  lemma SandwichX(v: Vec3, q: Quat)
    ensures Sandwich(v, q).u.x == Rotate(v, q).x
  {
    var m := Mul(q, Pure(v));
    InnerProduct(v, q);
    OuterProduct(m, q);
    XAlgebra(q.s, q.u.x, q.u.y, q.u.z, v.x, v.y, v.z, m.s, m.u.x, m.u.y, m.u.z, Sandwich(v, q).u.x,
             NormSq(q.u), Dot(v, q.u), Cross(q.u, v).x);
    RotateComponents(v, q);
  }

  lemma YAlgebra(s: real, a: real, b: real, c: real, x: real, y: real, z: real,
                 m0: real, m1: real, m2: real, m3: real, r: real,
                 n: real, d: real, k: real)
    requires m0 == -(a * x + b * y + c * z)
    requires m1 == s * x + b * z - c * y
    requires m2 == s * y + c * x - a * z
    requires m3 == s * z + a * y - b * x
    requires r == -m0 * b + m1 * c + m2 * s - m3 * a
    requires n == a * a + b * b + c * c && d == x * a + y * b + z * c && k == c * x - a * z
    ensures r == y * (s * s - n) + b * d * 2.0 + k * s * 2.0
  {
  }

  lemma ZAlgebra(s: real, a: real, b: real, c: real, x: real, y: real, z: real,
                 m0: real, m1: real, m2: real, m3: real, r: real,
                 n: real, d: real, k: real)
    requires m0 == -(a * x + b * y + c * z)
    requires m1 == s * x + b * z - c * y
    requires m2 == s * y + c * x - a * z
    requires m3 == s * z + a * y - b * x
    requires r == -m0 * c - m1 * b + m2 * a + m3 * s
    requires n == a * a + b * b + c * c && d == x * a + y * b + z * c && k == a * y - b * x
    ensures r == z * (s * s - n) + c * d * 2.0 + k * s * 2.0
  {
  }

  lemma SandwichY(v: Vec3, q: Quat)
    ensures Sandwich(v, q).u.y == Rotate(v, q).y
  {
    var m := Mul(q, Pure(v));
    InnerProduct(v, q);
    OuterProduct(m, q);
    YAlgebra(q.s, q.u.x, q.u.y, q.u.z, v.x, v.y, v.z, m.s, m.u.x, m.u.y, m.u.z, Sandwich(v, q).u.y,
             NormSq(q.u), Dot(v, q.u), Cross(q.u, v).y);
    RotateComponents(v, q);
  }

  lemma SandwichZ(v: Vec3, q: Quat)
    ensures Sandwich(v, q).u.z == Rotate(v, q).z
  {
    var m := Mul(q, Pure(v));
    InnerProduct(v, q);
    OuterProduct(m, q);
    ZAlgebra(q.s, q.u.x, q.u.y, q.u.z, v.x, v.y, v.z, m.s, m.u.x, m.u.y, m.u.z, Sandwich(v, q).u.z,
             NormSq(q.u), Dot(v, q.u), Cross(q.u, v).z);
    RotateComponents(v, q);
  }

  lemma RotateComponents(v: Vec3, q: Quat)
    ensures Rotate(v, q).x == v.x * (q.s * q.s - NormSq(q.u)) + q.u.x * Dot(v, q.u) * 2.0 + Cross(q.u, v).x * q.s * 2.0
    ensures Rotate(v, q).y == v.y * (q.s * q.s - NormSq(q.u)) + q.u.y * Dot(v, q.u) * 2.0 + Cross(q.u, v).y * q.s * 2.0
    ensures Rotate(v, q).z == v.z * (q.s * q.s - NormSq(q.u)) + q.u.z * Dot(v, q.u) * 2.0 + Cross(q.u, v).z * q.s * 2.0
  {
  }
}
