/** Points, vectors and the 4x4 affine matrices the flip transform is built
    from. A matrix keeps FreeCAD's entry names `A11` .. `A34`; its fourth row
    is fixed at (0, 0, 0, 1), so every matrix here is an affine map.
    Every sum of three products goes through `Lin`, so that the polynomial
    identities behind the matrix laws are proved once, in small lemmas over
    plain reals. */
module Geometry {

  /** A FreeCAD `App.Vector`: used both for points and for directions. */
  datatype Vec3 = Vec3(x: real, y: real, z: real)

  /** p1*q1 + p2*q2 + p3*q3 */
  function Lin(p1: real, p2: real, p3: real, q1: real, q2: real, q3: real): real
  {
    p1 * q1 + p2 * q2 + p3 * q3
  }

  function Add(u: Vec3, v: Vec3): Vec3 { Vec3(u.x + v.x, u.y + v.y, u.z + v.z) }

  function Sub(u: Vec3, v: Vec3): Vec3 { Vec3(u.x - v.x, u.y - v.y, u.z - v.z) }

  function Neg(v: Vec3): Vec3 { Vec3(-v.x, -v.y, -v.z) }

  function Scale(k: real, v: Vec3): Vec3 { Vec3(k * v.x, k * v.y, k * v.z) }

  function Dot(u: Vec3, v: Vec3): real { Lin(u.x, u.y, u.z, v.x, v.y, v.z) }

  /** The square of `Vector.Length`; comparing squares avoids the square root. */
  function NormSq(v: Vec3): real { Dot(v, v) }

  function AbsReal(a: real): real { if a < 0.0 then -a else a }

  /** `abs(vector)`: the component-wise absolute value. */
  function AbsVec(v: Vec3): Vec3 { Vec3(AbsReal(v.x), AbsReal(v.y), AbsReal(v.z)) }

  predicate IsUnit(v: Vec3) { NormSq(v) == 1.0 }

  lemma NormSqScale(k: real, v: Vec3)
    ensures NormSq(Scale(k, v)) == k * k * NormSq(v)
  {
    assert NormSq(Scale(k, v)) == (k * k) * (v.x * v.x) + (k * k) * (v.y * v.y) + (k * k) * (v.z * v.z);
  }

  /** `Vector.normalize()` of a non-null `v`, given its length `length` (a
      square root, which the caller supplies): the unit vector pointing along
      `v`. */
  function Normalize(v: Vec3, length: real): (u: Vec3)
    requires length > 0.0 && length * length == NormSq(v)
    ensures IsUnit(u)
    ensures Scale(length, u) == v
  {
    var k := 1.0 / length;
    NormSqScale(k, v);
    assert k * k * (length * length) == 1.0;
    assert length * k == 1.0;
    assert Scale(length, Scale(k, v)) == Scale(length * k, v);
    Scale(k, v)
  }

  lemma NormSqAbs(v: Vec3)
    ensures NormSq(AbsVec(v)) == NormSq(v)
  {
    assert AbsReal(v.x) * AbsReal(v.x) == v.x * v.x;
    assert AbsReal(v.y) * AbsReal(v.y) == v.y * v.y;
    assert AbsReal(v.z) * AbsReal(v.z) == v.z * v.z;
  }

  /** An affine matrix: rows (a11 a12 a13 a14), (a21 .. a24), (a31 .. a34), (0 0 0 1). */
  datatype Mat4 = Mat4(a11: real, a12: real, a13: real, a14: real,
                       a21: real, a22: real, a23: real, a24: real,
                       a31: real, a32: real, a33: real, a34: real)

  /** `App.Matrix()` and `Matrix.unity()`. */
  function Identity(): Mat4
  {
    Mat4(1.0, 0.0, 0.0, 0.0,
         0.0, 1.0, 0.0, 0.0,
         0.0, 0.0, 1.0, 0.0)
  }

  /** The matrix that moves every point by `v`. */
  function Translation(v: Vec3): Mat4
  {
    Mat4(1.0, 0.0, 0.0, v.x,
         0.0, 1.0, 0.0, v.y,
         0.0, 0.0, 1.0, v.z)
  }

  /** The matrix product `m * n` (apply `n` first, then `m`). */
  function Mul(m: Mat4, n: Mat4): Mat4
  {
    Mat4(Lin(m.a11, m.a12, m.a13, n.a11, n.a21, n.a31),
         Lin(m.a11, m.a12, m.a13, n.a12, n.a22, n.a32),
         Lin(m.a11, m.a12, m.a13, n.a13, n.a23, n.a33),
         Lin(m.a11, m.a12, m.a13, n.a14, n.a24, n.a34) + m.a14,
         Lin(m.a21, m.a22, m.a23, n.a11, n.a21, n.a31),
         Lin(m.a21, m.a22, m.a23, n.a12, n.a22, n.a32),
         Lin(m.a21, m.a22, m.a23, n.a13, n.a23, n.a33),
         Lin(m.a21, m.a22, m.a23, n.a14, n.a24, n.a34) + m.a24,
         Lin(m.a31, m.a32, m.a33, n.a11, n.a21, n.a31),
         Lin(m.a31, m.a32, m.a33, n.a12, n.a22, n.a32),
         Lin(m.a31, m.a32, m.a33, n.a13, n.a23, n.a33),
         Lin(m.a31, m.a32, m.a33, n.a14, n.a24, n.a34) + m.a34)
  }

  /** `m * v` on an `App.Vector`: the full affine map, translation included. */
  function Apply(m: Mat4, v: Vec3): Vec3
  {
    Vec3(Lin(m.a11, m.a12, m.a13, v.x, v.y, v.z) + m.a14,
         Lin(m.a21, m.a22, m.a23, v.x, v.y, v.z) + m.a24,
         Lin(m.a31, m.a32, m.a33, v.x, v.y, v.z) + m.a34)
  }

  /** The 3x3 linear block applied to a direction (no translation). */
  function ApplyLinear(m: Mat4, v: Vec3): Vec3
  {
    Vec3(Lin(m.a11, m.a12, m.a13, v.x, v.y, v.z),
         Lin(m.a21, m.a22, m.a23, v.x, v.y, v.z),
         Lin(m.a31, m.a32, m.a33, v.x, v.y, v.z))
  }

  /** The determinant of the 3x3 linear block. */
  function Det3(m: Mat4): real
  {
    m.a11 * (m.a22 * m.a33 - m.a23 * m.a32)
    - m.a12 * (m.a21 * m.a33 - m.a23 * m.a31)
    + m.a13 * (m.a21 * m.a32 - m.a22 * m.a31)
  }

  /** One entry of a triple product: row p of a, column q of c, through b. */
  lemma LinAssoc(p1: real, p2: real, p3: real,
                 b11: real, b12: real, b13: real,
                 b21: real, b22: real, b23: real,
                 b31: real, b32: real, b33: real,
                 q1: real, q2: real, q3: real)
    ensures Lin(Lin(p1, p2, p3, b11, b21, b31), Lin(p1, p2, p3, b12, b22, b32), Lin(p1, p2, p3, b13, b23, b33), q1, q2, q3)
         == Lin(p1, p2, p3, Lin(b11, b12, b13, q1, q2, q3), Lin(b21, b22, b23, q1, q2, q3), Lin(b31, b32, b33, q1, q2, q3))
  {
  }

  lemma LinAdd(p1: real, p2: real, p3: real, q1: real, q2: real, q3: real, r1: real, r2: real, r3: real)
    ensures Lin(p1, p2, p3, q1 + r1, q2 + r2, q3 + r3) == Lin(p1, p2, p3, q1, q2, q3) + Lin(p1, p2, p3, r1, r2, r3)
  {
  }

  lemma LinSub(p1: real, p2: real, p3: real, q1: real, q2: real, q3: real, r1: real, r2: real, r3: real)
    ensures Lin(p1, p2, p3, q1 - r1, q2 - r2, q3 - r3) == Lin(p1, p2, p3, q1, q2, q3) - Lin(p1, p2, p3, r1, r2, r3)
  {
  }

  lemma LinNeg(p1: real, p2: real, p3: real, q1: real, q2: real, q3: real)
    ensures Lin(p1, p2, p3, -q1, -q2, -q3) == -Lin(p1, p2, p3, q1, q2, q3)
  {
  }

  /** The linear block distributes over the difference of two vectors. */
  lemma ApplyLinearSub(m: Mat4, a: Vec3, b: Vec3)
    ensures ApplyLinear(m, Sub(a, b)) == Sub(ApplyLinear(m, a), ApplyLinear(m, b))
  {
    LinSub(m.a11, m.a12, m.a13, a.x, a.y, a.z, b.x, b.y, b.z);
    LinSub(m.a21, m.a22, m.a23, a.x, a.y, a.z, b.x, b.y, b.z);
    LinSub(m.a31, m.a32, m.a33, a.x, a.y, a.z, b.x, b.y, b.z);
  }

  lemma MulIdentity(m: Mat4)
    ensures Mul(Identity(), m) == m && Mul(m, Identity()) == m
  {
  }

  lemma MulAssoc(a: Mat4, b: Mat4, c: Mat4)
    ensures Mul(Mul(a, b), c) == Mul(a, Mul(b, c))
  {
    RowAssoc(a.a11, a.a12, a.a13, b, c);
    RowAssoc(a.a21, a.a22, a.a23, b, c);
    RowAssoc(a.a31, a.a32, a.a33, b, c);
  }

  lemma RowAssoc(p1: real, p2: real, p3: real, b: Mat4, c: Mat4)
    ensures Lin(Lin(p1, p2, p3, b.a11, b.a21, b.a31), Lin(p1, p2, p3, b.a12, b.a22, b.a32), Lin(p1, p2, p3, b.a13, b.a23, b.a33), c.a11, c.a21, c.a31)
         == Lin(p1, p2, p3, Lin(b.a11, b.a12, b.a13, c.a11, c.a21, c.a31), Lin(b.a21, b.a22, b.a23, c.a11, c.a21, c.a31), Lin(b.a31, b.a32, b.a33, c.a11, c.a21, c.a31))
    ensures Lin(Lin(p1, p2, p3, b.a11, b.a21, b.a31), Lin(p1, p2, p3, b.a12, b.a22, b.a32), Lin(p1, p2, p3, b.a13, b.a23, b.a33), c.a12, c.a22, c.a32)
         == Lin(p1, p2, p3, Lin(b.a11, b.a12, b.a13, c.a12, c.a22, c.a32), Lin(b.a21, b.a22, b.a23, c.a12, c.a22, c.a32), Lin(b.a31, b.a32, b.a33, c.a12, c.a22, c.a32))
    ensures Lin(Lin(p1, p2, p3, b.a11, b.a21, b.a31), Lin(p1, p2, p3, b.a12, b.a22, b.a32), Lin(p1, p2, p3, b.a13, b.a23, b.a33), c.a13, c.a23, c.a33)
         == Lin(p1, p2, p3, Lin(b.a11, b.a12, b.a13, c.a13, c.a23, c.a33), Lin(b.a21, b.a22, b.a23, c.a13, c.a23, c.a33), Lin(b.a31, b.a32, b.a33, c.a13, c.a23, c.a33))
    ensures Lin(Lin(p1, p2, p3, b.a11, b.a21, b.a31), Lin(p1, p2, p3, b.a12, b.a22, b.a32), Lin(p1, p2, p3, b.a13, b.a23, b.a33), c.a14, c.a24, c.a34)
            + Lin(p1, p2, p3, b.a14, b.a24, b.a34)
         == Lin(p1, p2, p3, Lin(b.a11, b.a12, b.a13, c.a14, c.a24, c.a34) + b.a14,
                            Lin(b.a21, b.a22, b.a23, c.a14, c.a24, c.a34) + b.a24,
                            Lin(b.a31, b.a32, b.a33, c.a14, c.a24, c.a34) + b.a34)
  {
    LinAssoc(p1, p2, p3, b.a11, b.a12, b.a13, b.a21, b.a22, b.a23, b.a31, b.a32, b.a33, c.a11, c.a21, c.a31);
    LinAssoc(p1, p2, p3, b.a11, b.a12, b.a13, b.a21, b.a22, b.a23, b.a31, b.a32, b.a33, c.a12, c.a22, c.a32);
    LinAssoc(p1, p2, p3, b.a11, b.a12, b.a13, b.a21, b.a22, b.a23, b.a31, b.a32, b.a33, c.a13, c.a23, c.a33);
    LinAssoc(p1, p2, p3, b.a11, b.a12, b.a13, b.a21, b.a22, b.a23, b.a31, b.a32, b.a33, c.a14, c.a24, c.a34);
    LinAdd(p1, p2, p3, Lin(b.a11, b.a12, b.a13, c.a14, c.a24, c.a34), Lin(b.a21, b.a22, b.a23, c.a14, c.a24, c.a34),
           Lin(b.a31, b.a32, b.a33, c.a14, c.a24, c.a34), b.a14, b.a24, b.a34);
  }

  lemma ApplyMul(m: Mat4, n: Mat4, v: Vec3)
    ensures Apply(Mul(m, n), v) == Apply(m, Apply(n, v))
  {
    var nv := Apply(n, v);
    LinAssoc(m.a11, m.a12, m.a13, n.a11, n.a12, n.a13, n.a21, n.a22, n.a23, n.a31, n.a32, n.a33, v.x, v.y, v.z);
    LinAssoc(m.a21, m.a22, m.a23, n.a11, n.a12, n.a13, n.a21, n.a22, n.a23, n.a31, n.a32, n.a33, v.x, v.y, v.z);
    LinAssoc(m.a31, m.a32, m.a33, n.a11, n.a12, n.a13, n.a21, n.a22, n.a23, n.a31, n.a32, n.a33, v.x, v.y, v.z);
    LinAdd(m.a11, m.a12, m.a13, Lin(n.a11, n.a12, n.a13, v.x, v.y, v.z), Lin(n.a21, n.a22, n.a23, v.x, v.y, v.z), Lin(n.a31, n.a32, n.a33, v.x, v.y, v.z), n.a14, n.a24, n.a34);
    LinAdd(m.a21, m.a22, m.a23, Lin(n.a11, n.a12, n.a13, v.x, v.y, v.z), Lin(n.a21, n.a22, n.a23, v.x, v.y, v.z), Lin(n.a31, n.a32, n.a33, v.x, v.y, v.z), n.a14, n.a24, n.a34);
    LinAdd(m.a31, m.a32, m.a33, Lin(n.a11, n.a12, n.a13, v.x, v.y, v.z), Lin(n.a21, n.a22, n.a23, v.x, v.y, v.z), Lin(n.a31, n.a32, n.a33, v.x, v.y, v.z), n.a14, n.a24, n.a34);
  }

  lemma DotScale(u: Vec3, k: real, v: Vec3)
    ensures Dot(u, Scale(k, v)) == k * Dot(u, v)
  {
    assert u.x * (k * v.x) + u.y * (k * v.y) + u.z * (k * v.z) == k * (u.x * v.x + u.y * v.y + u.z * v.z);
  }

  lemma DotSub(u: Vec3, a: Vec3, b: Vec3)
    ensures Dot(u, Sub(a, b)) == Dot(u, a) - Dot(u, b)
  {
    assert u.x * (a.x - b.x) + u.y * (a.y - b.y) + u.z * (a.z - b.z)
        == (u.x * a.x + u.y * a.y + u.z * a.z) - (u.x * b.x + u.y * b.y + u.z * b.z);
  }

  /** An affine matrix is determined by where it sends the origin and the three unit points. */
  lemma MatrixFromImages(a: Mat4, b: Mat4)
    requires Apply(a, Vec3(0.0, 0.0, 0.0)) == Apply(b, Vec3(0.0, 0.0, 0.0))
    requires Apply(a, Vec3(1.0, 0.0, 0.0)) == Apply(b, Vec3(1.0, 0.0, 0.0))
    requires Apply(a, Vec3(0.0, 1.0, 0.0)) == Apply(b, Vec3(0.0, 1.0, 0.0))
    requires Apply(a, Vec3(0.0, 0.0, 1.0)) == Apply(b, Vec3(0.0, 0.0, 1.0))
    ensures a == b
  {
  }
}
