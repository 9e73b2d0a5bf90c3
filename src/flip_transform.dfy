/** The flip matrix of `mirror_job`: translate the flip line's origin to the
    coordinate origin (T), apply the 3x3 block R built from the line's normal,
    and translate back (Ti). The block the code builds is `2 n nT - I`, a
    half-turn about `n`; the Householder reflection `I - 2 n nT` is its
    negation and is defined here only to compare the two. */
module FlipTransform {
  import opened Geometry

  /** T: `unity()`, then `A14, A24, A34 := -origin`. */
  function ToAxisFrame(origin: Vec3): Mat4
  {
    Mat4(1.0, 0.0, 0.0, -origin.x,
         0.0, 1.0, 0.0, -origin.y,
         0.0, 0.0, 1.0, -origin.z)
  }

  /** Ti = `T.inverse()`, the translation by +origin. */
  function FromAxisFrame(origin: Vec3): Mat4
  {
    Translation(origin)
  }

  /** T takes the line's origin to the coordinate origin, and Ti is its two-sided inverse. */
  lemma AxisFrameInverse(origin: Vec3)
    ensures Apply(ToAxisFrame(origin), origin) == Vec3(0.0, 0.0, 0.0)
    ensures Mul(FromAxisFrame(origin), ToAxisFrame(origin)) == Identity()
    ensures Mul(ToAxisFrame(origin), FromAxisFrame(origin)) == Identity()
  {
  }

  /** R: `unity()`, then the nine entries `2 * n_i * n_j - delta_ij`; no translation. */
  function FlipBlock(n: Vec3): (r: Mat4)
    ensures r.a12 == r.a21 && r.a13 == r.a31 && r.a23 == r.a32
    ensures r.a14 == 0.0 && r.a24 == 0.0 && r.a34 == 0.0
  {
    Mat4(2.0 * n.x * n.x - 1.0, 2.0 * n.x * n.y, 2.0 * n.x * n.z, 0.0,
         2.0 * n.x * n.y, 2.0 * n.y * n.y - 1.0, 2.0 * n.y * n.z, 0.0,
         2.0 * n.z * n.x, 2.0 * n.z * n.y, 2.0 * n.z * n.z - 1.0, 0.0)
  }

  /** R sends a direction v to `2 (n . v) n - v`. */
  lemma FlipBlockApply(n: Vec3, v: Vec3)
    ensures ApplyLinear(FlipBlock(n), v) == Sub(Scale(2.0 * Dot(n, v), n), v)
  {
    FlipBlockRow(n.x, n.y, n.z, v.x, v.y, v.z);
  }

  lemma FlipBlockRow(x: real, y: real, z: real, u: real, v: real, w: real)
    ensures Lin(2.0 * x * x - 1.0, 2.0 * x * y, 2.0 * x * z, u, v, w) == 2.0 * Lin(x, y, z, u, v, w) * x - u
    ensures Lin(2.0 * x * y, 2.0 * y * y - 1.0, 2.0 * y * z, u, v, w) == 2.0 * Lin(x, y, z, u, v, w) * y - v
    ensures Lin(2.0 * z * x, 2.0 * z * y, 2.0 * z * z - 1.0, u, v, w) == 2.0 * Lin(x, y, z, u, v, w) * z - w
  {
  }

  /** The Householder reflection across the plane with normal `n`. */
  function Householder(n: Vec3): Mat4
  {
    Mat4(1.0 - 2.0 * n.x * n.x, -2.0 * n.x * n.y, -2.0 * n.x * n.z, 0.0,
         -2.0 * n.x * n.y, 1.0 - 2.0 * n.y * n.y, -2.0 * n.y * n.z, 0.0,
         -2.0 * n.x * n.z, -2.0 * n.y * n.z, 1.0 - 2.0 * n.z * n.z, 0.0)
  }

  /** The flip matrix in closed form: R's block, and the translation that
      keeps `origin` where it is. */
  function FlipMatrix(origin: Vec3, n: Vec3): Mat4
  {
    var r := FlipBlock(n);
    var back := Sub(origin, ApplyLinear(r, origin));
    r.(a14 := back.x, a24 := back.y, a34 := back.z)
  }

  /** Conjugating a linear block by the translations of T and Ti. */
  lemma ConjugateByTranslation(m: Mat4, origin: Vec3)
    requires m.a14 == 0.0 && m.a24 == 0.0 && m.a34 == 0.0
    ensures var back := Sub(origin, ApplyLinear(m, origin));
            Mul(Mul(FromAxisFrame(origin), m), ToAxisFrame(origin)) == m.(a14 := back.x, a24 := back.y, a34 := back.z)
  {
    var left := Mul(FromAxisFrame(origin), m);
    assert left == m.(a14 := origin.x, a24 := origin.y, a34 := origin.z);
    LinNeg(m.a11, m.a12, m.a13, origin.x, origin.y, origin.z);
    LinNeg(m.a21, m.a22, m.a23, origin.x, origin.y, origin.z);
    LinNeg(m.a31, m.a32, m.a33, origin.x, origin.y, origin.z);
  }

  /** `Ti * R * T`, as `mirror_job` multiplies it out, is the flip matrix. */
  lemma FlipMatrixIsProduct(origin: Vec3, n: Vec3)
    ensures Mul(Mul(FromAxisFrame(origin), FlipBlock(n)), ToAxisFrame(origin)) == FlipMatrix(origin, n)
  {
    ConjugateByTranslation(FlipBlock(n), origin);
  }

  /** The flip matrix moves `p` to the axis frame, applies R, and moves it back. */
  lemma FlipMatrixApply(origin: Vec3, n: Vec3, p: Vec3)
    ensures Apply(FlipMatrix(origin, n), p) == Add(ApplyLinear(FlipBlock(n), Sub(p, origin)), origin)
  {
    ApplyLinearSub(FlipBlock(n), p, origin);
  }

  /** For a unit normal, R keeps the normal. */
  lemma FlipBlockKeepsNormal(n: Vec3)
    requires IsUnit(n)
    ensures ApplyLinear(FlipBlock(n), n) == n
  {
    FlipBlockApply(n, n);
    assert Scale(2.0 * Dot(n, n), n) == Scale(2.0, n);
  }

  /** R reverses every direction perpendicular to the normal. */
  lemma FlipBlockReversesPerpendicular(n: Vec3, v: Vec3)
    requires Dot(n, v) == 0.0
    ensures ApplyLinear(FlipBlock(n), v) == Neg(v)
  {
    FlipBlockApply(n, v);
    assert Scale(2.0 * Dot(n, v), n) == Scale(0.0, n);
  }

  /** R applied twice is the identity on directions, for a unit normal. */
  lemma FlipBlockTwice(n: Vec3, v: Vec3)
    requires IsUnit(n)
    ensures ApplyLinear(FlipBlock(n), ApplyLinear(FlipBlock(n), v)) == v
  {
    var d := Dot(n, v);
    var u := Scale(2.0 * d, n);
    var w := Sub(u, v);
    FlipBlockApply(n, v);
    FlipBlockApply(n, w);
    DotSub(n, u, v);
    DotScale(n, 2.0 * d, n);
    assert Dot(n, u) == 2.0 * d;
    assert Dot(n, w) == d;
    assert Scale(2.0 * Dot(n, w), n) == u;
  }

  /** R is a rotation (determinant 1), and the reflection `I - 2 n nT` is not (determinant -1). */
  lemma FlipBlockIsHalfTurn(n: Vec3)
    requires IsUnit(n)
    ensures Det3(FlipBlock(n)) == 1.0
    ensures Det3(Householder(n)) == -1.0
  {
    DetFlip(n.x, n.y, n.z);
    DetHouseholder(n.x, n.y, n.z);
  }

  /** The Householder reflection in `n` is the negation of the block the code builds. */
  lemma HouseholderIsNegatedFlip(n: Vec3, v: Vec3)
    ensures ApplyLinear(Householder(n), v) == Neg(ApplyLinear(FlipBlock(n), v))
  {
    HouseholderRow(n.x, n.y, n.z, v.x, v.y, v.z);
    FlipBlockApply(n, v);
  }

  lemma HouseholderRow(x: real, y: real, z: real, u: real, v: real, w: real)
    ensures Lin(1.0 - 2.0 * x * x, -2.0 * x * y, -2.0 * x * z, u, v, w) == u - 2.0 * Lin(x, y, z, u, v, w) * x
    ensures Lin(-2.0 * x * y, 1.0 - 2.0 * y * y, -2.0 * y * z, u, v, w) == v - 2.0 * Lin(x, y, z, u, v, w) * y
    ensures Lin(-2.0 * x * z, -2.0 * y * z, 1.0 - 2.0 * z * z, u, v, w) == w - 2.0 * Lin(x, y, z, u, v, w) * z
  {
  }

  lemma DetFlip(x: real, y: real, z: real)
    ensures Det3(Mat4(2.0 * x * x - 1.0, 2.0 * x * y, 2.0 * x * z, 0.0,
                      2.0 * x * y, 2.0 * y * y - 1.0, 2.0 * y * z, 0.0,
                      2.0 * z * x, 2.0 * z * y, 2.0 * z * z - 1.0, 0.0))
         == 2.0 * (x * x + y * y + z * z) - 1.0
  {
  }

  lemma DetHouseholder(x: real, y: real, z: real)
    ensures Det3(Mat4(1.0 - 2.0 * x * x, -2.0 * x * y, -2.0 * x * z, 0.0,
                      -2.0 * x * y, 1.0 - 2.0 * y * y, -2.0 * y * z, 0.0,
                      -2.0 * x * z, -2.0 * y * z, 1.0 - 2.0 * z * z, 0.0))
         == 1.0 - 2.0 * (x * x + y * y + z * z)
  {
  }

  /** Every point of the flip line `origin + t n` stays where it is. */
  lemma FlipMatrixFixesLine(origin: Vec3, n: Vec3, t: real)
    requires IsUnit(n)
    ensures Apply(FlipMatrix(origin, n), Add(origin, Scale(t, n))) == Add(origin, Scale(t, n))
  {
    var p := Add(origin, Scale(t, n));
    FlipMatrixApply(origin, n, p);
    assert Sub(p, origin) == Scale(t, n);
    DotScale(n, t, n);
    assert Dot(n, Scale(t, n)) == t;
    FlipBlockApply(n, Scale(t, n));
    assert ApplyLinear(FlipBlock(n), Scale(t, n)) == Sub(Scale(2.0 * t, n), Scale(t, n));
    assert Sub(Scale(2.0 * t, n), Scale(t, n)) == Scale(t, n);
  }

  /** A point off the line, at `origin + v` with `v` perpendicular to `n`, goes to `origin - v`. */
  lemma FlipMatrixTurnsPerpendicular(origin: Vec3, n: Vec3, v: Vec3)
    requires Dot(n, v) == 0.0
    ensures Apply(FlipMatrix(origin, n), Add(origin, v)) == Sub(origin, v)
  {
    FlipMatrixApply(origin, n, Add(origin, v));
    assert Sub(Add(origin, v), origin) == v;
    FlipBlockReversesPerpendicular(n, v);
  }

  /** Applying the flip matrix twice brings every point back. */
  lemma FlipMatrixTwiceApply(origin: Vec3, n: Vec3, p: Vec3)
    requires IsUnit(n)
    ensures Apply(Mul(FlipMatrix(origin, n), FlipMatrix(origin, n)), p) == p
  {
    var m := FlipMatrix(origin, n);
    ApplyMul(m, m, p);
    FlipMatrixApply(origin, n, p);
    var q := Apply(m, p);
    FlipMatrixApply(origin, n, q);
    var d := Sub(p, origin);
    assert Sub(q, origin) == ApplyLinear(FlipBlock(n), d);
    FlipBlockTwice(n, d);
  }

  /** The flip matrix is an involution: `M * M == I` for a unit normal. */
  lemma FlipMatrixInvolution(origin: Vec3, n: Vec3)
    requires IsUnit(n)
    ensures Mul(FlipMatrix(origin, n), FlipMatrix(origin, n)) == Identity()
  {
    var m := FlipMatrix(origin, n);
    FlipMatrixTwiceApply(origin, n, Vec3(0.0, 0.0, 0.0));
    FlipMatrixTwiceApply(origin, n, Vec3(1.0, 0.0, 0.0));
    FlipMatrixTwiceApply(origin, n, Vec3(0.0, 1.0, 0.0));
    FlipMatrixTwiceApply(origin, n, Vec3(0.0, 0.0, 1.0));
    MatrixFromImages(Mul(m, m), Identity());
  }

  /** Flipping a placement twice gives back the placement. */
  lemma FlipTwiceRestoresPlacement(origin: Vec3, n: Vec3, placement: Mat4)
    requires IsUnit(n)
    ensures Mul(FlipMatrix(origin, n), Mul(FlipMatrix(origin, n), placement)) == placement
  {
    var m := FlipMatrix(origin, n);
    MulAssoc(m, m, placement);
    FlipMatrixInvolution(origin, n);
    MulIdentity(placement);
  }
}
