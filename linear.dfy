/**
 * The 4x4 matrix algebra the transform stack works in, over exact reals.
 * Matrices are stored column by column, as glm::mat4 stores them, so that
 * `Apply(m, v)` is glm's `m * v` and `Mul(a, b)` is glm's `a * b`.
 */
module Linear {

  datatype Vec4 = Vec4(x: real, y: real, z: real, w: real)

  /** A 4x4 matrix given by its four columns. */
  datatype Mat4 = Mat4(c0: Vec4, c1: Vec4, c2: Vec4, c3: Vec4)

  /** The homogeneous point (x, y, z, 1) that a vertex call builds. */
  function Point(x: real, y: real, z: real): Vec4 {
    Vec4(x, y, z, 1.0)
  }

  function Dot(r: Vec4, v: Vec4): real {
    r.x * v.x + r.y * v.y + r.z * v.z + r.w * v.w
  }

  function RowX(m: Mat4): Vec4 { Vec4(m.c0.x, m.c1.x, m.c2.x, m.c3.x) }
  function RowY(m: Mat4): Vec4 { Vec4(m.c0.y, m.c1.y, m.c2.y, m.c3.y) }
  function RowZ(m: Mat4): Vec4 { Vec4(m.c0.z, m.c1.z, m.c2.z, m.c3.z) }
  function RowW(m: Mat4): Vec4 { Vec4(m.c0.w, m.c1.w, m.c2.w, m.c3.w) }

  /** m * v: entry i is row i of m dotted with v. */
  function Apply(m: Mat4, v: Vec4): Vec4 {
    Vec4(Dot(RowX(m), v), Dot(RowY(m), v), Dot(RowZ(m), v), Dot(RowW(m), v))
  }

  /** a * b: column j of the product is a applied to column j of b. */
  function Mul(a: Mat4, b: Mat4): Mat4 {
    Mat4(Apply(a, b.c0), Apply(a, b.c1), Apply(a, b.c2), Apply(a, b.c3))
  }

  const Identity: Mat4 :=
    Mat4(Vec4(1.0, 0.0, 0.0, 0.0), Vec4(0.0, 1.0, 0.0, 0.0),
         Vec4(0.0, 0.0, 1.0, 0.0), Vec4(0.0, 0.0, 0.0, 1.0))

  /** The elementary matrix of glm::translate: identity with (x, y, z, 1) as last column. */
  function Translation(x: real, y: real, z: real): Mat4 {
    Mat4(Vec4(1.0, 0.0, 0.0, 0.0), Vec4(0.0, 1.0, 0.0, 0.0),
         Vec4(0.0, 0.0, 1.0, 0.0), Vec4(x, y, z, 1.0))
  }

  /** The elementary matrix of glm::scale: diagonal (x, y, z, 1). */
  function Scaling(x: real, y: real, z: real): Mat4 {
    Mat4(Vec4(x, 0.0, 0.0, 0.0), Vec4(0.0, y, 0.0, 0.0),
         Vec4(0.0, 0.0, z, 0.0), Vec4(0.0, 0.0, 0.0, 1.0))
  }

  /** A row dotted with b * v is the row times b, dotted with v. */
  lemma DotApply(r: Vec4, b: Mat4, v: Vec4)
    ensures Dot(r, Apply(b, v)) == Dot(Vec4(Dot(r, b.c0), Dot(r, b.c1), Dot(r, b.c2), Dot(r, b.c3)), v)
  {
    ExpandByRow(r, b, v);
    ExpandByColumn(r, b, v);
    Regroup(r, b, v);
  }

  /** r . (b * v) as the sixteen products, one row of b after the other. */
  lemma ExpandByRow(r: Vec4, b: Mat4, v: Vec4)
    ensures Dot(r, Apply(b, v)) ==
            r.x * (b.c0.x * v.x) + r.x * (b.c1.x * v.y) + r.x * (b.c2.x * v.z) + r.x * (b.c3.x * v.w) +
            r.y * (b.c0.y * v.x) + r.y * (b.c1.y * v.y) + r.y * (b.c2.y * v.z) + r.y * (b.c3.y * v.w) +
            r.z * (b.c0.z * v.x) + r.z * (b.c1.z * v.y) + r.z * (b.c2.z * v.z) + r.z * (b.c3.z * v.w) +
            r.w * (b.c0.w * v.x) + r.w * (b.c1.w * v.y) + r.w * (b.c2.w * v.z) + r.w * (b.c3.w * v.w)
  {
    Distribute(r.x, b.c0.x * v.x, b.c1.x * v.y, b.c2.x * v.z, b.c3.x * v.w);
    Distribute(r.y, b.c0.y * v.x, b.c1.y * v.y, b.c2.y * v.z, b.c3.y * v.w);
    Distribute(r.z, b.c0.z * v.x, b.c1.z * v.y, b.c2.z * v.z, b.c3.z * v.w);
    Distribute(r.w, b.c0.w * v.x, b.c1.w * v.y, b.c2.w * v.z, b.c3.w * v.w);
  }

  /** (r * b) . v as the sixteen products, one column of b after the other. */
  lemma ExpandByColumn(r: Vec4, b: Mat4, v: Vec4)
    ensures Dot(Vec4(Dot(r, b.c0), Dot(r, b.c1), Dot(r, b.c2), Dot(r, b.c3)), v) ==
            (r.x * b.c0.x) * v.x + (r.y * b.c0.y) * v.x + (r.z * b.c0.z) * v.x + (r.w * b.c0.w) * v.x +
            (r.x * b.c1.x) * v.y + (r.y * b.c1.y) * v.y + (r.z * b.c1.z) * v.y + (r.w * b.c1.w) * v.y +
            (r.x * b.c2.x) * v.z + (r.y * b.c2.y) * v.z + (r.z * b.c2.z) * v.z + (r.w * b.c2.w) * v.z +
            (r.x * b.c3.x) * v.w + (r.y * b.c3.y) * v.w + (r.z * b.c3.z) * v.w + (r.w * b.c3.w) * v.w
  {
    Distribute(v.x, r.x * b.c0.x, r.y * b.c0.y, r.z * b.c0.z, r.w * b.c0.w);
    Distribute(v.y, r.x * b.c1.x, r.y * b.c1.y, r.z * b.c1.z, r.w * b.c1.w);
    Distribute(v.z, r.x * b.c2.x, r.y * b.c2.y, r.z * b.c2.z, r.w * b.c2.w);
    Distribute(v.w, r.x * b.c3.x, r.y * b.c3.y, r.z * b.c3.z, r.w * b.c3.w);
  }

  /** The two expansions are the same sixteen products in another order. */
  lemma Regroup(r: Vec4, b: Mat4, v: Vec4)
    ensures r.x * (b.c0.x * v.x) + r.x * (b.c1.x * v.y) + r.x * (b.c2.x * v.z) + r.x * (b.c3.x * v.w) +
            r.y * (b.c0.y * v.x) + r.y * (b.c1.y * v.y) + r.y * (b.c2.y * v.z) + r.y * (b.c3.y * v.w) +
            r.z * (b.c0.z * v.x) + r.z * (b.c1.z * v.y) + r.z * (b.c2.z * v.z) + r.z * (b.c3.z * v.w) +
            r.w * (b.c0.w * v.x) + r.w * (b.c1.w * v.y) + r.w * (b.c2.w * v.z) + r.w * (b.c3.w * v.w) ==
            (r.x * b.c0.x) * v.x + (r.y * b.c0.y) * v.x + (r.z * b.c0.z) * v.x + (r.w * b.c0.w) * v.x +
            (r.x * b.c1.x) * v.y + (r.y * b.c1.y) * v.y + (r.z * b.c1.z) * v.y + (r.w * b.c1.w) * v.y +
            (r.x * b.c2.x) * v.z + (r.y * b.c2.y) * v.z + (r.z * b.c2.z) * v.z + (r.w * b.c2.w) * v.z +
            (r.x * b.c3.x) * v.w + (r.y * b.c3.y) * v.w + (r.z * b.c3.z) * v.w + (r.w * b.c3.w) * v.w
  {
    Associate(r.x, b.c0.x, v.x);
    Associate(r.x, b.c1.x, v.y);
    Associate(r.x, b.c2.x, v.z);
    Associate(r.x, b.c3.x, v.w);
    Associate(r.y, b.c0.y, v.x);
    Associate(r.y, b.c1.y, v.y);
    Associate(r.y, b.c2.y, v.z);
    Associate(r.y, b.c3.y, v.w);
    Associate(r.z, b.c0.z, v.x);
    Associate(r.z, b.c1.z, v.y);
    Associate(r.z, b.c2.z, v.z);
    Associate(r.z, b.c3.z, v.w);
    Associate(r.w, b.c0.w, v.x);
    Associate(r.w, b.c1.w, v.y);
    Associate(r.w, b.c2.w, v.z);
    Associate(r.w, b.c3.w, v.w);
  }

  lemma Associate(x: real, y: real, z: real)
    ensures x * (y * z) == (x * y) * z
  {
  }

  /** A factor distributes over a sum of four terms. */
  lemma Distribute(k: real, a: real, b: real, c: real, d: real)
    ensures k * (a + b + c + d) == k * a + k * b + k * c + k * d
    ensures (a + b + c + d) * k == a * k + b * k + c * k + d * k
  {
  }

  /**
   * Multiplying matrices composes their actions: the right factor acts first.
   * This is why post-multiplying the model matrix makes a new transform act on
   * the local coordinates of vertices specified after it.
   */
  lemma ApplyMul(a: Mat4, b: Mat4, v: Vec4)
    ensures Apply(Mul(a, b), v) == Apply(a, Apply(b, v))
  {
    DotApply(RowX(a), b, v);
    DotApply(RowY(a), b, v);
    DotApply(RowZ(a), b, v);
    DotApply(RowW(a), b, v);
  }

  /** Matrix multiplication is associative, so a chain of post-multiplications can be regrouped. */
  lemma MulAssoc(a: Mat4, b: Mat4, c: Mat4)
    ensures Mul(Mul(a, b), c) == Mul(a, Mul(b, c))
  {
    ApplyMul(a, b, c.c0);
    ApplyMul(a, b, c.c1);
    ApplyMul(a, b, c.c2);
    ApplyMul(a, b, c.c3);
  }

  /** The identity is neutral on both sides of a product. */
  lemma MulIdentity(m: Mat4)
    ensures Mul(m, Identity) == m && Mul(Identity, m) == m
  {
  }

  /** The identity leaves every vector as it is. */
  lemma ApplyIdentity(v: Vec4)
    ensures Apply(Identity, v) == v
  {
  }

  /**
   * Post-multiplying by a translation moves the local point before the old
   * matrix acts on it.
   */
  lemma TranslateLocal(m: Mat4, tx: real, ty: real, tz: real, x: real, y: real, z: real)
    ensures Apply(Mul(m, Translation(tx, ty, tz)), Point(x, y, z)) == Apply(m, Point(x + tx, y + ty, z + tz))
  {
    ApplyMul(m, Translation(tx, ty, tz), Point(x, y, z));
  }

  /** Post-multiplying by a scaling scales the local point before the old matrix acts on it. */
  lemma ScaleLocal(m: Mat4, sx: real, sy: real, sz: real, x: real, y: real, z: real)
    ensures Apply(Mul(m, Scaling(sx, sy, sz)), Point(x, y, z)) == Apply(m, Point(sx * x, sy * y, sz * z))
  {
    ApplyMul(m, Scaling(sx, sy, sz), Point(x, y, z));
  }

  /** The rotation about the z axis whose angle has cosine c and sine s. */
  function RotationZ(c: real, s: real): Mat4 {
    Mat4(Vec4(c, s, 0.0, 0.0), Vec4(-s, c, 0.0, 0.0),
         Vec4(0.0, 0.0, 1.0, 0.0), Vec4(0.0, 0.0, 0.0, 1.0))
  }

  /**
   * Composition is order sensitive: translating by (1, 0, 0) and then rotating
   * about z keeps the local origin at (1, 0, 0), rotating first sends it to
   * (c, s, 0); the two products agree exactly when the rotation is the identity.
   */
  lemma OrderMatters(c: real, s: real)
    ensures Apply(Mul(Translation(1.0, 0.0, 0.0), RotationZ(c, s)), Point(0.0, 0.0, 0.0)) == Point(1.0, 0.0, 0.0)
    ensures Apply(Mul(RotationZ(c, s), Translation(1.0, 0.0, 0.0)), Point(0.0, 0.0, 0.0)) == Point(c, s, 0.0)
  {
    TranslateThenRotateZ(c, s);
    RotateZThenTranslate(c, s);
    ApplyOrigin(Mul(Translation(1.0, 0.0, 0.0), RotationZ(c, s)));
    ApplyOrigin(Mul(RotationZ(c, s), Translation(1.0, 0.0, 0.0)));
  }

  /** Unless the rotation is the identity, the two orders give different matrices. */
  lemma OrderMattersUnlessIdentity(c: real, s: real)
    requires c != 1.0 || s != 0.0
    ensures Mul(Translation(1.0, 0.0, 0.0), RotationZ(c, s)) != Mul(RotationZ(c, s), Translation(1.0, 0.0, 0.0))
  {
    TranslateThenRotateZ(c, s);
    RotateZThenTranslate(c, s);
  }

  /** Applying any matrix to the origin gives its last column. */
  lemma ApplyOrigin(m: Mat4)
    ensures Apply(m, Point(0.0, 0.0, 0.0)) == m.c3
  {
  }

  lemma TranslateThenRotateZ(c: real, s: real)
    ensures Mul(Translation(1.0, 0.0, 0.0), RotationZ(c, s))
         == Mat4(Vec4(c, s, 0.0, 0.0), Vec4(-s, c, 0.0, 0.0), Vec4(0.0, 0.0, 1.0, 0.0), Point(1.0, 0.0, 0.0))
  {
  }

  lemma RotateZThenTranslate(c: real, s: real)
    ensures Mul(RotationZ(c, s), Translation(1.0, 0.0, 0.0))
         == Mat4(Vec4(c, s, 0.0, 0.0), Vec4(-s, c, 0.0, 0.0), Vec4(0.0, 0.0, 1.0, 0.0), Point(c, s, 0.0))
  {
  }
}
