/**
 * The 4x4 matrix and 3-vector helpers of src/matrix.ts, also bundled as module 799 of
 * docs/_static/embed-bundle.js (which adds m4Transpose). A matrix is a flat list of
 * 16 numbers in row-major order: entry (i, j) sits at index 4 * i + j. JavaScript
 * doubles are modelled as reals, so rounding is not modelled; the rotations take
 * the cosine c and sine s of the angle instead of computing them.
 */
module Matrix {

  type Mat4 = m: seq<real> | |m| == 16
    witness [1.0, 0.0, 0.0, 0.0, 0.0, 1.0, 0.0, 0.0, 0.0, 0.0, 1.0, 0.0, 0.0, 0.0, 0.0, 1.0]

  type Vec3 = v: seq<real> | |v| == 3 witness [0.0, 0.0, 0.0]

  /** The identity matrix, used to state the algebraic laws. */
  function Identity(): Mat4
  {
    [ 1.0, 0.0, 0.0, 0.0,
      0.0, 1.0, 0.0, 0.0,
      0.0, 0.0, 1.0, 0.0,
      0.0, 0.0, 0.0, 1.0 ]
  }

  /**
   * Perspective frustum (`frustrum`). JavaScript divides by zero without failing
   * (Infinity or NaN); the reals cannot, so degenerate boxes are excluded.
   */
  function Frustrum(left: real, right: real, bottom: real, top: real, near: real, far: real): (r: Mat4)
    requires right != left && top != bottom && far != near
    ensures r[14] == -1.0 && r[15] == 0.0
    ensures left == -right ==> r[2] == 0.0
    ensures bottom == -top ==> r[6] == 0.0
  {
    var a := (right + left) / (right - left);
    var b := (top + bottom) / (top - bottom);
    var c := -(far + near) / (far - near);
    var d := -2.0 * far * near / (far - near);
    var e := 2.0 * near / (right - left);
    var f := 2.0 * near / (top - bottom);
    [ e, 0.0, a, 0.0,
      0.0, f, b, 0.0,
      0.0, 0.0, c, d,
      0.0, 0.0, -1.0, 0.0 ]
  }

  /**
   * `m4ProjectionMatrix(fov_y, aspect_ratio, near, far)`: the frustum centred on the
   * view axis whose half-height at the near plane is `near * tan(fov_y / 2)`. The
   * tangent is the parameter `tanHalfFov` (Math.tan is outside this model).
   */
  function ProjectionMatrix(tanHalfFov: real, aspectRatio: real, near: real, far: real): (r: Mat4)
    requires near * tanHalfFov != 0.0 && aspectRatio != 0.0 && far != near
    ensures r[2] == 0.0 && r[6] == 0.0 && r[14] == -1.0 && r[15] == 0.0
  {
    var ymax := near * tanHalfFov;
    var xmax := ymax * aspectRatio;
    Frustrum(-xmax, xmax, -ymax, ymax, near, far)
  }

  /** `m4Transpose` (bundle only): entry (i, j) moves to (j, i). */
  function Transpose(m: Mat4): Mat4
  {
    [ m[0], m[4], m[8], m[12],
      m[1], m[5], m[9], m[13],
      m[2], m[6], m[10], m[14],
      m[3], m[7], m[11], m[15] ]
  }

  /** `m4getTranslation`: the last column, rows 0 to 2; it is row 3 of the transpose. */
  function GetTranslation(m: Mat4): (r: Vec3)
    ensures r == Transpose(m)[12..15]
  {
    [m[3], m[7], m[11]]
  }

  /** `m4getColumnI`: column 0, rows 0 to 2; it is row 0 of the transpose. */
  function GetColumnI(m: Mat4): (r: Vec3)
    ensures r == Transpose(m)[0..3]
  {
    [m[0], m[4], m[8]]
  }

  /** `m4getColumnJ`: column 1, rows 0 to 2; it is row 1 of the transpose. */
  function GetColumnJ(m: Mat4): (r: Vec3)
    ensures r == Transpose(m)[4..7]
  {
    [m[1], m[5], m[9]]
  }

  /** `m4getColumnK`: column 2, rows 0 to 2; it is row 2 of the transpose. */
  function GetColumnK(m: Mat4): (r: Vec3)
    ensures r == Transpose(m)[8..11]
  {
    [m[2], m[6], m[10]]
  }

  /** `vec3Add`. */
  function Vec3Add(a: Vec3, b: Vec3): (r: Vec3)
    ensures forall i | 0 <= i < 3 :: r[i] == a[i] + b[i]
  {
    [a[0] + b[0], a[1] + b[1], a[2] + b[2]]
  }

  /** `vec3Scale`. */
  function Vec3Scale(a: Vec3, scale: real): (r: Vec3)
    ensures forall i | 0 <= i < 3 :: r[i] == a[i] * scale
  {
    [a[0] * scale, a[1] * scale, a[2] * scale]
  }

  /** `m4Translation`. */
  function Translation(tx: real, ty: real, tz: real): (r: Mat4)
    ensures GetTranslation(r) == [tx, ty, tz]
  {
    [ 1.0, 0.0, 0.0, tx,
      0.0, 1.0, 0.0, ty,
      0.0, 0.0, 1.0, tz,
      0.0, 0.0, 0.0, 1.0 ]
  }

  /** `m4Xrotation`, with c = cos(angle) and s = sin(angle). */
  function XRotation(c: real, s: real): Mat4
  {
    [ 1.0, 0.0, 0.0, 0.0,
      0.0, c, -s, 0.0,
      0.0, s, c, 0.0,
      0.0, 0.0, 0.0, 1.0 ]
  }

  /** `m4Yrotation`, with c = cos(angle) and s = sin(angle). */
  function YRotation(c: real, s: real): Mat4
  {
    [ c, 0.0, s, 0.0,
      0.0, 1.0, 0.0, 0.0,
      -s, 0.0, c, 0.0,
      0.0, 0.0, 0.0, 1.0 ]
  }

  /** `m4Zrotation`, with c = cos(angle) and s = sin(angle). */
  function ZRotation(c: real, s: real): Mat4
  {
    [ c, -s, 0.0, 0.0,
      s, c, 0.0, 0.0,
      0.0, 0.0, 1.0, 0.0,
      0.0, 0.0, 0.0, 1.0 ]
  }

  /** `m4Scale`. */
  function Scale(sx: real, sy: real, sz: real): (r: Mat4)
    ensures Transpose(r) == r
    ensures GetTranslation(r) == [0.0, 0.0, 0.0]
  {
    [ sx, 0.0, 0.0, 0.0,
      0.0, sy, 0.0, 0.0,
      0.0, 0.0, sz, 0.0,
      0.0, 0.0, 0.0, 1.0 ]
  }

  /** `m4dot(b, a)`: the product b * a, written out entry by entry. */
  function Dot(b: Mat4, a: Mat4): Mat4
  {
    [ b[0] * a[0] + b[1] * a[4] + b[2] * a[8] + b[3] * a[12],
      b[0] * a[1] + b[1] * a[5] + b[2] * a[9] + b[3] * a[13],
      b[0] * a[2] + b[1] * a[6] + b[2] * a[10] + b[3] * a[14],
      b[0] * a[3] + b[1] * a[7] + b[2] * a[11] + b[3] * a[15],
      b[4] * a[0] + b[5] * a[4] + b[6] * a[8] + b[7] * a[12],
      b[4] * a[1] + b[5] * a[5] + b[6] * a[9] + b[7] * a[13],
      b[4] * a[2] + b[5] * a[6] + b[6] * a[10] + b[7] * a[14],
      b[4] * a[3] + b[5] * a[7] + b[6] * a[11] + b[7] * a[15],
      b[8] * a[0] + b[9] * a[4] + b[10] * a[8] + b[11] * a[12],
      b[8] * a[1] + b[9] * a[5] + b[10] * a[9] + b[11] * a[13],
      b[8] * a[2] + b[9] * a[6] + b[10] * a[10] + b[11] * a[14],
      b[8] * a[3] + b[9] * a[7] + b[10] * a[11] + b[11] * a[15],
      b[12] * a[0] + b[13] * a[4] + b[14] * a[8] + b[15] * a[12],
      b[12] * a[1] + b[13] * a[5] + b[14] * a[9] + b[15] * a[13],
      b[12] * a[2] + b[13] * a[6] + b[14] * a[10] + b[15] * a[14],
      b[12] * a[3] + b[13] * a[7] + b[14] * a[11] + b[15] * a[15] ]
  }

  /**
   * The sixteen cofactors that `m4inverse` computes before scaling, with its
   * 24 products of pairs named as in the source.
   */
  function Adjugate(m: Mat4): Mat4
  {
    var tmp0 := m[10] * m[15];
    var tmp1 := m[14] * m[11];
    var tmp2 := m[6] * m[15];
    var tmp3 := m[14] * m[7];
    var tmp4 := m[6] * m[11];
    var tmp5 := m[10] * m[7];
    var tmp6 := m[2] * m[15];
    var tmp7 := m[14] * m[3];
    var tmp8 := m[2] * m[11];
    var tmp9 := m[10] * m[3];
    var tmp10 := m[2] * m[7];
    var tmp11 := m[6] * m[3];
    var tmp12 := m[8] * m[13];
    var tmp13 := m[12] * m[9];
    var tmp14 := m[4] * m[13];
    var tmp15 := m[12] * m[5];
    var tmp16 := m[4] * m[9];
    var tmp17 := m[8] * m[5];
    var tmp18 := m[0] * m[13];
    var tmp19 := m[12] * m[1];
    var tmp20 := m[0] * m[9];
    var tmp21 := m[8] * m[1];
    var tmp22 := m[0] * m[5];
    var tmp23 := m[4] * m[1];
    [ (tmp0 * m[5] + tmp3 * m[9] + tmp4 * m[13]) - (tmp1 * m[5] + tmp2 * m[9] + tmp5 * m[13]),
      (tmp1 * m[1] + tmp6 * m[9] + tmp9 * m[13]) - (tmp0 * m[1] + tmp7 * m[9] + tmp8 * m[13]),
      (tmp2 * m[1] + tmp7 * m[5] + tmp10 * m[13]) - (tmp3 * m[1] + tmp6 * m[5] + tmp11 * m[13]),
      (tmp5 * m[1] + tmp8 * m[5] + tmp11 * m[9]) - (tmp4 * m[1] + tmp9 * m[5] + tmp10 * m[9]),
      (tmp1 * m[4] + tmp2 * m[8] + tmp5 * m[12]) - (tmp0 * m[4] + tmp3 * m[8] + tmp4 * m[12]),
      (tmp0 * m[0] + tmp7 * m[8] + tmp8 * m[12]) - (tmp1 * m[0] + tmp6 * m[8] + tmp9 * m[12]),
      (tmp3 * m[0] + tmp6 * m[4] + tmp11 * m[12]) - (tmp2 * m[0] + tmp7 * m[4] + tmp10 * m[12]),
      (tmp4 * m[0] + tmp9 * m[4] + tmp10 * m[8]) - (tmp5 * m[0] + tmp8 * m[4] + tmp11 * m[8]),
      (tmp12 * m[7] + tmp15 * m[11] + tmp16 * m[15]) - (tmp13 * m[7] + tmp14 * m[11] + tmp17 * m[15]),
      (tmp13 * m[3] + tmp18 * m[11] + tmp21 * m[15]) - (tmp12 * m[3] + tmp19 * m[11] + tmp20 * m[15]),
      (tmp14 * m[3] + tmp19 * m[7] + tmp22 * m[15]) - (tmp15 * m[3] + tmp18 * m[7] + tmp23 * m[15]),
      (tmp17 * m[3] + tmp20 * m[7] + tmp23 * m[11]) - (tmp16 * m[3] + tmp21 * m[7] + tmp22 * m[11]),
      (tmp14 * m[10] + tmp17 * m[14] + tmp13 * m[6]) - (tmp16 * m[14] + tmp12 * m[6] + tmp15 * m[10]),
      (tmp20 * m[14] + tmp12 * m[2] + tmp19 * m[10]) - (tmp18 * m[10] + tmp21 * m[14] + tmp13 * m[2]),
      (tmp18 * m[6] + tmp23 * m[14] + tmp15 * m[2]) - (tmp22 * m[14] + tmp14 * m[2] + tmp19 * m[6]),
      (tmp22 * m[10] + tmp16 * m[2] + tmp21 * m[6]) - (tmp20 * m[6] + tmp23 * m[10] + tmp17 * m[2]) ]
  }

  /** The denominator of `m4inverse`: the cofactor expansion of the determinant along column 0. */
  function Det(m: Mat4): real
  {
    var t := Adjugate(m);
    m[0] * t[0] + m[4] * t[1] + m[8] * t[2] + m[12] * t[3]
  }

  /**
   * `m4inverse`: every cofactor times d = 1 / Det(m). JavaScript yields Infinity
   * or NaN entries when the determinant is zero; the model excludes that case.
   */
  function Inverse(m: Mat4): Mat4
    requires Det(m) != 0.0
  {
    var t := Adjugate(m);
    var d := 1.0 / Det(m);
    [ d * t[0], d * t[1], d * t[2], d * t[3],
      d * t[4], d * t[5], d * t[6], d * t[7],
      d * t[8], d * t[9], d * t[10], d * t[11],
      d * t[12], d * t[13], d * t[14], d * t[15] ]
  }

  /** Row i of b times column j of a. */
  function RowByColumn(b: Mat4, a: Mat4, i: nat, j: nat): real
    requires i < 4 && j < 4
  {
    b[4 * i] * a[j] + b[4 * i + 1] * a[4 + j] + b[4 * i + 2] * a[8 + j] + b[4 * i + 3] * a[12 + j]
  }

  lemma DotRow0(b: Mat4, a: Mat4)
    ensures Dot(b, a)[0] == RowByColumn(b, a, 0, 0)
    ensures Dot(b, a)[1] == RowByColumn(b, a, 0, 1)
    ensures Dot(b, a)[2] == RowByColumn(b, a, 0, 2)
    ensures Dot(b, a)[3] == RowByColumn(b, a, 0, 3)
  {
  }

  lemma DotRow1(b: Mat4, a: Mat4)
    ensures Dot(b, a)[4] == RowByColumn(b, a, 1, 0)
    ensures Dot(b, a)[5] == RowByColumn(b, a, 1, 1)
    ensures Dot(b, a)[6] == RowByColumn(b, a, 1, 2)
    ensures Dot(b, a)[7] == RowByColumn(b, a, 1, 3)
  {
  }

  lemma DotRow2(b: Mat4, a: Mat4)
    ensures Dot(b, a)[8] == RowByColumn(b, a, 2, 0)
    ensures Dot(b, a)[9] == RowByColumn(b, a, 2, 1)
    ensures Dot(b, a)[10] == RowByColumn(b, a, 2, 2)
    ensures Dot(b, a)[11] == RowByColumn(b, a, 2, 3)
  {
  }

  lemma DotRow3(b: Mat4, a: Mat4)
    ensures Dot(b, a)[12] == RowByColumn(b, a, 3, 0)
    ensures Dot(b, a)[13] == RowByColumn(b, a, 3, 1)
    ensures Dot(b, a)[14] == RowByColumn(b, a, 3, 2)
    ensures Dot(b, a)[15] == RowByColumn(b, a, 3, 3)
  {
  }

  /** `m4dot(b, a)` is the row-major product: entry (i, j) is row i of b times column j of a. */
  lemma DotIsRowByColumn(b: Mat4, a: Mat4)
    ensures forall i: nat, j: nat | i < 4 && j < 4 :: Dot(b, a)[4 * i + j] == RowByColumn(b, a, i, j)
  {
    DotRow0(b, a);
    DotRow1(b, a);
    DotRow2(b, a);
    DotRow3(b, a);
    forall i: nat, j: nat | i < 4 && j < 4
      ensures Dot(b, a)[4 * i + j] == RowByColumn(b, a, i, j)
    {
      assert i == 0 || i == 1 || i == 2 || i == 3;
      assert j == 0 || j == 1 || j == 2 || j == 3;
    }
  }

  /** The identity matrix is a two-sided unit for `m4dot`; it is both m4Scale(1, 1, 1) and m4Translation(0, 0, 0). */
  lemma IdentityIsUnit(m: Mat4)
    ensures Scale(1.0, 1.0, 1.0) == Identity() && Translation(0.0, 0.0, 0.0) == Identity()
    ensures Dot(Identity(), m) == m && Dot(m, Identity()) == m
  {
  }

  /** Translations compose by adding their offsets. */
  lemma TranslationsCompose(x0: real, y0: real, z0: real, x1: real, y1: real, z1: real)
    ensures Dot(Translation(x0, y0, z0), Translation(x1, y1, z1)) == Translation(x0 + x1, y0 + y1, z0 + z1)
  {
    var d := Dot(Translation(x0, y0, z0), Translation(x1, y1, z1));
    var t := Translation(x0 + x1, y0 + y1, z0 + z1);
    assert d[3] == x1 + x0 && d[7] == y1 + y0 && d[11] == z1 + z0;
    assert forall k | 0 <= k < 16 :: d[k] == t[k];
  }

  /** `m4Transpose` is an involution. */
  lemma TransposeTwice(m: Mat4)
    ensures Transpose(Transpose(m)) == m
  {
  }

  /** `vec3Scale` by 1 returns the vector unchanged. */
  lemma Vec3ScaleByOne(a: Vec3)
    ensures Vec3Scale(a, 1.0) == a
  {
    var r := Vec3Scale(a, 1.0);
    assert r[0] == a[0] && r[1] == a[1] && r[2] == a[2];
  }

  /** Transposing a rotation gives the rotation by the opposite angle (sine negated). */
  lemma RotationTransposeReverses(c: real, s: real)
    ensures Transpose(XRotation(c, s)) == XRotation(c, -s)
    ensures Transpose(YRotation(c, s)) == YRotation(c, -s)
    ensures Transpose(ZRotation(c, s)) == ZRotation(c, -s)
  {
  }


  /** With c * c + s * s == 1, `m4Xrotation` times its transpose on the right is the identity. */
  lemma XRotationIsOrthogonalRight(c: real, s: real)
    requires c * c + s * s == 1.0
    ensures Dot(XRotation(c, s), Transpose(XRotation(c, s))) == Identity()
  {
    var r := Dot(XRotation(c, s), Transpose(XRotation(c, s)));
    assert r[5] == c * c + (-s) * (-s) == 1.0;
    assert r[6] == c * s + (-s) * c == 0.0;
    assert r[9] == s * c + c * (-s) == 0.0;
    assert r[10] == s * s + c * c == 1.0;
    assert forall k | 0 <= k < 16 :: r[k] == Identity()[k];
  }

  /** With c * c + s * s == 1, `m4Xrotation` times its transpose on the left is the identity. */
  lemma XRotationIsOrthogonalLeft(c: real, s: real)
    requires c * c + s * s == 1.0
    ensures Dot(Transpose(XRotation(c, s)), XRotation(c, s)) == Identity()
  {
    var r := Dot(Transpose(XRotation(c, s)), XRotation(c, s));
    assert r[5] == c * c + s * s == 1.0;
    assert r[6] == c * (-s) + s * c == 0.0;
    assert r[9] == (-s) * c + c * s == 0.0;
    assert r[10] == (-s) * (-s) + c * c == 1.0;
    assert forall k | 0 <= k < 16 :: r[k] == Identity()[k];
  }

  /** With c * c + s * s == 1, `m4Yrotation` times its transpose on the right is the identity. */
  lemma YRotationIsOrthogonalRight(c: real, s: real)
    requires c * c + s * s == 1.0
    ensures Dot(YRotation(c, s), Transpose(YRotation(c, s))) == Identity()
  {
    var r := Dot(YRotation(c, s), Transpose(YRotation(c, s)));
    assert r[0] == c * c + s * s == 1.0;
    assert r[2] == c * (-s) + s * c == 0.0;
    assert r[8] == (-s) * c + c * s == 0.0;
    assert r[10] == (-s) * (-s) + c * c == 1.0;
    assert forall k | 0 <= k < 16 :: r[k] == Identity()[k];
  }

  /** With c * c + s * s == 1, `m4Yrotation` times its transpose on the left is the identity. */
  lemma YRotationIsOrthogonalLeft(c: real, s: real)
    requires c * c + s * s == 1.0
    ensures Dot(Transpose(YRotation(c, s)), YRotation(c, s)) == Identity()
  {
    var r := Dot(Transpose(YRotation(c, s)), YRotation(c, s));
    assert r[0] == c * c + (-s) * (-s) == 1.0;
    assert r[2] == c * s + (-s) * c == 0.0;
    assert r[8] == s * c + c * (-s) == 0.0;
    assert r[10] == s * s + c * c == 1.0;
    assert forall k | 0 <= k < 16 :: r[k] == Identity()[k];
  }

  /** With c * c + s * s == 1, `m4Zrotation` times its transpose on the right is the identity. */
  lemma ZRotationIsOrthogonalRight(c: real, s: real)
    requires c * c + s * s == 1.0
    ensures Dot(ZRotation(c, s), Transpose(ZRotation(c, s))) == Identity()
  {
    var r := Dot(ZRotation(c, s), Transpose(ZRotation(c, s)));
    assert r[0] == c * c + (-s) * (-s) == 1.0;
    assert r[1] == c * s + (-s) * c == 0.0;
    assert r[4] == s * c + c * (-s) == 0.0;
    assert r[5] == s * s + c * c == 1.0;
    assert forall k | 0 <= k < 16 :: r[k] == Identity()[k];
  }

  /** With c * c + s * s == 1, `m4Zrotation` times its transpose on the left is the identity. */
  lemma ZRotationIsOrthogonalLeft(c: real, s: real)
    requires c * c + s * s == 1.0
    ensures Dot(Transpose(ZRotation(c, s)), ZRotation(c, s)) == Identity()
  {
    var r := Dot(Transpose(ZRotation(c, s)), ZRotation(c, s));
    assert r[0] == c * c + s * s == 1.0;
    assert r[1] == c * (-s) + s * c == 0.0;
    assert r[4] == (-s) * c + c * s == 0.0;
    assert r[5] == (-s) * (-s) + c * c == 1.0;
    assert forall k | 0 <= k < 16 :: r[k] == Identity()[k];
  }

  // Associativity of `m4dot`, one entry at a time: entry (i, j) of both sides is the same
  // double sum of x[k] * y[k][l] * z[l] with x = row i of a, y = b and z = column j of c.

  lemma SumOverRows(x0: real, x1: real, x2: real, x3: real,
                   y00: real, y01: real, y02: real, y03: real,
                   y10: real, y11: real, y12: real, y13: real,
                   y20: real, y21: real, y22: real, y23: real,
                   y30: real, y31: real, y32: real, y33: real,
                   z0: real, z1: real, z2: real, z3: real,
                   p0: real, p1: real, p2: real, p3: real)
    requires p0 == x0 * y00 + x1 * y10 + x2 * y20 + x3 * y30
    requires p1 == x0 * y01 + x1 * y11 + x2 * y21 + x3 * y31
    requires p2 == x0 * y02 + x1 * y12 + x2 * y22 + x3 * y32
    requires p3 == x0 * y03 + x1 * y13 + x2 * y23 + x3 * y33
    ensures p0 * z0 + p1 * z1 + p2 * z2 + p3 * z3 ==
      x0 * y00 * z0 + x0 * y01 * z1 + x0 * y02 * z2 + x0 * y03 * z3 + x1 * y10 * z0 + x1 * y11 * z1 + x1 * y12 * z2 + x1 * y13 * z3 + x2 * y20 * z0 + x2 * y21 * z1 + x2 * y22 * z2 + x2 * y23 * z3 + x3 * y30 * z0 + x3 * y31 * z1 + x3 * y32 * z2 + x3 * y33 * z3
  {
  }

  lemma SumOverColumns(x0: real, x1: real, x2: real, x3: real,
                   y00: real, y01: real, y02: real, y03: real,
                   y10: real, y11: real, y12: real, y13: real,
                   y20: real, y21: real, y22: real, y23: real,
                   y30: real, y31: real, y32: real, y33: real,
                   z0: real, z1: real, z2: real, z3: real,
                   q0: real, q1: real, q2: real, q3: real)
    requires q0 == y00 * z0 + y01 * z1 + y02 * z2 + y03 * z3
    requires q1 == y10 * z0 + y11 * z1 + y12 * z2 + y13 * z3
    requires q2 == y20 * z0 + y21 * z1 + y22 * z2 + y23 * z3
    requires q3 == y30 * z0 + y31 * z1 + y32 * z2 + y33 * z3
    ensures x0 * q0 + x1 * q1 + x2 * q2 + x3 * q3 ==
      x0 * y00 * z0 + x0 * y01 * z1 + x0 * y02 * z2 + x0 * y03 * z3 + x1 * y10 * z0 + x1 * y11 * z1 + x1 * y12 * z2 + x1 * y13 * z3 + x2 * y20 * z0 + x2 * y21 * z1 + x2 * y22 * z2 + x2 * y23 * z3 + x3 * y30 * z0 + x3 * y31 * z1 + x3 * y32 * z2 + x3 * y33 * z3
  {
  }

  lemma ScalarAssociative(x0: real, x1: real, x2: real, x3: real,
                          y00: real, y01: real, y02: real, y03: real,
                          y10: real, y11: real, y12: real, y13: real,
                          y20: real, y21: real, y22: real, y23: real,
                          y30: real, y31: real, y32: real, y33: real,
                          z0: real, z1: real, z2: real, z3: real,
                          p0: real, p1: real, p2: real, p3: real,
                          q0: real, q1: real, q2: real, q3: real)
    requires p0 == x0 * y00 + x1 * y10 + x2 * y20 + x3 * y30
    requires p1 == x0 * y01 + x1 * y11 + x2 * y21 + x3 * y31
    requires p2 == x0 * y02 + x1 * y12 + x2 * y22 + x3 * y32
    requires p3 == x0 * y03 + x1 * y13 + x2 * y23 + x3 * y33
    requires q0 == y00 * z0 + y01 * z1 + y02 * z2 + y03 * z3
    requires q1 == y10 * z0 + y11 * z1 + y12 * z2 + y13 * z3
    requires q2 == y20 * z0 + y21 * z1 + y22 * z2 + y23 * z3
    requires q3 == y30 * z0 + y31 * z1 + y32 * z2 + y33 * z3
    ensures p0 * z0 + p1 * z1 + p2 * z2 + p3 * z3 == x0 * q0 + x1 * q1 + x2 * q2 + x3 * q3
  {
    SumOverRows(x0, x1, x2, x3, y00, y01, y02, y03, y10, y11, y12, y13, y20, y21, y22, y23, y30, y31, y32, y33, z0, z1, z2, z3,
      p0, p1, p2, p3);
    SumOverColumns(x0, x1, x2, x3, y00, y01, y02, y03, y10, y11, y12, y13, y20, y21, y22, y23, y30, y31, y32, y33, z0, z1, z2, z3,
      q0, q1, q2, q3);
  }

  lemma AssociativeAt0(a: Mat4, b: Mat4, c: Mat4)
    ensures Dot(Dot(a, b), c)[0] == Dot(a, Dot(b, c))[0]
  {
    var ab, bc := Dot(a, b), Dot(b, c);
    ScalarAssociative(a[0], a[1], a[2], a[3],
      b[0], b[1], b[2], b[3], b[4], b[5], b[6], b[7], b[8], b[9], b[10], b[11], b[12], b[13], b[14], b[15],
      c[0], c[4], c[8], c[12], ab[0], ab[1], ab[2], ab[3], bc[0], bc[4], bc[8], bc[12]);
  }

  lemma AssociativeAt1(a: Mat4, b: Mat4, c: Mat4)
    ensures Dot(Dot(a, b), c)[1] == Dot(a, Dot(b, c))[1]
  {
    var ab, bc := Dot(a, b), Dot(b, c);
    ScalarAssociative(a[0], a[1], a[2], a[3],
      b[0], b[1], b[2], b[3], b[4], b[5], b[6], b[7], b[8], b[9], b[10], b[11], b[12], b[13], b[14], b[15],
      c[1], c[5], c[9], c[13], ab[0], ab[1], ab[2], ab[3], bc[1], bc[5], bc[9], bc[13]);
  }

  lemma AssociativeAt2(a: Mat4, b: Mat4, c: Mat4)
    ensures Dot(Dot(a, b), c)[2] == Dot(a, Dot(b, c))[2]
  {
    var ab, bc := Dot(a, b), Dot(b, c);
    ScalarAssociative(a[0], a[1], a[2], a[3],
      b[0], b[1], b[2], b[3], b[4], b[5], b[6], b[7], b[8], b[9], b[10], b[11], b[12], b[13], b[14], b[15],
      c[2], c[6], c[10], c[14], ab[0], ab[1], ab[2], ab[3], bc[2], bc[6], bc[10], bc[14]);
  }

  lemma AssociativeAt3(a: Mat4, b: Mat4, c: Mat4)
    ensures Dot(Dot(a, b), c)[3] == Dot(a, Dot(b, c))[3]
  {
    var ab, bc := Dot(a, b), Dot(b, c);
    ScalarAssociative(a[0], a[1], a[2], a[3],
      b[0], b[1], b[2], b[3], b[4], b[5], b[6], b[7], b[8], b[9], b[10], b[11], b[12], b[13], b[14], b[15],
      c[3], c[7], c[11], c[15], ab[0], ab[1], ab[2], ab[3], bc[3], bc[7], bc[11], bc[15]);
  }

  lemma AssociativeAt4(a: Mat4, b: Mat4, c: Mat4)
    ensures Dot(Dot(a, b), c)[4] == Dot(a, Dot(b, c))[4]
  {
    var ab, bc := Dot(a, b), Dot(b, c);
    ScalarAssociative(a[4], a[5], a[6], a[7],
      b[0], b[1], b[2], b[3], b[4], b[5], b[6], b[7], b[8], b[9], b[10], b[11], b[12], b[13], b[14], b[15],
      c[0], c[4], c[8], c[12], ab[4], ab[5], ab[6], ab[7], bc[0], bc[4], bc[8], bc[12]);
  }

  lemma AssociativeAt5(a: Mat4, b: Mat4, c: Mat4)
    ensures Dot(Dot(a, b), c)[5] == Dot(a, Dot(b, c))[5]
  {
    var ab, bc := Dot(a, b), Dot(b, c);
    ScalarAssociative(a[4], a[5], a[6], a[7],
      b[0], b[1], b[2], b[3], b[4], b[5], b[6], b[7], b[8], b[9], b[10], b[11], b[12], b[13], b[14], b[15],
      c[1], c[5], c[9], c[13], ab[4], ab[5], ab[6], ab[7], bc[1], bc[5], bc[9], bc[13]);
  }

  lemma AssociativeAt6(a: Mat4, b: Mat4, c: Mat4)
    ensures Dot(Dot(a, b), c)[6] == Dot(a, Dot(b, c))[6]
  {
    var ab, bc := Dot(a, b), Dot(b, c);
    ScalarAssociative(a[4], a[5], a[6], a[7],
      b[0], b[1], b[2], b[3], b[4], b[5], b[6], b[7], b[8], b[9], b[10], b[11], b[12], b[13], b[14], b[15],
      c[2], c[6], c[10], c[14], ab[4], ab[5], ab[6], ab[7], bc[2], bc[6], bc[10], bc[14]);
  }

  lemma AssociativeAt7(a: Mat4, b: Mat4, c: Mat4)
    ensures Dot(Dot(a, b), c)[7] == Dot(a, Dot(b, c))[7]
  {
    var ab, bc := Dot(a, b), Dot(b, c);
    ScalarAssociative(a[4], a[5], a[6], a[7],
      b[0], b[1], b[2], b[3], b[4], b[5], b[6], b[7], b[8], b[9], b[10], b[11], b[12], b[13], b[14], b[15],
      c[3], c[7], c[11], c[15], ab[4], ab[5], ab[6], ab[7], bc[3], bc[7], bc[11], bc[15]);
  }

  lemma AssociativeAt8(a: Mat4, b: Mat4, c: Mat4)
    ensures Dot(Dot(a, b), c)[8] == Dot(a, Dot(b, c))[8]
  {
    var ab, bc := Dot(a, b), Dot(b, c);
    ScalarAssociative(a[8], a[9], a[10], a[11],
      b[0], b[1], b[2], b[3], b[4], b[5], b[6], b[7], b[8], b[9], b[10], b[11], b[12], b[13], b[14], b[15],
      c[0], c[4], c[8], c[12], ab[8], ab[9], ab[10], ab[11], bc[0], bc[4], bc[8], bc[12]);
  }

  lemma AssociativeAt9(a: Mat4, b: Mat4, c: Mat4)
    ensures Dot(Dot(a, b), c)[9] == Dot(a, Dot(b, c))[9]
  {
    var ab, bc := Dot(a, b), Dot(b, c);
    ScalarAssociative(a[8], a[9], a[10], a[11],
      b[0], b[1], b[2], b[3], b[4], b[5], b[6], b[7], b[8], b[9], b[10], b[11], b[12], b[13], b[14], b[15],
      c[1], c[5], c[9], c[13], ab[8], ab[9], ab[10], ab[11], bc[1], bc[5], bc[9], bc[13]);
  }

  lemma AssociativeAt10(a: Mat4, b: Mat4, c: Mat4)
    ensures Dot(Dot(a, b), c)[10] == Dot(a, Dot(b, c))[10]
  {
    var ab, bc := Dot(a, b), Dot(b, c);
    ScalarAssociative(a[8], a[9], a[10], a[11],
      b[0], b[1], b[2], b[3], b[4], b[5], b[6], b[7], b[8], b[9], b[10], b[11], b[12], b[13], b[14], b[15],
      c[2], c[6], c[10], c[14], ab[8], ab[9], ab[10], ab[11], bc[2], bc[6], bc[10], bc[14]);
  }

  lemma AssociativeAt11(a: Mat4, b: Mat4, c: Mat4)
    ensures Dot(Dot(a, b), c)[11] == Dot(a, Dot(b, c))[11]
  {
    var ab, bc := Dot(a, b), Dot(b, c);
    ScalarAssociative(a[8], a[9], a[10], a[11],
      b[0], b[1], b[2], b[3], b[4], b[5], b[6], b[7], b[8], b[9], b[10], b[11], b[12], b[13], b[14], b[15],
      c[3], c[7], c[11], c[15], ab[8], ab[9], ab[10], ab[11], bc[3], bc[7], bc[11], bc[15]);
  }

  lemma AssociativeAt12(a: Mat4, b: Mat4, c: Mat4)
    ensures Dot(Dot(a, b), c)[12] == Dot(a, Dot(b, c))[12]
  {
    var ab, bc := Dot(a, b), Dot(b, c);
    ScalarAssociative(a[12], a[13], a[14], a[15],
      b[0], b[1], b[2], b[3], b[4], b[5], b[6], b[7], b[8], b[9], b[10], b[11], b[12], b[13], b[14], b[15],
      c[0], c[4], c[8], c[12], ab[12], ab[13], ab[14], ab[15], bc[0], bc[4], bc[8], bc[12]);
  }

  lemma AssociativeAt13(a: Mat4, b: Mat4, c: Mat4)
    ensures Dot(Dot(a, b), c)[13] == Dot(a, Dot(b, c))[13]
  {
    var ab, bc := Dot(a, b), Dot(b, c);
    ScalarAssociative(a[12], a[13], a[14], a[15],
      b[0], b[1], b[2], b[3], b[4], b[5], b[6], b[7], b[8], b[9], b[10], b[11], b[12], b[13], b[14], b[15],
      c[1], c[5], c[9], c[13], ab[12], ab[13], ab[14], ab[15], bc[1], bc[5], bc[9], bc[13]);
  }

  lemma AssociativeAt14(a: Mat4, b: Mat4, c: Mat4)
    ensures Dot(Dot(a, b), c)[14] == Dot(a, Dot(b, c))[14]
  {
    var ab, bc := Dot(a, b), Dot(b, c);
    ScalarAssociative(a[12], a[13], a[14], a[15],
      b[0], b[1], b[2], b[3], b[4], b[5], b[6], b[7], b[8], b[9], b[10], b[11], b[12], b[13], b[14], b[15],
      c[2], c[6], c[10], c[14], ab[12], ab[13], ab[14], ab[15], bc[2], bc[6], bc[10], bc[14]);
  }

  lemma AssociativeAt15(a: Mat4, b: Mat4, c: Mat4)
    ensures Dot(Dot(a, b), c)[15] == Dot(a, Dot(b, c))[15]
  {
    var ab, bc := Dot(a, b), Dot(b, c);
    ScalarAssociative(a[12], a[13], a[14], a[15],
      b[0], b[1], b[2], b[3], b[4], b[5], b[6], b[7], b[8], b[9], b[10], b[11], b[12], b[13], b[14], b[15],
      c[3], c[7], c[11], c[15], ab[12], ab[13], ab[14], ab[15], bc[3], bc[7], bc[11], bc[15]);
  }

  /** `m4dot` is associative. */
  lemma DotAssociative(a: Mat4, b: Mat4, c: Mat4)
    ensures Dot(Dot(a, b), c) == Dot(a, Dot(b, c))
  {
    AssociativeAt0(a, b, c);
    AssociativeAt1(a, b, c);
    AssociativeAt2(a, b, c);
    AssociativeAt3(a, b, c);
    AssociativeAt4(a, b, c);
    AssociativeAt5(a, b, c);
    AssociativeAt6(a, b, c);
    AssociativeAt7(a, b, c);
    AssociativeAt8(a, b, c);
    AssociativeAt9(a, b, c);
    AssociativeAt10(a, b, c);
    AssociativeAt11(a, b, c);
    AssociativeAt12(a, b, c);
    AssociativeAt13(a, b, c);
    AssociativeAt14(a, b, c);
    AssociativeAt15(a, b, c);
    var l, r := Dot(Dot(a, b), c), Dot(a, Dot(b, c));
    assert forall k | 0 <= k < 16 :: l[k] == r[k];
  }

  // m4inverse is a left inverse, one entry at a time. Row i of the cofactors times
  // column j of m is the determinant when i == j and zero otherwise (a polynomial
  // identity in the 16 entries); scaling by 1 / Det(m) then gives the identity.

  lemma CofactorRow0Column0(m0: real, m1: real, m2: real, m3: real, m4: real, m5: real, m6: real, m7: real, m8: real, m9: real, m10: real, m11: real, m12: real, m13: real, m14: real, m15: real,
                          c0: real, c1: real, c2: real, c3: real)
    requires c0 == (((m10 * m15) * m5 + (m14 * m7) * m9 + (m6 * m11) * m13) - ((m14 * m11) * m5 + (m6 * m15) * m9 + (m10 * m7) * m13))
    requires c1 == (((m14 * m11) * m1 + (m2 * m15) * m9 + (m10 * m3) * m13) - ((m10 * m15) * m1 + (m14 * m3) * m9 + (m2 * m11) * m13))
    requires c2 == (((m6 * m15) * m1 + (m14 * m3) * m5 + (m2 * m7) * m13) - ((m14 * m7) * m1 + (m2 * m15) * m5 + (m6 * m3) * m13))
    requires c3 == (((m10 * m7) * m1 + (m2 * m11) * m5 + (m6 * m3) * m9) - ((m6 * m11) * m1 + (m10 * m3) * m5 + (m2 * m7) * m9))
    ensures Inner(c0, c1, c2, c3, m0, m4, m8, m12) == DeterminantOf(m0, m1, m2, m3, m4, m5, m6, m7, m8, m9, m10, m11, m12, m13, m14, m15)
  {
    Distribute(m10, m15, m5, m14, m7, m9, m6, m11, m13, m14, m11, m5, m6, m15, m9, m10, m7, m13, m0);
    Distribute(m14, m11, m1, m2, m15, m9, m10, m3, m13, m10, m15, m1, m14, m3, m9, m2, m11, m13, m4);
    Distribute(m6, m15, m1, m14, m3, m5, m2, m7, m13, m14, m7, m1, m2, m15, m5, m6, m3, m13, m8);
    Distribute(m10, m7, m1, m2, m11, m5, m6, m3, m9, m6, m11, m1, m10, m3, m5, m2, m7, m9, m12);
  }

  lemma CofactorRow0Column1(m0: real, m1: real, m2: real, m3: real, m4: real, m5: real, m6: real, m7: real, m8: real, m9: real, m10: real, m11: real, m12: real, m13: real, m14: real, m15: real,
                          c0: real, c1: real, c2: real, c3: real)
    requires c0 == (((m10 * m15) * m5 + (m14 * m7) * m9 + (m6 * m11) * m13) - ((m14 * m11) * m5 + (m6 * m15) * m9 + (m10 * m7) * m13))
    requires c1 == (((m14 * m11) * m1 + (m2 * m15) * m9 + (m10 * m3) * m13) - ((m10 * m15) * m1 + (m14 * m3) * m9 + (m2 * m11) * m13))
    requires c2 == (((m6 * m15) * m1 + (m14 * m3) * m5 + (m2 * m7) * m13) - ((m14 * m7) * m1 + (m2 * m15) * m5 + (m6 * m3) * m13))
    requires c3 == (((m10 * m7) * m1 + (m2 * m11) * m5 + (m6 * m3) * m9) - ((m6 * m11) * m1 + (m10 * m3) * m5 + (m2 * m7) * m9))
    ensures Inner(c0, c1, c2, c3, m1, m5, m9, m13) == 0.0
  {
    Distribute(m10, m15, m5, m14, m7, m9, m6, m11, m13, m14, m11, m5, m6, m15, m9, m10, m7, m13, m1);
    Distribute(m14, m11, m1, m2, m15, m9, m10, m3, m13, m10, m15, m1, m14, m3, m9, m2, m11, m13, m5);
    Distribute(m6, m15, m1, m14, m3, m5, m2, m7, m13, m14, m7, m1, m2, m15, m5, m6, m3, m13, m9);
    Distribute(m10, m7, m1, m2, m11, m5, m6, m3, m9, m6, m11, m1, m10, m3, m5, m2, m7, m9, m13);
  }

  lemma CofactorRow0Column2(m0: real, m1: real, m2: real, m3: real, m4: real, m5: real, m6: real, m7: real, m8: real, m9: real, m10: real, m11: real, m12: real, m13: real, m14: real, m15: real,
                          c0: real, c1: real, c2: real, c3: real)
    requires c0 == (((m10 * m15) * m5 + (m14 * m7) * m9 + (m6 * m11) * m13) - ((m14 * m11) * m5 + (m6 * m15) * m9 + (m10 * m7) * m13))
    requires c1 == (((m14 * m11) * m1 + (m2 * m15) * m9 + (m10 * m3) * m13) - ((m10 * m15) * m1 + (m14 * m3) * m9 + (m2 * m11) * m13))
    requires c2 == (((m6 * m15) * m1 + (m14 * m3) * m5 + (m2 * m7) * m13) - ((m14 * m7) * m1 + (m2 * m15) * m5 + (m6 * m3) * m13))
    requires c3 == (((m10 * m7) * m1 + (m2 * m11) * m5 + (m6 * m3) * m9) - ((m6 * m11) * m1 + (m10 * m3) * m5 + (m2 * m7) * m9))
    ensures Inner(c0, c1, c2, c3, m2, m6, m10, m14) == 0.0
  {
    Distribute(m10, m15, m5, m14, m7, m9, m6, m11, m13, m14, m11, m5, m6, m15, m9, m10, m7, m13, m2);
    Distribute(m14, m11, m1, m2, m15, m9, m10, m3, m13, m10, m15, m1, m14, m3, m9, m2, m11, m13, m6);
    Distribute(m6, m15, m1, m14, m3, m5, m2, m7, m13, m14, m7, m1, m2, m15, m5, m6, m3, m13, m10);
    Distribute(m10, m7, m1, m2, m11, m5, m6, m3, m9, m6, m11, m1, m10, m3, m5, m2, m7, m9, m14);
  }

  lemma CofactorRow0Column3(m0: real, m1: real, m2: real, m3: real, m4: real, m5: real, m6: real, m7: real, m8: real, m9: real, m10: real, m11: real, m12: real, m13: real, m14: real, m15: real,
                          c0: real, c1: real, c2: real, c3: real)
    requires c0 == (((m10 * m15) * m5 + (m14 * m7) * m9 + (m6 * m11) * m13) - ((m14 * m11) * m5 + (m6 * m15) * m9 + (m10 * m7) * m13))
    requires c1 == (((m14 * m11) * m1 + (m2 * m15) * m9 + (m10 * m3) * m13) - ((m10 * m15) * m1 + (m14 * m3) * m9 + (m2 * m11) * m13))
    requires c2 == (((m6 * m15) * m1 + (m14 * m3) * m5 + (m2 * m7) * m13) - ((m14 * m7) * m1 + (m2 * m15) * m5 + (m6 * m3) * m13))
    requires c3 == (((m10 * m7) * m1 + (m2 * m11) * m5 + (m6 * m3) * m9) - ((m6 * m11) * m1 + (m10 * m3) * m5 + (m2 * m7) * m9))
    ensures Inner(c0, c1, c2, c3, m3, m7, m11, m15) == 0.0
  {
    Distribute(m10, m15, m5, m14, m7, m9, m6, m11, m13, m14, m11, m5, m6, m15, m9, m10, m7, m13, m3);
    Distribute(m14, m11, m1, m2, m15, m9, m10, m3, m13, m10, m15, m1, m14, m3, m9, m2, m11, m13, m7);
    Distribute(m6, m15, m1, m14, m3, m5, m2, m7, m13, m14, m7, m1, m2, m15, m5, m6, m3, m13, m11);
    Distribute(m10, m7, m1, m2, m11, m5, m6, m3, m9, m6, m11, m1, m10, m3, m5, m2, m7, m9, m15);
  }

  lemma CofactorRow1Column0(m0: real, m1: real, m2: real, m3: real, m4: real, m5: real, m6: real, m7: real, m8: real, m9: real, m10: real, m11: real, m12: real, m13: real, m14: real, m15: real,
                          c0: real, c1: real, c2: real, c3: real)
    requires c0 == (((m14 * m11) * m4 + (m6 * m15) * m8 + (m10 * m7) * m12) - ((m10 * m15) * m4 + (m14 * m7) * m8 + (m6 * m11) * m12))
    requires c1 == (((m10 * m15) * m0 + (m14 * m3) * m8 + (m2 * m11) * m12) - ((m14 * m11) * m0 + (m2 * m15) * m8 + (m10 * m3) * m12))
    requires c2 == (((m14 * m7) * m0 + (m2 * m15) * m4 + (m6 * m3) * m12) - ((m6 * m15) * m0 + (m14 * m3) * m4 + (m2 * m7) * m12))
    requires c3 == (((m6 * m11) * m0 + (m10 * m3) * m4 + (m2 * m7) * m8) - ((m10 * m7) * m0 + (m2 * m11) * m4 + (m6 * m3) * m8))
    ensures Inner(c0, c1, c2, c3, m0, m4, m8, m12) == 0.0
  {
    Distribute(m14, m11, m4, m6, m15, m8, m10, m7, m12, m10, m15, m4, m14, m7, m8, m6, m11, m12, m0);
    Distribute(m10, m15, m0, m14, m3, m8, m2, m11, m12, m14, m11, m0, m2, m15, m8, m10, m3, m12, m4);
    Distribute(m14, m7, m0, m2, m15, m4, m6, m3, m12, m6, m15, m0, m14, m3, m4, m2, m7, m12, m8);
    Distribute(m6, m11, m0, m10, m3, m4, m2, m7, m8, m10, m7, m0, m2, m11, m4, m6, m3, m8, m12);
  }

  lemma CofactorRow1Column1(m0: real, m1: real, m2: real, m3: real, m4: real, m5: real, m6: real, m7: real, m8: real, m9: real, m10: real, m11: real, m12: real, m13: real, m14: real, m15: real,
                          c0: real, c1: real, c2: real, c3: real)
    requires c0 == (((m14 * m11) * m4 + (m6 * m15) * m8 + (m10 * m7) * m12) - ((m10 * m15) * m4 + (m14 * m7) * m8 + (m6 * m11) * m12))
    requires c1 == (((m10 * m15) * m0 + (m14 * m3) * m8 + (m2 * m11) * m12) - ((m14 * m11) * m0 + (m2 * m15) * m8 + (m10 * m3) * m12))
    requires c2 == (((m14 * m7) * m0 + (m2 * m15) * m4 + (m6 * m3) * m12) - ((m6 * m15) * m0 + (m14 * m3) * m4 + (m2 * m7) * m12))
    requires c3 == (((m6 * m11) * m0 + (m10 * m3) * m4 + (m2 * m7) * m8) - ((m10 * m7) * m0 + (m2 * m11) * m4 + (m6 * m3) * m8))
    ensures Inner(c0, c1, c2, c3, m1, m5, m9, m13) == DeterminantOf(m0, m1, m2, m3, m4, m5, m6, m7, m8, m9, m10, m11, m12, m13, m14, m15)
  {
    Distribute(m14, m11, m4, m6, m15, m8, m10, m7, m12, m10, m15, m4, m14, m7, m8, m6, m11, m12, m1);
    Distribute(m10, m15, m5, m14, m7, m9, m6, m11, m13, m14, m11, m5, m6, m15, m9, m10, m7, m13, m0);
    Distribute(m10, m15, m0, m14, m3, m8, m2, m11, m12, m14, m11, m0, m2, m15, m8, m10, m3, m12, m5);
    Distribute(m14, m11, m1, m2, m15, m9, m10, m3, m13, m10, m15, m1, m14, m3, m9, m2, m11, m13, m4);
    Distribute(m14, m7, m0, m2, m15, m4, m6, m3, m12, m6, m15, m0, m14, m3, m4, m2, m7, m12, m9);
    Distribute(m6, m15, m1, m14, m3, m5, m2, m7, m13, m14, m7, m1, m2, m15, m5, m6, m3, m13, m8);
    Distribute(m6, m11, m0, m10, m3, m4, m2, m7, m8, m10, m7, m0, m2, m11, m4, m6, m3, m8, m13);
    Distribute(m10, m7, m1, m2, m11, m5, m6, m3, m9, m6, m11, m1, m10, m3, m5, m2, m7, m9, m12);
  }

  lemma CofactorRow1Column2(m0: real, m1: real, m2: real, m3: real, m4: real, m5: real, m6: real, m7: real, m8: real, m9: real, m10: real, m11: real, m12: real, m13: real, m14: real, m15: real,
                          c0: real, c1: real, c2: real, c3: real)
    requires c0 == (((m14 * m11) * m4 + (m6 * m15) * m8 + (m10 * m7) * m12) - ((m10 * m15) * m4 + (m14 * m7) * m8 + (m6 * m11) * m12))
    requires c1 == (((m10 * m15) * m0 + (m14 * m3) * m8 + (m2 * m11) * m12) - ((m14 * m11) * m0 + (m2 * m15) * m8 + (m10 * m3) * m12))
    requires c2 == (((m14 * m7) * m0 + (m2 * m15) * m4 + (m6 * m3) * m12) - ((m6 * m15) * m0 + (m14 * m3) * m4 + (m2 * m7) * m12))
    requires c3 == (((m6 * m11) * m0 + (m10 * m3) * m4 + (m2 * m7) * m8) - ((m10 * m7) * m0 + (m2 * m11) * m4 + (m6 * m3) * m8))
    ensures Inner(c0, c1, c2, c3, m2, m6, m10, m14) == 0.0
  {
    Distribute(m14, m11, m4, m6, m15, m8, m10, m7, m12, m10, m15, m4, m14, m7, m8, m6, m11, m12, m2);
    Distribute(m10, m15, m0, m14, m3, m8, m2, m11, m12, m14, m11, m0, m2, m15, m8, m10, m3, m12, m6);
    Distribute(m14, m7, m0, m2, m15, m4, m6, m3, m12, m6, m15, m0, m14, m3, m4, m2, m7, m12, m10);
    Distribute(m6, m11, m0, m10, m3, m4, m2, m7, m8, m10, m7, m0, m2, m11, m4, m6, m3, m8, m14);
  }

  lemma CofactorRow1Column3(m0: real, m1: real, m2: real, m3: real, m4: real, m5: real, m6: real, m7: real, m8: real, m9: real, m10: real, m11: real, m12: real, m13: real, m14: real, m15: real,
                          c0: real, c1: real, c2: real, c3: real)
    requires c0 == (((m14 * m11) * m4 + (m6 * m15) * m8 + (m10 * m7) * m12) - ((m10 * m15) * m4 + (m14 * m7) * m8 + (m6 * m11) * m12))
    requires c1 == (((m10 * m15) * m0 + (m14 * m3) * m8 + (m2 * m11) * m12) - ((m14 * m11) * m0 + (m2 * m15) * m8 + (m10 * m3) * m12))
    requires c2 == (((m14 * m7) * m0 + (m2 * m15) * m4 + (m6 * m3) * m12) - ((m6 * m15) * m0 + (m14 * m3) * m4 + (m2 * m7) * m12))
    requires c3 == (((m6 * m11) * m0 + (m10 * m3) * m4 + (m2 * m7) * m8) - ((m10 * m7) * m0 + (m2 * m11) * m4 + (m6 * m3) * m8))
    ensures Inner(c0, c1, c2, c3, m3, m7, m11, m15) == 0.0
  {
    Distribute(m14, m11, m4, m6, m15, m8, m10, m7, m12, m10, m15, m4, m14, m7, m8, m6, m11, m12, m3);
    Distribute(m10, m15, m0, m14, m3, m8, m2, m11, m12, m14, m11, m0, m2, m15, m8, m10, m3, m12, m7);
    Distribute(m14, m7, m0, m2, m15, m4, m6, m3, m12, m6, m15, m0, m14, m3, m4, m2, m7, m12, m11);
    Distribute(m6, m11, m0, m10, m3, m4, m2, m7, m8, m10, m7, m0, m2, m11, m4, m6, m3, m8, m15);
  }

  lemma CofactorRow2Column0(m0: real, m1: real, m2: real, m3: real, m4: real, m5: real, m6: real, m7: real, m8: real, m9: real, m10: real, m11: real, m12: real, m13: real, m14: real, m15: real,
                          c0: real, c1: real, c2: real, c3: real)
    requires c0 == (((m8 * m13) * m7 + (m12 * m5) * m11 + (m4 * m9) * m15) - ((m12 * m9) * m7 + (m4 * m13) * m11 + (m8 * m5) * m15))
    requires c1 == (((m12 * m9) * m3 + (m0 * m13) * m11 + (m8 * m1) * m15) - ((m8 * m13) * m3 + (m12 * m1) * m11 + (m0 * m9) * m15))
    requires c2 == (((m4 * m13) * m3 + (m12 * m1) * m7 + (m0 * m5) * m15) - ((m12 * m5) * m3 + (m0 * m13) * m7 + (m4 * m1) * m15))
    requires c3 == (((m8 * m5) * m3 + (m0 * m9) * m7 + (m4 * m1) * m11) - ((m4 * m9) * m3 + (m8 * m1) * m7 + (m0 * m5) * m11))
    ensures Inner(c0, c1, c2, c3, m0, m4, m8, m12) == 0.0
  {
    Distribute(m8, m13, m7, m12, m5, m11, m4, m9, m15, m12, m9, m7, m4, m13, m11, m8, m5, m15, m0);
    Distribute(m12, m9, m3, m0, m13, m11, m8, m1, m15, m8, m13, m3, m12, m1, m11, m0, m9, m15, m4);
    Distribute(m4, m13, m3, m12, m1, m7, m0, m5, m15, m12, m5, m3, m0, m13, m7, m4, m1, m15, m8);
    Distribute(m8, m5, m3, m0, m9, m7, m4, m1, m11, m4, m9, m3, m8, m1, m7, m0, m5, m11, m12);
  }

  lemma CofactorRow2Column1(m0: real, m1: real, m2: real, m3: real, m4: real, m5: real, m6: real, m7: real, m8: real, m9: real, m10: real, m11: real, m12: real, m13: real, m14: real, m15: real,
                          c0: real, c1: real, c2: real, c3: real)
    requires c0 == (((m8 * m13) * m7 + (m12 * m5) * m11 + (m4 * m9) * m15) - ((m12 * m9) * m7 + (m4 * m13) * m11 + (m8 * m5) * m15))
    requires c1 == (((m12 * m9) * m3 + (m0 * m13) * m11 + (m8 * m1) * m15) - ((m8 * m13) * m3 + (m12 * m1) * m11 + (m0 * m9) * m15))
    requires c2 == (((m4 * m13) * m3 + (m12 * m1) * m7 + (m0 * m5) * m15) - ((m12 * m5) * m3 + (m0 * m13) * m7 + (m4 * m1) * m15))
    requires c3 == (((m8 * m5) * m3 + (m0 * m9) * m7 + (m4 * m1) * m11) - ((m4 * m9) * m3 + (m8 * m1) * m7 + (m0 * m5) * m11))
    ensures Inner(c0, c1, c2, c3, m1, m5, m9, m13) == 0.0
  {
    Distribute(m8, m13, m7, m12, m5, m11, m4, m9, m15, m12, m9, m7, m4, m13, m11, m8, m5, m15, m1);
    Distribute(m12, m9, m3, m0, m13, m11, m8, m1, m15, m8, m13, m3, m12, m1, m11, m0, m9, m15, m5);
    Distribute(m4, m13, m3, m12, m1, m7, m0, m5, m15, m12, m5, m3, m0, m13, m7, m4, m1, m15, m9);
    Distribute(m8, m5, m3, m0, m9, m7, m4, m1, m11, m4, m9, m3, m8, m1, m7, m0, m5, m11, m13);
  }

  lemma CofactorRow2Column2(m0: real, m1: real, m2: real, m3: real, m4: real, m5: real, m6: real, m7: real, m8: real, m9: real, m10: real, m11: real, m12: real, m13: real, m14: real, m15: real,
                          c0: real, c1: real, c2: real, c3: real)
    requires c0 == (((m8 * m13) * m7 + (m12 * m5) * m11 + (m4 * m9) * m15) - ((m12 * m9) * m7 + (m4 * m13) * m11 + (m8 * m5) * m15))
    requires c1 == (((m12 * m9) * m3 + (m0 * m13) * m11 + (m8 * m1) * m15) - ((m8 * m13) * m3 + (m12 * m1) * m11 + (m0 * m9) * m15))
    requires c2 == (((m4 * m13) * m3 + (m12 * m1) * m7 + (m0 * m5) * m15) - ((m12 * m5) * m3 + (m0 * m13) * m7 + (m4 * m1) * m15))
    requires c3 == (((m8 * m5) * m3 + (m0 * m9) * m7 + (m4 * m1) * m11) - ((m4 * m9) * m3 + (m8 * m1) * m7 + (m0 * m5) * m11))
    ensures Inner(c0, c1, c2, c3, m2, m6, m10, m14) == DeterminantOf(m0, m1, m2, m3, m4, m5, m6, m7, m8, m9, m10, m11, m12, m13, m14, m15)
  {
    Distribute(m8, m13, m7, m12, m5, m11, m4, m9, m15, m12, m9, m7, m4, m13, m11, m8, m5, m15, m2);
    Distribute(m10, m15, m5, m14, m7, m9, m6, m11, m13, m14, m11, m5, m6, m15, m9, m10, m7, m13, m0);
    Distribute(m12, m9, m3, m0, m13, m11, m8, m1, m15, m8, m13, m3, m12, m1, m11, m0, m9, m15, m6);
    Distribute(m14, m11, m1, m2, m15, m9, m10, m3, m13, m10, m15, m1, m14, m3, m9, m2, m11, m13, m4);
    Distribute(m4, m13, m3, m12, m1, m7, m0, m5, m15, m12, m5, m3, m0, m13, m7, m4, m1, m15, m10);
    Distribute(m6, m15, m1, m14, m3, m5, m2, m7, m13, m14, m7, m1, m2, m15, m5, m6, m3, m13, m8);
    Distribute(m8, m5, m3, m0, m9, m7, m4, m1, m11, m4, m9, m3, m8, m1, m7, m0, m5, m11, m14);
    Distribute(m10, m7, m1, m2, m11, m5, m6, m3, m9, m6, m11, m1, m10, m3, m5, m2, m7, m9, m12);
  }

  lemma CofactorRow2Column3(m0: real, m1: real, m2: real, m3: real, m4: real, m5: real, m6: real, m7: real, m8: real, m9: real, m10: real, m11: real, m12: real, m13: real, m14: real, m15: real,
                          c0: real, c1: real, c2: real, c3: real)
    requires c0 == (((m8 * m13) * m7 + (m12 * m5) * m11 + (m4 * m9) * m15) - ((m12 * m9) * m7 + (m4 * m13) * m11 + (m8 * m5) * m15))
    requires c1 == (((m12 * m9) * m3 + (m0 * m13) * m11 + (m8 * m1) * m15) - ((m8 * m13) * m3 + (m12 * m1) * m11 + (m0 * m9) * m15))
    requires c2 == (((m4 * m13) * m3 + (m12 * m1) * m7 + (m0 * m5) * m15) - ((m12 * m5) * m3 + (m0 * m13) * m7 + (m4 * m1) * m15))
    requires c3 == (((m8 * m5) * m3 + (m0 * m9) * m7 + (m4 * m1) * m11) - ((m4 * m9) * m3 + (m8 * m1) * m7 + (m0 * m5) * m11))
    ensures Inner(c0, c1, c2, c3, m3, m7, m11, m15) == 0.0
  {
    Distribute(m8, m13, m7, m12, m5, m11, m4, m9, m15, m12, m9, m7, m4, m13, m11, m8, m5, m15, m3);
    Distribute(m12, m9, m3, m0, m13, m11, m8, m1, m15, m8, m13, m3, m12, m1, m11, m0, m9, m15, m7);
    Distribute(m4, m13, m3, m12, m1, m7, m0, m5, m15, m12, m5, m3, m0, m13, m7, m4, m1, m15, m11);
    Distribute(m8, m5, m3, m0, m9, m7, m4, m1, m11, m4, m9, m3, m8, m1, m7, m0, m5, m11, m15);
  }

  lemma CofactorRow3Column0(m0: real, m1: real, m2: real, m3: real, m4: real, m5: real, m6: real, m7: real, m8: real, m9: real, m10: real, m11: real, m12: real, m13: real, m14: real, m15: real,
                          c0: real, c1: real, c2: real, c3: real)
    requires c0 == (((m4 * m13) * m10 + (m8 * m5) * m14 + (m12 * m9) * m6) - ((m4 * m9) * m14 + (m8 * m13) * m6 + (m12 * m5) * m10))
    requires c1 == (((m0 * m9) * m14 + (m8 * m13) * m2 + (m12 * m1) * m10) - ((m0 * m13) * m10 + (m8 * m1) * m14 + (m12 * m9) * m2))
    requires c2 == (((m0 * m13) * m6 + (m4 * m1) * m14 + (m12 * m5) * m2) - ((m0 * m5) * m14 + (m4 * m13) * m2 + (m12 * m1) * m6))
    requires c3 == (((m0 * m5) * m10 + (m4 * m9) * m2 + (m8 * m1) * m6) - ((m0 * m9) * m6 + (m4 * m1) * m10 + (m8 * m5) * m2))
    ensures Inner(c0, c1, c2, c3, m0, m4, m8, m12) == 0.0
  {
    Distribute(m4, m13, m10, m8, m5, m14, m12, m9, m6, m4, m9, m14, m8, m13, m6, m12, m5, m10, m0);
    Distribute(m0, m9, m14, m8, m13, m2, m12, m1, m10, m0, m13, m10, m8, m1, m14, m12, m9, m2, m4);
    Distribute(m0, m13, m6, m4, m1, m14, m12, m5, m2, m0, m5, m14, m4, m13, m2, m12, m1, m6, m8);
    Distribute(m0, m5, m10, m4, m9, m2, m8, m1, m6, m0, m9, m6, m4, m1, m10, m8, m5, m2, m12);
  }

  lemma CofactorRow3Column1(m0: real, m1: real, m2: real, m3: real, m4: real, m5: real, m6: real, m7: real, m8: real, m9: real, m10: real, m11: real, m12: real, m13: real, m14: real, m15: real,
                          c0: real, c1: real, c2: real, c3: real)
    requires c0 == (((m4 * m13) * m10 + (m8 * m5) * m14 + (m12 * m9) * m6) - ((m4 * m9) * m14 + (m8 * m13) * m6 + (m12 * m5) * m10))
    requires c1 == (((m0 * m9) * m14 + (m8 * m13) * m2 + (m12 * m1) * m10) - ((m0 * m13) * m10 + (m8 * m1) * m14 + (m12 * m9) * m2))
    requires c2 == (((m0 * m13) * m6 + (m4 * m1) * m14 + (m12 * m5) * m2) - ((m0 * m5) * m14 + (m4 * m13) * m2 + (m12 * m1) * m6))
    requires c3 == (((m0 * m5) * m10 + (m4 * m9) * m2 + (m8 * m1) * m6) - ((m0 * m9) * m6 + (m4 * m1) * m10 + (m8 * m5) * m2))
    ensures Inner(c0, c1, c2, c3, m1, m5, m9, m13) == 0.0
  {
    Distribute(m4, m13, m10, m8, m5, m14, m12, m9, m6, m4, m9, m14, m8, m13, m6, m12, m5, m10, m1);
    Distribute(m0, m9, m14, m8, m13, m2, m12, m1, m10, m0, m13, m10, m8, m1, m14, m12, m9, m2, m5);
    Distribute(m0, m13, m6, m4, m1, m14, m12, m5, m2, m0, m5, m14, m4, m13, m2, m12, m1, m6, m9);
    Distribute(m0, m5, m10, m4, m9, m2, m8, m1, m6, m0, m9, m6, m4, m1, m10, m8, m5, m2, m13);
  }

  lemma CofactorRow3Column2(m0: real, m1: real, m2: real, m3: real, m4: real, m5: real, m6: real, m7: real, m8: real, m9: real, m10: real, m11: real, m12: real, m13: real, m14: real, m15: real,
                          c0: real, c1: real, c2: real, c3: real)
    requires c0 == (((m4 * m13) * m10 + (m8 * m5) * m14 + (m12 * m9) * m6) - ((m4 * m9) * m14 + (m8 * m13) * m6 + (m12 * m5) * m10))
    requires c1 == (((m0 * m9) * m14 + (m8 * m13) * m2 + (m12 * m1) * m10) - ((m0 * m13) * m10 + (m8 * m1) * m14 + (m12 * m9) * m2))
    requires c2 == (((m0 * m13) * m6 + (m4 * m1) * m14 + (m12 * m5) * m2) - ((m0 * m5) * m14 + (m4 * m13) * m2 + (m12 * m1) * m6))
    requires c3 == (((m0 * m5) * m10 + (m4 * m9) * m2 + (m8 * m1) * m6) - ((m0 * m9) * m6 + (m4 * m1) * m10 + (m8 * m5) * m2))
    ensures Inner(c0, c1, c2, c3, m2, m6, m10, m14) == 0.0
  {
    Distribute(m4, m13, m10, m8, m5, m14, m12, m9, m6, m4, m9, m14, m8, m13, m6, m12, m5, m10, m2);
    Distribute(m0, m9, m14, m8, m13, m2, m12, m1, m10, m0, m13, m10, m8, m1, m14, m12, m9, m2, m6);
    Distribute(m0, m13, m6, m4, m1, m14, m12, m5, m2, m0, m5, m14, m4, m13, m2, m12, m1, m6, m10);
    Distribute(m0, m5, m10, m4, m9, m2, m8, m1, m6, m0, m9, m6, m4, m1, m10, m8, m5, m2, m14);
  }

  lemma CofactorRow3Column3(m0: real, m1: real, m2: real, m3: real, m4: real, m5: real, m6: real, m7: real, m8: real, m9: real, m10: real, m11: real, m12: real, m13: real, m14: real, m15: real,
                          c0: real, c1: real, c2: real, c3: real)
    requires c0 == (((m4 * m13) * m10 + (m8 * m5) * m14 + (m12 * m9) * m6) - ((m4 * m9) * m14 + (m8 * m13) * m6 + (m12 * m5) * m10))
    requires c1 == (((m0 * m9) * m14 + (m8 * m13) * m2 + (m12 * m1) * m10) - ((m0 * m13) * m10 + (m8 * m1) * m14 + (m12 * m9) * m2))
    requires c2 == (((m0 * m13) * m6 + (m4 * m1) * m14 + (m12 * m5) * m2) - ((m0 * m5) * m14 + (m4 * m13) * m2 + (m12 * m1) * m6))
    requires c3 == (((m0 * m5) * m10 + (m4 * m9) * m2 + (m8 * m1) * m6) - ((m0 * m9) * m6 + (m4 * m1) * m10 + (m8 * m5) * m2))
    ensures Inner(c0, c1, c2, c3, m3, m7, m11, m15) == DeterminantOf(m0, m1, m2, m3, m4, m5, m6, m7, m8, m9, m10, m11, m12, m13, m14, m15)
  {
    Distribute(m4, m13, m10, m8, m5, m14, m12, m9, m6, m4, m9, m14, m8, m13, m6, m12, m5, m10, m3);
    Distribute(m10, m15, m5, m14, m7, m9, m6, m11, m13, m14, m11, m5, m6, m15, m9, m10, m7, m13, m0);
    Distribute(m0, m9, m14, m8, m13, m2, m12, m1, m10, m0, m13, m10, m8, m1, m14, m12, m9, m2, m7);
    Distribute(m14, m11, m1, m2, m15, m9, m10, m3, m13, m10, m15, m1, m14, m3, m9, m2, m11, m13, m4);
    Distribute(m0, m13, m6, m4, m1, m14, m12, m5, m2, m0, m5, m14, m4, m13, m2, m12, m1, m6, m11);
    Distribute(m6, m15, m1, m14, m3, m5, m2, m7, m13, m14, m7, m1, m2, m15, m5, m6, m3, m13, m8);
    Distribute(m0, m5, m10, m4, m9, m2, m8, m1, m6, m0, m9, m6, m4, m1, m10, m8, m5, m2, m15);
    Distribute(m10, m7, m1, m2, m11, m5, m6, m3, m9, m6, m11, m1, m10, m3, m5, m2, m7, m9, m12);
  }

  /** The determinant written out as a polynomial in the sixteen entries. */
  function DeterminantOf(m0: real, m1: real, m2: real, m3: real, m4: real, m5: real, m6: real, m7: real, m8: real, m9: real, m10: real, m11: real, m12: real, m13: real, m14: real, m15: real): real
  {
    Inner((((m10 * m15) * m5 + (m14 * m7) * m9 + (m6 * m11) * m13) - ((m14 * m11) * m5 + (m6 * m15) * m9 + (m10 * m7) * m13)),
      (((m14 * m11) * m1 + (m2 * m15) * m9 + (m10 * m3) * m13) - ((m10 * m15) * m1 + (m14 * m3) * m9 + (m2 * m11) * m13)),
      (((m6 * m15) * m1 + (m14 * m3) * m5 + (m2 * m7) * m13) - ((m14 * m7) * m1 + (m2 * m15) * m5 + (m6 * m3) * m13)),
      (((m10 * m7) * m1 + (m2 * m11) * m5 + (m6 * m3) * m9) - ((m6 * m11) * m1 + (m10 * m3) * m5 + (m2 * m7) * m9)),
      m0, m4, m8, m12)
  }

  /** Multiplying out a difference of two sums of three triple products. */
  lemma Distribute(a1: real, b1: real, c1: real, a2: real, b2: real, c2: real, a3: real, b3: real, c3: real,
                   d1: real, e1: real, f1: real, d2: real, e2: real, f2: real, d3: real, e3: real, f3: real, x: real)
    ensures (((a1 * b1) * c1 + (a2 * b2) * c2 + (a3 * b3) * c3) - ((d1 * e1) * f1 + (d2 * e2) * f2 + (d3 * e3) * f3)) * x
      == a1 * b1 * c1 * x + a2 * b2 * c2 * x + a3 * b3 * c3 * x - d1 * e1 * f1 * x - d2 * e2 * f2 * x - d3 * e3 * f3 * x
  {
  }

  /** The sum of four products. */
  function Inner(a0: real, a1: real, a2: real, a3: real, b0: real, b1: real, b2: real, b3: real): real
  {
    a0 * b0 + a1 * b1 + a2 * b2 + a3 * b3
  }

  lemma ScaledRow(d: real, c0: real, c1: real, c2: real, c3: real,
                  p0: real, p1: real, p2: real, p3: real,
                  x0: real, x1: real, x2: real, x3: real)
    requires p0 == d * c0 && p1 == d * c1 && p2 == d * c2 && p3 == d * c3
    ensures Inner(p0, p1, p2, p3, x0, x1, x2, x3) == d * Inner(c0, c1, c2, c3, x0, x1, x2, x3)
  {
  }

  lemma InverseScalesAdjugate(m: Mat4)
    requires Det(m) != 0.0
    ensures Inverse(m)[0] == (1.0 / Det(m)) * Adjugate(m)[0]
    ensures Inverse(m)[1] == (1.0 / Det(m)) * Adjugate(m)[1]
    ensures Inverse(m)[2] == (1.0 / Det(m)) * Adjugate(m)[2]
    ensures Inverse(m)[3] == (1.0 / Det(m)) * Adjugate(m)[3]
    ensures Inverse(m)[4] == (1.0 / Det(m)) * Adjugate(m)[4]
    ensures Inverse(m)[5] == (1.0 / Det(m)) * Adjugate(m)[5]
    ensures Inverse(m)[6] == (1.0 / Det(m)) * Adjugate(m)[6]
    ensures Inverse(m)[7] == (1.0 / Det(m)) * Adjugate(m)[7]
    ensures Inverse(m)[8] == (1.0 / Det(m)) * Adjugate(m)[8]
    ensures Inverse(m)[9] == (1.0 / Det(m)) * Adjugate(m)[9]
    ensures Inverse(m)[10] == (1.0 / Det(m)) * Adjugate(m)[10]
    ensures Inverse(m)[11] == (1.0 / Det(m)) * Adjugate(m)[11]
    ensures Inverse(m)[12] == (1.0 / Det(m)) * Adjugate(m)[12]
    ensures Inverse(m)[13] == (1.0 / Det(m)) * Adjugate(m)[13]
    ensures Inverse(m)[14] == (1.0 / Det(m)) * Adjugate(m)[14]
    ensures Inverse(m)[15] == (1.0 / Det(m)) * Adjugate(m)[15]
  {
  }

  lemma AdjugateRow0(m: Mat4)
    ensures Adjugate(m)[0] == (((m[10] * m[15]) * m[5] + (m[14] * m[7]) * m[9] + (m[6] * m[11]) * m[13]) - ((m[14] * m[11]) * m[5] + (m[6] * m[15]) * m[9] + (m[10] * m[7]) * m[13]))
    ensures Adjugate(m)[1] == (((m[14] * m[11]) * m[1] + (m[2] * m[15]) * m[9] + (m[10] * m[3]) * m[13]) - ((m[10] * m[15]) * m[1] + (m[14] * m[3]) * m[9] + (m[2] * m[11]) * m[13]))
    ensures Adjugate(m)[2] == (((m[6] * m[15]) * m[1] + (m[14] * m[3]) * m[5] + (m[2] * m[7]) * m[13]) - ((m[14] * m[7]) * m[1] + (m[2] * m[15]) * m[5] + (m[6] * m[3]) * m[13]))
    ensures Adjugate(m)[3] == (((m[10] * m[7]) * m[1] + (m[2] * m[11]) * m[5] + (m[6] * m[3]) * m[9]) - ((m[6] * m[11]) * m[1] + (m[10] * m[3]) * m[5] + (m[2] * m[7]) * m[9]))
  {
  }

  lemma AdjugateRow1(m: Mat4)
    ensures Adjugate(m)[4] == (((m[14] * m[11]) * m[4] + (m[6] * m[15]) * m[8] + (m[10] * m[7]) * m[12]) - ((m[10] * m[15]) * m[4] + (m[14] * m[7]) * m[8] + (m[6] * m[11]) * m[12]))
    ensures Adjugate(m)[5] == (((m[10] * m[15]) * m[0] + (m[14] * m[3]) * m[8] + (m[2] * m[11]) * m[12]) - ((m[14] * m[11]) * m[0] + (m[2] * m[15]) * m[8] + (m[10] * m[3]) * m[12]))
    ensures Adjugate(m)[6] == (((m[14] * m[7]) * m[0] + (m[2] * m[15]) * m[4] + (m[6] * m[3]) * m[12]) - ((m[6] * m[15]) * m[0] + (m[14] * m[3]) * m[4] + (m[2] * m[7]) * m[12]))
    ensures Adjugate(m)[7] == (((m[6] * m[11]) * m[0] + (m[10] * m[3]) * m[4] + (m[2] * m[7]) * m[8]) - ((m[10] * m[7]) * m[0] + (m[2] * m[11]) * m[4] + (m[6] * m[3]) * m[8]))
  {
  }

  lemma AdjugateRow2(m: Mat4)
    ensures Adjugate(m)[8] == (((m[8] * m[13]) * m[7] + (m[12] * m[5]) * m[11] + (m[4] * m[9]) * m[15]) - ((m[12] * m[9]) * m[7] + (m[4] * m[13]) * m[11] + (m[8] * m[5]) * m[15]))
    ensures Adjugate(m)[9] == (((m[12] * m[9]) * m[3] + (m[0] * m[13]) * m[11] + (m[8] * m[1]) * m[15]) - ((m[8] * m[13]) * m[3] + (m[12] * m[1]) * m[11] + (m[0] * m[9]) * m[15]))
    ensures Adjugate(m)[10] == (((m[4] * m[13]) * m[3] + (m[12] * m[1]) * m[7] + (m[0] * m[5]) * m[15]) - ((m[12] * m[5]) * m[3] + (m[0] * m[13]) * m[7] + (m[4] * m[1]) * m[15]))
    ensures Adjugate(m)[11] == (((m[8] * m[5]) * m[3] + (m[0] * m[9]) * m[7] + (m[4] * m[1]) * m[11]) - ((m[4] * m[9]) * m[3] + (m[8] * m[1]) * m[7] + (m[0] * m[5]) * m[11]))
  {
  }

  lemma AdjugateRow3(m: Mat4)
    ensures Adjugate(m)[12] == (((m[4] * m[13]) * m[10] + (m[8] * m[5]) * m[14] + (m[12] * m[9]) * m[6]) - ((m[4] * m[9]) * m[14] + (m[8] * m[13]) * m[6] + (m[12] * m[5]) * m[10]))
    ensures Adjugate(m)[13] == (((m[0] * m[9]) * m[14] + (m[8] * m[13]) * m[2] + (m[12] * m[1]) * m[10]) - ((m[0] * m[13]) * m[10] + (m[8] * m[1]) * m[14] + (m[12] * m[9]) * m[2]))
    ensures Adjugate(m)[14] == (((m[0] * m[13]) * m[6] + (m[4] * m[1]) * m[14] + (m[12] * m[5]) * m[2]) - ((m[0] * m[5]) * m[14] + (m[4] * m[13]) * m[2] + (m[12] * m[1]) * m[6]))
    ensures Adjugate(m)[15] == (((m[0] * m[5]) * m[10] + (m[4] * m[9]) * m[2] + (m[8] * m[1]) * m[6]) - ((m[0] * m[9]) * m[6] + (m[4] * m[1]) * m[10] + (m[8] * m[5]) * m[2]))
  {
  }

  lemma DetIsDeterminant(m: Mat4)
    ensures Det(m) == DeterminantOf(m[0], m[1], m[2], m[3], m[4], m[5], m[6], m[7], m[8], m[9], m[10], m[11], m[12], m[13], m[14], m[15])
  {
    var t := Adjugate(m);
    AdjugateRow0(m);
    CofactorRow0Column0(m[0], m[1], m[2], m[3], m[4], m[5], m[6], m[7], m[8], m[9], m[10], m[11], m[12], m[13], m[14], m[15],
      t[0], t[1], t[2], t[3]);
  }

  lemma CofactorsAt0(t: Mat4, m: Mat4)
    requires t[0] == (((m[10] * m[15]) * m[5] + (m[14] * m[7]) * m[9] + (m[6] * m[11]) * m[13]) - ((m[14] * m[11]) * m[5] + (m[6] * m[15]) * m[9] + (m[10] * m[7]) * m[13]))
    requires t[1] == (((m[14] * m[11]) * m[1] + (m[2] * m[15]) * m[9] + (m[10] * m[3]) * m[13]) - ((m[10] * m[15]) * m[1] + (m[14] * m[3]) * m[9] + (m[2] * m[11]) * m[13]))
    requires t[2] == (((m[6] * m[15]) * m[1] + (m[14] * m[3]) * m[5] + (m[2] * m[7]) * m[13]) - ((m[14] * m[7]) * m[1] + (m[2] * m[15]) * m[5] + (m[6] * m[3]) * m[13]))
    requires t[3] == (((m[10] * m[7]) * m[1] + (m[2] * m[11]) * m[5] + (m[6] * m[3]) * m[9]) - ((m[6] * m[11]) * m[1] + (m[10] * m[3]) * m[5] + (m[2] * m[7]) * m[9]))
    ensures Dot(t, m)[0] == DeterminantOf(m[0], m[1], m[2], m[3], m[4], m[5], m[6], m[7], m[8], m[9], m[10], m[11], m[12], m[13], m[14], m[15])
  {
    CofactorRow0Column0(m[0], m[1], m[2], m[3], m[4], m[5], m[6], m[7], m[8], m[9], m[10], m[11], m[12], m[13], m[14], m[15],
      t[0], t[1], t[2], t[3]);
    assert Dot(t, m)[0] == Inner(t[0], t[1], t[2], t[3], m[0], m[4], m[8], m[12]);
  }

  lemma AdjugateAt0(m: Mat4)
    ensures Dot(Adjugate(m), m)[0] == Det(m)
  {
    AdjugateRow0(m);
    CofactorsAt0(Adjugate(m), m);
    DetIsDeterminant(m);
  }

  lemma ScaledDotAt0(d: real, a: Mat4, a': Mat4, b: Mat4)
    requires a'[0] == d * a[0] && a'[1] == d * a[1] && a'[2] == d * a[2] && a'[3] == d * a[3]
    ensures Dot(a', b)[0] == d * Dot(a, b)[0]
  {
    ScaledRow(d, a[0], a[1], a[2], a[3], a'[0], a'[1], a'[2], a'[3], b[0], b[4], b[8], b[12]);
    assert Dot(a', b)[0] == Inner(a'[0], a'[1], a'[2], a'[3], b[0], b[4], b[8], b[12]);
    assert Dot(a, b)[0] == Inner(a[0], a[1], a[2], a[3], b[0], b[4], b[8], b[12]);
  }

  lemma InverseAt0(m: Mat4)
    requires Det(m) != 0.0
    ensures Dot(Inverse(m), m)[0] == Identity()[0]
  {
    AdjugateAt0(m);
    InverseScalesAdjugate(m);
    ScaledDotAt0(1.0 / Det(m), Adjugate(m), Inverse(m), m);
  }

  lemma CofactorsAt1(t: Mat4, m: Mat4)
    requires t[0] == (((m[10] * m[15]) * m[5] + (m[14] * m[7]) * m[9] + (m[6] * m[11]) * m[13]) - ((m[14] * m[11]) * m[5] + (m[6] * m[15]) * m[9] + (m[10] * m[7]) * m[13]))
    requires t[1] == (((m[14] * m[11]) * m[1] + (m[2] * m[15]) * m[9] + (m[10] * m[3]) * m[13]) - ((m[10] * m[15]) * m[1] + (m[14] * m[3]) * m[9] + (m[2] * m[11]) * m[13]))
    requires t[2] == (((m[6] * m[15]) * m[1] + (m[14] * m[3]) * m[5] + (m[2] * m[7]) * m[13]) - ((m[14] * m[7]) * m[1] + (m[2] * m[15]) * m[5] + (m[6] * m[3]) * m[13]))
    requires t[3] == (((m[10] * m[7]) * m[1] + (m[2] * m[11]) * m[5] + (m[6] * m[3]) * m[9]) - ((m[6] * m[11]) * m[1] + (m[10] * m[3]) * m[5] + (m[2] * m[7]) * m[9]))
    ensures Dot(t, m)[1] == 0.0
  {
    CofactorRow0Column1(m[0], m[1], m[2], m[3], m[4], m[5], m[6], m[7], m[8], m[9], m[10], m[11], m[12], m[13], m[14], m[15],
      t[0], t[1], t[2], t[3]);
    assert Dot(t, m)[1] == Inner(t[0], t[1], t[2], t[3], m[1], m[5], m[9], m[13]);
  }

  lemma AdjugateAt1(m: Mat4)
    ensures Dot(Adjugate(m), m)[1] == 0.0
  {
    AdjugateRow0(m);
    CofactorsAt1(Adjugate(m), m);
  }

  lemma ScaledDotAt1(d: real, a: Mat4, a': Mat4, b: Mat4)
    requires a'[0] == d * a[0] && a'[1] == d * a[1] && a'[2] == d * a[2] && a'[3] == d * a[3]
    ensures Dot(a', b)[1] == d * Dot(a, b)[1]
  {
    ScaledRow(d, a[0], a[1], a[2], a[3], a'[0], a'[1], a'[2], a'[3], b[1], b[5], b[9], b[13]);
    assert Dot(a', b)[1] == Inner(a'[0], a'[1], a'[2], a'[3], b[1], b[5], b[9], b[13]);
    assert Dot(a, b)[1] == Inner(a[0], a[1], a[2], a[3], b[1], b[5], b[9], b[13]);
  }

  lemma InverseAt1(m: Mat4)
    requires Det(m) != 0.0
    ensures Dot(Inverse(m), m)[1] == Identity()[1]
  {
    AdjugateAt1(m);
    InverseScalesAdjugate(m);
    ScaledDotAt1(1.0 / Det(m), Adjugate(m), Inverse(m), m);
  }

  lemma CofactorsAt2(t: Mat4, m: Mat4)
    requires t[0] == (((m[10] * m[15]) * m[5] + (m[14] * m[7]) * m[9] + (m[6] * m[11]) * m[13]) - ((m[14] * m[11]) * m[5] + (m[6] * m[15]) * m[9] + (m[10] * m[7]) * m[13]))
    requires t[1] == (((m[14] * m[11]) * m[1] + (m[2] * m[15]) * m[9] + (m[10] * m[3]) * m[13]) - ((m[10] * m[15]) * m[1] + (m[14] * m[3]) * m[9] + (m[2] * m[11]) * m[13]))
    requires t[2] == (((m[6] * m[15]) * m[1] + (m[14] * m[3]) * m[5] + (m[2] * m[7]) * m[13]) - ((m[14] * m[7]) * m[1] + (m[2] * m[15]) * m[5] + (m[6] * m[3]) * m[13]))
    requires t[3] == (((m[10] * m[7]) * m[1] + (m[2] * m[11]) * m[5] + (m[6] * m[3]) * m[9]) - ((m[6] * m[11]) * m[1] + (m[10] * m[3]) * m[5] + (m[2] * m[7]) * m[9]))
    ensures Dot(t, m)[2] == 0.0
  {
    CofactorRow0Column2(m[0], m[1], m[2], m[3], m[4], m[5], m[6], m[7], m[8], m[9], m[10], m[11], m[12], m[13], m[14], m[15],
      t[0], t[1], t[2], t[3]);
    assert Dot(t, m)[2] == Inner(t[0], t[1], t[2], t[3], m[2], m[6], m[10], m[14]);
  }

  lemma AdjugateAt2(m: Mat4)
    ensures Dot(Adjugate(m), m)[2] == 0.0
  {
    AdjugateRow0(m);
    CofactorsAt2(Adjugate(m), m);
  }

  lemma ScaledDotAt2(d: real, a: Mat4, a': Mat4, b: Mat4)
    requires a'[0] == d * a[0] && a'[1] == d * a[1] && a'[2] == d * a[2] && a'[3] == d * a[3]
    ensures Dot(a', b)[2] == d * Dot(a, b)[2]
  {
    ScaledRow(d, a[0], a[1], a[2], a[3], a'[0], a'[1], a'[2], a'[3], b[2], b[6], b[10], b[14]);
    assert Dot(a', b)[2] == Inner(a'[0], a'[1], a'[2], a'[3], b[2], b[6], b[10], b[14]);
    assert Dot(a, b)[2] == Inner(a[0], a[1], a[2], a[3], b[2], b[6], b[10], b[14]);
  }

  lemma InverseAt2(m: Mat4)
    requires Det(m) != 0.0
    ensures Dot(Inverse(m), m)[2] == Identity()[2]
  {
    AdjugateAt2(m);
    InverseScalesAdjugate(m);
    ScaledDotAt2(1.0 / Det(m), Adjugate(m), Inverse(m), m);
  }

  lemma CofactorsAt3(t: Mat4, m: Mat4)
    requires t[0] == (((m[10] * m[15]) * m[5] + (m[14] * m[7]) * m[9] + (m[6] * m[11]) * m[13]) - ((m[14] * m[11]) * m[5] + (m[6] * m[15]) * m[9] + (m[10] * m[7]) * m[13]))
    requires t[1] == (((m[14] * m[11]) * m[1] + (m[2] * m[15]) * m[9] + (m[10] * m[3]) * m[13]) - ((m[10] * m[15]) * m[1] + (m[14] * m[3]) * m[9] + (m[2] * m[11]) * m[13]))
    requires t[2] == (((m[6] * m[15]) * m[1] + (m[14] * m[3]) * m[5] + (m[2] * m[7]) * m[13]) - ((m[14] * m[7]) * m[1] + (m[2] * m[15]) * m[5] + (m[6] * m[3]) * m[13]))
    requires t[3] == (((m[10] * m[7]) * m[1] + (m[2] * m[11]) * m[5] + (m[6] * m[3]) * m[9]) - ((m[6] * m[11]) * m[1] + (m[10] * m[3]) * m[5] + (m[2] * m[7]) * m[9]))
    ensures Dot(t, m)[3] == 0.0
  {
    CofactorRow0Column3(m[0], m[1], m[2], m[3], m[4], m[5], m[6], m[7], m[8], m[9], m[10], m[11], m[12], m[13], m[14], m[15],
      t[0], t[1], t[2], t[3]);
    assert Dot(t, m)[3] == Inner(t[0], t[1], t[2], t[3], m[3], m[7], m[11], m[15]);
  }

  lemma AdjugateAt3(m: Mat4)
    ensures Dot(Adjugate(m), m)[3] == 0.0
  {
    AdjugateRow0(m);
    CofactorsAt3(Adjugate(m), m);
  }

  lemma ScaledDotAt3(d: real, a: Mat4, a': Mat4, b: Mat4)
    requires a'[0] == d * a[0] && a'[1] == d * a[1] && a'[2] == d * a[2] && a'[3] == d * a[3]
    ensures Dot(a', b)[3] == d * Dot(a, b)[3]
  {
    ScaledRow(d, a[0], a[1], a[2], a[3], a'[0], a'[1], a'[2], a'[3], b[3], b[7], b[11], b[15]);
    assert Dot(a', b)[3] == Inner(a'[0], a'[1], a'[2], a'[3], b[3], b[7], b[11], b[15]);
    assert Dot(a, b)[3] == Inner(a[0], a[1], a[2], a[3], b[3], b[7], b[11], b[15]);
  }

  lemma InverseAt3(m: Mat4)
    requires Det(m) != 0.0
    ensures Dot(Inverse(m), m)[3] == Identity()[3]
  {
    AdjugateAt3(m);
    InverseScalesAdjugate(m);
    ScaledDotAt3(1.0 / Det(m), Adjugate(m), Inverse(m), m);
  }

  lemma CofactorsAt4(t: Mat4, m: Mat4)
    requires t[4] == (((m[14] * m[11]) * m[4] + (m[6] * m[15]) * m[8] + (m[10] * m[7]) * m[12]) - ((m[10] * m[15]) * m[4] + (m[14] * m[7]) * m[8] + (m[6] * m[11]) * m[12]))
    requires t[5] == (((m[10] * m[15]) * m[0] + (m[14] * m[3]) * m[8] + (m[2] * m[11]) * m[12]) - ((m[14] * m[11]) * m[0] + (m[2] * m[15]) * m[8] + (m[10] * m[3]) * m[12]))
    requires t[6] == (((m[14] * m[7]) * m[0] + (m[2] * m[15]) * m[4] + (m[6] * m[3]) * m[12]) - ((m[6] * m[15]) * m[0] + (m[14] * m[3]) * m[4] + (m[2] * m[7]) * m[12]))
    requires t[7] == (((m[6] * m[11]) * m[0] + (m[10] * m[3]) * m[4] + (m[2] * m[7]) * m[8]) - ((m[10] * m[7]) * m[0] + (m[2] * m[11]) * m[4] + (m[6] * m[3]) * m[8]))
    ensures Dot(t, m)[4] == 0.0
  {
    CofactorRow1Column0(m[0], m[1], m[2], m[3], m[4], m[5], m[6], m[7], m[8], m[9], m[10], m[11], m[12], m[13], m[14], m[15],
      t[4], t[5], t[6], t[7]);
    assert Dot(t, m)[4] == Inner(t[4], t[5], t[6], t[7], m[0], m[4], m[8], m[12]);
  }

  lemma AdjugateAt4(m: Mat4)
    ensures Dot(Adjugate(m), m)[4] == 0.0
  {
    AdjugateRow1(m);
    CofactorsAt4(Adjugate(m), m);
  }

  lemma ScaledDotAt4(d: real, a: Mat4, a': Mat4, b: Mat4)
    requires a'[4] == d * a[4] && a'[5] == d * a[5] && a'[6] == d * a[6] && a'[7] == d * a[7]
    ensures Dot(a', b)[4] == d * Dot(a, b)[4]
  {
    ScaledRow(d, a[4], a[5], a[6], a[7], a'[4], a'[5], a'[6], a'[7], b[0], b[4], b[8], b[12]);
    assert Dot(a', b)[4] == Inner(a'[4], a'[5], a'[6], a'[7], b[0], b[4], b[8], b[12]);
    assert Dot(a, b)[4] == Inner(a[4], a[5], a[6], a[7], b[0], b[4], b[8], b[12]);
  }

  lemma InverseAt4(m: Mat4)
    requires Det(m) != 0.0
    ensures Dot(Inverse(m), m)[4] == Identity()[4]
  {
    AdjugateAt4(m);
    InverseScalesAdjugate(m);
    ScaledDotAt4(1.0 / Det(m), Adjugate(m), Inverse(m), m);
  }

  lemma CofactorsAt5(t: Mat4, m: Mat4)
    requires t[4] == (((m[14] * m[11]) * m[4] + (m[6] * m[15]) * m[8] + (m[10] * m[7]) * m[12]) - ((m[10] * m[15]) * m[4] + (m[14] * m[7]) * m[8] + (m[6] * m[11]) * m[12]))
    requires t[5] == (((m[10] * m[15]) * m[0] + (m[14] * m[3]) * m[8] + (m[2] * m[11]) * m[12]) - ((m[14] * m[11]) * m[0] + (m[2] * m[15]) * m[8] + (m[10] * m[3]) * m[12]))
    requires t[6] == (((m[14] * m[7]) * m[0] + (m[2] * m[15]) * m[4] + (m[6] * m[3]) * m[12]) - ((m[6] * m[15]) * m[0] + (m[14] * m[3]) * m[4] + (m[2] * m[7]) * m[12]))
    requires t[7] == (((m[6] * m[11]) * m[0] + (m[10] * m[3]) * m[4] + (m[2] * m[7]) * m[8]) - ((m[10] * m[7]) * m[0] + (m[2] * m[11]) * m[4] + (m[6] * m[3]) * m[8]))
    ensures Dot(t, m)[5] == DeterminantOf(m[0], m[1], m[2], m[3], m[4], m[5], m[6], m[7], m[8], m[9], m[10], m[11], m[12], m[13], m[14], m[15])
  {
    CofactorRow1Column1(m[0], m[1], m[2], m[3], m[4], m[5], m[6], m[7], m[8], m[9], m[10], m[11], m[12], m[13], m[14], m[15],
      t[4], t[5], t[6], t[7]);
    assert Dot(t, m)[5] == Inner(t[4], t[5], t[6], t[7], m[1], m[5], m[9], m[13]);
  }

  lemma AdjugateAt5(m: Mat4)
    ensures Dot(Adjugate(m), m)[5] == Det(m)
  {
    AdjugateRow1(m);
    CofactorsAt5(Adjugate(m), m);
    DetIsDeterminant(m);
  }

  lemma ScaledDotAt5(d: real, a: Mat4, a': Mat4, b: Mat4)
    requires a'[4] == d * a[4] && a'[5] == d * a[5] && a'[6] == d * a[6] && a'[7] == d * a[7]
    ensures Dot(a', b)[5] == d * Dot(a, b)[5]
  {
    ScaledRow(d, a[4], a[5], a[6], a[7], a'[4], a'[5], a'[6], a'[7], b[1], b[5], b[9], b[13]);
    assert Dot(a', b)[5] == Inner(a'[4], a'[5], a'[6], a'[7], b[1], b[5], b[9], b[13]);
    assert Dot(a, b)[5] == Inner(a[4], a[5], a[6], a[7], b[1], b[5], b[9], b[13]);
  }

  lemma InverseAt5(m: Mat4)
    requires Det(m) != 0.0
    ensures Dot(Inverse(m), m)[5] == Identity()[5]
  {
    AdjugateAt5(m);
    InverseScalesAdjugate(m);
    ScaledDotAt5(1.0 / Det(m), Adjugate(m), Inverse(m), m);
  }

  lemma CofactorsAt6(t: Mat4, m: Mat4)
    requires t[4] == (((m[14] * m[11]) * m[4] + (m[6] * m[15]) * m[8] + (m[10] * m[7]) * m[12]) - ((m[10] * m[15]) * m[4] + (m[14] * m[7]) * m[8] + (m[6] * m[11]) * m[12]))
    requires t[5] == (((m[10] * m[15]) * m[0] + (m[14] * m[3]) * m[8] + (m[2] * m[11]) * m[12]) - ((m[14] * m[11]) * m[0] + (m[2] * m[15]) * m[8] + (m[10] * m[3]) * m[12]))
    requires t[6] == (((m[14] * m[7]) * m[0] + (m[2] * m[15]) * m[4] + (m[6] * m[3]) * m[12]) - ((m[6] * m[15]) * m[0] + (m[14] * m[3]) * m[4] + (m[2] * m[7]) * m[12]))
    requires t[7] == (((m[6] * m[11]) * m[0] + (m[10] * m[3]) * m[4] + (m[2] * m[7]) * m[8]) - ((m[10] * m[7]) * m[0] + (m[2] * m[11]) * m[4] + (m[6] * m[3]) * m[8]))
    ensures Dot(t, m)[6] == 0.0
  {
    CofactorRow1Column2(m[0], m[1], m[2], m[3], m[4], m[5], m[6], m[7], m[8], m[9], m[10], m[11], m[12], m[13], m[14], m[15],
      t[4], t[5], t[6], t[7]);
    assert Dot(t, m)[6] == Inner(t[4], t[5], t[6], t[7], m[2], m[6], m[10], m[14]);
  }

  lemma AdjugateAt6(m: Mat4)
    ensures Dot(Adjugate(m), m)[6] == 0.0
  {
    AdjugateRow1(m);
    CofactorsAt6(Adjugate(m), m);
  }

  lemma ScaledDotAt6(d: real, a: Mat4, a': Mat4, b: Mat4)
    requires a'[4] == d * a[4] && a'[5] == d * a[5] && a'[6] == d * a[6] && a'[7] == d * a[7]
    ensures Dot(a', b)[6] == d * Dot(a, b)[6]
  {
    ScaledRow(d, a[4], a[5], a[6], a[7], a'[4], a'[5], a'[6], a'[7], b[2], b[6], b[10], b[14]);
    assert Dot(a', b)[6] == Inner(a'[4], a'[5], a'[6], a'[7], b[2], b[6], b[10], b[14]);
    assert Dot(a, b)[6] == Inner(a[4], a[5], a[6], a[7], b[2], b[6], b[10], b[14]);
  }

  lemma InverseAt6(m: Mat4)
    requires Det(m) != 0.0
    ensures Dot(Inverse(m), m)[6] == Identity()[6]
  {
    AdjugateAt6(m);
    InverseScalesAdjugate(m);
    ScaledDotAt6(1.0 / Det(m), Adjugate(m), Inverse(m), m);
  }

  lemma CofactorsAt7(t: Mat4, m: Mat4)
    requires t[4] == (((m[14] * m[11]) * m[4] + (m[6] * m[15]) * m[8] + (m[10] * m[7]) * m[12]) - ((m[10] * m[15]) * m[4] + (m[14] * m[7]) * m[8] + (m[6] * m[11]) * m[12]))
    requires t[5] == (((m[10] * m[15]) * m[0] + (m[14] * m[3]) * m[8] + (m[2] * m[11]) * m[12]) - ((m[14] * m[11]) * m[0] + (m[2] * m[15]) * m[8] + (m[10] * m[3]) * m[12]))
    requires t[6] == (((m[14] * m[7]) * m[0] + (m[2] * m[15]) * m[4] + (m[6] * m[3]) * m[12]) - ((m[6] * m[15]) * m[0] + (m[14] * m[3]) * m[4] + (m[2] * m[7]) * m[12]))
    requires t[7] == (((m[6] * m[11]) * m[0] + (m[10] * m[3]) * m[4] + (m[2] * m[7]) * m[8]) - ((m[10] * m[7]) * m[0] + (m[2] * m[11]) * m[4] + (m[6] * m[3]) * m[8]))
    ensures Dot(t, m)[7] == 0.0
  {
    CofactorRow1Column3(m[0], m[1], m[2], m[3], m[4], m[5], m[6], m[7], m[8], m[9], m[10], m[11], m[12], m[13], m[14], m[15],
      t[4], t[5], t[6], t[7]);
    assert Dot(t, m)[7] == Inner(t[4], t[5], t[6], t[7], m[3], m[7], m[11], m[15]);
  }

  lemma AdjugateAt7(m: Mat4)
    ensures Dot(Adjugate(m), m)[7] == 0.0
  {
    AdjugateRow1(m);
    CofactorsAt7(Adjugate(m), m);
  }

  lemma ScaledDotAt7(d: real, a: Mat4, a': Mat4, b: Mat4)
    requires a'[4] == d * a[4] && a'[5] == d * a[5] && a'[6] == d * a[6] && a'[7] == d * a[7]
    ensures Dot(a', b)[7] == d * Dot(a, b)[7]
  {
    ScaledRow(d, a[4], a[5], a[6], a[7], a'[4], a'[5], a'[6], a'[7], b[3], b[7], b[11], b[15]);
    assert Dot(a', b)[7] == Inner(a'[4], a'[5], a'[6], a'[7], b[3], b[7], b[11], b[15]);
    assert Dot(a, b)[7] == Inner(a[4], a[5], a[6], a[7], b[3], b[7], b[11], b[15]);
  }

  lemma InverseAt7(m: Mat4)
    requires Det(m) != 0.0
    ensures Dot(Inverse(m), m)[7] == Identity()[7]
  {
    AdjugateAt7(m);
    InverseScalesAdjugate(m);
    ScaledDotAt7(1.0 / Det(m), Adjugate(m), Inverse(m), m);
  }

  lemma CofactorsAt8(t: Mat4, m: Mat4)
    requires t[8] == (((m[8] * m[13]) * m[7] + (m[12] * m[5]) * m[11] + (m[4] * m[9]) * m[15]) - ((m[12] * m[9]) * m[7] + (m[4] * m[13]) * m[11] + (m[8] * m[5]) * m[15]))
    requires t[9] == (((m[12] * m[9]) * m[3] + (m[0] * m[13]) * m[11] + (m[8] * m[1]) * m[15]) - ((m[8] * m[13]) * m[3] + (m[12] * m[1]) * m[11] + (m[0] * m[9]) * m[15]))
    requires t[10] == (((m[4] * m[13]) * m[3] + (m[12] * m[1]) * m[7] + (m[0] * m[5]) * m[15]) - ((m[12] * m[5]) * m[3] + (m[0] * m[13]) * m[7] + (m[4] * m[1]) * m[15]))
    requires t[11] == (((m[8] * m[5]) * m[3] + (m[0] * m[9]) * m[7] + (m[4] * m[1]) * m[11]) - ((m[4] * m[9]) * m[3] + (m[8] * m[1]) * m[7] + (m[0] * m[5]) * m[11]))
    ensures Dot(t, m)[8] == 0.0
  {
    CofactorRow2Column0(m[0], m[1], m[2], m[3], m[4], m[5], m[6], m[7], m[8], m[9], m[10], m[11], m[12], m[13], m[14], m[15],
      t[8], t[9], t[10], t[11]);
    assert Dot(t, m)[8] == Inner(t[8], t[9], t[10], t[11], m[0], m[4], m[8], m[12]);
  }

  lemma AdjugateAt8(m: Mat4)
    ensures Dot(Adjugate(m), m)[8] == 0.0
  {
    AdjugateRow2(m);
    CofactorsAt8(Adjugate(m), m);
  }

  lemma ScaledDotAt8(d: real, a: Mat4, a': Mat4, b: Mat4)
    requires a'[8] == d * a[8] && a'[9] == d * a[9] && a'[10] == d * a[10] && a'[11] == d * a[11]
    ensures Dot(a', b)[8] == d * Dot(a, b)[8]
  {
    ScaledRow(d, a[8], a[9], a[10], a[11], a'[8], a'[9], a'[10], a'[11], b[0], b[4], b[8], b[12]);
    assert Dot(a', b)[8] == Inner(a'[8], a'[9], a'[10], a'[11], b[0], b[4], b[8], b[12]);
    assert Dot(a, b)[8] == Inner(a[8], a[9], a[10], a[11], b[0], b[4], b[8], b[12]);
  }

  lemma InverseAt8(m: Mat4)
    requires Det(m) != 0.0
    ensures Dot(Inverse(m), m)[8] == Identity()[8]
  {
    AdjugateAt8(m);
    InverseScalesAdjugate(m);
    ScaledDotAt8(1.0 / Det(m), Adjugate(m), Inverse(m), m);
  }

  lemma CofactorsAt9(t: Mat4, m: Mat4)
    requires t[8] == (((m[8] * m[13]) * m[7] + (m[12] * m[5]) * m[11] + (m[4] * m[9]) * m[15]) - ((m[12] * m[9]) * m[7] + (m[4] * m[13]) * m[11] + (m[8] * m[5]) * m[15]))
    requires t[9] == (((m[12] * m[9]) * m[3] + (m[0] * m[13]) * m[11] + (m[8] * m[1]) * m[15]) - ((m[8] * m[13]) * m[3] + (m[12] * m[1]) * m[11] + (m[0] * m[9]) * m[15]))
    requires t[10] == (((m[4] * m[13]) * m[3] + (m[12] * m[1]) * m[7] + (m[0] * m[5]) * m[15]) - ((m[12] * m[5]) * m[3] + (m[0] * m[13]) * m[7] + (m[4] * m[1]) * m[15]))
    requires t[11] == (((m[8] * m[5]) * m[3] + (m[0] * m[9]) * m[7] + (m[4] * m[1]) * m[11]) - ((m[4] * m[9]) * m[3] + (m[8] * m[1]) * m[7] + (m[0] * m[5]) * m[11]))
    ensures Dot(t, m)[9] == 0.0
  {
    CofactorRow2Column1(m[0], m[1], m[2], m[3], m[4], m[5], m[6], m[7], m[8], m[9], m[10], m[11], m[12], m[13], m[14], m[15],
      t[8], t[9], t[10], t[11]);
    assert Dot(t, m)[9] == Inner(t[8], t[9], t[10], t[11], m[1], m[5], m[9], m[13]);
  }

  lemma AdjugateAt9(m: Mat4)
    ensures Dot(Adjugate(m), m)[9] == 0.0
  {
    AdjugateRow2(m);
    CofactorsAt9(Adjugate(m), m);
  }

  lemma ScaledDotAt9(d: real, a: Mat4, a': Mat4, b: Mat4)
    requires a'[8] == d * a[8] && a'[9] == d * a[9] && a'[10] == d * a[10] && a'[11] == d * a[11]
    ensures Dot(a', b)[9] == d * Dot(a, b)[9]
  {
    ScaledRow(d, a[8], a[9], a[10], a[11], a'[8], a'[9], a'[10], a'[11], b[1], b[5], b[9], b[13]);
    assert Dot(a', b)[9] == Inner(a'[8], a'[9], a'[10], a'[11], b[1], b[5], b[9], b[13]);
    assert Dot(a, b)[9] == Inner(a[8], a[9], a[10], a[11], b[1], b[5], b[9], b[13]);
  }

  lemma InverseAt9(m: Mat4)
    requires Det(m) != 0.0
    ensures Dot(Inverse(m), m)[9] == Identity()[9]
  {
    AdjugateAt9(m);
    InverseScalesAdjugate(m);
    ScaledDotAt9(1.0 / Det(m), Adjugate(m), Inverse(m), m);
  }

  lemma CofactorsAt10(t: Mat4, m: Mat4)
    requires t[8] == (((m[8] * m[13]) * m[7] + (m[12] * m[5]) * m[11] + (m[4] * m[9]) * m[15]) - ((m[12] * m[9]) * m[7] + (m[4] * m[13]) * m[11] + (m[8] * m[5]) * m[15]))
    requires t[9] == (((m[12] * m[9]) * m[3] + (m[0] * m[13]) * m[11] + (m[8] * m[1]) * m[15]) - ((m[8] * m[13]) * m[3] + (m[12] * m[1]) * m[11] + (m[0] * m[9]) * m[15]))
    requires t[10] == (((m[4] * m[13]) * m[3] + (m[12] * m[1]) * m[7] + (m[0] * m[5]) * m[15]) - ((m[12] * m[5]) * m[3] + (m[0] * m[13]) * m[7] + (m[4] * m[1]) * m[15]))
    requires t[11] == (((m[8] * m[5]) * m[3] + (m[0] * m[9]) * m[7] + (m[4] * m[1]) * m[11]) - ((m[4] * m[9]) * m[3] + (m[8] * m[1]) * m[7] + (m[0] * m[5]) * m[11]))
    ensures Dot(t, m)[10] == DeterminantOf(m[0], m[1], m[2], m[3], m[4], m[5], m[6], m[7], m[8], m[9], m[10], m[11], m[12], m[13], m[14], m[15])
  {
    CofactorRow2Column2(m[0], m[1], m[2], m[3], m[4], m[5], m[6], m[7], m[8], m[9], m[10], m[11], m[12], m[13], m[14], m[15],
      t[8], t[9], t[10], t[11]);
    assert Dot(t, m)[10] == Inner(t[8], t[9], t[10], t[11], m[2], m[6], m[10], m[14]);
  }

  lemma AdjugateAt10(m: Mat4)
    ensures Dot(Adjugate(m), m)[10] == Det(m)
  {
    AdjugateRow2(m);
    CofactorsAt10(Adjugate(m), m);
    DetIsDeterminant(m);
  }

  lemma ScaledDotAt10(d: real, a: Mat4, a': Mat4, b: Mat4)
    requires a'[8] == d * a[8] && a'[9] == d * a[9] && a'[10] == d * a[10] && a'[11] == d * a[11]
    ensures Dot(a', b)[10] == d * Dot(a, b)[10]
  {
    ScaledRow(d, a[8], a[9], a[10], a[11], a'[8], a'[9], a'[10], a'[11], b[2], b[6], b[10], b[14]);
    assert Dot(a', b)[10] == Inner(a'[8], a'[9], a'[10], a'[11], b[2], b[6], b[10], b[14]);
    assert Dot(a, b)[10] == Inner(a[8], a[9], a[10], a[11], b[2], b[6], b[10], b[14]);
  }

  lemma InverseAt10(m: Mat4)
    requires Det(m) != 0.0
    ensures Dot(Inverse(m), m)[10] == Identity()[10]
  {
    AdjugateAt10(m);
    InverseScalesAdjugate(m);
    ScaledDotAt10(1.0 / Det(m), Adjugate(m), Inverse(m), m);
  }

  lemma CofactorsAt11(t: Mat4, m: Mat4)
    requires t[8] == (((m[8] * m[13]) * m[7] + (m[12] * m[5]) * m[11] + (m[4] * m[9]) * m[15]) - ((m[12] * m[9]) * m[7] + (m[4] * m[13]) * m[11] + (m[8] * m[5]) * m[15]))
    requires t[9] == (((m[12] * m[9]) * m[3] + (m[0] * m[13]) * m[11] + (m[8] * m[1]) * m[15]) - ((m[8] * m[13]) * m[3] + (m[12] * m[1]) * m[11] + (m[0] * m[9]) * m[15]))
    requires t[10] == (((m[4] * m[13]) * m[3] + (m[12] * m[1]) * m[7] + (m[0] * m[5]) * m[15]) - ((m[12] * m[5]) * m[3] + (m[0] * m[13]) * m[7] + (m[4] * m[1]) * m[15]))
    requires t[11] == (((m[8] * m[5]) * m[3] + (m[0] * m[9]) * m[7] + (m[4] * m[1]) * m[11]) - ((m[4] * m[9]) * m[3] + (m[8] * m[1]) * m[7] + (m[0] * m[5]) * m[11]))
    ensures Dot(t, m)[11] == 0.0
  {
    CofactorRow2Column3(m[0], m[1], m[2], m[3], m[4], m[5], m[6], m[7], m[8], m[9], m[10], m[11], m[12], m[13], m[14], m[15],
      t[8], t[9], t[10], t[11]);
    assert Dot(t, m)[11] == Inner(t[8], t[9], t[10], t[11], m[3], m[7], m[11], m[15]);
  }

  lemma AdjugateAt11(m: Mat4)
    ensures Dot(Adjugate(m), m)[11] == 0.0
  {
    AdjugateRow2(m);
    CofactorsAt11(Adjugate(m), m);
  }

  lemma ScaledDotAt11(d: real, a: Mat4, a': Mat4, b: Mat4)
    requires a'[8] == d * a[8] && a'[9] == d * a[9] && a'[10] == d * a[10] && a'[11] == d * a[11]
    ensures Dot(a', b)[11] == d * Dot(a, b)[11]
  {
    ScaledRow(d, a[8], a[9], a[10], a[11], a'[8], a'[9], a'[10], a'[11], b[3], b[7], b[11], b[15]);
    assert Dot(a', b)[11] == Inner(a'[8], a'[9], a'[10], a'[11], b[3], b[7], b[11], b[15]);
    assert Dot(a, b)[11] == Inner(a[8], a[9], a[10], a[11], b[3], b[7], b[11], b[15]);
  }

  lemma InverseAt11(m: Mat4)
    requires Det(m) != 0.0
    ensures Dot(Inverse(m), m)[11] == Identity()[11]
  {
    AdjugateAt11(m);
    InverseScalesAdjugate(m);
    ScaledDotAt11(1.0 / Det(m), Adjugate(m), Inverse(m), m);
  }

  lemma CofactorsAt12(t: Mat4, m: Mat4)
    requires t[12] == (((m[4] * m[13]) * m[10] + (m[8] * m[5]) * m[14] + (m[12] * m[9]) * m[6]) - ((m[4] * m[9]) * m[14] + (m[8] * m[13]) * m[6] + (m[12] * m[5]) * m[10]))
    requires t[13] == (((m[0] * m[9]) * m[14] + (m[8] * m[13]) * m[2] + (m[12] * m[1]) * m[10]) - ((m[0] * m[13]) * m[10] + (m[8] * m[1]) * m[14] + (m[12] * m[9]) * m[2]))
    requires t[14] == (((m[0] * m[13]) * m[6] + (m[4] * m[1]) * m[14] + (m[12] * m[5]) * m[2]) - ((m[0] * m[5]) * m[14] + (m[4] * m[13]) * m[2] + (m[12] * m[1]) * m[6]))
    requires t[15] == (((m[0] * m[5]) * m[10] + (m[4] * m[9]) * m[2] + (m[8] * m[1]) * m[6]) - ((m[0] * m[9]) * m[6] + (m[4] * m[1]) * m[10] + (m[8] * m[5]) * m[2]))
    ensures Dot(t, m)[12] == 0.0
  {
    CofactorRow3Column0(m[0], m[1], m[2], m[3], m[4], m[5], m[6], m[7], m[8], m[9], m[10], m[11], m[12], m[13], m[14], m[15],
      t[12], t[13], t[14], t[15]);
    assert Dot(t, m)[12] == Inner(t[12], t[13], t[14], t[15], m[0], m[4], m[8], m[12]);
  }

  lemma AdjugateAt12(m: Mat4)
    ensures Dot(Adjugate(m), m)[12] == 0.0
  {
    AdjugateRow3(m);
    CofactorsAt12(Adjugate(m), m);
  }

  lemma ScaledDotAt12(d: real, a: Mat4, a': Mat4, b: Mat4)
    requires a'[12] == d * a[12] && a'[13] == d * a[13] && a'[14] == d * a[14] && a'[15] == d * a[15]
    ensures Dot(a', b)[12] == d * Dot(a, b)[12]
  {
    ScaledRow(d, a[12], a[13], a[14], a[15], a'[12], a'[13], a'[14], a'[15], b[0], b[4], b[8], b[12]);
    assert Dot(a', b)[12] == Inner(a'[12], a'[13], a'[14], a'[15], b[0], b[4], b[8], b[12]);
    assert Dot(a, b)[12] == Inner(a[12], a[13], a[14], a[15], b[0], b[4], b[8], b[12]);
  }

  lemma InverseAt12(m: Mat4)
    requires Det(m) != 0.0
    ensures Dot(Inverse(m), m)[12] == Identity()[12]
  {
    AdjugateAt12(m);
    InverseScalesAdjugate(m);
    ScaledDotAt12(1.0 / Det(m), Adjugate(m), Inverse(m), m);
  }

  lemma CofactorsAt13(t: Mat4, m: Mat4)
    requires t[12] == (((m[4] * m[13]) * m[10] + (m[8] * m[5]) * m[14] + (m[12] * m[9]) * m[6]) - ((m[4] * m[9]) * m[14] + (m[8] * m[13]) * m[6] + (m[12] * m[5]) * m[10]))
    requires t[13] == (((m[0] * m[9]) * m[14] + (m[8] * m[13]) * m[2] + (m[12] * m[1]) * m[10]) - ((m[0] * m[13]) * m[10] + (m[8] * m[1]) * m[14] + (m[12] * m[9]) * m[2]))
    requires t[14] == (((m[0] * m[13]) * m[6] + (m[4] * m[1]) * m[14] + (m[12] * m[5]) * m[2]) - ((m[0] * m[5]) * m[14] + (m[4] * m[13]) * m[2] + (m[12] * m[1]) * m[6]))
    requires t[15] == (((m[0] * m[5]) * m[10] + (m[4] * m[9]) * m[2] + (m[8] * m[1]) * m[6]) - ((m[0] * m[9]) * m[6] + (m[4] * m[1]) * m[10] + (m[8] * m[5]) * m[2]))
    ensures Dot(t, m)[13] == 0.0
  {
    CofactorRow3Column1(m[0], m[1], m[2], m[3], m[4], m[5], m[6], m[7], m[8], m[9], m[10], m[11], m[12], m[13], m[14], m[15],
      t[12], t[13], t[14], t[15]);
    assert Dot(t, m)[13] == Inner(t[12], t[13], t[14], t[15], m[1], m[5], m[9], m[13]);
  }

  lemma AdjugateAt13(m: Mat4)
    ensures Dot(Adjugate(m), m)[13] == 0.0
  {
    AdjugateRow3(m);
    CofactorsAt13(Adjugate(m), m);
  }

  lemma ScaledDotAt13(d: real, a: Mat4, a': Mat4, b: Mat4)
    requires a'[12] == d * a[12] && a'[13] == d * a[13] && a'[14] == d * a[14] && a'[15] == d * a[15]
    ensures Dot(a', b)[13] == d * Dot(a, b)[13]
  {
    ScaledRow(d, a[12], a[13], a[14], a[15], a'[12], a'[13], a'[14], a'[15], b[1], b[5], b[9], b[13]);
    assert Dot(a', b)[13] == Inner(a'[12], a'[13], a'[14], a'[15], b[1], b[5], b[9], b[13]);
    assert Dot(a, b)[13] == Inner(a[12], a[13], a[14], a[15], b[1], b[5], b[9], b[13]);
  }

  lemma InverseAt13(m: Mat4)
    requires Det(m) != 0.0
    ensures Dot(Inverse(m), m)[13] == Identity()[13]
  {
    AdjugateAt13(m);
    InverseScalesAdjugate(m);
    ScaledDotAt13(1.0 / Det(m), Adjugate(m), Inverse(m), m);
  }

  lemma CofactorsAt14(t: Mat4, m: Mat4)
    requires t[12] == (((m[4] * m[13]) * m[10] + (m[8] * m[5]) * m[14] + (m[12] * m[9]) * m[6]) - ((m[4] * m[9]) * m[14] + (m[8] * m[13]) * m[6] + (m[12] * m[5]) * m[10]))
    requires t[13] == (((m[0] * m[9]) * m[14] + (m[8] * m[13]) * m[2] + (m[12] * m[1]) * m[10]) - ((m[0] * m[13]) * m[10] + (m[8] * m[1]) * m[14] + (m[12] * m[9]) * m[2]))
    requires t[14] == (((m[0] * m[13]) * m[6] + (m[4] * m[1]) * m[14] + (m[12] * m[5]) * m[2]) - ((m[0] * m[5]) * m[14] + (m[4] * m[13]) * m[2] + (m[12] * m[1]) * m[6]))
    requires t[15] == (((m[0] * m[5]) * m[10] + (m[4] * m[9]) * m[2] + (m[8] * m[1]) * m[6]) - ((m[0] * m[9]) * m[6] + (m[4] * m[1]) * m[10] + (m[8] * m[5]) * m[2]))
    ensures Dot(t, m)[14] == 0.0
  {
    CofactorRow3Column2(m[0], m[1], m[2], m[3], m[4], m[5], m[6], m[7], m[8], m[9], m[10], m[11], m[12], m[13], m[14], m[15],
      t[12], t[13], t[14], t[15]);
    assert Dot(t, m)[14] == Inner(t[12], t[13], t[14], t[15], m[2], m[6], m[10], m[14]);
  }

  lemma AdjugateAt14(m: Mat4)
    ensures Dot(Adjugate(m), m)[14] == 0.0
  {
    AdjugateRow3(m);
    CofactorsAt14(Adjugate(m), m);
  }

  lemma ScaledDotAt14(d: real, a: Mat4, a': Mat4, b: Mat4)
    requires a'[12] == d * a[12] && a'[13] == d * a[13] && a'[14] == d * a[14] && a'[15] == d * a[15]
    ensures Dot(a', b)[14] == d * Dot(a, b)[14]
  {
    ScaledRow(d, a[12], a[13], a[14], a[15], a'[12], a'[13], a'[14], a'[15], b[2], b[6], b[10], b[14]);
    assert Dot(a', b)[14] == Inner(a'[12], a'[13], a'[14], a'[15], b[2], b[6], b[10], b[14]);
    assert Dot(a, b)[14] == Inner(a[12], a[13], a[14], a[15], b[2], b[6], b[10], b[14]);
  }

  lemma InverseAt14(m: Mat4)
    requires Det(m) != 0.0
    ensures Dot(Inverse(m), m)[14] == Identity()[14]
  {
    AdjugateAt14(m);
    InverseScalesAdjugate(m);
    ScaledDotAt14(1.0 / Det(m), Adjugate(m), Inverse(m), m);
  }

  lemma CofactorsAt15(t: Mat4, m: Mat4)
    requires t[12] == (((m[4] * m[13]) * m[10] + (m[8] * m[5]) * m[14] + (m[12] * m[9]) * m[6]) - ((m[4] * m[9]) * m[14] + (m[8] * m[13]) * m[6] + (m[12] * m[5]) * m[10]))
    requires t[13] == (((m[0] * m[9]) * m[14] + (m[8] * m[13]) * m[2] + (m[12] * m[1]) * m[10]) - ((m[0] * m[13]) * m[10] + (m[8] * m[1]) * m[14] + (m[12] * m[9]) * m[2]))
    requires t[14] == (((m[0] * m[13]) * m[6] + (m[4] * m[1]) * m[14] + (m[12] * m[5]) * m[2]) - ((m[0] * m[5]) * m[14] + (m[4] * m[13]) * m[2] + (m[12] * m[1]) * m[6]))
    requires t[15] == (((m[0] * m[5]) * m[10] + (m[4] * m[9]) * m[2] + (m[8] * m[1]) * m[6]) - ((m[0] * m[9]) * m[6] + (m[4] * m[1]) * m[10] + (m[8] * m[5]) * m[2]))
    ensures Dot(t, m)[15] == DeterminantOf(m[0], m[1], m[2], m[3], m[4], m[5], m[6], m[7], m[8], m[9], m[10], m[11], m[12], m[13], m[14], m[15])
  {
    CofactorRow3Column3(m[0], m[1], m[2], m[3], m[4], m[5], m[6], m[7], m[8], m[9], m[10], m[11], m[12], m[13], m[14], m[15],
      t[12], t[13], t[14], t[15]);
    assert Dot(t, m)[15] == Inner(t[12], t[13], t[14], t[15], m[3], m[7], m[11], m[15]);
  }

  lemma AdjugateAt15(m: Mat4)
    ensures Dot(Adjugate(m), m)[15] == Det(m)
  {
    AdjugateRow3(m);
    CofactorsAt15(Adjugate(m), m);
    DetIsDeterminant(m);
  }

  lemma ScaledDotAt15(d: real, a: Mat4, a': Mat4, b: Mat4)
    requires a'[12] == d * a[12] && a'[13] == d * a[13] && a'[14] == d * a[14] && a'[15] == d * a[15]
    ensures Dot(a', b)[15] == d * Dot(a, b)[15]
  {
    ScaledRow(d, a[12], a[13], a[14], a[15], a'[12], a'[13], a'[14], a'[15], b[3], b[7], b[11], b[15]);
    assert Dot(a', b)[15] == Inner(a'[12], a'[13], a'[14], a'[15], b[3], b[7], b[11], b[15]);
    assert Dot(a, b)[15] == Inner(a[12], a[13], a[14], a[15], b[3], b[7], b[11], b[15]);
  }

  lemma InverseAt15(m: Mat4)
    requires Det(m) != 0.0
    ensures Dot(Inverse(m), m)[15] == Identity()[15]
  {
    AdjugateAt15(m);
    InverseScalesAdjugate(m);
    ScaledDotAt15(1.0 / Det(m), Adjugate(m), Inverse(m), m);
  }

  /** `m4inverse(m)` times m is the identity whenever the determinant term is non-zero. */
  lemma InverseIsLeftInverse(m: Mat4)
    requires Det(m) != 0.0
    ensures Dot(Inverse(m), m) == Identity()
  {
    InverseAt0(m);
    InverseAt1(m);
    InverseAt2(m);
    InverseAt3(m);
    InverseAt4(m);
    InverseAt5(m);
    InverseAt6(m);
    InverseAt7(m);
    InverseAt8(m);
    InverseAt9(m);
    InverseAt10(m);
    InverseAt11(m);
    InverseAt12(m);
    InverseAt13(m);
    InverseAt14(m);
    InverseAt15(m);
    var l, r := Dot(Inverse(m), m), Identity();
    assert forall k | 0 <= k < 16 :: l[k] == r[k];
  }
}
