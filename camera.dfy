/**
 * `update_camera` of the front end's `GLModel` (src/glviewer.ts, and the bundled
 * GLModel of docs/_static/embed-bundle.js): the camera matrix is the translation to
 * the camera position, turned by the yaw about the vertical axis, then by the pitch
 * about the side axis; the view matrix is its inverse. The angles enter through
 * their cosine and sine, which the source computes with Math.cos and Math.sin.
 */
module Camera {

  import opened Matrix

  /** Camera position and the cosine and sine of the yaw and pitch angles. */
  datatype Pose = Pose(x: real, y: real, z: real, yawCos: real, yawSin: real, pitchCos: real, pitchSin: real)
  {
    /** Both (cos, sin) pairs lie on the unit circle, as those of a real angle do. */
    predicate Valid()
    {
      yawCos * yawCos + yawSin * yawSin == 1.0 && pitchCos * pitchCos + pitchSin * pitchSin == 1.0
    }
  }

  /** `camera_matrix`: m4Translation(pos) . m4Yrotation(yaw) . m4Xrotation(pitch). */
  function CameraMatrix(p: Pose): Mat4
  {
    seq(16, k requires 0 <= k < 16 => Dot(Dot(Translation(p.x, p.y, p.z), YRotation(p.yawCos, p.yawSin)), XRotation(p.pitchCos, p.pitchSin))[k])
  }

  /** The camera matrix written out: the rotated axes in the first three columns, the position in the last. */
  lemma CameraEntries(p: Pose)
    ensures CameraMatrix(p) ==
      [ p.yawCos, p.yawSin * p.pitchSin, p.yawSin * p.pitchCos, p.x,
        0.0, p.pitchCos, -p.pitchSin, p.y,
        -p.yawSin, p.yawCos * p.pitchSin, p.yawCos * p.pitchCos, p.z,
        0.0, 0.0, 0.0, 1.0 ]
  {
    var ty := Dot(Translation(p.x, p.y, p.z), YRotation(p.yawCos, p.yawSin));
    var e: Mat4 := [ p.yawCos, 0.0, p.yawSin, p.x,
                     0.0, 1.0, 0.0, p.y,
                     -p.yawSin, 0.0, p.yawCos, p.z,
                     0.0, 0.0, 0.0, 1.0 ];
    assert forall k | 0 <= k < 16 :: ty[k] == e[k];
    assert ty == e;
    var c := Dot(e, XRotation(p.pitchCos, p.pitchSin));
    var f: Mat4 := [ p.yawCos, p.yawSin * p.pitchSin, p.yawSin * p.pitchCos, p.x,
                     0.0, p.pitchCos, -p.pitchSin, p.y,
                     -p.yawSin, p.yawCos * p.pitchSin, p.yawCos * p.pitchCos, p.z,
                     0.0, 0.0, 0.0, 1.0 ];
    assert forall k | 0 <= k < 16 :: c[k] == f[k];
  }

  /** The written-out camera matrix has determinant 1 when both angle pairs lie on the unit circle. */
  lemma RigidDeterminant(x: real, y: real, z: real, yc: real, ys: real, pc: real, ps: real)
    requires yc * yc + ys * ys == 1.0 && pc * pc + ps * ps == 1.0
    ensures Det([ yc, ys * ps, ys * pc, x,
                  0.0, pc, -ps, y,
                  -ys, yc * ps, yc * pc, z,
                  0.0, 0.0, 0.0, 1.0 ]) == 1.0
  {
    var m: Mat4 := [ yc, ys * ps, ys * pc, x,
                     0.0, pc, -ps, y,
                     -ys, yc * ps, yc * pc, z,
                     0.0, 0.0, 0.0, 1.0 ];
    var t := Adjugate(m);
    assert t[0] == yc * (pc * pc + ps * ps);
    assert t[2] == -ys * (pc * pc + ps * ps);
    assert t[1] == 0.0;
  }

  /** The camera matrix of a real pose has determinant 1, so `m4inverse` never divides by zero on it. */
  lemma CameraIsInvertible(p: Pose)
    requires p.Valid()
    ensures Det(CameraMatrix(p)) == 1.0
  {
    CameraEntries(p);
    RigidDeterminant(p.x, p.y, p.z, p.yawCos, p.yawSin, p.pitchCos, p.pitchSin);
  }

  /** A plain translation is the camera matrix of an unturned pose, so it has determinant 1 as well. */
  lemma TranslationIsInvertible(x: real, y: real, z: real)
    ensures Det(Translation(x, y, z)) == 1.0
  {
    var p := Pose(x, y, z, 1.0, 0.0, 1.0, 0.0);
    CameraEntries(p);
    RigidDeterminant(x, y, z, 1.0, 0.0, 1.0, 0.0);
    var t := Translation(x, y, z);
    assert forall k | 0 <= k < 16 :: CameraMatrix(p)[k] == t[k];
  }

  /** `view_matrix`: `m4inverse(camera_matrix)`. */
  function ViewMatrix(p: Pose): Mat4
    requires p.Valid()
  {
    CameraIsInvertible(p);
    seq(16, k requires 0 <= k < 16 => Inverse(CameraMatrix(p))[k])
  }

  /** The view matrix is the inverse of the camera matrix. */
  lemma ViewMatrixIsInverse(p: Pose)
    requires p.Valid()
    ensures Det(CameraMatrix(p)) == 1.0 && ViewMatrix(p) == Inverse(CameraMatrix(p))
  {
    CameraIsInvertible(p);
    assert forall k | 0 <= k < 16 :: ViewMatrix(p)[k] == Inverse(CameraMatrix(p))[k];
  }

  /** The view matrix undoes the camera matrix. */
  lemma ViewUndoesCamera(p: Pose)
    requires p.Valid()
    ensures Dot(ViewMatrix(p), CameraMatrix(p)) == Identity()
  {
    ViewMatrixIsInverse(p);
    InverseIsLeftInverse(CameraMatrix(p));
  }

  /**
   * The camera sits at its position, and the axes the view moves along (`m4getColumnK`
   * forward, `m4getColumnI` sideways) are the rotated z and x axes: the yaw alone
   * turns the side axis, which stays horizontal.
   */
  lemma CameraAxes(p: Pose)
    ensures GetTranslation(CameraMatrix(p)) == [p.x, p.y, p.z]
    ensures GetColumnK(CameraMatrix(p)) == [p.yawSin * p.pitchCos, -p.pitchSin, p.yawCos * p.pitchCos]
    ensures GetColumnI(CameraMatrix(p)) == [p.yawCos, 0.0, -p.yawSin]
  {
    CameraEntries(p);
  }

  /**
   * `Math.cos` and `Math.sin` of an angle given in degrees (`update_camera` converts
   * with `* Math.PI / 180.0`), which the model takes as parameters.
   */
  datatype Trig = Trig(cos: real -> real, sin: real -> real)
  {
    /** A cosine and sine: every angle lands on the unit circle, angle 0 at (1, 0). */
    ghost predicate Valid()
    {
      cos(0.0) == 1.0 && sin(0.0) == 0.0 && forall a :: cos(a) * cos(a) + sin(a) * sin(a) == 1.0
    }
  }

  /** The pose of the `camera_pos`, `camera_yaw` and `camera_pitch` attributes (angles in degrees). */
  function PoseOf(trig: Trig, pos: Vec3, yaw: real, pitch: real): (r: Pose)
    requires trig.Valid()
    ensures r.Valid()
    ensures yaw == 0.0 && pitch == 0.0 ==> r == Pose(pos[0], pos[1], pos[2], 1.0, 0.0, 1.0, 0.0)
  {
    Pose(pos[0], pos[1], pos[2], trig.cos(yaw), trig.sin(yaw), trig.cos(pitch), trig.sin(pitch))
  }

  /** The pose the model starts from: camera at (0, 50, 200), yaw and pitch 0. */
  const DefaultPose := Pose(0.0, 50.0, 200.0, 1.0, 0.0, 1.0, 0.0)

  /** The default attributes describe the default pose, whatever the trigonometry. */
  lemma DefaultAttributesPose(trig: Trig)
    requires trig.Valid()
    ensures PoseOf(trig, [0.0, 50.0, 200.0], 0.0, 0.0) == DefaultPose
  {
  }

  /** At the default pose the camera matrix is the plain translation `initialize` sets. */
  lemma DefaultCameraIsTranslation()
    ensures DefaultPose.Valid()
    ensures CameraMatrix(DefaultPose) == Translation(0.0, 50.0, 200.0)
  {
    var p := DefaultPose;
    CameraEntries(p);
    var c := CameraMatrix(p);
    var t := Translation(0.0, 50.0, 200.0);
    assert c == [1.0, 0.0 * 0.0, 0.0 * 1.0, 0.0, 0.0, 1.0, -0.0, 50.0, -0.0, 1.0 * 0.0, 1.0 * 1.0, 200.0, 0.0, 0.0, 0.0, 1.0];
    assert forall k | 0 <= k < 16 :: c[k] == t[k];
  }

  /** `view_proj_matrix = m4dot(projection_matrix, view_matrix)`. */
  function ViewProjection(projection: Mat4, p: Pose): Mat4
    requires p.Valid()
  {
    seq(16, k requires 0 <= k < 16 => Dot(projection, ViewMatrix(p))[k])
  }

  /**
   * Composed with the camera matrix, the view-projection gives back the projection:
   * what sits at the camera's place and orientation is drawn as the projection alone
   * draws the origin.
   */
  lemma ViewProjectionUndoesCamera(projection: Mat4, p: Pose)
    requires p.Valid()
    ensures Dot(ViewProjection(projection, p), CameraMatrix(p)) == projection
  {
    assert forall k | 0 <= k < 16 :: ViewProjection(projection, p)[k] == Dot(projection, ViewMatrix(p))[k];
    assert ViewProjection(projection, p) == Dot(projection, ViewMatrix(p));
    DotAssociative(projection, ViewMatrix(p), CameraMatrix(p));
    ViewUndoesCamera(p);
    IdentityIsUnit(projection);
  }

  /** The matrix the shaders receive: transposed when the shaders read row-major matrices. */
  function Uploaded(m: Mat4, rowMajor: bool): Mat4
  {
    if rowMajor then seq(16, k requires 0 <= k < 16 => Transpose(m)[k]) else m
  }

  /** Transposing the upload of a row-major shader gives the matrix back; the others receive it as it is. */
  lemma UploadedRestores(m: Mat4, rowMajor: bool)
    ensures rowMajor ==> Transpose(Uploaded(m, rowMajor)) == m
    ensures !rowMajor ==> Uploaded(m, rowMajor) == m
  {
    if rowMajor {
      assert forall k | 0 <= k < 16 :: Uploaded(m, rowMajor)[k] == Transpose(m)[k];
      assert Uploaded(m, rowMajor) == Transpose(m);
      TransposeTwice(m);
    }
  }
}
