/**
 * The 4x4 matrix operations the camera uses: identity, product, product
 * with a vector, and the rotations about x and y. The rotation matrices
 * take the sine and cosine of the angle as arguments and follow the same
 * convention as the vector rotations.
 */
module Matrix {
  import opened Vector

  /** A 4x4 matrix, row by row. */
  datatype Mat4 = Mat4(r0: Vec4, r1: Vec4, r2: Vec4, r3: Vec4)

  function Dot4(a: Vec4, b: Vec4): real {
    a.x * b.x + a.y * b.y + a.z * b.z + a.w * b.w
  }

  function Identity(): Mat4 {
    Mat4(Vec4(1.0, 0.0, 0.0, 0.0),
         Vec4(0.0, 1.0, 0.0, 0.0),
         Vec4(0.0, 0.0, 1.0, 0.0),
         Vec4(0.0, 0.0, 0.0, 1.0))
  }

  function MulVec4(m: Mat4, v: Vec4): Vec4 {
    Vec4(Dot4(m.r0, v), Dot4(m.r1, v), Dot4(m.r2, v), Dot4(m.r3, v))
  }

  function Scale4(v: Vec4, k: real): Vec4 {
    Vec4(v.x * k, v.y * k, v.z * k, v.w * k)
  }

  function Add4(a: Vec4, b: Vec4): Vec4 {
    Vec4(a.x + b.x, a.y + b.y, a.z + b.z, a.w + b.w)
  }

  /** The row vector c times the matrix b. */
  function RowTimes(c: Vec4, b: Mat4): Vec4 {
    Add4(Add4(Scale4(b.r0, c.x), Scale4(b.r1, c.y)), Add4(Scale4(b.r2, c.z), Scale4(b.r3, c.w)))
  }

  function MulMat4(a: Mat4, b: Mat4): Mat4 {
    Mat4(RowTimes(a.r0, b), RowTimes(a.r1, b), RowTimes(a.r2, b), RowTimes(a.r3, b))
  }

  function RotationX(sin: real, cos: real): Mat4 {
    Mat4(Vec4(1.0, 0.0, 0.0, 0.0),
         Vec4(0.0, cos, -sin, 0.0),
         Vec4(0.0, sin, cos, 0.0),
         Vec4(0.0, 0.0, 0.0, 1.0))
  }

  function RotationY(sin: real, cos: real): Mat4 {
    Mat4(Vec4(cos, 0.0, -sin, 0.0),
         Vec4(0.0, 1.0, 0.0, 0.0),
         Vec4(sin, 0.0, cos, 0.0),
         Vec4(0.0, 0.0, 0.0, 1.0))
  }

  lemma MulIdentity(m: Mat4)
    ensures MulMat4(m, Identity()) == m
  {
  }

  lemma RowTimesDot(c: Vec4, b: Mat4, v: Vec4)
    ensures Dot4(RowTimes(c, b), v) == Dot4(c, MulVec4(b, v))
  {
  }

  /** Applying a product of matrices is applying the right factor first. */
  lemma {:induction false} MulMat4Vec4(a: Mat4, b: Mat4, v: Vec4)
    ensures MulVec4(MulMat4(a, b), v) == MulVec4(a, MulVec4(b, v))
  {
    RowTimesDot(a.r0, b, v);
    RowTimesDot(a.r1, b, v);
    RowTimesDot(a.r2, b, v);
    RowTimesDot(a.r3, b, v);
  }

  /** The rotation matrices act on homogeneous points as the vector rotations do. */
  lemma RotationMatchesVector(v: Vec3, sin: real, cos: real)
    ensures MulVec4(RotationX(sin, cos), Vec4FromVec3(v)) == Vec4FromVec3(Vec3RotateX(v, sin, cos))
    ensures MulVec4(RotationY(sin, cos), Vec4FromVec3(v)) == Vec4FromVec3(Vec3RotateY(v, sin, cos))
  {
  }
}
