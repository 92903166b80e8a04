/**
 * Vector algebra of the renderer: 2D, 3D and 4D vectors and texture
 * coordinates. Single-precision floats are modelled as reals, so every
 * identity below is exact; rounding is not modelled.
 */
module Vector {

  datatype Vec2 = Vec2(x: real, y: real)
  datatype Vec3 = Vec3(x: real, y: real, z: real)
  datatype Vec4 = Vec4(x: real, y: real, z: real, w: real)

  /** A texture coordinate (u, v). */
  datatype Tex2 = Tex2(u: real, v: real)

  // ---------------------------------------------------------------- 2D

  function Vec2Add(a: Vec2, b: Vec2): Vec2 {
    Vec2(a.x + b.x, a.y + b.y)
  }

  function Vec2Sub(a: Vec2, b: Vec2): Vec2 {
    Vec2(a.x - b.x, a.y - b.y)
  }

  function Vec2Mul(v: Vec2, factor: real): Vec2 {
    Vec2(v.x * factor, v.y * factor)
  }

  /** Componentwise division; the source has no guard, so over the reals a zero factor is excluded. */
  function Vec2Div(v: Vec2, factor: real): (r: Vec2)
    requires factor != 0.0
    ensures Vec2Mul(r, factor) == v
  {
    Vec2(v.x / factor, v.y / factor)
  }

  function Vec2Dot(a: Vec2, b: Vec2): real {
    a.x * b.x + a.y * b.y
  }

  // ---------------------------------------------------------------- 3D

  function Vec3Add(a: Vec3, b: Vec3): Vec3 {
    Vec3(a.x + b.x, a.y + b.y, a.z + b.z)
  }

  function Vec3Sub(a: Vec3, b: Vec3): Vec3 {
    Vec3(a.x - b.x, a.y - b.y, a.z - b.z)
  }

  function Vec3Mul(v: Vec3, factor: real): Vec3 {
    Vec3(v.x * factor, v.y * factor, v.z * factor)
  }

  /** Componentwise division; the source has no guard, so over the reals a zero factor is excluded. */
  function Vec3Div(v: Vec3, factor: real): (r: Vec3)
    requires factor != 0.0
    ensures Vec3Mul(r, factor) == v
  {
    Vec3(v.x / factor, v.y / factor, v.z / factor)
  }

  function Vec3Cross(a: Vec3, b: Vec3): Vec3 {
    Vec3(a.y * b.z - b.y * a.z,
         -(a.x * b.z - b.x * a.z),
         a.x * b.y - b.x * a.y)
  }

  function Vec3Dot(a: Vec3, b: Vec3): real {
    a.x * b.x + a.y * b.y + a.z * b.z
  }

  /**
   * Rotation about the x axis by an angle whose sine and cosine are given:
   * the trigonometric functions themselves are not modelled.
   */
  function Vec3RotateX(v: Vec3, sin: real, cos: real): Vec3 {
    Vec3(v.x, v.y * cos - v.z * sin, v.y * sin + v.z * cos)
  }

  /** Rotation about the y axis, with the sine and cosine of the angle given. */
  function Vec3RotateY(v: Vec3, sin: real, cos: real): Vec3 {
    Vec3(v.x * cos - v.z * sin, v.y, v.x * sin + v.z * cos)
  }

  /** Rotation about the z axis, with the sine and cosine of the angle given. */
  function Vec3RotateZ(v: Vec3, sin: real, cos: real): Vec3 {
    Vec3(v.x * cos - v.y * sin, v.x * sin + v.y * cos, v.z)
  }

  // ------------------------------------------------------- conversions

  /** Promotion to homogeneous coordinates: the point gets w = 1 and demoting it gives it back. */
  function Vec4FromVec3(v: Vec3): (r: Vec4)
    ensures r.w == 1.0
    ensures Vec3FromVec4(r) == v
  {
    Vec4(v.x, v.y, v.z, 1.0)
  }

  function Vec3FromVec4(v: Vec4): Vec3 {
    Vec3(v.x, v.y, v.z)
  }

  function Vec2FromVec4(v: Vec4): Vec2 {
    Vec2(v.x, v.y)
  }

  // ----------------------------------------------------------- lemmas

  lemma Vec3AddSubInverse(a: Vec3, b: Vec3)
    ensures Vec3Sub(Vec3Add(a, b), b) == a
    ensures Vec3Add(Vec3Sub(a, b), b) == a
  {
  }

  lemma Vec2AddSubInverse(a: Vec2, b: Vec2)
    ensures Vec2Sub(Vec2Add(a, b), b) == a
    ensures Vec2Add(Vec2Sub(a, b), b) == a
  {
  }

  /** The cross product is orthogonal to both of its arguments. */
  lemma CrossOrthogonal(a: Vec3, b: Vec3)
    ensures Vec3Dot(Vec3Cross(a, b), a) == 0.0
    ensures Vec3Dot(Vec3Cross(a, b), b) == 0.0
  {
  }

  lemma CrossAntiCommutative(a: Vec3, b: Vec3)
    ensures Vec3Cross(a, b) == Vec3Mul(Vec3Cross(b, a), -1.0)
    ensures Vec3Cross(a, a) == Vec3(0.0, 0.0, 0.0)
  {
  }

  lemma DotSymmetric(a: Vec3, b: Vec3, p: Vec2, q: Vec2)
    ensures Vec3Dot(a, b) == Vec3Dot(b, a)
    ensures Vec2Dot(p, q) == Vec2Dot(q, p)
  {
  }

  lemma Vec4RoundTrip(v: Vec3)
    ensures Vec3FromVec4(Vec4FromVec3(v)) == v
    ensures Vec4FromVec3(v).w == 1.0
  {
  }

  lemma Vec2FromVec4Keeps(v: Vec4)
    ensures Vec2FromVec4(v).x == v.x && Vec2FromVec4(v).y == v.y
    ensures Vec2FromVec4(v) == Vec2FromVec4(Vec4FromVec3(Vec3FromVec4(v)))
  {
  }

  /**
   * A rotation whose sine and cosine satisfy sin^2 + cos^2 = 1 keeps the
   * squared length, about each of the three axes.
   */
  lemma RotationsKeepLength(v: Vec3, sin: real, cos: real)
    requires sin * sin + cos * cos == 1.0
    ensures Vec3Dot(Vec3RotateX(v, sin, cos), Vec3RotateX(v, sin, cos)) == Vec3Dot(v, v)
    ensures Vec3Dot(Vec3RotateY(v, sin, cos), Vec3RotateY(v, sin, cos)) == Vec3Dot(v, v)
    ensures Vec3Dot(Vec3RotateZ(v, sin, cos), Vec3RotateZ(v, sin, cos)) == Vec3Dot(v, v)
  {
    RotationXKeepsLength(v, sin, cos);
    RotationYKeepsLength(v, sin, cos);
    RotationZKeepsLength(v, sin, cos);
  }

  lemma RotationXKeepsLength(v: Vec3, sin: real, cos: real)
    requires sin * sin + cos * cos == 1.0
    ensures Vec3Dot(Vec3RotateX(v, sin, cos), Vec3RotateX(v, sin, cos)) == Vec3Dot(v, v)
  {
    var r := Vec3RotateX(v, sin, cos);
    PlaneRotationKeepsLength(v.y, v.z, r.y, r.z, sin, cos);
    assert Vec3Dot(r, r) == v.x * v.x + (r.y * r.y + r.z * r.z);
  }

  lemma RotationYKeepsLength(v: Vec3, sin: real, cos: real)
    requires sin * sin + cos * cos == 1.0
    ensures Vec3Dot(Vec3RotateY(v, sin, cos), Vec3RotateY(v, sin, cos)) == Vec3Dot(v, v)
  {
    var r := Vec3RotateY(v, sin, cos);
    PlaneRotationKeepsLength(v.x, v.z, r.x, r.z, sin, cos);
    assert Vec3Dot(r, r) == v.y * v.y + (r.x * r.x + r.z * r.z);
  }

  lemma RotationZKeepsLength(v: Vec3, sin: real, cos: real)
    requires sin * sin + cos * cos == 1.0
    ensures Vec3Dot(Vec3RotateZ(v, sin, cos), Vec3RotateZ(v, sin, cos)) == Vec3Dot(v, v)
  {
    var r := Vec3RotateZ(v, sin, cos);
    PlaneRotationKeepsLength(v.x, v.y, r.x, r.y, sin, cos);
    assert Vec3Dot(r, r) == v.z * v.z + (r.x * r.x + r.y * r.y);
  }

  /** Turning the pair (a, b) in its plane to (p, q) keeps a^2 + b^2. */
  lemma PlaneRotationKeepsLength(a: real, b: real, p: real, q: real, sin: real, cos: real)
    requires sin * sin + cos * cos == 1.0
    requires p == a * cos - b * sin && q == a * sin + b * cos
    ensures p * p + q * q == a * a + b * b
  {
    assert p * p + q * q == (sin * sin + cos * cos) * (a * a + b * b);
  }

  /** Dot products are linear in their first argument. */
  lemma DotLinear(a: Vec3, b: Vec3, n: Vec3, t: real)
    ensures Vec3Dot(Vec3Add(a, Vec3Mul(Vec3Sub(b, a), t)), n)
            == Vec3Dot(a, n) + t * (Vec3Dot(b, n) - Vec3Dot(a, n))
  {
  }
}
