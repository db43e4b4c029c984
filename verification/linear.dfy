/**
 * Vectors and 4x4 matrices over the reals, standing in for the single-precision
 * glm::vec2/vec3/vec4/mat4 values the renderer uses. A Mat4 is stored column by
 * column, as glm stores it, and Translate, Scale, MulVec and MatMul follow the
 * definitions glm gives for glm::translate, glm::scale and operator*.
 */
module Linear {

  datatype Vec2 = Vec2(x: real, y: real)
  datatype Vec3 = Vec3(x: real, y: real, z: real)
  datatype Vec4 = Vec4(x: real, y: real, z: real, w: real)

  /** Columns c0..c3; c3 holds the translation of an affine matrix. */
  datatype Mat4 = Mat4(c0: Vec4, c1: Vec4, c2: Vec4, c3: Vec4)

  function Add3(a: Vec3, b: Vec3): Vec3 { Vec3(a.x + b.x, a.y + b.y, a.z + b.z) }

  /** Component-wise (Hadamard) product. */
  function Mul3(a: Vec3, b: Vec3): Vec3 { Vec3(a.x * b.x, a.y * b.y, a.z * b.z) }

  function Dot3(a: Vec3, b: Vec3): real { a.x * b.x + a.y * b.y + a.z * b.z }

  function Add4(a: Vec4, b: Vec4): Vec4 { Vec4(a.x + b.x, a.y + b.y, a.z + b.z, a.w + b.w) }

  function Scale4(a: Vec4, k: real): Vec4 { Vec4(a.x * k, a.y * k, a.z * k, a.w * k) }

  /** A point of 3-space in homogeneous coordinates (w = 1). */
  function Point(p: Vec3): Vec4 { Vec4(p.x, p.y, p.z, 1.0) }

  /** glm::mat4(1.0f) */
  function Identity(): Mat4
  {
    Mat4(Vec4(1.0, 0.0, 0.0, 0.0), Vec4(0.0, 1.0, 0.0, 0.0),
         Vec4(0.0, 0.0, 1.0, 0.0), Vec4(0.0, 0.0, 0.0, 1.0))
  }

  /** m * v, the columns of m weighted by the components of v. */
  function MulVec(m: Mat4, v: Vec4): Vec4
  {
    Add4(Add4(Scale4(m.c0, v.x), Scale4(m.c1, v.y)), Add4(Scale4(m.c2, v.z), Scale4(m.c3, v.w)))
  }

  /** a * b, column by column. */
  function MatMul(a: Mat4, b: Mat4): Mat4
  {
    Mat4(MulVec(a, b.c0), MulVec(a, b.c1), MulVec(a, b.c2), MulVec(a, b.c3))
  }

  /** glm::translate(m, v): m post-multiplied by the translation by v. */
  function Translate(m: Mat4, v: Vec3): Mat4
  {
    m.(c3 := Add4(Add4(Scale4(m.c0, v.x), Scale4(m.c1, v.y)), Add4(Scale4(m.c2, v.z), m.c3)))
  }

  /** glm::scale(m, v): m post-multiplied by the non-uniform scaling by v. */
  function Scale(m: Mat4, v: Vec3): Mat4
  {
    Mat4(Scale4(m.c0, v.x), Scale4(m.c1, v.y), Scale4(m.c2, v.z), m.c3)
  }
}
