/**
 * The small vector and matrix vocabulary the host-side scene code uses
 * (glm's vec2, vec3, vec4 and mat4), with coordinates as exact reals.
 * Floating-point rounding is not modelled.
 */
module Vectors {

  datatype Vec2 = Vec2(x: real, y: real)
  datatype Vec3 = Vec3(x: real, y: real, z: real)
  datatype Vec4 = Vec4(x: real, y: real, z: real, w: real)

  /** A 4x4 matrix given by its four rows; how the library stores it does not matter here. */
  datatype Mat4 = Mat4(r0: Vec4, r1: Vec4, r2: Vec4, r3: Vec4)

  function Zero3(): Vec3 { Vec3(0.0, 0.0, 0.0) }

  function Sub(a: Vec3, b: Vec3): Vec3 { Vec3(a.x - b.x, a.y - b.y, a.z - b.z) }

  function Cross(a: Vec3, b: Vec3): Vec3 {
    Vec3(a.y * b.z - a.z * b.y, a.z * b.x - a.x * b.z, a.x * b.y - a.y * b.x)
  }

  /** glm::max on two floats: the second argument when the first is smaller. */
  function Max(a: real, b: real): real { if a < b then b else a }

  /** glm::min on two floats. */
  function Min(a: real, b: real): real { if b < a then b else a }

  /**
   * Division of two floats. IEEE division by zero yields an infinity or NaN,
   * which a real cannot hold; the model yields 0 there.
   */
  function Quot(a: real, b: real): real { if b == 0.0 then 0.0 else a / b }

  /** Every coordinate divided by the same scalar. */
  function DivVec(v: Vec3, s: real): Vec3 { Vec3(Quot(v.x, s), Quot(v.y, s), Quot(v.z, s)) }

  function Dot4(r: Vec4, v: Vec4): real { r.x * v.x + r.y * v.y + r.z * v.z + r.w * v.w }

  function MulVec4(m: Mat4, v: Vec4): Vec4 {
    Vec4(Dot4(m.r0, v), Dot4(m.r1, v), Dot4(m.r2, v), Dot4(m.r3, v))
  }

  /** `vec3(m * vec4(p, 1))`: p taken as a point, the fourth coordinate of the product dropped. */
  function TransformPoint(m: Mat4, p: Vec3): Vec3 {
    var q := MulVec4(m, Vec4(p.x, p.y, p.z, 1.0));
    Vec3(q.x, q.y, q.z)
  }

  /** `vec3(m * vec4(d, 0))`: d taken as a direction. */
  function TransformDirection(m: Mat4, d: Vec3): Vec3 {
    var q := MulVec4(m, Vec4(d.x, d.y, d.z, 0.0));
    Vec3(q.x, q.y, q.z)
  }

  /** A point transform carries the translation column: the origin goes to it. */
  lemma TransformPointOfOrigin(m: Mat4)
    ensures TransformPoint(m, Zero3()) == Vec3(m.r0.w, m.r1.w, m.r2.w)
  {
  }

  /**
   * A point transform is affine: the difference of two transformed points is
   * the direction transform of their difference (the translation cancels).
   */
  lemma TransformPointIsAffine(m: Mat4, a: Vec3, b: Vec3)
    ensures Sub(TransformPoint(m, a), TransformPoint(m, b)) == TransformDirection(m, Sub(a, b))
  {
  }

  /** The bottom row of the matrix never reaches the result (no perspective divide). */
  lemma TransformPointIgnoresBottomRow(m: Mat4, r: Vec4, p: Vec3)
    ensures TransformPoint(m.(r3 := r), p) == TransformPoint(m, p)
  {
  }
}
