/**
 * Vectors over the reals, and matrices and quaternions as free symbolic terms.
 *
 * glm's translate, toMat4, rotate, scale, slerp and normalize are floating-point
 * geometry; here they are uninterpreted constructors, so two transforms are equal
 * only when they were built by the same operations, in the same order, from equal
 * arguments. That keeps composition order observable: Mul(A, B) is A * B.
 */
module Geometry {
  datatype Vec2 = Vec2(x: real, y: real)
  datatype Vec3 = Vec3(x: real, y: real, z: real)

  const Zero3 := Vec3(0.0, 0.0, 0.0)

  function Add(a: Vec3, b: Vec3): Vec3 { Vec3(a.x + b.x, a.y + b.y, a.z + b.z) }
  function Sub(a: Vec3, b: Vec3): Vec3 { Vec3(a.x - b.x, a.y - b.y, a.z - b.z) }
  function Scale(v: Vec3, s: real): Vec3 { Vec3(v.x * s, v.y * s, v.z * s) }

  /** glm::mix on one component: x * (1 - a) + y * a. */
  function Mix(x: real, y: real, a: real): real { x * (1.0 - a) + y * a }

  /** glm::mix on vectors, component by component. */
  function Mix3(p: Vec3, q: Vec3, a: real): Vec3
  {
    Vec3(Mix(p.x, q.x, a), Mix(p.y, q.y, a), Mix(p.z, q.z, a))
  }

  lemma MixEnds(p: Vec3, q: Vec3)
    ensures Mix3(p, q, 0.0) == p && Mix3(p, q, 1.0) == q
  {
  }

  /** A glm::quat: a literal (w, x, y, z) or a symbolic slerp/normalize of others. */
  datatype Quat =
    | QuatValue(w: real, x: real, y: real, z: real)
    | Slerp(from: Quat, to: Quat, t: real)
    | Normalized(q: Quat)

  /** A glm::mat4 built from the operations the program uses. */
  datatype Mat4 =
    | Identity
    | Translate(offset: Vec3)            // glm::translate(mat4(1), v)
    | RotMat(rotation: Quat)             // glm::toMat4(q)
    | ScaleMat(factors: Vec3)            // glm::scale(mat4(1), v)
    | AxisRotation(degrees: real, axis: Vec3)  // glm::rotate(mat4(1), radians(a), axis)
    | Mul(left: Mat4, right: Mat4)       // left * right
}
