/** The small slice of glm vector arithmetic the modelled code uses, over exact reals. */
module Glm {

  datatype Vec2 = Vec2(x: real, y: real)

  datatype Vec3 = Vec3(x: real, y: real, z: real)

  datatype Vec4 = Vec4(r: real, g: real, b: real, a: real)

  /** A 4x4 matrix, stored as its sixteen entries in column-major order. */
  datatype Mat4 = Mat4(entries: seq<real>)

  const Zero3: Vec3 := Vec3(0.0, 0.0, 0.0)

  /** glm::mat4(1.0f): ones on the diagonal, zeros elsewhere. */
  function Identity(): (m: Mat4)
    ensures |m.entries| == 16
    ensures forall k :: 0 <= k < 16 ==> m.entries[k] == (if k % 5 == 0 then 1.0 else 0.0)
  {
    Mat4([1.0, 0.0, 0.0, 0.0,
          0.0, 1.0, 0.0, 0.0,
          0.0, 0.0, 1.0, 0.0,
          0.0, 0.0, 0.0, 1.0])
  }

  function Add(u: Vec3, v: Vec3): Vec3 {
    Vec3(u.x + v.x, u.y + v.y, u.z + v.z)
  }

  function Sub(u: Vec3, v: Vec3): Vec3 {
    Vec3(u.x - v.x, u.y - v.y, u.z - v.z)
  }

  function Scale(v: Vec3, s: real): Vec3 {
    Vec3(v.x * s, v.y * s, v.z * s)
  }

  function Dot(u: Vec3, v: Vec3): real {
    u.x * v.x + u.y * v.y + u.z * v.z
  }

  /** Squared distance, glm::dot(a - b, a - b). */
  function DistSq(a: Vec3, b: Vec3): real {
    Dot(Sub(a, b), Sub(a, b))
  }

  lemma DistSqToSelf(p: Vec3)
    ensures DistSq(p, p) == 0.0
  {
    assert Sub(p, p) == Zero3;
  }
}
