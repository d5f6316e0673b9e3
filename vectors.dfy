/** Real-valued stand-ins for the glm::vec3 and glm::vec2 values the simulator uses. */
module Vectors {

  datatype Vec3 = Vec3(x: real, y: real, z: real)

  datatype Vec2 = Vec2(x: real, y: real)

  const Zero3: Vec3 := Vec3(0.0, 0.0, 0.0)
  const Zero2: Vec2 := Vec2(0.0, 0.0)

  function Add3(a: Vec3, b: Vec3): Vec3 { Vec3(a.x + b.x, a.y + b.y, a.z + b.z) }
  function Sub3(a: Vec3, b: Vec3): Vec3 { Vec3(a.x - b.x, a.y - b.y, a.z - b.z) }
  function Neg3(a: Vec3): Vec3 { Vec3(-a.x, -a.y, -a.z) }
  function Scale3(a: Vec3, k: real): Vec3 { Vec3(a.x * k, a.y * k, a.z * k) }
  /** glm's `v / k`; the simulator only divides by its fixed non-zero step divisors. */
  function Div3(a: Vec3, k: real): Vec3 requires k != 0.0 { Vec3(a.x / k, a.y / k, a.z / k) }

  function Add2(a: Vec2, b: Vec2): Vec2 { Vec2(a.x + b.x, a.y + b.y) }
  function Sub2(a: Vec2, b: Vec2): Vec2 { Vec2(a.x - b.x, a.y - b.y) }
  function Neg2(a: Vec2): Vec2 { Vec2(-a.x, -a.y) }
  function Scale2(a: Vec2, k: real): Vec2 { Vec2(a.x * k, a.y * k) }
  function Div2(a: Vec2, k: real): Vec2 requires k != 0.0 { Vec2(a.x / k, a.y / k) }

  /*
   * glm::length, glm::normalize and std::pow(x, 1/3) are library routines whose
   * results have no closed form over the reals. The model receives them as
   * function values; the few laws that some properties rely on are stated here
   * and required only by the lemmas that need them.
   */

  /** The distance from a to b equals the distance from b to a. */
  ghost predicate SymmetricLength3(length: Vec3 -> real) {
    forall v: Vec3 :: length(Neg3(v)) == length(v)
  }

  ghost predicate SymmetricLength2(length: Vec2 -> real) {
    forall v: Vec2 :: length(Neg2(v)) == length(v)
  }

  /** Reversing a vector reverses its unit direction. */
  ghost predicate OddNormalize2(normalize: Vec2 -> Vec2) {
    forall v: Vec2 :: normalize(Neg2(v)) == Neg2(normalize(v))
  }

  ghost predicate OddNormalize3(normalize: Vec3 -> Vec3) {
    forall v: Vec3 :: normalize(Neg3(v)) == Neg3(normalize(v))
  }

  /** The cube root of a positive number is positive. */
  ghost predicate PositiveCubeRoot(cbrt: real -> real) {
    forall m: real :: m > 0.0 ==> cbrt(m) > 0.0
  }
}
