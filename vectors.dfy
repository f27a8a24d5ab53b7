/**
 * Three-component vectors over the reals, standing for `glm::vec3` and the
 * handful of glm operations the simulation uses. Single-precision rounding is
 * not modelled. `glm::normalize` and the trigonometric functions are left
 * abstract: every operation that needs them receives them as parameters, and
 * nothing is assumed about them.
 */
module Vectors {

  datatype Vec3 = Vec3(x: real, y: real, z: real)

  /** The three coordinate axes, in the order the boundary checks visit them. */
  datatype Axis = X | Y | Z

  /** `glm::normalize`, abstract. */
  type Normalizer = Vec3 -> Vec3

  /** `sin`, `cos`, `acos` and `glm::pi`, abstract. */
  datatype Trig = Trig(sin: real -> real, cos: real -> real, acos: real -> real, pi: real)

  /** `sin^2 t + cos^2 t = 1` for every `t`. */
  ghost predicate Pythagorean(trig: Trig) {
    forall t :: trig.sin(t) * trig.sin(t) + trig.cos(t) * trig.cos(t) == 1.0
  }

  const Zero := Vec3(0.0, 0.0, 0.0)

  function Add(a: Vec3, b: Vec3): Vec3 {
    Vec3(a.x + b.x, a.y + b.y, a.z + b.z)
  }

  function Sub(a: Vec3, b: Vec3): Vec3 {
    Vec3(a.x - b.x, a.y - b.y, a.z - b.z)
  }

  function Scale(v: Vec3, s: real): Vec3 {
    Vec3(v.x * s, v.y * s, v.z * s)
  }

  /** `v / s` for a vector and a scalar. */
  function Div(v: Vec3, s: real): Vec3
    requires s != 0.0
  {
    Vec3(v.x / s, v.y / s, v.z / s)
  }

  function Dot(a: Vec3, b: Vec3): real {
    a.x * b.x + a.y * b.y + a.z * b.z
  }

  /** Squared Euclidean distance, `glm::dot(a - b, a - b)`. */
  function DistSq(a: Vec3, b: Vec3): (d: real)
    ensures d >= 0.0
    ensures a == b ==> d == 0.0
  {
    var diff := Sub(a, b);
    Dot(diff, diff)
  }

  /** `glm::mix(a, b, t)`: the linear blend `a * (1 - t) + b * t`. */
  function Mix(a: Vec3, b: Vec3, t: real): Vec3 {
    Add(Scale(a, 1.0 - t), Scale(b, t))
  }

  /** `glm::reflect(d, n)`: `d - 2 * dot(n, d) * n`. */
  function Reflect(d: Vec3, n: Vec3): Vec3 {
    Sub(d, Scale(n, 2.0 * Dot(n, d)))
  }

  function Component(v: Vec3, a: Axis): real {
    match a
    case X => v.x
    case Y => v.y
    case Z => v.z
  }

  function WithComponent(v: Vec3, a: Axis, r: real): Vec3 {
    match a
    case X => v.(x := r)
    case Y => v.(y := r)
    case Z => v.(z := r)
  }

  /** The unit vector along axis `a`, scaled by `sign`. */
  function AxisNormal(a: Axis, sign: real): Vec3 {
    match a
    case X => Vec3(sign, 0.0, 0.0)
    case Y => Vec3(0.0, sign, 0.0)
    case Z => Vec3(0.0, 0.0, sign)
  }

  /** Every coordinate of `p` lies in `[-half, half]`. */
  ghost predicate InCube(p: Vec3, half: real) {
    forall a: Axis :: -half <= Component(p, a) <= half
  }

  /**
   * Reflecting about an axis-aligned unit normal (either sign) negates exactly
   * that component and leaves the other two as they were.
   */
  lemma ReflectAboutAxisNormal(d: Vec3, a: Axis, sign: real)
    requires sign == 1.0 || sign == -1.0
    ensures Reflect(d, AxisNormal(a, sign)) == WithComponent(d, a, -Component(d, a))
  {
    assert sign * sign == 1.0;
  }
}
