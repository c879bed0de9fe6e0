/** Three-component vectors over the reals, standing for KlayGE's Vector_T<T, 3>
    and the few MathLib helpers that Box_T uses (componentwise minimize/maximize,
    length_sq). Floating-point rounding is not modelled. */
module Vectors {

  datatype Vec3 = Vec3(x: real, y: real, z: real)

  function Zero(): Vec3 { Vec3(0.0, 0.0, 0.0) }

  function Add(a: Vec3, b: Vec3): Vec3 { Vec3(a.x + b.x, a.y + b.y, a.z + b.z) }

  function Sub(a: Vec3, b: Vec3): Vec3 { Vec3(a.x - b.x, a.y - b.y, a.z - b.z) }

  function Neg(a: Vec3): Vec3 { Vec3(-a.x, -a.y, -a.z) }

  function Scale(a: Vec3, k: real): Vec3 { Vec3(a.x * k, a.y * k, a.z * k) }

  /** std::min(a, b): b when b < a, otherwise a. */
  function Min(a: real, b: real): real { if b < a then b else a }

  /** std::max(a, b): b when a < b, otherwise a. */
  function Max(a: real, b: real): real { if a < b then b else a }

  /** MathLib::minimize: componentwise minimum. */
  function MinV(a: Vec3, b: Vec3): Vec3 { Vec3(Min(a.x, b.x), Min(a.y, b.y), Min(a.z, b.z)) }

  /** MathLib::maximize: componentwise maximum. */
  function MaxV(a: Vec3, b: Vec3): Vec3 { Vec3(Max(a.x, b.x), Max(a.y, b.y), Max(a.z, b.z)) }

  /** MathLib::length_sq */
  function LengthSq(a: Vec3): real { a.x * a.x + a.y * a.y + a.z * a.z }

  /** Componentwise a <= b. */
  predicate Le(a: Vec3, b: Vec3) { a.x <= b.x && a.y <= b.y && a.z <= b.z }

  /** m is the smaller of a and b: below both and equal to one of them. */
  predicate IsMinOf(m: real, a: real, b: real) { m <= a && m <= b && (m == a || m == b) }

  /** m is the larger of a and b: above both and equal to one of them. */
  predicate IsMaxOf(m: real, a: real, b: real) { a <= m && b <= m && (m == a || m == b) }
}
