/**
 * Real-valued 3-vectors, axis-aligned bounds and the engine primitives the
 * flocking code calls but does not define.
 *
 * Floats are modelled as `real`. The engine primitives (vector normalisation,
 * Euclidean distance, smoothing, trigonometry, quaternion construction) are
 * left uninterpreted: they are the fields of an `Engine` value that every
 * operation receives as a parameter, so nothing is assumed about them beyond
 * their types.
 */
module Vectors {

  datatype Vec3 = Vec3(x: real, y: real, z: real)

  const Zero: Vec3 := Vec3(0.0, 0.0, 0.0)

  /** The local forward axis; transform.forward is the rotation applied to it. */
  const Forward: Vec3 := Vec3(0.0, 0.0, 1.0)

  function Add(a: Vec3, b: Vec3): Vec3 {
    Vec3(a.x + b.x, a.y + b.y, a.z + b.z)
  }

  function Sub(a: Vec3, b: Vec3): Vec3 {
    Vec3(a.x - b.x, a.y - b.y, a.z - b.z)
  }

  function Scale(v: Vec3, k: real): Vec3 {
    Vec3(v.x * k, v.y * k, v.z * k)
  }

  function Div(v: Vec3, k: real): Vec3
    requires k != 0.0
  {
    Vec3(v.x / k, v.y / k, v.z / k)
  }

  /** A quaternion, kept as its four components; the engine builds and applies them. */
  datatype Quat = Quat(x: real, y: real, z: real, w: real)

  /**
   * An axis-aligned box stored as centre and half-extents, as the engine
   * stores it: size is twice the extents, min and max are centre -/+ extents.
   */
  datatype Bounds = Bounds(center: Vec3, extents: Vec3)

  function Size(b: Bounds): Vec3 {
    Scale(b.extents, 2.0)
  }

  function Min(b: Bounds): Vec3 {
    Sub(b.center, b.extents)
  }

  function Max(b: Bounds): Vec3 {
    Add(b.center, b.extents)
  }

  type NonNegReal = r: real | r >= 0.0

  /** The result of a smoothing step: the new value and the new rate of change. */
  datatype Damped<T> = Damped(value: T, velocity: T)

  /**
   * The engine primitives, uninterpreted.
   *   normalized(v)                         Vector3.normalized
   *   distance(a, b)                        Vector3.Distance (a Euclidean norm, so never negative)
   *   directionTo(from, to)                 the DirectionTo extension method
   *   directionFrom(to, from)               the DirectionFrom extension method
   *   contains(b, p)                        Bounds.Contains
   *   smoothDamp(cur, target, vel, t, dt)   Vector3.SmoothDamp
   *   smoothDampAngle(cur, target, vel, t, dt)  Mathf.SmoothDampAngle
   *   atan2(y, x)                           Mathf.Atan2
   *   euler(x, y, z)                        Quaternion.Euler
   *   eulerAngles(q)                        Quaternion.eulerAngles
   *   rotate(q, v)                          Quaternion * Vector3
   *   frameDelta                            Time.deltaTime, the default step of the smoothing calls
   */
  datatype Engine = Engine(
    normalized: Vec3 -> Vec3,
    distance: (Vec3, Vec3) -> NonNegReal,
    directionTo: (Vec3, Vec3) -> Vec3,
    directionFrom: (Vec3, Vec3) -> Vec3,
    contains: (Bounds, Vec3) -> bool,
    smoothDamp: (Vec3, Vec3, Vec3, real, real) -> Damped<Vec3>,
    smoothDampAngle: (real, real, real, real, real) -> Damped<real>,
    atan2: (real, real) -> real,
    euler: (real, real, real) -> Quat,
    eulerAngles: Quat -> Vec3,
    rotate: (Quat, Vec3) -> Vec3,
    frameDelta: real)

  /** Every rotation maps the zero vector to itself, as any linear map does. */
  ghost predicate RotationFixesOrigin(env: Engine) {
    forall q :: env.rotate(q, Zero) == Zero
  }

  /** The distance from a point to itself is zero. */
  ghost predicate DistanceToSelfIsZero(env: Engine) {
    forall v :: env.distance(v, v) == 0.0
  }

  /** Degrees per radian, as the engine's single-precision constant. */
  const Rad2Deg: real := 57.29578

  /**
   * Mathf.Clamp: below the lower end gives the lower end, otherwise above the
   * upper end gives the upper end, otherwise the value itself.
   */
  function Clamp(v: real, lo: real, hi: real): (r: real)
    ensures lo <= hi ==> lo <= r <= hi
    ensures r == v <==> lo <= v <= hi
  {
    if v < lo then lo else if v > hi then hi else v
  }

  /** Mathf.Clamp01. */
  function Clamp01(v: real): (r: real)
    ensures 0.0 <= r <= 1.0
    ensures r == v <==> 0.0 <= v <= 1.0
  {
    if v < 0.0 then 0.0 else if v > 1.0 then 1.0 else v
  }
}
