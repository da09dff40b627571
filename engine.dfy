/**
 The few engine values and math helpers that the player and camera controllers
 use: two- and three-component vectors, the phase of an input action, and the
 clamping and stepping helpers of the engine's `Mathf`, written out as the
 engine defines them. Float quantities are modelled as `real`.
 */
module Engine {

  /** A two-component vector (look or move input). */
  datatype Vec2 = Vec2(x: real, y: real)

  /** A three-component vector (a direction or a displacement). */
  datatype Vec3 = Vec3(x: real, y: real, z: real)

  const Zero2: Vec2 := Vec2(0.0, 0.0)

  /** The phase an input action reports to its callback. `ctx.started`,
      `ctx.performed` and `ctx.canceled` test for the last three. */
  datatype InputPhase = Disabled | Waiting | Started | Performed | Canceled

  /** A vector scaled by a factor (`Vector3 * float`). */
  function Scale(v: Vec3, k: real): Vec3
  {
    Vec3(v.x * k, v.y * k, v.z * k)
  }

  function Abs(a: real): (r: real)
    ensures r >= 0.0
    ensures r == a || r == -a
  {
    if a < 0.0 then -a else a
  }

  /** `Mathf.Sign`: 1 for zero and positive arguments, -1 for negative ones. */
  function Sign(a: real): (r: real)
    ensures r == 1.0 || r == -1.0
    ensures a >= 0.0 <==> r == 1.0
  {
    if a >= 0.0 then 1.0 else -1.0
  }

  /** `Mathf.Max` of two values. */
  function Max(a: real, b: real): (r: real)
    ensures r >= a && r >= b
    ensures r == a || r == b
  {
    if a > b then a else b
  }

  /** `Mathf.Clamp`: the lower bound is tested first, so when `lo > hi` a value
      below `lo` becomes `lo` and any other value above `hi` becomes `hi`. */
  function Clamp(value: real, lo: real, hi: real): (r: real)
    ensures lo <= hi ==> lo <= r <= hi
    ensures lo <= value <= hi ==> r == value
    ensures value < lo ==> r == lo
    ensures lo <= value && hi < value ==> r == hi
  {
    if value < lo then lo else if value > hi then hi else value
  }

  /** Clamping an already clamped value changes nothing. */
  lemma ClampIdempotent(value: real, lo: real, hi: real)
    requires lo <= hi
    ensures Clamp(Clamp(value, lo, hi), lo, hi) == Clamp(value, lo, hi)
  {
  }

  /** `Mathf.MoveTowards`: step from `current` towards `target` by `maxDelta`,
      landing exactly on `target` when it is within reach. For a non-negative
      step the result lies between `current` and `target` (no overshoot), is
      no farther from the target than `current` was, and is either the target
      itself or exactly `maxDelta` away from `current`. */
  function MoveTowards(current: real, target: real, maxDelta: real): (r: real)
    ensures maxDelta >= 0.0 ==> Abs(r - current) <= maxDelta
    ensures maxDelta >= 0.0 ==> Abs(target - r) <= Abs(target - current)
    ensures maxDelta >= 0.0 && current <= target ==> current <= r <= target
    ensures maxDelta >= 0.0 && target <= current ==> target <= r <= current
    ensures maxDelta >= 0.0 ==> r == target || Abs(r - current) == maxDelta
    ensures Abs(target - current) <= maxDelta ==> r == target
    ensures maxDelta == 0.0 ==> r == current
  {
    if Abs(target - current) <= maxDelta then target
    else current + Sign(target - current) * maxDelta
  }
}
