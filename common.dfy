/** Values shared by the demo pages: an optional value, clamping, and the
    three-component vectors with the per-axis "bounce" rule that both the
    quantum particle system and the liquid-metal spheres use. JavaScript
    numbers are modelled as mathematical reals (no float rounding). */
module Common {

  datatype Option<+T> = None | Some(value: T) {
    function GetOr(default: T): T {
      match this
      case Some(v) => v
      case None => default
    }
  }

  function Abs(r: real): (a: real)
    ensures a >= 0.0 && (a == r || a == -r)
  {
    if r < 0.0 then -r else r
  }

  function Min(a: int, b: int): (m: int)
    ensures m <= a && m <= b && (m == a || m == b)
  {
    if a <= b then a else b
  }

  /** `Math.max(lo, Math.min(hi, v))`, the clamping idiom of the dashboard code. */
  function Clamp(v: real, lo: real, hi: real): (c: real)
    requires lo <= hi
    ensures lo <= c <= hi
    ensures lo <= v <= hi ==> c == v
    ensures v < lo ==> c == lo
    ensures v > hi ==> c == hi
  {
    if hi < v then (if lo < hi then hi else lo) else (if lo < v then v else lo)
  }

  /** A three.js Vector3. */
  datatype Vec3 = Vec3(x: real, y: real, z: real)

  const Origin := Vec3(0.0, 0.0, 0.0)

  function Add(a: Vec3, b: Vec3): Vec3 {
    Vec3(a.x + b.x, a.y + b.y, a.z + b.z)
  }

  function Sub(a: Vec3, b: Vec3): Vec3 {
    Vec3(a.x - b.x, a.y - b.y, a.z - b.z)
  }

  function Scale(a: Vec3, k: real): Vec3 {
    Vec3(a.x * k, a.y * k, a.z * k)
  }

  /** One axis of the bounce: the velocity component is multiplied by -1
      when the coordinate lies strictly outside [-limit, limit]. The
      coordinate itself is never clamped. */
  function ReflectAxis(pos: real, vel: real, limit: real): (v: real)
    ensures Abs(v) == Abs(vel)
    ensures Abs(pos) > limit ==> v == -vel
    ensures Abs(pos) <= limit ==> v == vel
  {
    if Abs(pos) > limit then vel * -1.0 else vel
  }

  /** The bounce applied to all three axes, each with its own limit. */
  function Reflect(pos: Vec3, vel: Vec3, limits: Vec3): (v: Vec3)
    ensures Abs(v.x) == Abs(vel.x) && Abs(v.y) == Abs(vel.y) && Abs(v.z) == Abs(vel.z)
    ensures v.x == -vel.x <==> (Abs(pos.x) > limits.x || vel.x == 0.0)
    ensures v.y == -vel.y <==> (Abs(pos.y) > limits.y || vel.y == 0.0)
    ensures v.z == -vel.z <==> (Abs(pos.z) > limits.z || vel.z == 0.0)
  {
    Vec3(ReflectAxis(pos.x, vel.x, limits.x),
         ReflectAxis(pos.y, vel.y, limits.y),
         ReflectAxis(pos.z, vel.z, limits.z))
  }
}
