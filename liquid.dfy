/** The animated background of the liquid-metal shop page: a large
    rotating mesh whose shader reads a shared time uniform, and five small
    spheres drifting inside a box and bouncing off its walls.

    The renderer, camera, shader programs and lights' effect are not
    modelled; the scene's children are values in an array, and the
    `Math.random` draws of the set-up are an input sequence. */
module LiquidMetal {
  import opened Common

  const SphereCount: nat := 5
  /** Spheres bounce when |x| or |y| exceeds 5, or |z| exceeds 3. */
  const Box := Vec3(5.0, 5.0, 3.0)
  const TimeStep: real := 0.01

  /** What a child of the scene is. */
  datatype Kind = LiquidMesh | Sphere(radius: real) | AmbientLight | PointLight

  /** A child of the scene: only spheres carry a velocity in their user data. */
  datatype Child = Child(kind: Kind, position: Vec3, rotation: Vec3, velocity: Option<Vec3>)

  predicate IsDraw(r: real) {
    0.0 <= r < 1.0
  }

  /** The ranges a sphere starts in: a radius in [0.3, 0.8), a position
      inside [-4, 4) x [-4, 4) x [-2, 2), and each velocity component in
      [-0.01, 0.01). */
  predicate StartsInRange(c: Child) {
    && c.kind.Sphere? && 0.3 <= c.kind.radius < 0.8
    && -4.0 <= c.position.x < 4.0 && -4.0 <= c.position.y < 4.0 && -2.0 <= c.position.z < 2.0
    && c.velocity.Some?
    && -0.01 <= c.velocity.value.x < 0.01 && -0.01 <= c.velocity.value.y < 0.01
    && -0.01 <= c.velocity.value.z < 0.01
  }

  /** Sphere i made from the draws 7i .. 7i+6: radius first, then the
      position's three coordinates, then the velocity's three components.
      It is an unrotated sphere with a velocity, in range for `Math.random` draws. */
  function InitialSphere(draws: seq<real>, i: nat): (c: Child)
    requires 7 * i + 7 <= |draws|
    ensures c.kind.Sphere? && c.velocity.Some? && c.rotation == Origin
    ensures (forall k :: 7 * i <= k < 7 * i + 7 ==> IsDraw(draws[k])) ==> StartsInRange(c)
  {
    var b := 7 * i;
    Child(Sphere(0.3 + draws[b] * 0.5),
          Vec3((draws[b + 1] - 0.5) * 8.0, (draws[b + 2] - 0.5) * 8.0, (draws[b + 3] - 0.5) * 4.0),
          Origin,
          Some(Vec3((draws[b + 4] - 0.5) * 0.02, (draws[b + 5] - 0.5) * 0.02, (draws[b + 6] - 0.5) * 0.02)))
  }

  /** The children in the order `init` adds them: the liquid mesh, the
      five spheres, the ambient light and the point light at (5, 5, 5). */
  function InitialChildren(draws: seq<real>): (cs: seq<Child>)
    requires |draws| == 7 * SphereCount
    ensures |cs| == SphereCount + 3
    ensures cs[0].velocity.None? && forall k :: 1 <= k <= SphereCount ==> cs[k].velocity.Some?
  {
    [Child(LiquidMesh, Origin, Origin, None)] +
    seq(SphereCount, i requires 0 <= i < SphereCount => InitialSphere(draws, i)) +
    [Child(AmbientLight, Origin, Origin, None), Child(PointLight, Vec3(5.0, 5.0, 5.0), Origin, None)]
  }

  /** With `Math.random` draws, every sphere `init` adds starts in range. */
  lemma InitialSphereRanges(draws: seq<real>)
    requires |draws| == 7 * SphereCount && forall k :: 0 <= k < |draws| ==> IsDraw(draws[k])
    ensures forall k :: 1 <= k <= SphereCount ==> StartsInRange(InitialChildren(draws)[k])
  {
    var cs := InitialChildren(draws);
    forall k | 1 <= k <= SphereCount
      ensures StartsInRange(cs[k])
    {
      assert cs[k] == InitialSphere(draws, k - 1);
      assert forall m :: 7 * (k - 1) <= m < 7 * (k - 1) + 7 ==> IsDraw(draws[m]);
    }
  }

  /** One frame for one child: a child with a velocity moves by it, turns
      by 0.01 about x and y, and has each velocity component negated when
      its new coordinate is outside the box; any other child is unchanged. */
  function ChildStep(c: Child): (d: Child)
    ensures c.velocity.None? ==> d == c
    ensures c.velocity.Some? ==>
      && d.kind == c.kind
      && d.position == Add(c.position, c.velocity.value)
      && d.rotation == Add(c.rotation, Vec3(0.01, 0.01, 0.0))
      && d.velocity.Some?
      && d.velocity.value == Reflect(d.position, c.velocity.value, Box)
  {
    match c.velocity
    case None => c
    case Some(v) =>
      var p := Add(c.position, v);
      c.(position := p, rotation := Add(c.rotation, Vec3(0.01, 0.01, 0.0)), velocity := Some(Reflect(p, v, Box)))
  }

  /** On one axis with wall `limit`, a body is inside the walls, or is
      outside one wall and already heading back so that its next move
      brings it inside. */
  predicate AxisOk(x: real, v: real, limit: real) {
    (-limit <= x <= limit) ||
    (x > limit && v < 0.0 && x + v <= limit) ||
    (x < -limit && v > 0.0 && x + v >= -limit)
  }

  /** A bounce step keeps AxisOk, provided a step is shorter than the box. */
  lemma AxisStep(x: real, v: real, limit: real)
    requires AxisOk(x, v, limit) && Abs(v) <= 2.0 * limit
    ensures AxisOk(x + v, ReflectAxis(x + v, v, limit), limit)
  {
  }

  /** A sphere is contained when it is AxisOk on every axis and moves by
      at most 0.01 per axis each frame. */
  predicate Contained(c: Child) {
    c.velocity.Some? &&
    AxisOk(c.position.x, c.velocity.value.x, Box.x) &&
    AxisOk(c.position.y, c.velocity.value.y, Box.y) &&
    AxisOk(c.position.z, c.velocity.value.z, Box.z) &&
    Abs(c.velocity.value.x) <= 0.01 && Abs(c.velocity.value.y) <= 0.01 && Abs(c.velocity.value.z) <= 0.01
  }

  /** A contained sphere stays contained, keeps its speed on every axis,
      and is never more than one step outside the box. */
  lemma ContainedStep(c: Child)
    requires Contained(c)
    ensures Contained(ChildStep(c))
    ensures Abs(ChildStep(c).position.x) <= Box.x + 0.01 && Abs(ChildStep(c).position.y) <= Box.y + 0.01
    ensures Abs(ChildStep(c).position.z) <= Box.z + 0.01
  {
    var v := c.velocity.value;
    var p := Add(c.position, v);
    AxisStep(c.position.x, v.x, Box.x);
    AxisStep(c.position.y, v.y, Box.y);
    AxisStep(c.position.z, v.z, Box.z);
    assert Reflect(p, v, Box) == Vec3(ReflectAxis(p.x, v.x, Box.x), ReflectAxis(p.y, v.y, Box.y), ReflectAxis(p.z, v.z, Box.z));
  }

  /** Every sphere starts contained. */
  lemma InitialContained(draws: seq<real>, i: nat)
    requires 7 * i + 7 <= |draws| && forall k :: 0 <= k < |draws| ==> IsDraw(draws[k])
    ensures Contained(InitialSphere(draws, i))
  {
    assert forall k :: 7 * i <= k < 7 * i + 7 ==> IsDraw(draws[k]);
  }

  class LiquidScene {
    /** The module-level `time` and the shader's time uniform. */
    var time: real
    var uniformTime: real
    /** `scene.children`; index 0 is the liquid mesh. */
    const children: array<Child>

    ghost predicate Valid()
      reads this, children
    {
      children.Length == SphereCount + 3 && children[0].kind == LiquidMesh && children[0].velocity.None?
    }

    /** `init` (the part that builds the scene's children). */
    constructor (draws: seq<real>)
      requires |draws| == 7 * SphereCount
      ensures Valid() && fresh(children)
      ensures children[..] == InitialChildren(draws)
      ensures time == 0.0 && uniformTime == 0.0
    {
      var cs := InitialChildren(draws);
      children := new Child[SphereCount + 3](i requires 0 <= i < SphereCount + 3 => cs[i]);
      time, uniformTime := 0.0, 0.0;
      new;
      assert children[..] == cs;
    }

    /** One frame of `animate`. */
    method Animate()
      requires Valid()
      modifies this`time, this`uniformTime, children
      ensures Valid()
      ensures time == old(time) + TimeStep && uniformTime == time
      ensures children[0] == old(children[0]).(rotation := Add(old(children[0]).rotation, Vec3(0.001, 0.002, 0.0)))
      ensures forall k :: 1 <= k < children.Length ==> children[k] == ChildStep(old(children[k]))
    {
      time := time + 0.01;
      uniformTime := time;
      var mesh := children[0];
      children[0] := mesh.(rotation := Add(mesh.rotation, Vec3(0.001, 0.002, 0.0)));
      for k := 0 to children.Length
        invariant time == old(time) + TimeStep && uniformTime == time
        invariant children[0] == old(children[0]).(rotation := Add(old(children[0]).rotation, Vec3(0.001, 0.002, 0.0)))
        invariant forall m :: 1 <= m < k ==> children[m] == ChildStep(old(children[m]))
        invariant forall m :: k <= m < children.Length && m != 0 ==> children[m] == old(children[m])
      {
        var child := children[k];
        if child.velocity.Some? {
          var v := child.velocity.value;
          var p := Add(child.position, v);
          var rot := Add(child.rotation, Vec3(0.01, 0.01, 0.0));
          var vx := if Abs(p.x) > 5.0 then v.x * -1.0 else v.x;
          var vy := if Abs(p.y) > 5.0 then v.y * -1.0 else v.y;
          var vz := if Abs(p.z) > 3.0 then v.z * -1.0 else v.z;
          children[k] := child.(position := p, rotation := rot, velocity := Some(Vec3(vx, vy, vz)));
        }
      }
    }
  }
}
