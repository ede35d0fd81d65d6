/**
 * The `Gravity` component (src/components/gravity.rs) and `GravitySystem`
 * (src/systems/gravity.rs): a constant acceleration per axis. The system also
 * writes flags `should_decrease_x` and `should_decrease_y` that the
 * `DecreaseVelocity` component in src/components/decrease_velocity.rs does not
 * declare; they are modelled as a separate per-entity record, `DecreaseAxes`.
 */
module GravitySystem {
  import opened Wrappers
  import opened Geo
  import opened Velocities
  import opened DecreaseVelocities

  datatype Gravity = Gravity(x: real, y: real)

  /** The `should_decrease_x` / `should_decrease_y` flags written by the system. */
  datatype DecreaseAxes = DecreaseAxes(x: bool, y: bool)

  /**
   * One axis: a non-zero gravity accelerates the velocity and switches the
   * decrease of that axis off; a zero gravity leaves it and switches it on.
   */
  function GravityAxis(v: real, g: real, dt: real): (r: (real, bool))
    ensures g != 0.0 ==> r.0 - v == g * dt && !r.1
    ensures g == 0.0 ==> r.0 == v && r.1
  {
    if g != 0.0 then (v + g * dt, false) else (v, true)
  }

  /** `GravitySystem::run` over the entities of a world (ids are positions). */
  method Run(dt: real, gravities: seq<Option<Gravity>>, vs: seq<Option<Velocity>>,
             decrs: seq<Option<DecreaseVelocity>>, axes: array<DecreaseAxes>)
    requires |gravities| == |vs| == |decrs| == axes.Length
    requires DistinctVelocities(vs)
    modifies VelocityObjects(vs), axes
    ensures forall i :: 0 <= i < |vs| && vs[i].Some? ==> vs[i].value.max == old(vs[i].value.max)
    ensures forall i :: 0 <= i < |vs| ==> Affected(gravities, vs, decrs, i) ==>
      var gx := GravityAxis(old(vs[i].value.x), gravities[i].value.x, dt);
      var gy := GravityAxis(old(vs[i].value.y), gravities[i].value.y, dt);
      vs[i].value.Value() == (gx.0, gy.0) && axes[i] == DecreaseAxes(gx.1, gy.1)
    ensures forall i :: 0 <= i < |vs| ==> !Affected(gravities, vs, decrs, i) ==>
      axes[i] == old(axes[i]) && (vs[i].Some? ==> vs[i].value.Value() == old(vs[i].value.Value()))
  {
    for i := 0 to |vs|
      invariant forall j :: 0 <= j < |vs| && vs[j].Some? ==> vs[j].value.max == old(vs[j].value.max)
      invariant forall j :: 0 <= j < i ==> Affected(gravities, vs, decrs, j) ==>
        var gx := GravityAxis(old(vs[j].value.x), gravities[j].value.x, dt);
        var gy := GravityAxis(old(vs[j].value.y), gravities[j].value.y, dt);
        vs[j].value.Value() == (gx.0, gy.0) && axes[j] == DecreaseAxes(gx.1, gy.1)
      invariant forall j :: 0 <= j < i ==> !Affected(gravities, vs, decrs, j) ==>
        axes[j] == old(axes[j]) && (vs[j].Some? ==> vs[j].value.Value() == old(vs[j].value.Value()))
      invariant forall j :: i <= j < |vs| ==>
        axes[j] == old(axes[j]) && (vs[j].Some? ==> vs[j].value.Value() == old(vs[j].value.Value()))
    {
      if gravities[i].Some? && vs[i].Some? && decrs[i].Some? {
        axes[i] := Accelerate(dt, gravities[i].value, vs[i].value, axes[i]);
      }
    }
  }

  /** The body of the loop of `run` for one entity: both axes of its velocity and its flags. */
  method Accelerate(dt: real, gravity: Gravity, velocity: Velocity, flags: DecreaseAxes) returns (r: DecreaseAxes)
    modifies velocity
    ensures velocity.max == old(velocity.max)
    ensures var gx := GravityAxis(old(velocity.x), gravity.x, dt);
      var gy := GravityAxis(old(velocity.y), gravity.y, dt);
      velocity.Value() == (gx.0, gy.0) && r == DecreaseAxes(gx.1, gy.1)
  {
    var x0, y0 := velocity.x, velocity.y;
    r := flags;
    if gravity.x != 0.0 {
      velocity.x := velocity.x + gravity.x * dt;
      r := r.(x := false);
    } else {
      r := r.(x := true);
    }
    assert (velocity.x, r.x) == GravityAxis(x0, gravity.x, dt);
    if gravity.y != 0.0 {
      velocity.y := velocity.y + gravity.y * dt;
      r := r.(y := false);
    } else {
      r := r.(y := true);
    }
    assert (velocity.y, r.y) == GravityAxis(y0, gravity.y, dt);
  }

  /** Only entities with `Gravity`, `Velocity` and `DecreaseVelocity` together take part. */
  predicate Affected(gravities: seq<Option<Gravity>>, vs: seq<Option<Velocity>>,
                     decrs: seq<Option<DecreaseVelocity>>, i: int)
    requires |gravities| == |vs| == |decrs|
  {
    0 <= i < |vs| && gravities[i].Some? && vs[i].Some? && decrs[i].Some?
  }

  /** The decrease flag of an axis is switched on exactly when that axis has no gravity, which leaves the velocity alone. */
  lemma DecreaseFlagIffNoGravity(vx: real, gx: real, dt: real)
    ensures GravityAxis(vx, gx, dt).1 <==> gx == 0.0
    ensures GravityAxis(vx, 0.0, dt) == (vx, true)
  {
  }
}
