/**
 * `LimitVelocitiesSystem` (src/systems/limit_velocities.rs): caps the velocity of
 * every entity that has a `MaxVelocity`, axis by axis.
 */
module LimitVelocities {
  import opened Wrappers
  import opened Geo
  import opened Velocities
  import opened MaxVelocities

  /** One axis of the system: strictly positive values capped at `max`, strictly negative at `-max`. */
  function LimitAxis(v: real, max: Option<real>): (r: real)
    ensures max.None? || v == 0.0 ==> r == v
    ensures max.Some? && v > 0.0 ==> r == Min(v, max.value)
    ensures max.Some? && v < 0.0 ==> r == Max(v, -max.value)
  {
    match max
    case None => v
    case Some(m) => if v > 0.0 then Min(v, m) else if v < 0.0 then Max(v, -m) else v
  }

  /** The velocity of one entity after the system, given its optional `MaxVelocity`. */
  function Limit(v: Vector, max: Option<MaxVelocity>): Vector
  {
    if max.Some? then (LimitAxis(v.0, max.value.x), LimitAxis(v.1, max.value.y)) else v
  }

  /** `LimitVelocitiesSystem::run`, over the entities of a world (ids are positions). */
  method Run(maxes: seq<Option<MaxVelocity>>, vs: seq<Option<Velocity>>)
    requires |maxes| == |vs|
    requires DistinctVelocities(vs)
    modifies VelocityObjects(vs)
    ensures forall i :: 0 <= i < |vs| && vs[i].Some? ==>
      vs[i].value.Value() == Limit(old(vs[i].value.Value()), maxes[i]) &&
      vs[i].value.max == old(vs[i].value.max)
  {
    for i := 0 to |vs|
      invariant forall j :: 0 <= j < i && vs[j].Some? ==>
        vs[j].value.Value() == Limit(old(vs[j].value.Value()), maxes[j]) && vs[j].value.max == old(vs[j].value.max)
      invariant forall j :: i <= j < |vs| && vs[j].Some? ==>
        vs[j].value.Value() == old(vs[j].value.Value()) && vs[j].value.max == old(vs[j].value.max)
    {
      if maxes[i].Some? && vs[i].Some? {
        var max, velocity := maxes[i].value, vs[i].value;
        if max.x.Some? {
          var m := max.x.value;
          if velocity.x > 0.0 {
            velocity.x := Min(velocity.x, m);
          } else if velocity.x < 0.0 {
            velocity.x := Max(velocity.x, -m);
          }
        }
        if max.y.Some? {
          var m := max.y.value;
          if velocity.y > 0.0 {
            velocity.y := Min(velocity.y, m);
          } else if velocity.y < 0.0 {
            velocity.y := Max(velocity.y, -m);
          }
        }
      }
    }
  }

  /** With a non-negative cap the limited value is within the cap, keeps its sign and does not grow. */
  lemma LimitAxisBounds(v: real, m: real)
    requires m >= 0.0
    ensures Abs(LimitAxis(v, Some(m))) <= m
    ensures Abs(LimitAxis(v, Some(m))) <= Abs(v)
    ensures v > 0.0 ==> LimitAxis(v, Some(m)) >= 0.0
    ensures v < 0.0 ==> LimitAxis(v, Some(m)) <= 0.0
  {
  }

  /** Running the system twice equals running it once, for non-negative caps. */
  lemma LimitIdempotent(v: Vector, max: Option<MaxVelocity>)
    requires max.Some? && max.value.x.Some? ==> max.value.x.value >= 0.0
    requires max.Some? && max.value.y.Some? ==> max.value.y.value >= 0.0
    ensures Limit(Limit(v, max), max) == Limit(v, max)
  {
  }

  /** Axes are independent: the x result depends only on `v.x` and the x cap. */
  lemma LimitAxesIndependent(v: Vector, w: Vector, max: MaxVelocity)
    requires v.0 == w.0
    ensures Limit(v, Some(max)).0 == Limit(w, Some(max)).0
  {
  }

  /**
   * The system agrees with the component's own clamp for a non-negative cap
   * (the component also caps zero, at `min(0, max) == 0`).
   */
  lemma LimitAgreesWithClamp(v: real, m: real)
    requires m >= 0.0
    ensures LimitAxis(v, Some(m)) == ClampAxis(v, m)
  {
  }
}
