/**
 * `DecreaseVelocitiesSystem` (src/systems/decrease_velocities.rs): slows each
 * velocity component toward zero without letting it cross zero.
 * The system reads a single flag `should_decrease` that the component in
 * src/components/decrease_velocity.rs does not declare; it is modelled as a
 * per-entity parameter.
 */
module DecreaseVelocitiesSystem {
  import opened Wrappers
  import opened Geo
  import opened Velocities
  import opened DecreaseVelocities

  /**
   * One component: subtract `amount` in the direction of the velocity (a zero
   * velocity is left alone), then reset to zero if the sign flipped.
   */
  function DecreaseAxis(v: real, amount: real): real
  {
    var sign := Signum(v);
    var next := if v != 0.0 then v - amount * sign else v;
    if Signum(next) != sign then 0.0 else next
  }

  /** The velocity of one entity after the system. */
  function Decrease(v: Vector, decr: DecreaseVelocity, shouldDecrease: bool, dt: real): Vector
  {
    if shouldDecrease then (DecreaseAxis(v.0, decr.x * dt), DecreaseAxis(v.1, decr.y * dt)) else v
  }

  /** `DecreaseVelocitiesSystem::run`, over the entities of a world (ids are positions). */
  method Run(dt: real, decrs: seq<Option<DecreaseVelocity>>, shouldDecrease: seq<bool>, vs: seq<Option<Velocity>>)
    requires |decrs| == |shouldDecrease| == |vs|
    requires DistinctVelocities(vs)
    modifies VelocityObjects(vs)
    ensures forall i :: 0 <= i < |vs| && vs[i].Some? ==>
      vs[i].value.max == old(vs[i].value.max) &&
      vs[i].value.Value() ==
        if decrs[i].Some? then Decrease(old(vs[i].value.Value()), decrs[i].value, shouldDecrease[i], dt)
        else old(vs[i].value.Value())
  {
    for i := 0 to |vs|
      invariant forall j :: 0 <= j < i && vs[j].Some? ==>
        vs[j].value.max == old(vs[j].value.max) &&
        vs[j].value.Value() ==
          if decrs[j].Some? then Decrease(old(vs[j].value.Value()), decrs[j].value, shouldDecrease[j], dt)
          else old(vs[j].value.Value())
      invariant forall j :: i <= j < |vs| && vs[j].Some? ==>
        vs[j].value.Value() == old(vs[j].value.Value()) && vs[j].value.max == old(vs[j].value.max)
    {
      if decrs[i].Some? && vs[i].Some? {
        if shouldDecrease[i] {
          DecreaseOne(vs[i].value, decrs[i].value, dt);
        }
      }
    }
  }

  /** The body of the join loop for one entity whose flag is set. */
  method DecreaseOne(velocity: Velocity, decr: DecreaseVelocity, dt: real)
    modifies velocity
    ensures velocity.max == old(velocity.max)
    ensures velocity.Value() == Decrease(old(velocity.Value()), decr, true, dt)
  {
    var x0, y0 := velocity.x, velocity.y;
    var signx := Signum(velocity.x);
    var signy := Signum(velocity.y);
    // X
    if velocity.x != 0.0 {
      velocity.x := velocity.x - (decr.x * dt) * signx;
    }
    if Signum(velocity.x) != signx {
      velocity.x := 0.0;
    }
    assert velocity.x == DecreaseAxis(x0, decr.x * dt);
    // Y
    if velocity.y != 0.0 {
      velocity.y := velocity.y - (decr.y * dt) * signy;
    }
    if Signum(velocity.y) != signy {
      velocity.y := 0.0;
    }
    assert velocity.y == DecreaseAxis(y0, decr.y * dt);
    DecreaseFlagAndAxes((x0, y0), (x0, y0), decr, dt);
  }

  /** Closed form: a non-zero component loses `amount` of magnitude if it has more, else stops. */
  lemma DecreaseAxisClosedForm(v: real, amount: real)
    ensures v == 0.0 ==> DecreaseAxis(v, amount) == 0.0
    ensures v != 0.0 && Abs(v) > amount ==> DecreaseAxis(v, amount) == v - amount * Signum(v)
    ensures v != 0.0 && Abs(v) <= amount ==> DecreaseAxis(v, amount) == 0.0
  {
  }

  /** A component never changes sign, and with a non-negative amount never grows. */
  lemma DecreaseAxisNeverCrossesZero(v: real, amount: real)
    ensures v >= 0.0 ==> DecreaseAxis(v, amount) >= 0.0
    ensures v <= 0.0 ==> DecreaseAxis(v, amount) <= 0.0
    ensures amount >= 0.0 ==> Abs(DecreaseAxis(v, amount)) <= Abs(v)
  {
  }

  /**
   * With the flag off the velocity is unchanged; with it set, each axis is
   * decreased by its own amount, independently of the other axis.
   */
  lemma DecreaseFlagAndAxes(v: Vector, w: Vector, decr: DecreaseVelocity, dt: real)
    ensures Decrease(v, decr, false, dt) == v
    ensures Decrease(v, decr, true, dt).0 == DecreaseAxis(v.0, decr.x * dt)
    ensures Decrease(v, decr, true, dt).1 == DecreaseAxis(v.1, decr.y * dt)
    ensures v.0 == w.0 ==> Decrease(v, decr, true, dt).0 == Decrease(w, decr, true, dt).0
    ensures v.1 == w.1 ==> Decrease(v, decr, true, dt).1 == Decrease(w, decr, true, dt).1
  {
  }
}
