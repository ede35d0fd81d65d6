/**
 * The `Velocity` component (src/components/velocity.rs): a velocity whose
 * setters clamp both components to an optional maximum.
 */
module Velocities {
  import opened Wrappers
  import opened Geo

  /**
   * One component of `handle_max_velocity`: a value with the sign bit clear
   * (zero included) is capped at `m`, a negative one at `-m`.
   */
  function ClampAxis(v: real, m: real): (r: real)
    ensures m >= 0.0 ==> Abs(r) <= m
    ensures m >= 0.0 ==> Abs(r) <= Abs(v)
    ensures m >= 0.0 ==> (v >= 0.0 ==> r >= 0.0) && (v <= 0.0 ==> r <= 0.0)
    ensures Abs(v) <= m ==> r == v
    ensures m >= 0.0 && Abs(v) > m ==> Abs(r) == m
  {
    if v >= 0.0 then Min(v, m) else Max(v, -m)
  }

  /** Both components after `handle_max_velocity`, given the optional maximum. */
  function Clamp(max: Option<Vector>, v: Vector): (r: Vector)
    ensures max.None? ==> r == v
    ensures max.Some? ==> r == (ClampAxis(v.0, max.value.0), ClampAxis(v.1, max.value.1))
  {
    match max
    case None => v
    case Some(m) => (ClampAxis(v.0, m.0), ClampAxis(v.1, m.1))
  }

  /** Clamping twice is clamping once, for a non-negative maximum. */
  lemma ClampIdempotent(max: Option<Vector>, v: Vector)
    requires max.Some? ==> max.value.0 >= 0.0 && max.value.1 >= 0.0
    ensures Clamp(max, Clamp(max, v)) == Clamp(max, v)
  {
  }

  /** With a non-negative maximum, a clamped velocity stays within it on both axes. */
  lemma ClampWithinMax(m: Vector, v: Vector)
    requires m.0 >= 0.0 && m.1 >= 0.0
    ensures Abs(Clamp(Some(m), v).0) <= m.0 && Abs(Clamp(Some(m), v).1) <= m.1
  {
  }

  class Velocity {
    var x: real
    var y: real
    var max: Option<Vector>

    /** The velocity as a pair. */
    function Value(): Vector
      reads this
    {
      (x, y)
    }

    /** `Velocity::new`: the given components, no maximum. */
    constructor (x: real, y: real)
      ensures Value() == (x, y) && max == None
    {
      this.x, this.y, max := x, y, None;
    }

    /** `Velocity::default`: at rest, no maximum. */
    constructor Default()
      ensures Value() == (0.0, 0.0) && max == None
    {
      x, y, max := 0.0, 0.0, None;
    }

    /** `with_max_velocity`: installs a maximum; the components are not clamped yet. */
    method WithMaxVelocity(m: Vector)
      modifies this
      ensures max == Some(m) && Value() == old(Value())
    {
      max := Some(m);
    }

    /** `set_x`. */
    method SetX(val: real)
      modifies this
      ensures max == old(max)
      ensures Value() == Clamp(max, (val, old(y)))
      ensures old(max).None? ==> Value() == (val, old(y))
    {
      x := val;
      HandleMaxVelocity();
    }

    /** `set_y`. */
    method SetY(val: real)
      modifies this
      ensures max == old(max)
      ensures Value() == Clamp(max, (old(x), val))
      ensures old(max).None? ==> Value() == (old(x), val)
    {
      y := val;
      HandleMaxVelocity();
    }

    /** `incr_x`. */
    method IncrX(incr: real)
      modifies this
      ensures max == old(max)
      ensures Value() == Clamp(max, (old(x) + incr, old(y)))
      ensures old(max).None? ==> Value() == (old(x) + incr, old(y))
    {
      x := x + incr;
      HandleMaxVelocity();
    }

    /** `incr_y`. */
    method IncrY(incr: real)
      modifies this
      ensures max == old(max)
      ensures Value() == Clamp(max, (old(x), old(y) + incr))
      ensures old(max).None? ==> Value() == (old(x), old(y) + incr)
    {
      y := y + incr;
      HandleMaxVelocity();
    }

    /** `handle_max_velocity`: clamps both components in place when a maximum is set. */
    method HandleMaxVelocity()
      modifies this
      ensures max == old(max)
      ensures Value() == Clamp(max, old(Value()))
    {
      if max.Some? {
        var m := max.value;
        if x >= 0.0 {
          x := Min(x, m.0);
        } else {
          x := Max(x, -m.0);
        }
        if y >= 0.0 {
          y := Min(y, m.1);
        } else {
          y := Max(y, -m.1);
        }
      }
    }
  }

  /** A velocity storage: at most one `Velocity` per entity, no object shared. */
  ghost predicate DistinctVelocities(vs: seq<Option<Velocity>>)
  {
    forall i, j :: 0 <= i < |vs| && 0 <= j < |vs| && i != j && vs[i].Some? && vs[j].Some? ==>
      vs[i].value != vs[j].value
  }

  ghost function VelocityObjects(vs: seq<Option<Velocity>>): set<Velocity>
  {
    set i | 0 <= i < |vs| && vs[i].Some? :: vs[i].value
  }

  /** The values held by a velocity storage. */
  function Snapshot(vs: seq<Option<Velocity>>): (r: seq<Option<Vector>>)
    reads VelocityObjects(vs)
    ensures |r| == |vs|
    ensures forall i :: 0 <= i < |vs| ==> r[i].Some? == vs[i].Some?
    ensures forall i :: 0 <= i < |vs| && vs[i].Some? ==> r[i].value == vs[i].value.Value()
  {
    seq(|vs|, i reads VelocityObjects(vs) requires 0 <= i < |vs| =>
      if vs[i].Some? then Some(vs[i].value.Value()) else None)
  }

  /** `set_x` leaves `y` alone when `y` already respects the maximum. */
  lemma SetXKeepsInBoundY(m: Vector, val: real, y: real)
    requires Abs(y) <= m.1
    ensures Clamp(Some(m), (val, y)).1 == y
  {
  }

  /** `set_y` leaves `x` alone when `x` already respects the maximum. */
  lemma SetYKeepsInBoundX(m: Vector, x: real, val: real)
    requires Abs(x) <= m.0
    ensures Clamp(Some(m), (x, val)).0 == x
  {
  }
}
