/**
 * Basic geometry of the game (src/geo/mod.rs, src/geo/axis.rs):
 * a `Vector` is a pair of coordinates, an `Axis` is X or Y.
 * `f32` coordinates are modelled as `real`.
 */
module Geo {

  /** `geo::Vector = (f32, f32)`. */
  type Vector = (real, real)

  /** An entity id (`amethyst::ecs::world::Index`). */
  type Index = nat

  datatype Axis = X | Y {

    /** `Axis::is_x`. */
    predicate IsX()
    {
      this == X
    }

    /** `Axis::is_y`. */
    predicate IsY()
    {
      this == Y
    }
  }

  /**
   * `Axis::for_each(iterate)`: the callback is an `FnMut`, so it is modelled
   * as a step function threading its captured state through the two calls.
   */
  function ForEach<S>(iterate: (S, Axis) -> S, state: S): (r: S)
  {
    iterate(iterate(state, X), Y)
  }

  /** Records the order in which `ForEach` hands out the axes. */
  function RecordAxis(trace: seq<Axis>, axis: Axis): seq<Axis>
  {
    trace + [axis]
  }

  /** `for_each` calls its callback with X and then Y, each exactly once. */
  lemma ForEachVisitsXThenY()
    ensures ForEach(RecordAxis, []) == [X, Y]
  {
  }

  /** Exactly one of `is_x` and `is_y` holds, and each tells the axis apart. */
  lemma AxisTestsPartition(a: Axis)
    ensures a.IsX() <==> a == X
    ensures a.IsY() <==> a == Y
    ensures a.IsX() != a.IsY()
  {
  }

  /** `Vector` with `step` added to the coordinate of `axis` only. */
  function Shift(p: Vector, axis: Axis, step: real): (r: Vector)
    ensures axis.IsX() ==> r.0 - p.0 == step && r.1 == p.1
    ensures axis.IsY() ==> r.1 - p.1 == step && r.0 == p.0
  {
    (p.0 + if axis.IsX() then step else 0.0,
     p.1 + if axis.IsY() then step else 0.0)
  }

  /** The coordinate of `p` along `axis`. */
  function Coord(p: Vector, axis: Axis): real
  {
    if axis.IsX() then p.0 else p.1
  }

  /** `f32::abs`. */
  function Abs(v: real): (r: real)
    ensures r >= 0.0 && (r == v || r == -v)
  {
    if v < 0.0 then -v else v
  }

  /** `f32::signum` on a real: 1 for every non-negative value (Rust's `signum(+0.0) == 1.0`). */
  function Signum(v: real): (r: real)
    ensures v >= 0.0 ==> r == 1.0
    ensures v < 0.0 ==> r == -1.0
  {
    if v >= 0.0 then 1.0 else -1.0
  }

  /** Truncation toward zero (`as usize` on a non-negative value, the integer part of `%`). */
  function Trunc(v: real): (r: real)
    ensures Abs(r) <= Abs(v) < Abs(r) + 1.0
    ensures v >= 0.0 ==> r >= 0.0
    ensures v < 0.0 ==> r <= 0.0
  {
    if v >= 0.0 then v.Floor as real else -((-v).Floor as real)
  }

  /** Rust's `f32` remainder `v % 1.0`: keeps the sign of `v`. */
  function FracRem(v: real): (r: real)
    ensures Abs(r) < 1.0
    ensures v >= 0.0 ==> r >= 0.0
    ensures v <= 0.0 ==> r <= 0.0
    ensures v - r == Trunc(v)
  {
    v - Trunc(v)
  }

  /** `f32::min`. */
  function Min(a: real, b: real): (r: real)
    ensures r <= a && r <= b && (r == a || r == b)
  {
    if a <= b then a else b
  }

  /** `f32::max`. */
  function Max(a: real, b: real): (r: real)
    ensures r >= a && r >= b && (r == a || r == b)
  {
    if a >= b then a else b
  }
}
