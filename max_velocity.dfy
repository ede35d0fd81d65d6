/** The `MaxVelocity` component (src/components/max_velocity.rs): an optional cap per axis. */
module MaxVelocities {
  import opened Wrappers

  datatype MaxVelocity = MaxVelocity(x: Option<real>, y: Option<real>)

  /** `MaxVelocity::with_xy`: both axes capped. */
  function WithXY(x: real, y: real): (r: MaxVelocity)
    ensures r.x == Some(x) && r.y == Some(y)
  {
    MaxVelocity(Some(x), Some(y))
  }

  /** `MaxVelocity::with_x`: only x capped. */
  function WithX(x: real): (r: MaxVelocity)
    ensures r.x == Some(x) && r.y.None?
  {
    MaxVelocity(Some(x), None)
  }

  /** `MaxVelocity::with_y`: only y capped. */
  function WithY(y: real): (r: MaxVelocity)
    ensures r.x.None? && r.y == Some(y)
  {
    MaxVelocity(None, Some(y))
  }

  /** `From<(f32, f32)>`. */
  function FromPair(data: (real, real)): (r: MaxVelocity)
    ensures r.x == Some(data.0) && r.y == Some(data.1)
  {
    WithXY(data.0, data.1)
  }

  /** `From<(Option<f32>, Option<f32>)>`: both options passed through. */
  function FromOptions(data: (Option<real>, Option<real>)): (r: MaxVelocity)
    ensures r.x == data.0 && r.y == data.1
  {
    MaxVelocity(data.0, data.1)
  }
}
