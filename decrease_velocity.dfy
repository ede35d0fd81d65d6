/**
 * The `DecreaseVelocity` component (src/components/decrease_velocity.rs): how
 * fast each axis slows down, and four direction flags.
 */
module DecreaseVelocities {

  datatype DecreaseVelocity = DecreaseVelocity(
    x: real,
    y: real,
    shouldDecreaseXPos: bool,
    shouldDecreaseXNeg: bool,
    shouldDecreaseYPos: bool,
    shouldDecreaseYNeg: bool)
  {
    /** All four direction flags are set. */
    predicate AllFlagsSet()
    {
      shouldDecreaseXPos && shouldDecreaseXNeg && shouldDecreaseYPos && shouldDecreaseYNeg
    }
  }

  /** `DecreaseVelocity::new`: the given amounts, every direction decreasing. */
  function New(x: real, y: real): (r: DecreaseVelocity)
    ensures r.x == x && r.y == y && r.AllFlagsSet()
  {
    DecreaseVelocity(x, y, true, true, true, true)
  }

  /** `From<(f32, f32)>`. */
  function FromPair(data: (real, real)): (r: DecreaseVelocity)
    ensures r.x == data.0 && r.y == data.1 && r.AllFlagsSet()
  {
    New(data.0, data.1)
  }

  /** `DecreaseVelocity::default`. */
  function Default(): (r: DecreaseVelocity)
    ensures r.x == 0.0 && r.y == 0.0 && r.AllFlagsSet()
  {
    DecreaseVelocity(0.0, 0.0, true, true, true, true)
  }
}
