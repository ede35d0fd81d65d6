/** The `Player` component and its builder (src/components/player.rs). */
module Players {
  import opened Wrappers
  import opened Geo

  type MaxVelocityPair = (Option<real>, Option<real>)

  datatype Player = Player(
    acceleration: Vector,
    runAcceleration: Vector,
    maxVelocity: MaxVelocityPair,
    runMaxVelocity: MaxVelocityPair,
    isJumpButtonDown: bool,
    isRunButtonDown: bool,
    isInAir: bool,
    isOnWall: bool,
    hasDoubleJumped: bool)
  {
    /** `current_acceleration`: the run acceleration while the run button is held. */
    function CurrentAcceleration(): (a: Vector)
      ensures isRunButtonDown ==> a == runAcceleration
      ensures !isRunButtonDown ==> a == acceleration
    {
      if isRunButtonDown then runAcceleration else acceleration
    }

    /** `on_ground`. */
    predicate OnGround()
    {
      !isInAir
    }

    /** `in_air`. */
    predicate InAir()
    {
      isInAir
    }

    /** `on_wall`. */
    predicate OnWall()
    {
      isOnWall
    }

    /** None of the five status and button flags is set. */
    predicate AllFlagsClear()
    {
      !isJumpButtonDown && !isRunButtonDown && !isInAir && !isOnWall && !hasDoubleJumped
    }
  }

  /** `Player::default`. */
  function DefaultPlayer(): (p: Player)
    ensures p.acceleration == (1500.0, 0.0) && p.runAcceleration == (2000.0, 0.0)
    ensures p.maxVelocity == (Some(400.0), None) && p.runMaxVelocity == (Some(800.0), None)
    ensures p.AllFlagsClear()
  {
    Player((1500.0, 0.0), (2000.0, 0.0), (Some(400.0), None), (Some(800.0), None),
      false, false, false, false, false)
  }

  datatype PlayerBuilder = PlayerBuilder(
    acceleration: Option<Vector>,
    runAcceleration: Option<Vector>,
    maxVelocity: Option<MaxVelocityPair>,
    runMaxVelocity: Option<MaxVelocityPair>)
  {
    /** `PlayerBuilder::acceleration`. */
    function WithAcceleration(a: Vector): (b: PlayerBuilder)
      ensures b.acceleration == Some(a)
      ensures b.runAcceleration == runAcceleration && b.maxVelocity == maxVelocity && b.runMaxVelocity == runMaxVelocity
    {
      this.(acceleration := Some(a))
    }

    /** `PlayerBuilder::run_acceleration`. */
    function WithRunAcceleration(a: Vector): (b: PlayerBuilder)
      ensures b.runAcceleration == Some(a)
      ensures b.acceleration == acceleration && b.maxVelocity == maxVelocity && b.runMaxVelocity == runMaxVelocity
    {
      this.(runAcceleration := Some(a))
    }

    /** `PlayerBuilder::max_velocity`. */
    function WithMaxVelocity(m: MaxVelocityPair): (b: PlayerBuilder)
      ensures b.maxVelocity == Some(m)
      ensures b.acceleration == acceleration && b.runAcceleration == runAcceleration && b.runMaxVelocity == runMaxVelocity
    {
      this.(maxVelocity := Some(m))
    }

    /** `PlayerBuilder::run_max_velocity`. */
    function WithRunMaxVelocity(m: MaxVelocityPair): (b: PlayerBuilder)
      ensures b.runMaxVelocity == Some(m)
      ensures b.acceleration == acceleration && b.runAcceleration == runAcceleration && b.maxVelocity == maxVelocity
    {
      this.(runMaxVelocity := Some(m))
    }

    /** `PlayerBuilder::build`: set fields are used, the rest come from `Player::default`. */
    function Build(): (p: Player)
      ensures p.acceleration == acceleration.UnwrapOr(DefaultPlayer().acceleration)
      ensures p.runAcceleration == runAcceleration.UnwrapOr(DefaultPlayer().runAcceleration)
      ensures p.maxVelocity == maxVelocity.UnwrapOr(DefaultPlayer().maxVelocity)
      ensures p.runMaxVelocity == runMaxVelocity.UnwrapOr(DefaultPlayer().runMaxVelocity)
      ensures p.AllFlagsClear()
    {
      var default := DefaultPlayer();
      default.(
        acceleration := acceleration.UnwrapOr(default.acceleration),
        runAcceleration := runAcceleration.UnwrapOr(default.runAcceleration),
        maxVelocity := maxVelocity.UnwrapOr(default.maxVelocity),
        runMaxVelocity := runMaxVelocity.UnwrapOr(default.runMaxVelocity))
    }
  }

  /** `PlayerBuilder::default` (also what `Player::new` returns): nothing set. */
  function NewBuilder(): (b: PlayerBuilder)
    ensures b.acceleration.None? && b.runAcceleration.None? && b.maxVelocity.None? && b.runMaxVelocity.None?
  {
    PlayerBuilder(None, None, None, None)
  }

  /** Building an untouched builder gives the default player. */
  lemma EmptyBuildIsDefault()
    ensures NewBuilder().Build() == DefaultPlayer()
  {
  }

  /** A setter's argument reaches the built player; the other fields keep their defaults. */
  lemma SetterReachesBuild(a: Vector, m: MaxVelocityPair)
    ensures NewBuilder().WithAcceleration(a).Build() == DefaultPlayer().(acceleration := a)
    ensures NewBuilder().WithRunAcceleration(a).Build() == DefaultPlayer().(runAcceleration := a)
    ensures NewBuilder().WithMaxVelocity(m).Build() == DefaultPlayer().(maxVelocity := m)
    ensures NewBuilder().WithRunMaxVelocity(m).Build() == DefaultPlayer().(runMaxVelocity := m)
  {
  }

  /** `on_ground` is the negation of `in_air`. */
  lemma OnGroundIsNotInAir(p: Player)
    ensures p.OnGround() == !p.InAir()
    ensures p.OnWall() == p.isOnWall
  {
  }
}
