/**
 * `ControlPlayerSystem` (src/systems/control_player.rs): the horizontal input
 * axis accelerates the player, and the jump action adds the jump strength once
 * per press. The input handler and the settings are parameters: `xAxis` is the
 * value of the "player_x" axis and `jump` that of the "player_jump" action
 * (`None` when the binding is unknown). The per-player horizontal speed that
 * the system reads (`player.speed.0`) is not a field of `Player`; it is a
 * per-entity parameter `speedX`.
 */
module ControlPlayer {
  import opened Wrappers
  import opened Geo
  import opened Velocities
  import opened DecreaseVelocities
  import opened Players

  /**
   * The horizontal part of one tick: a non-zero axis value accelerates the
   * velocity by `speed * dt` towards its sign and stops the decrease in that
   * direction only; no input, or a zero value, changes nothing.
   */
  function MoveX(vx: real, decr: Option<DecreaseVelocity>, xAxis: Option<real>, speed: real, dt: real)
    : (r: (real, Option<DecreaseVelocity>))
    ensures xAxis.None? || xAxis.value == 0.0 ==> r.0 == vx && r.1 == decr
    ensures xAxis.Some? && xAxis.value > 0.0 ==> r.0 == vx + speed * dt
    ensures xAxis.Some? && xAxis.value < 0.0 ==> r.0 == vx - speed * dt
    ensures r.1.Some? <==> decr.Some?
    ensures decr.Some? && xAxis.Some? && xAxis.value > 0.0 ==>
      r.1 == Some(decr.value.(shouldDecreaseXPos := false))
    ensures decr.Some? && xAxis.Some? && xAxis.value < 0.0 ==>
      r.1 == Some(decr.value.(shouldDecreaseXNeg := false))
  {
    if xAxis.Some? && xAxis.value != 0.0 then
      var x := xAxis.value;
      var nx := vx + (speed * dt) * Signum(x);
      var nd := if decr.None? then decr
                else if x > 0.0 then Some(decr.value.(shouldDecreaseXPos := false))
                else Some(decr.value.(shouldDecreaseXNeg := false));
      (nx, nd)
    else
      (vx, decr)
  }

  /**
   * The jump part of one tick: the strength is added only on a press, i.e. when
   * the action is down now and was not down before; a known action state is
   * remembered, an unknown one changes nothing.
   */
  function Jump(p: Player, vy: real, jump: Option<bool>, strength: real): (r: (Player, real))
    ensures jump.None? ==> r.0 == p && r.1 == vy
    ensures jump.Some? ==> r.0 == p.(isJumpButtonDown := jump.value)
    ensures jump == Some(true) && !p.isJumpButtonDown ==> r.1 == vy + strength
    ensures !(jump == Some(true) && !p.isJumpButtonDown) ==> r.1 == vy
  {
    match jump
    case None => (p, vy)
    case Some(isDown) =>
      var nvy := if isDown && !p.isJumpButtonDown then vy + strength else vy;
      (p.(isJumpButtonDown := isDown), nvy)
  }

  /** The player and vertical velocity after a sequence of ticks with the given jump states. */
  function JumpTicks(p: Player, vy: real, jumps: seq<Option<bool>>, strength: real): (Player, real)
    decreases |jumps|
  {
    if |jumps| == 0 then (p, vy)
    else
      var r := Jump(p, vy, jumps[0], strength);
      JumpTicks(r.0, r.1, jumps[1..], strength)
  }

  /** The number of presses in a sequence of action states, starting from `down`. */
  function Presses(down: bool, jumps: seq<Option<bool>>): (n: nat)
    ensures n <= |jumps|
    decreases |jumps|
  {
    if |jumps| == 0 then 0
    else
      var pressed := if jumps[0] == Some(true) && !down then 1 else 0;
      var next := if jumps[0].Some? then jumps[0].value else down;
      pressed + Presses(next, jumps[1..])
  }

  /** `s` added up `n` times. */
  function Repeat(n: nat, s: real): real
  {
    if n == 0 then 0.0 else s + Repeat(n - 1, s)
  }

  /** Adding `s` up `n` times is multiplying it by `n`. */
  lemma {:induction false} RepeatIsProduct(n: nat, s: real)
    ensures Repeat(n, s) == s * (n as real)
  {
    if n > 0 {
      RepeatIsProduct(n - 1, s);
    }
  }

  /** The vertical velocity after a run of ticks is the start plus one strength per press, added up. */
  lemma {:induction false} JumpTicksAddRepeated(p: Player, vy: real, jumps: seq<Option<bool>>, strength: real)
    ensures JumpTicks(p, vy, jumps, strength).1 == vy + Repeat(Presses(p.isJumpButtonDown, jumps), strength)
    decreases |jumps|
  {
    if |jumps| > 0 {
      var first := Jump(p, vy, jumps[0], strength);
      JumpTicksAddRepeated(first.0, first.1, jumps[1..], strength);
    }
  }

  /**
   * Over any run of ticks the vertical velocity gains the jump strength exactly
   * once per press, however long the button is held.
   */
  lemma JumpTicksAddOncePerPress(p: Player, vy: real, jumps: seq<Option<bool>>, strength: real)
    ensures JumpTicks(p, vy, jumps, strength).1 == vy + strength * (Presses(p.isJumpButtonDown, jumps) as real)
  {
    JumpTicksAddRepeated(p, vy, jumps, strength);
    RepeatIsProduct(Presses(p.isJumpButtonDown, jumps), strength);
  }

  /** Holding the jump button down from a released state counts as a single press. */
  lemma {:induction false} HeldJumpIsOnePress(down: bool, k: nat)
    requires k > 0
    ensures Presses(down, seq(k, _ => Some(true))) == if down then 0 else 1
    decreases k
  {
    var held := seq(k, _ => Some(true));
    assert held[1..] == seq(k - 1, _ => Some(true));
    if k > 1 {
      HeldJumpIsOnePress(true, k - 1);
    }
  }

  /** The entities the system's join visits: a player with a velocity and a collision. */
  predicate Joined(players: seq<Option<Player>>, vs: seq<Option<Velocity>>, hasCollision: seq<bool>, i: int)
  {
    0 <= i < |players| && i < |vs| && i < |hasCollision| && players[i].Some? && vs[i].Some? && hasCollision[i]
  }

  /** `ControlPlayerSystem::run` over the entities of a world (ids are positions). */
  method Run(dt: real, xAxis: Option<real>, jump: Option<bool>, jumpStrength: real,
             speedX: seq<real>, hasCollision: seq<bool>, players: array<Option<Player>>,
             vs: seq<Option<Velocity>>, decrs: array<Option<DecreaseVelocity>>)
    requires players.Length == |vs| == decrs.Length == |speedX| == |hasCollision|
    requires DistinctVelocities(vs)
    modifies players, decrs, VelocityObjects(vs)
    ensures forall i :: 0 <= i < |vs| && vs[i].Some? ==> vs[i].value.max == old(vs[i].value.max)
    ensures forall i :: Joined(old(players[..]), vs, hasCollision, i) ==>
      var mx := MoveX(old(vs[i].value.x), old(decrs[i]), xAxis, speedX[i], dt);
      var jp := Jump(old(players[i]).value, old(vs[i].value.y), jump, jumpStrength);
      vs[i].value.Value() == (mx.0, jp.1) && players[i] == Some(jp.0) && decrs[i] == mx.1
    ensures forall i :: 0 <= i < |vs| && !Joined(old(players[..]), vs, hasCollision, i) ==>
      players[i] == old(players[i]) && decrs[i] == old(decrs[i]) &&
      (vs[i].Some? ==> vs[i].value.Value() == old(vs[i].value.Value()))
  {
    for i := 0 to |vs|
      invariant forall j :: 0 <= j < |vs| && vs[j].Some? ==> vs[j].value.max == old(vs[j].value.max)
      invariant forall j :: 0 <= j < i && Joined(old(players[..]), vs, hasCollision, j) ==>
        var mx := MoveX(old(vs[j].value.x), old(decrs[j]), xAxis, speedX[j], dt);
        var jp := Jump(old(players[j]).value, old(vs[j].value.y), jump, jumpStrength);
        vs[j].value.Value() == (mx.0, jp.1) && players[j] == Some(jp.0) && decrs[j] == mx.1
      invariant forall j :: 0 <= j < |vs| && !(j < i && Joined(old(players[..]), vs, hasCollision, j)) ==>
        players[j] == old(players[j]) && decrs[j] == old(decrs[j]) &&
        (vs[j].Some? ==> vs[j].value.Value() == old(vs[j].value.Value()))
    {
      if players[i].Some? && vs[i].Some? && hasCollision[i] {
        var player, decr := ControlOne(dt, xAxis, jump, jumpStrength, speedX[i], players[i].value, vs[i].value, decrs[i]);
        players[i] := Some(player);
        decrs[i] := decr;
      }
    }
  }

  /** The body of the loop of `run` for one player: its velocity, its jump state and its decrease flags. */
  method ControlOne(dt: real, xAxis: Option<real>, jump: Option<bool>, jumpStrength: real, speed: real,
                    player: Player, velocity: Velocity, decr: Option<DecreaseVelocity>)
    returns (p: Player, d: Option<DecreaseVelocity>)
    modifies velocity
    ensures velocity.max == old(velocity.max)
    ensures var mx := MoveX(old(velocity.x), decr, xAxis, speed, dt);
      var jp := Jump(player, old(velocity.y), jump, jumpStrength);
      velocity.Value() == (mx.0, jp.1) && p == jp.0 && d == mx.1
  {
    var mx := MoveX(velocity.x, decr, xAxis, speed, dt);
    var jp := Jump(player, velocity.y, jump, jumpStrength);
    velocity.x, velocity.y := mx.0, jp.1;
    p, d := jp.0, mx.1;
  }
}
