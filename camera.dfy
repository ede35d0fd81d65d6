/**
 * `CameraSystem` (src/systems/camera.rs): a camera follows the first player.
 * A camera without an inner size is centred on the player every tick. A camera
 * with an inner size keeps the player inside its inner area: four strips lie
 * between the inner and the outer border, and when the player (a point) is in
 * one of them the camera is snapped so that the player sits on that side's
 * inner border; otherwise an optional velocity drifts the camera towards the
 * player. A camera's transform is its lower-left corner, so its centre is the
 * position plus half its size.
 */
module Camera {
  import opened Wrappers
  import opened Geo
  import opened CollisionRects
  import opened CollisionGrids
  import opened Velocities

  const BASE_SPEED: Vector := (250.0, 250.0)
  const MOVE_IN_PADDING: real := 10.0

  /**
   * `CameraCollisionRects`: the four strips, each paired with the coordinate
   * of the camera centre along the strip's axis (stored but never read).
   */
  datatype CameraCollisionRects = CameraCollisionRects(
    top: (CollisionRect<()>, real),
    bottom: (CollisionRect<()>, real),
    left: (CollisionRect<()>, real),
    right: (CollisionRect<()>, real))

  /**
   * `From<(Index, Vector, Vector, Vector)>`: the strips of a camera centred at
   * `pos`. Each spans the full outer extent along its side and reaches from the
   * outer border to the inner border across it.
   */
  function CameraRects(id: Index, pos: Vector, size: Vector, inner: Vector): (r: CameraCollisionRects)
    ensures r.top.0.id == r.bottom.0.id == r.left.0.id == r.right.0.id == id
    ensures r.top.1 == r.bottom.1 == pos.1 && r.left.1 == r.right.1 == pos.0
    ensures r.top.0.left == r.bottom.0.left == pos.0 - size.0 / 2.0
    ensures r.top.0.right == r.bottom.0.right == pos.0 + size.0 / 2.0
    ensures r.top.0.top == pos.1 + size.1 / 2.0 && r.top.0.bottom == pos.1 + inner.1 / 2.0
    ensures r.bottom.0.top == pos.1 - inner.1 / 2.0 && r.bottom.0.bottom == pos.1 - size.1 / 2.0
    ensures r.left.0.bottom == r.right.0.bottom == pos.1 - size.1 / 2.0
    ensures r.left.0.top == r.right.0.top == pos.1 + size.1 / 2.0
    ensures r.left.0.left == pos.0 - size.0 / 2.0 && r.left.0.right == pos.0 - inner.0 / 2.0
    ensures r.right.0.left == pos.0 + inner.0 / 2.0 && r.right.0.right == pos.0 + size.0 / 2.0
  {
    var sizeX := ((size.0 - inner.0) * 0.5, size.1);
    var sizeY := (size.0, (size.1 - inner.1) * 0.5);
    CameraCollisionRects(
      (New(id, (pos.0, pos.1 + size.1 * 0.5 - sizeY.1 * 0.5), Some(sizeY)), pos.1),
      (New(id, (pos.0, pos.1 - size.1 * 0.5 + sizeY.1 * 0.5), Some(sizeY)), pos.1),
      (New(id, (pos.0 - size.0 * 0.5 + sizeX.0 * 0.5, pos.1), Some(sizeX)), pos.0),
      (New(id, (pos.0 + size.0 * 0.5 - sizeX.0 * 0.5, pos.1), Some(sizeX)), pos.0))
  }

  /** The player's rectangle: a point at its position (its size is not used). */
  function PlayerRect(id: Index, pos: Vector): (r: CollisionRect<()>)
    ensures r.id == id && r.left == r.right == pos.0 && r.bottom == r.top == pos.1
  {
    New(id, pos, None)
  }

  /** `p` lies horizontally within the outer extent of a camera centred at `c` (left edge included). */
  predicate WithinWidth(p: Vector, c: Vector, size: Vector)
  {
    c.0 - size.0 / 2.0 <= p.0 < c.0 + size.0 / 2.0
  }

  /** `p` lies vertically within the outer extent (top edge included). */
  predicate WithinHeight(p: Vector, c: Vector, size: Vector)
  {
    c.1 - size.1 / 2.0 < p.1 <= c.1 + size.1 / 2.0
  }

  /**
   * Where the player hits each strip: the collision test's half-open intervals
   * make the upper inner border belong to the inner area, the lower one to the
   * bottom strip, the left inner border to the inner area and the right one to
   * the right strip. This holds for any sizes.
   */
  lemma StripHits(playerId: Index, p: Vector, camId: Index, c: Vector, size: Vector, inner: Vector)
    ensures var pr, s := PlayerRect(playerId, p), CameraRects(camId, c, size, inner);
      (DoRectsCollide(pr, s.top.0) <==>
        playerId != camId && WithinWidth(p, c, size) && c.1 + inner.1 / 2.0 < p.1 <= c.1 + size.1 / 2.0) &&
      (DoRectsCollide(pr, s.bottom.0) <==>
        playerId != camId && WithinWidth(p, c, size) && c.1 - size.1 / 2.0 < p.1 <= c.1 - inner.1 / 2.0) &&
      (DoRectsCollide(pr, s.left.0) <==>
        playerId != camId && WithinHeight(p, c, size) && c.0 - size.0 / 2.0 <= p.0 < c.0 - inner.0 / 2.0) &&
      (DoRectsCollide(pr, s.right.0) <==>
        playerId != camId && WithinHeight(p, c, size) && c.0 + inner.0 / 2.0 <= p.0 < c.0 + size.0 / 2.0)
  {
    var pr, s := PlayerRect(playerId, p), CameraRects(camId, c, size, inner);
    assert pr.left == pr.right == p.0 && pr.top == pr.bottom == p.1;
  }

  /**
   * One axis of the drift towards the player: none within the padding,
   * otherwise proportional to the offset of the player from the camera centre.
   */
  function Follow(p: real, c: real, v: real, speed: real, dt: real): (r: real)
    ensures Abs(p - c) <= MOVE_IN_PADDING ==> r == 0.0
    ensures Abs(p - c) > MOVE_IN_PADDING ==> r == speed * (p - c) * dt
  {
    var dist := Abs(p - c);
    if dist <= MOVE_IN_PADDING then 0.0
    else if p > c then speed * dist * dt
    else if p < c then -speed * dist * dt
    else v
  }

  /** With a positive speed and time step the drift points from the camera towards the player. */
  lemma FollowPointsAtPlayer(p: real, c: real, v: real, speed: real, dt: real)
    requires speed > 0.0 && dt > 0.0 && Abs(p - c) > MOVE_IN_PADDING
    ensures p > c ==> Follow(p, c, v, speed, dt) > 0.0
    ensures p < c ==> Follow(p, c, v, speed, dt) < 0.0
  {
    var r := Follow(p, c, v, speed, dt);
    if p > c {
      assert speed * (p - c) > 0.0;
    } else if p < c {
      assert speed * (c - p) > 0.0;
      assert r == -(speed * (c - p) * dt);
    }
  }

  /**
   * One camera in one tick: its new position and its new velocity, given the
   * player's id and position, the camera's id, position (lower-left corner),
   * size, optional inner size and optional velocity.
   */
  function CameraStep(playerId: Index, playerPos: Vector, camId: Index, camPos: Vector, size: Vector,
                      inner: Option<Vector>, vel: Option<Vector>, dt: real): (r: (Vector, Option<Vector>))
    ensures inner.None? ==> r.0.0 + size.0 / 2.0 == playerPos.0 && r.0.1 + size.1 / 2.0 == playerPos.1 && r.1 == vel
    ensures inner.Some? ==>
      var c, ins := (camPos.0 + size.0 / 2.0, camPos.1 + size.1 / 2.0), inner.value;
      var pr, s := PlayerRect(playerId, playerPos), CameraRects(camId, c, size, ins);
      var hitTop, hitBottom := DoRectsCollide(pr, s.top.0), DoRectsCollide(pr, s.bottom.0);
      var hitLeft, hitRight := DoRectsCollide(pr, s.left.0), DoRectsCollide(pr, s.right.0);
      (hitTop ==> r.0.1 + size.1 / 2.0 == playerPos.1 - ins.1 / 2.0) &&
      (!hitTop && hitBottom ==> r.0.1 + size.1 / 2.0 == playerPos.1 + ins.1 / 2.0) &&
      (!hitTop && !hitBottom ==> r.0.1 == camPos.1) &&
      (hitLeft ==> r.0.0 + size.0 / 2.0 == playerPos.0 + ins.0 / 2.0) &&
      (!hitLeft && hitRight ==> r.0.0 + size.0 / 2.0 == playerPos.0 - ins.0 / 2.0) &&
      (!hitLeft && !hitRight ==> r.0.0 == camPos.0) &&
      ((hitTop || hitBottom || hitLeft || hitRight || vel.None?) ==> r.1 == vel) &&
      (!(hitTop || hitBottom || hitLeft || hitRight) && vel.Some? ==>
        r.1 == Some((Follow(playerPos.0, c.0, vel.value.0, BASE_SPEED.0, dt),
                     Follow(playerPos.1, c.1, vel.value.1, BASE_SPEED.1, dt))))
  {
    var center := (playerPos.0 - size.0 * 0.5, playerPos.1 - size.1 * 0.5);
    var camCenter := (camPos.0 + size.0 * 0.5, camPos.1 + size.1 * 0.5);
    match inner
    case None => (center, vel)
    case Some(ins) =>
      var pr, s := PlayerRect(playerId, playerPos), CameraRects(camId, camCenter, size, ins);
      var hitTop, hitBottom := DoRectsCollide(pr, s.top.0), DoRectsCollide(pr, s.bottom.0);
      var hitLeft, hitRight := DoRectsCollide(pr, s.left.0), DoRectsCollide(pr, s.right.0);
      var y := if hitTop then center.1 - ins.1 * 0.5
               else if hitBottom then center.1 + ins.1 * 0.5
               else camPos.1;
      var x := if hitLeft then center.0 + ins.0 * 0.5
               else if hitRight then center.0 - ins.0 * 0.5
               else camPos.0;
      var collidingAny := hitTop || hitBottom || hitLeft || hitRight;
      var nv := if vel.Some? && !collidingAny then
                  Some((Follow(playerPos.0, camCenter.0, vel.value.0, BASE_SPEED.0, dt),
                        Follow(playerPos.1, camCenter.1, vel.value.1, BASE_SPEED.1, dt)))
                else vel;
      ((x, y), nv)
  }

  /**
   * After a snap to the top (left) the player sits on the upper (left) inner
   * border, outside the new top (left) strip; after a snap to the bottom (right)
   * it sits on the lower (right) inner border, which still belongs to the
   * bottom (right) strip, so that snap repeats on the next tick.
   */
  lemma SnapPlacesPlayerOnInnerBorder(playerId: Index, p: Vector, camId: Index, camPos: Vector,
                                      size: Vector, ins: Vector, dt: real)
    requires playerId != camId && 0.0 < ins.0 < size.0 && 0.0 < ins.1 < size.1
    ensures var c := (camPos.0 + size.0 / 2.0, camPos.1 + size.1 / 2.0);
      var r := CameraStep(playerId, p, camId, camPos, size, Some(ins), None, dt);
      var c' := (r.0.0 + size.0 / 2.0, r.0.1 + size.1 / 2.0);
      var pr, s, s' := PlayerRect(playerId, p), CameraRects(camId, c, size, ins), CameraRects(camId, c', size, ins);
      (DoRectsCollide(pr, s.top.0) ==> !DoRectsCollide(pr, s'.top.0) && !DoRectsCollide(pr, s'.bottom.0)) &&
      (DoRectsCollide(pr, s.left.0) ==> !DoRectsCollide(pr, s'.left.0) && !DoRectsCollide(pr, s'.right.0)) &&
      (!DoRectsCollide(pr, s.top.0) && DoRectsCollide(pr, s.bottom.0) && WithinWidth(p, c', size) ==>
        DoRectsCollide(pr, s'.bottom.0)) &&
      (!DoRectsCollide(pr, s.left.0) && DoRectsCollide(pr, s.right.0) && WithinHeight(p, c', size) ==>
        DoRectsCollide(pr, s'.right.0))
  {
    var c := (camPos.0 + size.0 / 2.0, camPos.1 + size.1 / 2.0);
    var r := CameraStep(playerId, p, camId, camPos, size, Some(ins), None, dt);
    var c' := (r.0.0 + size.0 / 2.0, r.0.1 + size.1 / 2.0);
    StripHits(playerId, p, camId, c, size, ins);
    StripHits(playerId, p, camId, c', size, ins);
  }

  /** The entities the camera loop visits: a camera with a size. */
  predicate IsCamera(isCamera: seq<bool>, sizes: seq<Option<Vector>>, i: int)
  {
    0 <= i < |isCamera| && i < |sizes| && isCamera[i] && sizes[i].Some?
  }

  /** The first player in id order, if any. */
  function FirstPlayer(isPlayer: seq<bool>): (r: Option<Index>)
    ensures r.None? <==> forall i :: 0 <= i < |isPlayer| ==> !isPlayer[i]
    ensures r.Some? ==> r.value < |isPlayer| && isPlayer[r.value]
    ensures r.Some? ==> forall i :: 0 <= i < r.value ==> !isPlayer[i]
    decreases |isPlayer|
  {
    if |isPlayer| == 0 then None
    else if isPlayer[0] then Some(0)
    else
      var rest := FirstPlayer(isPlayer[1..]);
      if rest.None? then None
      else Some(rest.value + 1)
  }

  /** The velocity of entity `i` as an optional value. */
  function VelocityOf(vs: seq<Option<Velocity>>, i: int): Option<Vector>
    requires 0 <= i < |vs|
    reads VelocityObjects(vs)
  {
    if vs[i].Some? then Some(vs[i].value.Value()) else None
  }

  /** Moves one camera and sets its velocity, if it has one, to the result of `CameraStep`. */
  method StepCamera(playerId: Index, playerPos: Vector, camId: Index, size: Vector, inner: Option<Vector>,
                    positions: array<Vector>, velocity: Option<Velocity>, dt: real)
    requires camId < positions.Length
    modifies positions, if velocity.Some? then {velocity.value} else {}
    ensures velocity.Some? ==> velocity.value.max == old(velocity.value.max)
    ensures var vel := if velocity.Some? then Some(old(velocity.value.Value())) else None;
      var r := CameraStep(playerId, playerPos, camId, old(positions[camId]), size, inner, vel, dt);
      positions[..] == old(positions[..])[camId := r.0] &&
      (velocity.Some? ==> velocity.value.Value() == r.1.value)
  {
    var vel := if velocity.Some? then Some(velocity.value.Value()) else None;
    var r := CameraStep(playerId, playerPos, camId, positions[camId], size, inner, vel, dt);
    positions[camId] := r.0;
    if velocity.Some? {
      velocity.value.x, velocity.value.y := r.1.value.0, r.1.value.1;
    }
  }

  /**
   * `CameraSystem::run` over the entities of a world (ids are positions;
   * `positions` holds every entity's transform translation).
   */
  method Run(dt: real, isPlayer: seq<bool>, isCamera: seq<bool>, sizes: seq<Option<Vector>>,
             innerSizes: seq<Option<Vector>>, positions: array<Vector>, vs: seq<Option<Velocity>>)
    requires |isPlayer| == |isCamera| == |sizes| == |innerSizes| == |vs| == positions.Length
    requires DistinctVelocities(vs)
    modifies positions, VelocityObjects(vs)
    ensures forall i :: 0 <= i < |vs| && vs[i].Some? ==> vs[i].value.max == old(vs[i].value.max)
    ensures FirstPlayer(isPlayer).None? ==> positions[..] == old(positions[..])
    ensures FirstPlayer(isPlayer).None? ==>
      forall i :: 0 <= i < |vs| && vs[i].Some? ==> vs[i].value.Value() == old(vs[i].value.Value())
    ensures FirstPlayer(isPlayer).Some? ==>
      var player := FirstPlayer(isPlayer).value;
      forall i :: IsCamera(isCamera, sizes, i) ==>
        var r := CameraStep(player, old(positions[player]), i, old(positions[i]), sizes[i].value,
                            innerSizes[i], old(VelocityOf(vs, i)), dt);
        positions[i] == r.0 && (vs[i].Some? ==> vs[i].value.Value() == r.1.value)
    ensures forall i :: 0 <= i < |vs| && !IsCamera(isCamera, sizes, i) ==>
      positions[i] == old(positions[i]) && (vs[i].Some? ==> vs[i].value.Value() == old(vs[i].value.Value()))
  {
    var first := FirstPlayer(isPlayer);
    if first.None? {
      return;
    }
    var player := first.value;
    var playerPos := positions[player];
    for i := 0 to |vs|
      invariant forall j :: 0 <= j < |vs| && vs[j].Some? ==> vs[j].value.max == old(vs[j].value.max)
      invariant forall j :: 0 <= j < i && IsCamera(isCamera, sizes, j) ==>
        var r := CameraStep(player, playerPos, j, old(positions[j]), sizes[j].value,
                            innerSizes[j], old(VelocityOf(vs, j)), dt);
        positions[j] == r.0 && (vs[j].Some? ==> vs[j].value.Value() == r.1.value)
      invariant forall j :: 0 <= j < |vs| && (i <= j || !IsCamera(isCamera, sizes, j)) ==>
        positions[j] == old(positions[j]) && (vs[j].Some? ==> vs[j].value.Value() == old(vs[j].value.Value()))
    {
      if isCamera[i] && sizes[i].Some? {
        StepCamera(player, playerPos, i, sizes[i].value, innerSizes[i], positions, vs[i], dt);
      }
    }
  }
}
