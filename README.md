# hello-amethyst-platformer: collision, movement and velocity core in Dafny

This project models the gameplay core of a small 2D platformer written in Rust on the
Amethyst ECS engine. It covers the axis-aligned collision rectangles and the grid that answers
overlap queries, in both the generic version and the older non-generic one. It covers the
per-entity collision state machine (`Enter`, `Steady`, `Leave`, removal) and the system that
refreshes it every tick. It covers the movement system, which moves solid entities one axis at
a time in unit steps against a snapshot grid and records "push debts" for pushable obstacles.
It covers the small velocity rules: clamping, limiting, decrease towards zero and gravity. It
covers the player component with its builder, horizontal control and the edge-triggered jump,
and the camera with its dead zone.

How the model is laid out:
- Pure code becomes datatypes, functions and lemmas. This covers geometry, the grid, the
  component constructors, the player builder and the camera strips.
- Code that mutates in place becomes methods with loops:
  - `Velocity` and `Collision` are classes whose methods update their fields;
  - each system's `run` is a method over per-entity sequences, with arrays for the storages it
    writes.
- An entity id is its position in those sequences.
- `f32` values are `real`s.
- Each system method is proved against a specification function, and the game-level
  properties are lemmas about those functions.

## Model

| member | source | states |
|---|---|---|
| Geo.ForEachVisitsXThenY | src/geo/axis.rs:8-14 | `for_each` hands its callback `X` and then `Y`, each exactly once |
| Geo.AxisTestsPartition | src/geo/axis.rs:16-22 | `is_x` holds exactly for `X`, `is_y` exactly for `Y`, and exactly one of them holds |
| Geo.Shift | src/systems/move_entities.rs:232-235 | the step is added to the chosen axis only; the other coordinate is unchanged |
| Geo.FracRem | src/systems/move_entities.rs:126 | `v % 1.0` has magnitude below 1, keeps the sign of `v`, and `v` minus it is `v` truncated |
| CollisionRects.WithCustom | src/geo/collision/collision_rect.rs:24-49 | id and payload are stored unchanged; the rectangle is centred on the position with exactly the size's extents, and is a point when there is no size |
| CollisionRects.New | src/geo/collision/collision_rect.rs:16-22 | the same rectangle with no payload |
| CollisionRects.FromTriple | src/geo/collision/collision_rect.rs:52-56 | the 3-tuple conversion keeps the id, has no payload and is centred with the given size |
| CollisionRects.FromQuad | src/geo/collision/collision_rect.rs:58-64 | the 4-tuple conversion keeps id and payload and is centred with the given size |
| CollisionRects.SizedRectIsOrdered | src/geo/collision/collision_rect.rs:30-38 | with a non-negative size, `left <= right` and `bottom <= top`, the sides equal the size, and the edges are the position plus or minus half the size |
| CollisionRects.NewIsWithCustomNone | src/geo/collision/collision_rect.rs:16-22 | `new` is `with_custom` with no payload |
| CollisionRects.WithCustomDiffersOnlyInCustom | src/geo/collision/collision_rect.rs:24-49 | two `with_custom` results for the same id, position and size differ only in the payload |
| CollisionGrids.NewGrid | src/geo/collision/collision_grid.rs:12-14 | the grid holds exactly the given rectangles |
| CollisionGrids.CollisionGrid.RectById | src/geo/collision/collision_grid.rs:16-18 | none exactly when no rectangle carries the id; otherwise the first rectangle carrying it |
| CollisionGrids.CollisionGrid.CollidesAny | src/geo/collision/collision_grid.rs:20-24 | true exactly when some grid rectangle collides with the target |
| CollisionGrids.CollisionGrid.CollidingWith | src/geo/collision/collision_grid.rs:26-34 | the result holds only colliding grid rectangles, and every colliding grid rectangle is in it |
| CollisionGrids.CollisionGrid.CollidingWithId | src/geo/collision/collision_grid.rs:46-52 | empty for an absent id; otherwise what collides with that id's rectangle, never the id itself |
| CollisionGrids.FromTuples | src/geo/collision/collision_grid.rs:116-124 | one rectangle per tuple, in input order, each with the tuple's id, no payload, centred with the tuple's size |
| CollisionGrids.FromCustomTuples | src/systems/move_entities.rs:78-102 | one rectangle per 4-tuple, in order, keeping id and payload |
| CollisionGrids.SameIdNeverCollides | src/geo/collision/collision_grid.rs:96 | rectangles with the same id never collide |
| CollisionGrids.CollideSymmetric | src/geo/collision/collision_grid.rs:92-113 | the overlap predicate is symmetric |
| CollisionGrids.EdgeTouchingDoesNotCollide | src/geo/collision/collision_grid.rs:97-112 | rectangles with positive extents that only share an edge do not collide |
| CollisionGrids.PointsNeverCollide | src/geo/collision/collision_grid.rs:97-112 | two point rectangles never collide |
| CollisionGrids.CollideIsStrictOverlap | src/geo/collision/collision_grid.rs:96-112 | for positive extents, the predicate holds exactly for strict overlap of both intervals with distinct ids |
| CollisionGrids.CollidesAnyIffColliding | src/geo/collision/collision_grid.rs:20-34 | `collides_any` holds exactly when `colliding_with` is non-empty |
| CollisionGrids.CollidingWithConcat | src/geo/collision/collision_grid.rs:26-34 | `colliding_with` keeps grid order: it distributes over concatenated grids |
| CollisionGrids.CollidingWithSingle | src/geo/collision/collision_grid.rs:26-34 | a single rectangle is kept exactly when it collides |
| CollisionGrids.RectByIdOfDistinct | src/geo/collision/collision_grid.rs:16-18 | with distinct ids, `rect_by_id` of a stored id finds that very rectangle |
| LegacyCollision.New | src/geo/collision.rs:14-36 | the older rectangle is centred on the position with the size's extents, and is a point without a size |
| LegacyCollision.FromTriple | src/geo/collision.rs:39-43 | the conversion keeps the id and centres the rectangle with the given size |
| LegacyCollision.CollisionGrid.CollidesAny | src/geo/collision.rs:72-76 | true exactly when some stored rectangle collides with the target |
| LegacyCollision.FromTuples | src/geo/collision.rs:103-111 | one rectangle per tuple, in order |
| LegacyCollision.NewAgreesWithGeneric | src/geo/collision.rs:14-36 | the older constructor builds the same rectangle as the generic `new` |
| LegacyCollision.CollideAgreesWithGeneric | src/geo/collision.rs:79-100 | the older predicate equals the generic one; same ids never collide; it is symmetric |
| LegacyCollision.CollidesAnyAgreesWithGeneric | src/geo/collision.rs:72-76 | the older `collides_any` answers as the generic one on the same rectangles |
| CollisionState.Data.Unset | src/components/collision.rs:28-35 | `Leave` becomes staged for removal; every other state becomes `Leave`; the frame flag is kept |
| CollisionState.SetCollision | src/components/collision.rs:72-88 | an absent id is inserted as `Enter`; `Leave` becomes `Enter`, any other state `Steady`; the flag is set; other entries are unchanged |
| CollisionState.Age | src/components/collision.rs:93-103 | a flagged entry keeps its state and loses the flag; an unflagged one is `unset` |
| CollisionState.Updated | src/components/collision.rs:90-108 | no id is added; flags are cleared; flagged entries keep their state; unflagged `Enter` and `Steady` become `Leave`; unflagged `Leave` is removed |
| CollisionState.SetCollisionKeepsNoStale | src/components/collision.rs:72-88 | `set_collision_with` never stores a `None` state |
| CollisionState.UpdatedHasNoStale | src/components/collision.rs:90-108 | after `update` no stored entry is `None` |
| CollisionState.SetThenThreeUpdates | src/components/collision.rs:72-108 | a set then updates with no further set: `Enter` or `Steady`, then `Leave`, then gone |
| CollisionState.ReCollisionResetsToEnter | src/components/collision.rs:72-81 | a collision during `Leave` restarts the entry as `Enter` |
| CollisionState.Collision.constructor | src/components/collision.rs:46-50 | a new component has no entries |
| CollisionState.Collision.InCollision | src/components/collision.rs:52-54 | true exactly when some entry is stored |
| CollisionState.Collision.CollisionWith | src/components/collision.rs:56-58 | the stored entry for the id, or none |
| CollisionState.Collision.InCollisionWith | src/components/collision.rs:60-69 | true exactly when an entry is stored and its state is not `Leave` |
| CollisionState.Collision.SetCollisionWith | src/components/collision.rs:72-88 | the map becomes `SetCollision` of the old map, and no entry is stale |
| CollisionState.Collision.Update | src/components/collision.rs:90-108 | the two-pass loop leaves exactly `Updated` of the old map |
| CollisionState.Collision.AgeAll | src/components/collision.rs:91-104 | every entry is aged once, and exactly the entries not refreshed this frame whose ageing stages them for removal are listed |
| CollisionState.Collision.RemoveAll | src/components/collision.rs:105-107 | exactly the listed ids are removed |
| CollisionSystem.GridRects | src/systems/collision.rs:41-54 | one rectangle per `Collision` entity, in id order: sized when it has a size, a point otherwise |
| CollisionSystem.SetAll | src/systems/collision.rs:58-60 | marking a list of ids adds exactly those ids and leaves every other entry alone |
| CollisionSystem.Run | src/systems/collision.rs:41-63 | each `Collision` entity's map becomes its old map marked with every id its rectangle overlaps, then updated once |
| CollisionSystem.MarkAll | src/systems/collision.rs:58-60 | the inner loop marks every colliding id, in order |
| CollisionSystem.TickAll | src/systems/collision.rs:56-63 | every `Collision` entity's map becomes its old map marked with every id its rectangle overlaps, then updated once, and no other object changes |
| CollisionSystem.TickOne | src/systems/collision.rs:56-62 | one entity's map becomes its old map marked with every id its rectangle overlaps, then updated once |
| CollisionSystem.TickGridRectById | src/systems/collision.rs:41-54 | the grid finds a `Collision` entity's own rectangle by its id, and nothing for other entities |
| CollisionSystem.SetAllMarks | src/systems/collision.rs:58-60 | every marked id ends flagged and in `Enter` or `Steady` |
| CollisionSystem.OverlapIsFound | src/systems/collision.rs:57 | entity `i` marks `o` exactly when their rectangles collide |
| CollisionSystem.TickNeverRecordsSelf | src/systems/collision.rs:56-63 | no entity ever records a collision with itself |
| CollisionSystem.OverlapIsInCollisionAfterTick | src/systems/collision.rs:56-63 | after a tick an entity is in collision with every entity overlapping it |
| CollisionSystem.RecordingIsMutual | src/systems/collision.rs:56-62 | `i` marks `o` this tick exactly when `o` marks `i` |
| Velocities.ClampAxis | src/components/velocity.rs:38-51 | with a non-negative maximum, the result is within it, no larger in magnitude and of the same sign; in-bound values are kept |
| Velocities.Clamp | src/components/velocity.rs:38-51 | no maximum keeps the velocity; otherwise each axis is clamped by its own maximum |
| Velocities.ClampIdempotent | src/components/velocity.rs:38-51 | for non-negative maxima, clamping twice is clamping once |
| Velocities.ClampWithinMax | src/components/velocity.rs:38-51 | after clamping, `abs(x) <= mx` and `abs(y) <= my` |
| Velocities.SetXKeepsInBoundY | src/components/velocity.rs:20-23 | `set_x` leaves an in-bound `y` unchanged |
| Velocities.SetYKeepsInBoundX | src/components/velocity.rs:24-27 | `set_y` leaves an in-bound `x` unchanged |
| Velocities.Velocity.constructor | src/components/velocity.rs:11-13 | `new(x, y)` stores `x` and `y` with no maximum |
| Velocities.Velocity.Default | src/components/velocity.rs:58-66 | the default is `(0, 0)` with no maximum |
| Velocities.Velocity.WithMaxVelocity | src/components/velocity.rs:15-18 | installs the maximum and leaves the components alone |
| Velocities.Velocity.SetX | src/components/velocity.rs:20-23 | the new value is the clamp of `(val, y)`; with no maximum it is exactly `(val, y)` |
| Velocities.Velocity.SetY | src/components/velocity.rs:24-27 | the new value is the clamp of `(x, val)`; with no maximum it is exactly `(x, val)` |
| Velocities.Velocity.IncrX | src/components/velocity.rs:29-32 | the new value is the clamp of `(x + incr, y)`; with no maximum the increment is added exactly |
| Velocities.Velocity.IncrY | src/components/velocity.rs:33-36 | the new value is the clamp of `(x, y + incr)`; with no maximum the increment is added exactly |
| Velocities.Velocity.HandleMaxVelocity | src/components/velocity.rs:38-51 | the in-place clamp leaves exactly `Clamp` of the old value |
| MaxVelocities.WithXY | src/components/max_velocity.rs:9-14 | both axes capped |
| MaxVelocities.WithX | src/components/max_velocity.rs:15-20 | only x capped |
| MaxVelocities.WithY | src/components/max_velocity.rs:21-26 | only y capped |
| MaxVelocities.FromPair | src/components/max_velocity.rs:33-37 | both values become caps |
| MaxVelocities.FromOptions | src/components/max_velocity.rs:39-46 | both options are passed through |
| DecreaseVelocities.New | src/components/decrease_velocity.rs:22-31 | stores the amounts with all four direction flags set |
| DecreaseVelocities.FromPair | src/components/decrease_velocity.rs:38-42 | the pair's amounts, all flags set |
| DecreaseVelocities.Default | src/components/decrease_velocity.rs:44-55 | zero amounts, all flags set |
| LimitVelocities.LimitAxis | src/systems/limit_velocities.rs:11-24 | positive values become `min(v, max)`, negative ones `max(v, -max)`; zero and uncapped values are unchanged |
| LimitVelocities.Run | src/systems/limit_velocities.rs:9-26 | every velocity becomes `Limit` of its old value under its entity's `MaxVelocity`; entities without one are unchanged |
| LimitVelocities.LimitAxisBounds | src/systems/limit_velocities.rs:11-24 | with a non-negative cap the result is within the cap, keeps its sign and does not grow |
| LimitVelocities.LimitIdempotent | src/systems/limit_velocities.rs:10-25 | for non-negative caps, running the system twice equals running it once |
| LimitVelocities.LimitAxesIndependent | src/systems/limit_velocities.rs:11-24 | the x result depends only on `velocity.x` and the x cap |
| LimitVelocities.LimitAgreesWithClamp | src/systems/limit_velocities.rs:11-17 | for a non-negative cap the system's rule equals the component's own clamp |
| DecreaseVelocitiesSystem.Run | src/systems/decrease_velocities.rs:12-40 | every velocity with a `DecreaseVelocity` becomes `Decrease` of its old value; the others are unchanged |
| DecreaseVelocitiesSystem.DecreaseOne | src/systems/decrease_velocities.rs:19-38 | the loop body leaves exactly the decreased value |
| DecreaseVelocitiesSystem.DecreaseAxisClosedForm | src/systems/decrease_velocities.rs:20-29 | zero stays zero; if `abs(v) > amount` the result is `v - amount * sign(v)`, otherwise 0 |
| DecreaseVelocitiesSystem.DecreaseAxisNeverCrossesZero | src/systems/decrease_velocities.rs:24-29 | a component never changes sign and, for a non-negative amount, never grows |
| DecreaseVelocitiesSystem.DecreaseFlagAndAxes | src/systems/decrease_velocities.rs:19-37 | with the flag off the velocity is unchanged; with it set each axis is decreased by its own amount times `dt`, independently of the other axis |
| GravitySystem.GravityAxis | src/systems/gravity.rs:22-33 | non-zero gravity adds `g * dt` and clears the decrease flag; zero gravity keeps the velocity and sets the flag |
| GravitySystem.Run | src/systems/gravity.rs:13-35 | entities with gravity, velocity and decrease together get `GravityAxis` on both axes; the others are unchanged |
| GravitySystem.Accelerate | src/systems/gravity.rs:22-33 | one entity's velocity gets `GravityAxis` on both axes, its maximum is kept, and the returned flags are the two axes' flags |
| GravitySystem.DecreaseFlagIffNoGravity | src/systems/gravity.rs:22-33 | an axis's decrease flag is set exactly when its gravity is zero, and then the velocity is unchanged |
| Players.Player.CurrentAcceleration | src/components/player.rs:22-28 | the run acceleration exactly when the run button is down, else the acceleration |
| Players.OnGroundIsNotInAir | src/components/player.rs:30-40 | `on_ground` is `!in_air`, and `on_wall` is `is_on_wall` |
| Players.DefaultPlayer | src/components/player.rs:108-122 | the default accelerations and maxima, and all five flags false |
| Players.PlayerBuilder.WithAcceleration | src/components/player.rs:51-54 | records exactly its argument and touches no other field |
| Players.PlayerBuilder.WithRunAcceleration | src/components/player.rs:56-59 | records exactly its argument and touches no other field |
| Players.PlayerBuilder.WithMaxVelocity | src/components/player.rs:61-67 | records exactly its argument and touches no other field |
| Players.PlayerBuilder.WithRunMaxVelocity | src/components/player.rs:69-75 | records exactly its argument and touches no other field |
| Players.PlayerBuilder.Build | src/components/player.rs:77-90 | set fields are used, unset ones come from the default player, and all flags are false |
| Players.NewBuilder | src/components/player.rs:93-102 | a new builder has nothing set |
| Players.EmptyBuildIsDefault | src/components/player.rs:17-20 | building an untouched builder gives the default player |
| Players.SetterReachesBuild | src/components/player.rs:51-90 | a setter's argument reaches the built player and the other fields keep their defaults |
| ControlPlayer.MoveX | src/systems/control_player.rs:40-51 | a non-zero axis value adds `speed * dt` in its direction and clears only that direction's decrease flag; no value or zero changes nothing |
| ControlPlayer.Jump | src/systems/control_player.rs:54-59 | the strength is added only on a press (down now, not down before); a known state is remembered, an unknown one changes nothing |
| ControlPlayer.JumpTicksAddRepeated | src/systems/control_player.rs:54-59 | over any run of ticks the vertical velocity is its start plus the strength added once per press |
| ControlPlayer.JumpTicksAddOncePerPress | src/systems/control_player.rs:54-59 | over any run of ticks the vertical velocity gains the strength exactly once per press |
| ControlPlayer.HeldJumpIsOnePress | src/systems/control_player.rs:54-59 | holding the button over consecutive ticks counts as a single press |
| ControlPlayer.ControlOne | src/systems/control_player.rs:39-59 | one player's velocity gets `MoveX` horizontally and `Jump` vertically, keeping its maximum, and the new player and decrease component are those of `Jump` and `MoveX` |
| ControlPlayer.Run | src/systems/control_player.rs:31-59 | each joined entity gets `MoveX` and `Jump`; all other entities are unchanged |
| Camera.CameraRects | src/systems/camera.rs:164-205 | the four strips span the full outer extent along their side and reach from the outer to the inner border |
| Camera.PlayerRect | src/systems/camera.rs:82-85 | the player is a point rectangle at its position |
| Camera.StripHits | src/systems/camera.rs:96-122 | which strip the player point hits, as intervals between inner and outer borders |
| Camera.Follow | src/systems/camera.rs:128-145 | no drift within the padding; otherwise `250 * (player - centre) * dt` |
| Camera.FollowPointsAtPlayer | src/systems/camera.rs:132-145 | the drift points from the camera centre towards the player |
| Camera.CameraStep | src/systems/camera.rs:74-151 | without an inner size the camera is centred on the player; otherwise at most one snap per axis, and the follow velocity only when nothing is hit |
| Camera.SnapPlacesPlayerOnInnerBorder | src/systems/camera.rs:96-122 | after a top or left snap the player sits on the inner border outside both strips; a bottom or right snap leaves the player in that strip |
| Camera.FirstPlayer | src/systems/camera.rs:39-54 | the lowest id of a player, or none when there is no player |
| Camera.StepCamera | src/systems/camera.rs:74-151 | one camera's position and velocity become the result of `CameraStep` |
| Camera.Run | src/systems/camera.rs:37-153 | nothing changes without a player; otherwise every sized camera takes `CameraStep` towards the first player and nothing else changes |
| MoveEntities.RectAt | src/systems/move_entities.rs:237-244 | the entity's rectangle is centred on the candidate position with its size and has no payload |
| MoveEntities.NewRectAndPosition | src/systems/move_entities.rs:223-245 | the new position is the old one shifted by the step along the axis only, and the rectangle is at the new position |
| MoveEntities.AddOne | src/systems/move_entities.rs:154-160 | the id's entry, created at `(0, 0)` if missing, moves by `sign` along the axis; other entries are unchanged |
| MoveEntities.AddDebtEntries | src/systems/move_entities.rs:153-161 | pushing creates entries for exactly the colliding ids and leaves other entries alone |
| MoveEntities.AddDebtKeepsOtherAxis | src/systems/move_entities.rs:157-160 | pushing along one axis leaves every debt's other coordinate alone |
| MoveEntities.AddDebtSingle | src/systems/move_entities.rs:153-161 | one push adds `sign` to the pushed entity's debt along the axis |
| MoveEntities.PushAll | src/systems/move_entities.rs:153-161 | the debt loop leaves exactly `AddDebt` |
| MoveEntities.Try | src/systems/move_entities.rs:130-169 | a step is taken exactly when nothing collides; a pusher blocked only by pushables pushes them; anything else is blocked |
| MoveEntities.UnitCount | src/systems/move_entities.rs:124 | `abs` is the whole number of units in the distance |
| MoveEntities.StepSign | src/systems/move_entities.rs:125 | the unit step is +1, -1, or 0 for a zero distance |
| MoveEntities.UnitsAndRemainder | src/systems/move_entities.rs:124-126 | the whole units times the sign, plus the remainder, make up the distance |
| MoveEntities.AsWrittenAttempts | src/systems/move_entities.rs:129 | the loop as written makes one attempt more than there are whole units |
| MoveEntities.IntendedAttempts | src/systems/move_entities.rs:129 | one attempt per whole unit of the distance |
| MoveEntities.MoveAxis | src/systems/move_entities.rs:120-205 | the unit loop with its early exit, then the remainder step, leave exactly `AxisMove` |
| MoveEntities.SweepEndsFreeOrStill | src/systems/move_entities.rs:129-170 | the unit loop ends where the entity started or on a spot that collides with nothing |
| MoveEntities.AxisMoveEndsFreeOrStill | src/systems/move_entities.rs:137-140 | the same holds after the remainder step: a position is committed only if it collides with nothing |
| MoveEntities.SweepKeepsOtherAxis | src/systems/move_entities.rs:129-170 | the unit loop leaves the other coordinate alone |
| MoveEntities.AxisMoveKeepsOtherAxis | src/systems/move_entities.rs:232-235 | moving along one axis leaves the other coordinate alone |
| MoveEntities.NonPusherOwesNothing | src/systems/move_entities.rs:145-168 | an entity that is not a pusher records no debt |
| MoveEntities.SweepOfNonPusher | src/systems/move_entities.rs:166-168 | the unit loop of a non-pusher records no debt |
| MoveEntities.PushedArePushable | src/systems/move_entities.rs:146-149 | a push only names rectangles marked pushable in the grid |
| MoveEntities.PushDebtIsForPushables | src/systems/move_entities.rs:146-161 | a push creates debt entries for pushable grid entities only |
| MoveEntities.PushAttemptDebtIsForPushables | src/systems/move_entities.rs:141-161 | a pushing attempt of the unit loop adds debt for pushable grid entities only |
| MoveEntities.SweepDebtIsForPushables | src/systems/move_entities.rs:129-170 | the unit loop creates debt only for pushable grid entities |
| MoveEntities.AxisMoveDebtIsForPushables | src/systems/move_entities.rs:186-202 | the remainder step also creates debt only for pushable grid entities |
| MoveEntities.BlockedPusherOwesPerAttempt | src/systems/move_entities.rs:141-161 | a pusher blocked by a single pushable stays put, and each attempt adds one unit to that entity's debt |
| MoveEntities.SweepOfZeroStaysPut | src/systems/move_entities.rs:125-133 | unit steps of size zero never move the entity |
| MoveEntities.ZeroDistanceStaysPut | src/systems/move_entities.rs:124-126 | a zero distance on an axis leaves the position unchanged, for any number of attempts |
| MoveEntities.FreeSweep | src/systems/move_entities.rs:137-140 | unhindered, `n` attempts move the entity by exactly `n` units and record nothing |
| MoveEntities.FreeAxisMove | src/systems/move_entities.rs:129-183 | unhindered, an axis movement covers its attempts' units plus the remainder |
| MoveEntities.AsWrittenOvershoots | src/systems/move_entities.rs:129 | as written, an unhindered entity with a non-zero distance overshoots it by one whole unit |
| MoveEntities.AsWrittenOvershootExample | src/systems/move_entities.rs:129 | as written, a distance of 0.5 along X in an empty world ends at 1.5 |
| MoveEntities.AsWrittenAxisMove | src/systems/move_entities.rs:124-183 | as written, an unhindered axis movement covers its distance plus one unit step (none for a zero distance) and records nothing |
| MoveEntities.IntendedMovesExactly | src/systems/move_entities.rs:124-183 | with one attempt per whole unit, an unhindered entity covers exactly its distance |
| MoveEntities.MoveEntityIsForEach | src/systems/move_entities.rs:119-206 | for either loop bound, the movement is `for_each` with the closure: along X fully, then along Y from where X ended |
| MoveEntities.MoveSolid | src/systems/move_entities.rs:119-206 | the `for_each` closure as statements, with the loop bound `0 ..= abs` as written, leaves exactly `MoveEntity` with that bound |
| MoveEntities.MoveEntityEndsFreeOrStill | src/systems/move_entities.rs:119-206 | for either loop bound, a solid entity ends its movement where it started or on a spot colliding with nothing |
| MoveEntities.MoveEntityDebtIsForPushables | src/systems/move_entities.rs:119-206 | for either loop bound, moving one entity records debt only for pushable grid entities |
| MoveEntities.MoveEntityOfNonPusher | src/systems/move_entities.rs:145-168 | for either loop bound, an entity that is not a pusher records no debt |
| MoveEntities.FreeMoveAsWritten | src/systems/move_entities.rs:119-206 | as written, an entity alone in the world moves by its distance plus one unit along each axis with a non-zero distance, and owes nothing |
| MoveEntities.FreeMoveIsTranslation | src/systems/move_entities.rs:119-206 | with the corrected bound `0 .. abs`, an entity alone in the world moves by exactly its distance and owes nothing |
| MoveEntities.FreePass | src/systems/move_entities.rs:58-62 | entities with a velocity that are not solid are translated by `velocity * dt`; the others are unchanged |
| MoveEntities.RunWithoutCollision | src/systems/move_entities.rs:51-63 | the positions become `FreePass` of the old positions |
| MoveEntities.SolidData | src/systems/move_entities.rs:78-102 | every tuple belongs to a solid entity and carries its id, position, size and `Some(true)` exactly when pushable |
| MoveEntities.SolidDataIncreasing | src/systems/move_entities.rs:78-102 | the tuples are in strictly increasing id order, so no entity appears twice |
| MoveEntities.SolidDataHasEverySolid | src/systems/move_entities.rs:78-102 | every solid entity has a tuple |
| MoveEntities.SolidDataReadsOnlySolids | src/systems/move_entities.rs:78-102 | the grid depends only on the positions of solid entities |
| MoveEntities.GridIgnoresFreePass | src/systems/move_entities.rs:33-46 | the free pass moves no solid entity, so the grid is that of the tick's start |
| MoveEntities.GridPushablesAreSolidPushables | src/systems/move_entities.rs:83-94 | only solid, pushable entities are marked pushable in the grid |
| MoveEntities.DebtIsForPushables | src/systems/move_entities.rs:108-207 | for either loop bound, after the movement loop every debt names a pushable grid entity |
| MoveEntities.NoPusherNoDebt | src/systems/move_entities.rs:108-207 | for either loop bound, without any pusher the debt stays empty |
| MoveEntities.NonPusherAddsNoDebt | src/systems/move_entities.rs:145-168 | the movement loop's pass for a non-pusher leaves the debt unchanged |
| MoveEntities.SolidPass | src/systems/move_entities.rs:108-207 | entities that are not solid movers keep their position |
| MoveEntities.PayOne | src/systems/move_entities.rs:211-218 | only the pushable entity with the given id is translated by the amount |
| MoveEntities.PayDebts | src/systems/move_entities.rs:209-219 | every pushable entity with a debt is translated by it, in whatever order the map yields; the rest are unchanged |
| MoveEntities.BuildGrid | src/systems/move_entities.rs:78-102 | the grid is `SolidGrid` of the current positions |
| MoveEntities.MoveSolids | src/systems/move_entities.rs:108-207 | the positions become `SolidPass` and the debt `DebtAfter`, both with the loop bound as written |
| MoveEntities.MoveOne | src/systems/move_entities.rs:118-206 | one loop pass moves entity `i` only, with the loop bound as written, and extends the debt by its pushes |
| MoveEntities.RunWithCollision | src/systems/move_entities.rs:65-220 | the positions become `CollisionPass` of the old positions, with the loop bound as written |
| MoveEntities.Run | src/systems/move_entities.rs:20-47 | the positions become `Tick` of the old positions with the loop bound as written: free movers first, then the solid ones |
| MoveEntities.DebtOnlyMovesSolidPushables | src/systems/move_entities.rs:209-219 | for either loop bound, paying debts only moves entities that are solid and pushable |
| MoveEntities.TickMovesFreeEntities | src/systems/move_entities.rs:58-62 | for either loop bound, an entity with a velocity that is not solid moves by exactly `velocity * dt`, whatever is in its way |
| MoveEntities.TickKeepsStillEntities | src/systems/move_entities.rs:20-47 | for either loop bound, an entity without a velocity that cannot be pushed stays put |
| MoveEntities.TickSolidEndsFreeOrStill | src/systems/move_entities.rs:137-140 | for either loop bound, a solid, non-pushable mover ends the tick where it started or clear of every solid entity's start rectangle |
| MoveEntities.TickWithoutPushers | src/systems/move_entities.rs:145-168 | for either loop bound, without pushers the tick is the free pass followed by the solid movement alone |

## Left out

- Engine glue is outside the model: the ECS storages, joins and scheduling, `Time`, the input
  handler and the settings resource.
  - Each system is one sequential call over per-entity sequences, and an entity's id is its
    index.
  - `dt`, the input axis and action values, and the jump strength are parameters.
  - Every entity is assumed to have a transform; only its x and y are modelled, not z.
- `f32` arithmetic is modelled as exact `real` arithmetic.
  - Rounding, NaN, infinities and `-0.0` are not modelled. So `is_sign_positive`,
    `signum(-0.0)` and `as usize` saturation are not modelled; `signum(0.0)` is 1, as for
    `+0.0`.
- Velocities.ClampAxis: the bounds are stated for a non-negative maximum only. A negative
  maximum is accepted, but then only the in-bound case is stated. The same holds for
  Velocities.ClampWithinMax, Velocities.ClampIdempotent, LimitVelocities.LimitAxisBounds and
  LimitVelocities.LimitIdempotent. With a negative maximum neither the clamp nor the limit is
  idempotent (5 with maximum -1 gives -1, and then 1), so the two idempotence lemmas require
  non-negative maxima.
- Fields that the systems use but the shown components do not declare are modelled as
  parameters, without reconciling the versions:
  - `player.speed` (src/systems/control_player.rs:42) is the per-entity parameter `speedX`;
  - `should_decrease` (src/systems/decrease_velocities.rs:19) is a per-entity boolean;
  - `should_decrease_x` and `should_decrease_y` (src/systems/gravity.rs:24-32) are a separate
    per-entity record `DecreaseAxes`.
- The `println!` scan over collisions in src/systems/control_player.rs:61-68 changes no state,
  so it is left out.
- Camera: the player's size (src/systems/camera.rs:48-52) is computed but never used, since
  the player is treated as a point, so it is not modelled.
- HashMap iteration order is not fixed:
  - `Collision::update` is modelled order-independently;
  - the debts in `run_with_collision` are paid one key at a time, in any order.
- The 4-tuple grid conversion is commented out in src/geo/collision/collision_grid.rs:126-136
  but called by src/systems/move_entities.rs:78-102. It is modelled as
  `CollisionGrids.FromCustomTuples`, the conversion that call needs.
- The unit loop's bound is a parameter (`Bound`) of `MoveEntity`, `DebtAfter`, `SolidPass`,
  `CollisionPass` and `Tick`. The system methods (`MoveSolid` up to `Run`) use the bound as
  written, `0 ..= abs`, and the lemmas about the tick hold for either bound. The corrected bound
  of the Findings table is used only by the lemmas that show what it changes
  (`IntendedMovesExactly`, `FreeMoveIsTranslation`).
- MoveEntities.SolidPass states only that non-movers keep their position. Each mover's new
  position is given by `MoveEntity` in its body, and the lemmas above state its properties.
- Two behaviours of the source are modelled as written and are not reported as defects:
  - a push by the remainder step records `sign`, not the remainder
    (src/systems/move_entities.rs:199-200);
  - a pusher blocked by pushables records one unit per remaining attempt
    (`BlockedPusherOwesPerAttempt`).
- Wall-cling, double jump and jump recharge have no behaviour in the code, so they are not
  modelled; the matching `Player` flags are stored only.
- Loading, UI, the game states, sprite scaling and the Tiled export script are not part of
  this model.

## Findings

| source | as written | input that shows it | evidently intended | confidence | as-written member | corrected member |
|---|---|---|---|---|---|---|
| src/systems/move_entities.rs:129 | the unit loop `for _ in 0 ..= abs` makes `abs + 1` unit attempts before the remainder step | velocity times `dt` of 0.5 along X, nothing in the way: one unit step and the 0.5 remainder move the entity 1.5 instead of 0.5 | `for _ in 0 .. abs`: one attempt per whole unit, so that an unhindered entity covers exactly its distance | not executed | MoveEntities.AsWrittenOvershoots | MoveEntities.IntendedMovesExactly |
