/**
 * `MoveEntitiesSystem` (src/systems/move_entities.rs): entities that are not
 * solid move freely by their velocity; solid entities move one axis at a time,
 * X before Y, in unit steps followed by the fractional remainder, against a
 * grid of all solid entities built once at the start of the tick. A step that
 * would collide is not taken; a pusher whose step is blocked only by pushable
 * entities stays where it is and records a debt of one unit (the step's sign)
 * for each of them, and the debts are paid after every entity has moved.
 */
module MoveEntities {
  import opened Wrappers
  import opened Geo
  import opened CollisionRects
  import opened CollisionGrids

  /** `translate_pushables`: the translation still owed to each pushed entity. */
  type Debt = map<Index, Vector>

  /** A solid entity's rectangle at `pos`. */
  function RectAt(id: Index, pos: Vector, size: Option<Vector>): (r: CollisionRect<bool>)
    ensures r.id == id && r.custom == None && CentredOn(r, pos, size)
  {
    New(id, pos, size)
  }

  /** `new_collision_rect_and_position`: the position one step along `axis`, and the rectangle there. */
  function NewRectAndPosition(id: Index, pos: Vector, size: Option<Vector>, axis: Axis, step: real)
    : (r: (CollisionRect<bool>, Vector))
    ensures Coord(r.1, axis) == Coord(pos, axis) + step
    ensures r.1 == Shift(pos, axis, step)
    ensures r.0 == RectAt(id, r.1, size)
  {
    var newPosition := Shift(pos, axis, step);
    (New(id, newPosition, size), newPosition)
  }

  /** Every rectangle carries the pushable mark (`custom.unwrap_or(false)`). */
  predicate AllPushable(rects: seq<CollisionRect<bool>>)
  {
    forall i :: 0 <= i < |rects| ==> rects[i].custom.UnwrapOr(false)
  }

  /** The entry of `id` in the debt (`or_insert((0.0, 0.0))`), moved by `sign` along `axis`. */
  function AddOne(debt: Debt, id: Index, axis: Axis, sign: real): (r: Debt)
    ensures r.Keys == debt.Keys + {id}
    ensures forall k :: k in debt && k != id ==> r[k] == debt[k]
    ensures r[id] == Shift(if id in debt then debt[id] else (0.0, 0.0), axis, sign)
  {
    var entry := if id in debt then debt[id] else (0.0, 0.0);
    debt[id := Shift(entry, axis, sign)]
  }

  /** The ids of a list of rectangles. */
  function Ids(rects: seq<CollisionRect<bool>>): (s: set<Index>)
    ensures forall i :: 0 <= i < |rects| ==> rects[i].id in s
    ensures forall k :: k in s ==> exists i :: 0 <= i < |rects| && rects[i].id == k
  {
    set i | 0 <= i < |rects| :: rects[i].id
  }

  /** Each colliding rectangle's entry moved by `sign` along `axis`, in order. */
  function AddDebt(debt: Debt, rects: seq<CollisionRect<bool>>, axis: Axis, sign: real): Debt
    decreases |rects|
  {
    if |rects| == 0 then debt
    else AddDebt(AddOne(debt, rects[0].id, axis, sign), rects[1..], axis, sign)
  }

  /** The debt owed to `id` along `axis` (nothing when it has no entry). */
  function DebtOf(debt: Debt, id: Index, axis: Axis): real
  {
    Coord(if id in debt then debt[id] else (0.0, 0.0), axis)
  }

  /** The ids of a non-empty list are its head's id and the ids of its tail. */
  lemma IdsCons(rects: seq<CollisionRect<bool>>)
    requires |rects| > 0
    ensures Ids(rects) == {rects[0].id} + Ids(rects[1..])
  {
    forall k | k in Ids(rects[1..]) ensures k in Ids(rects) {
      var i :| 0 <= i < |rects[1..]| && rects[1..][i].id == k;
      assert rects[i + 1].id == k;
    }
    forall k | k in Ids(rects) ensures k in {rects[0].id} + Ids(rects[1..]) {
      var i :| 0 <= i < |rects| && rects[i].id == k;
      if i > 0 {
        assert rects[1..][i - 1].id == k;
      }
    }
  }

  /** Adding debt creates entries for exactly the colliding ids and leaves the other entries alone. */
  lemma {:induction false} AddDebtEntries(debt: Debt, rects: seq<CollisionRect<bool>>, axis: Axis, sign: real)
    ensures AddDebt(debt, rects, axis, sign).Keys == debt.Keys + Ids(rects)
    ensures forall k :: k in debt && k !in Ids(rects) ==> AddDebt(debt, rects, axis, sign)[k] == debt[k]
    decreases |rects|
  {
    if |rects| > 0 {
      AddDebtEntries(AddOne(debt, rects[0].id, axis, sign), rects[1..], axis, sign);
      IdsCons(rects);
    }
  }

  /** Adding debt along one axis leaves every entry's other coordinate alone. */
  lemma {:induction false} AddDebtKeepsOtherAxis(debt: Debt, rects: seq<CollisionRect<bool>>, axis: Axis,
                                                  sign: real, k: Index, other: Axis)
    requires other != axis
    ensures DebtOf(AddDebt(debt, rects, axis, sign), k, other) == DebtOf(debt, k, other)
    decreases |rects|
  {
    if |rects| > 0 {
      AddDebtKeepsOtherAxis(AddOne(debt, rects[0].id, axis, sign), rects[1..], axis, sign, k, other);
    }
  }

  /** The effect of `PushAll` on the debt of one rectangle pushed alone. */
  lemma AddDebtSingle(debt: Debt, r: CollisionRect<bool>, axis: Axis, sign: real)
    ensures DebtOf(AddDebt(debt, [r], axis, sign), r.id, axis) == DebtOf(debt, r.id, axis) + sign
  {
    assert [r][1..] == [];
  }

  /**
   * The debt loop of one blocked step: each colliding rectangle's entry is
   * created if missing and moved by `sign` along `axis`.
   */
  method PushAll(debt: Debt, rects: seq<CollisionRect<bool>>, axis: Axis, sign: real) returns (d: Debt)
    ensures d == AddDebt(debt, rects, axis, sign)
  {
    d := debt;
    for i := 0 to |rects|
      invariant AddDebt(debt, rects, axis, sign) == AddDebt(d, rects[i..], axis, sign)
    {
      assert rects[i..][1..] == rects[i + 1..];
      var id := rects[i].id;
      var entry := if id in d then d[id] else (0.0, 0.0);
      d := d[id := Shift(entry, axis, sign)];
    }
    assert rects[|rects|..] == [];
  }

  /** The outcome of one attempted step. */
  datatype Attempt = Move(to: Vector) | Push(hits: seq<CollisionRect<bool>>) | Blocked

  /**
   * One attempted step: taken when the new rectangle collides with nothing;
   * otherwise a pusher blocked only by pushables pushes them, and anything
   * else is blocked.
   */
  function Try(grid: CollisionGrid<bool>, id: Index, pos: Vector, size: Option<Vector>, axis: Axis,
               step: real, isPusher: bool): (a: Attempt)
    ensures var hits := grid.CollidingWith(RectAt(id, Shift(pos, axis, step), size));
      (a.Move? <==> hits == []) &&
      (a.Move? ==> a.to == Shift(pos, axis, step)) &&
      (a.Push? <==> hits != [] && isPusher && AllPushable(hits)) &&
      (a.Push? ==> a.hits == hits)
  {
    var (rect, newPosition) := NewRectAndPosition(id, pos, size, axis, step);
    var hits := grid.CollidingWith(rect);
    if hits == [] then Move(newPosition)
    else if isPusher && AllPushable(hits) then Push(hits)
    else Blocked
  }

  /** `attempts` unit steps of `sign`, stopping at the first blocked one. */
  function Sweep(grid: CollisionGrid<bool>, id: Index, pos: Vector, size: Option<Vector>, axis: Axis,
                 sign: real, isPusher: bool, attempts: nat, debt: Debt): (r: (Vector, Debt))
    decreases attempts
  {
    if attempts == 0 then (pos, debt)
    else
      match Try(grid, id, pos, size, axis, sign, isPusher)
      case Move(to) => Sweep(grid, id, to, size, axis, sign, isPusher, attempts - 1, debt)
      case Push(hits) => Sweep(grid, id, pos, size, axis, sign, isPusher, attempts - 1, AddDebt(debt, hits, axis, sign))
      case Blocked => (pos, debt)
  }

  /** The step by the fractional remainder; pushing by it still records `sign`. */
  function Remainder(grid: CollisionGrid<bool>, id: Index, pos: Vector, size: Option<Vector>, axis: Axis,
                     rem: real, sign: real, isPusher: bool, debt: Debt): (r: (Vector, Debt))
  {
    match Try(grid, id, pos, size, axis, rem, isPusher)
    case Move(to) => (to, debt)
    case Push(hits) => (pos, AddDebt(debt, hits, axis, sign))
    case Blocked => (pos, debt)
  }

  /** `vel.abs() as usize`: the number of whole units in the distance. */
  function UnitCount(vel: real): (n: nat)
    ensures n as real <= Abs(vel) < n as real + 1.0
  {
    Abs(vel).Floor
  }

  /** The unit step: the sign of the distance, and no step at all for a zero distance. */
  function StepSign(vel: real): (s: real)
    ensures vel > 0.0 ==> s == 1.0
    ensures vel < 0.0 ==> s == -1.0
    ensures vel == 0.0 ==> s == 0.0
  {
    if vel != 0.0 then Signum(vel) else 0.0
  }

  /** The whole units and the remainder together make up the distance. */
  lemma UnitsAndRemainder(vel: real)
    ensures Units(UnitCount(vel), StepSign(vel)) + FracRem(vel) == vel
  {
    if vel < 0.0 {
      assert Trunc(vel) == -((-vel).Floor as real);
    }
  }

  /** `for _ in 0 ..= abs`: the unit loop as written runs one attempt more than there are units. */
  function AsWrittenAttempts(vel: real): (n: nat)
    ensures (n - 1) as real <= Abs(vel) < n as real
  {
    UnitCount(vel) + 1
  }

  /** The evidently intended `for _ in 0 .. abs`: one attempt per whole unit. */
  function IntendedAttempts(vel: real): (n: nat)
    ensures n as real <= Abs(vel) < n as real + 1.0
  {
    UnitCount(vel)
  }

  /** The bound of the unit loop: `0 ..= abs` as written, or the evidently intended `0 .. abs`. */
  datatype Bound = AsWritten | Intended

  /** The number of unit attempts for the distance `vel` under `bound`. */
  function Attempts(bound: Bound, vel: real): nat
  {
    match bound
    case AsWritten => AsWrittenAttempts(vel)
    case Intended => IntendedAttempts(vel)
  }

  /** The movement along one axis by the distance `vel`, with the given number of unit attempts. */
  function AxisMove(grid: CollisionGrid<bool>, id: Index, pos: Vector, size: Option<Vector>, axis: Axis,
                    vel: real, isPusher: bool, attempts: nat, debt: Debt): (r: (Vector, Debt))
  {
    var swept := Sweep(grid, id, pos, size, axis, StepSign(vel), isPusher, attempts, debt);
    Remainder(grid, id, swept.0, size, axis, FracRem(vel), StepSign(vel), isPusher, swept.1)
  }

  /**
   * The body of the closure given to `Axis::for_each`: the unit loop with its
   * early exit, then the remainder step.
   */
  method MoveAxis(grid: CollisionGrid<bool>, id: Index, pos: Vector, size: Option<Vector>, axis: Axis,
                  vel: real, isPusher: bool, attempts: nat, debt: Debt) returns (p: Vector, d: Debt)
    ensures p == AxisMove(grid, id, pos, size, axis, vel, isPusher, attempts, debt).0
    ensures d == AxisMove(grid, id, pos, size, axis, vel, isPusher, attempts, debt).1
  {
    var sign := StepSign(vel);
    var rem := FracRem(vel);
    p, d := pos, debt;
    var k := 0;
    while k < attempts
      invariant 0 <= k <= attempts
      invariant Sweep(grid, id, pos, size, axis, sign, isPusher, attempts, debt) ==
                Sweep(grid, id, p, size, axis, sign, isPusher, attempts - k, d)
      decreases attempts - k
    {
      var (rect, newPosition) := NewRectAndPosition(id, p, size, axis, sign);
      var hits := grid.CollidingWith(rect);
      if hits == [] {
        p := newPosition;
      } else if isPusher && AllPushable(hits) {
        d := PushAll(d, hits, axis, sign);
      } else {
        break;
      }
      k := k + 1;
    }
    var (rect, newPosition) := NewRectAndPosition(id, p, size, axis, rem);
    var hits := grid.CollidingWith(rect);
    if hits == [] {
      p := newPosition;
    } else if isPusher && AllPushable(hits) {
      d := PushAll(d, hits, axis, sign);
    }
  }

  // ---------------------------------------------------------------------
  // Properties of one axis

  /** Two shifts along the same axis add up. */
  lemma ShiftTwice(p: Vector, axis: Axis, a: real, b: real)
    ensures Shift(Shift(p, axis, a), axis, b) == Shift(p, axis, a + b)
  {
  }

  /** The entity never ends up where it would collide: it either stays put or ends on a free spot. */
  lemma {:induction false} SweepEndsFreeOrStill(grid: CollisionGrid<bool>, id: Index, pos: Vector, size: Option<Vector>,
                                                 axis: Axis, sign: real, isPusher: bool, attempts: nat, debt: Debt,
                                                 r: (Vector, Debt))
    requires r == Sweep(grid, id, pos, size, axis, sign, isPusher, attempts, debt)
    ensures r.0 == pos || grid.CollidingWith(RectAt(id, r.0, size)) == []
    decreases attempts
  {
    if attempts > 0 {
      match Try(grid, id, pos, size, axis, sign, isPusher)
      case Move(to) =>
        SweepEndsFreeOrStill(grid, id, to, size, axis, sign, isPusher, attempts - 1, debt, r);
      case Push(hits) =>
        SweepEndsFreeOrStill(grid, id, pos, size, axis, sign, isPusher, attempts - 1, AddDebt(debt, hits, axis, sign), r);
      case Blocked =>
    }
  }

  /** The same for the whole axis movement, remainder step included. */
  lemma AxisMoveEndsFreeOrStill(grid: CollisionGrid<bool>, id: Index, pos: Vector, size: Option<Vector>,
                                axis: Axis, vel: real, isPusher: bool, attempts: nat, debt: Debt)
    ensures var r := AxisMove(grid, id, pos, size, axis, vel, isPusher, attempts, debt);
      r.0 == pos || grid.CollidingWith(RectAt(id, r.0, size)) == []
  {
    SweepEndsFreeOrStill(grid, id, pos, size, axis, StepSign(vel), isPusher, attempts, debt,
                         Sweep(grid, id, pos, size, axis, StepSign(vel), isPusher, attempts, debt));
  }

  /** Moving along one axis leaves the other coordinate alone. */
  lemma {:induction false} SweepKeepsOtherAxis(grid: CollisionGrid<bool>, id: Index, pos: Vector, size: Option<Vector>,
                                                axis: Axis, sign: real, isPusher: bool, attempts: nat, debt: Debt, other: Axis)
    requires other != axis
    ensures Coord(Sweep(grid, id, pos, size, axis, sign, isPusher, attempts, debt).0, other) == Coord(pos, other)
    decreases attempts
  {
    if attempts > 0 {
      match Try(grid, id, pos, size, axis, sign, isPusher)
      case Move(to) =>
        SweepKeepsOtherAxis(grid, id, to, size, axis, sign, isPusher, attempts - 1, debt, other);
      case Push(hits) =>
        SweepKeepsOtherAxis(grid, id, pos, size, axis, sign, isPusher, attempts - 1, AddDebt(debt, hits, axis, sign), other);
      case Blocked =>
    }
  }

  /** The same for the whole axis movement. */
  lemma AxisMoveKeepsOtherAxis(grid: CollisionGrid<bool>, id: Index, pos: Vector, size: Option<Vector>,
                               axis: Axis, vel: real, isPusher: bool, attempts: nat, debt: Debt, other: Axis)
    requires other != axis
    ensures Coord(AxisMove(grid, id, pos, size, axis, vel, isPusher, attempts, debt).0, other) == Coord(pos, other)
  {
    SweepKeepsOtherAxis(grid, id, pos, size, axis, StepSign(vel), isPusher, attempts, debt, other);
  }

  /** An entity that is not a pusher never records any debt. */
  lemma {:induction false} NonPusherOwesNothing(grid: CollisionGrid<bool>, id: Index, pos: Vector, size: Option<Vector>,
                                                 axis: Axis, vel: real, attempts: nat, debt: Debt)
    ensures AxisMove(grid, id, pos, size, axis, vel, false, attempts, debt).1 == debt
  {
    SweepOfNonPusher(grid, id, pos, size, axis, StepSign(vel), attempts, debt);
  }

  /** The unit loop of a non-pusher records no debt. */
  lemma {:induction false} SweepOfNonPusher(grid: CollisionGrid<bool>, id: Index, pos: Vector, size: Option<Vector>,
                                             axis: Axis, sign: real, attempts: nat, debt: Debt)
    ensures Sweep(grid, id, pos, size, axis, sign, false, attempts, debt).1 == debt
    decreases attempts
  {
    if attempts > 0 {
      match Try(grid, id, pos, size, axis, sign, false)
      case Move(to) =>
        SweepOfNonPusher(grid, id, to, size, axis, sign, attempts - 1, debt);
      case Blocked =>
    }
  }

  /** The ids of the pushable rectangles of a grid. */
  function PushableIds(grid: CollisionGrid<bool>): (s: set<Index>)
    ensures forall i :: 0 <= i < |grid.rects| && grid.rects[i].custom == Some(true) ==> grid.rects[i].id in s
  {
    set i | 0 <= i < |grid.rects| && grid.rects[i].custom == Some(true) :: grid.rects[i].id
  }

  /** Pushing only ever records debt for pushable rectangles of the grid. */
  lemma PushedArePushable(grid: CollisionGrid<bool>, target: CollisionRect<bool>)
    requires AllPushable(grid.CollidingWith(target))
    ensures Ids(grid.CollidingWith(target)) <= PushableIds(grid)
  {
    var hits := grid.CollidingWith(target);
    forall k | k in Ids(hits) ensures k in PushableIds(grid) {
      var i :| 0 <= i < |hits| && hits[i].id == k;
      var j :| 0 <= j < |grid.rects| && grid.rects[j] == hits[i];
      assert hits[i].custom.UnwrapOr(false);
    }
  }

  /** One push records debt for pushable entities only. */
  lemma PushDebtIsForPushables(grid: CollisionGrid<bool>, target: CollisionRect<bool>, debt: Debt, axis: Axis, sign: real)
    requires AllPushable(grid.CollidingWith(target))
    ensures AddDebt(debt, grid.CollidingWith(target), axis, sign).Keys <= debt.Keys + PushableIds(grid)
  {
    AddDebtEntries(debt, grid.CollidingWith(target), axis, sign);
    PushedArePushable(grid, target);
  }

  /** A pushing attempt adds debt for pushable entities only, so debt that names pushables beyond it still does. */
  lemma PushAttemptDebtIsForPushables(grid: CollisionGrid<bool>, id: Index, pos: Vector, size: Option<Vector>,
                                      axis: Axis, sign: real, isPusher: bool, debt: Debt, later: Debt)
    requires Try(grid, id, pos, size, axis, sign, isPusher).Push?
    requires later.Keys <= AddDebt(debt, Try(grid, id, pos, size, axis, sign, isPusher).hits, axis, sign).Keys +
                           PushableIds(grid)
    ensures later.Keys <= debt.Keys + PushableIds(grid)
  {
    PushDebtIsForPushables(grid, RectAt(id, Shift(pos, axis, sign), size), debt, axis, sign);
  }

  /** New debt entries only ever name pushable entities of the grid. */
  lemma {:induction false} SweepDebtIsForPushables(grid: CollisionGrid<bool>, id: Index, pos: Vector, size: Option<Vector>,
                                                    axis: Axis, sign: real, isPusher: bool, attempts: nat, debt: Debt,
                                                    r: (Vector, Debt))
    requires r == Sweep(grid, id, pos, size, axis, sign, isPusher, attempts, debt)
    ensures r.1.Keys <= debt.Keys + PushableIds(grid)
    decreases attempts
  {
    if attempts > 0 {
      var a := Try(grid, id, pos, size, axis, sign, isPusher);
      if a.Move? {
        SweepDebtIsForPushables(grid, id, a.to, size, axis, sign, isPusher, attempts - 1, debt, r);
      } else if a.Push? {
        var d := AddDebt(debt, a.hits, axis, sign);
        SweepDebtIsForPushables(grid, id, pos, size, axis, sign, isPusher, attempts - 1, d, r);
        PushAttemptDebtIsForPushables(grid, id, pos, size, axis, sign, isPusher, debt, r.1);
      }
    }
  }

  /** The same for the whole axis movement. */
  lemma AxisMoveDebtIsForPushables(grid: CollisionGrid<bool>, id: Index, pos: Vector, size: Option<Vector>,
                                   axis: Axis, vel: real, isPusher: bool, attempts: nat, debt: Debt)
    ensures AxisMove(grid, id, pos, size, axis, vel, isPusher, attempts, debt).1.Keys <= debt.Keys + PushableIds(grid)
  {
    var swept := Sweep(grid, id, pos, size, axis, StepSign(vel), isPusher, attempts, debt);
    SweepDebtIsForPushables(grid, id, pos, size, axis, StepSign(vel), isPusher, attempts, debt, swept);
    var rem := FracRem(vel);
    var a := Try(grid, id, swept.0, size, axis, rem, isPusher);
    if a.Push? {
      PushDebtIsForPushables(grid, RectAt(id, Shift(swept.0, axis, rem), size), swept.1, axis, StepSign(vel));
    }
  }

  /**
   * A pusher whose step is blocked by a single pushable entity stays where it
   * is, and every attempt adds one more unit to that entity's debt.
   */
  lemma {:induction false} BlockedPusherOwesPerAttempt(grid: CollisionGrid<bool>, id: Index, pos: Vector,
                                                        size: Option<Vector>, axis: Axis, sign: real,
                                                        attempts: nat, debt: Debt, r: CollisionRect<bool>)
    requires grid.CollidingWith(RectAt(id, Shift(pos, axis, sign), size)) == [r]
    requires r.custom == Some(true)
    ensures Sweep(grid, id, pos, size, axis, sign, true, attempts, debt).0 == pos
    ensures DebtOf(Sweep(grid, id, pos, size, axis, sign, true, attempts, debt).1, r.id, axis) ==
            DebtOf(debt, r.id, axis) + Units(attempts, sign)
    decreases attempts
  {
    if attempts > 0 {
      var d := AddDebt(debt, [r], axis, sign);
      assert AllPushable([r]);
      assert Try(grid, id, pos, size, axis, sign, true) == Push([r]);
      assert Sweep(grid, id, pos, size, axis, sign, true, attempts, debt) ==
             Sweep(grid, id, pos, size, axis, sign, true, attempts - 1, d);
      AddDebtSingle(debt, r, axis, sign);
      BlockedPusherOwesPerAttempt(grid, id, pos, size, axis, sign, attempts - 1, d, r);
      UnitsSucc(attempts - 1, sign);
    }
  }

  /** `(n + 1) * s == n * s + s`, kept apart from the inductions that need it. */
  lemma OneMore(n: nat, s: real)
    requires n > 0
    ensures ((n - 1) as real) * s + s == (n as real) * s
  {
  }

  /** Unit steps of size zero never move the entity, whatever is in the grid. */
  lemma {:induction false} SweepOfZeroStaysPut(grid: CollisionGrid<bool>, id: Index, pos: Vector, size: Option<Vector>,
                                               axis: Axis, isPusher: bool, attempts: nat, debt: Debt)
    ensures Sweep(grid, id, pos, size, axis, 0.0, isPusher, attempts, debt).0 == pos
    decreases attempts
  {
    if attempts > 0 {
      assert Shift(pos, axis, 0.0) == pos;
      match Try(grid, id, pos, size, axis, 0.0, isPusher)
      case Move(to) =>
        SweepOfZeroStaysPut(grid, id, to, size, axis, isPusher, attempts - 1, debt);
      case Push(hits) =>
        SweepOfZeroStaysPut(grid, id, pos, size, axis, isPusher, attempts - 1, AddDebt(debt, hits, axis, 0.0));
      case Blocked =>
    }
  }

  /** A zero distance along an axis leaves the position alone, for any number of unit attempts. */
  lemma ZeroDistanceStaysPut(grid: CollisionGrid<bool>, id: Index, pos: Vector, size: Option<Vector>,
                             axis: Axis, isPusher: bool, attempts: nat, debt: Debt)
    ensures AxisMove(grid, id, pos, size, axis, 0.0, isPusher, attempts, debt).0 == pos
  {
    SweepOfZeroStaysPut(grid, id, pos, size, axis, isPusher, attempts, debt);
    var swept := Sweep(grid, id, pos, size, axis, 0.0, isPusher, attempts, debt);
    assert Shift(swept.0, axis, FracRem(0.0)) == swept.0;
  }

  // ---------------------------------------------------------------------
  // The unit loop's bound

  /** Nothing in the grid is ever hit by the entity's rectangle, wherever it is. */
  ghost predicate Free(grid: CollisionGrid<bool>, id: Index, size: Option<Vector>)
  {
    forall p :: grid.CollidingWith(RectAt(id, p, size)) == []
  }

  /** An empty grid is free. */
  lemma EmptyGridIsFree(id: Index, size: Option<Vector>)
    ensures Free(CollisionGrid([]), id, size)
  {
  }

  /** Unhindered, `n` unit attempts move the entity by exactly `n` units. */
  lemma {:induction false} FreeSweep(grid: CollisionGrid<bool>, id: Index, pos: Vector, size: Option<Vector>,
                                      axis: Axis, sign: real, isPusher: bool, attempts: nat, debt: Debt)
    requires Free(grid, id, size)
    ensures Sweep(grid, id, pos, size, axis, sign, isPusher, attempts, debt).0 == Shift(pos, axis, Units(attempts, sign))
    ensures Sweep(grid, id, pos, size, axis, sign, isPusher, attempts, debt).1 == debt
    decreases attempts
  {
    if attempts == 0 {
      ShiftSame(pos, axis, Units(attempts, sign), 0.0);
    } else {
      var to := Shift(pos, axis, sign);
      assert Try(grid, id, pos, size, axis, sign, isPusher) == Move(to);
      assert Sweep(grid, id, pos, size, axis, sign, isPusher, attempts, debt) ==
             Sweep(grid, id, to, size, axis, sign, isPusher, attempts - 1, debt);
      FreeSweep(grid, id, to, size, axis, sign, isPusher, attempts - 1, debt);
      UnitThenRest(pos, axis, sign, attempts);
    }
  }

  /** `n` unit steps of `sign`. */
  function Units(n: nat, sign: real): real
  {
    (n as real) * sign
  }

  /** One unit step followed by `n - 1` more is `n` unit steps. */
  lemma UnitThenRest(pos: Vector, axis: Axis, sign: real, n: nat)
    requires n > 0
    ensures Shift(Shift(pos, axis, sign), axis, Units(n - 1, sign)) == Shift(pos, axis, Units(n, sign))
  {
    ShiftTwice(pos, axis, sign, Units(n - 1, sign));
    OneMore(n, sign);
    ShiftSame(pos, axis, sign + Units(n - 1, sign), Units(n, sign));
  }

  /** Equal steps give equal positions (spelled out for the solver's non-linear arithmetic). */
  lemma ShiftSame(p: Vector, axis: Axis, a: real, b: real)
    requires a == b
    ensures Shift(p, axis, a) == Shift(p, axis, b)
  {
  }

  /** Unhindered, an axis movement with `n` unit attempts covers `n` units and the remainder. */
  lemma FreeAxisMove(grid: CollisionGrid<bool>, id: Index, pos: Vector, size: Option<Vector>,
                     axis: Axis, vel: real, isPusher: bool, attempts: nat, debt: Debt)
    requires Free(grid, id, size)
    ensures AxisMove(grid, id, pos, size, axis, vel, isPusher, attempts, debt).0 ==
            Shift(pos, axis, Units(attempts, StepSign(vel)) + FracRem(vel))
    ensures AxisMove(grid, id, pos, size, axis, vel, isPusher, attempts, debt).1 == debt
  {
    var sign := StepSign(vel);
    FreeSweep(grid, id, pos, size, axis, sign, isPusher, attempts, debt);
    var swept := Shift(pos, axis, Units(attempts, sign));
    assert Try(grid, id, swept, size, axis, FracRem(vel), isPusher) == Move(Shift(swept, axis, FracRem(vel)));
    ShiftTwice(pos, axis, Units(attempts, sign), FracRem(vel));
  }

  /** One more attempt is one more unit. */
  lemma UnitsSucc(n: nat, sign: real)
    ensures Units(n + 1, sign) == Units(n, sign) + sign
  {
    OneMore(n + 1, sign);
    assert (n + 1) - 1 == n;
  }

  /**
   * As written (`0 ..= abs`), an unhindered entity with a non-zero distance
   * to cover overshoots it by one whole unit.
   */
  lemma AsWrittenOvershoots(grid: CollisionGrid<bool>, id: Index, pos: Vector, size: Option<Vector>,
                            axis: Axis, vel: real, isPusher: bool, debt: Debt)
    requires Free(grid, id, size) && vel != 0.0
    ensures AxisMove(grid, id, pos, size, axis, vel, isPusher, AsWrittenAttempts(vel), debt).0 ==
            Shift(pos, axis, vel + StepSign(vel))
  {
    var n, sign := UnitCount(vel), StepSign(vel);
    FreeAxisMove(grid, id, pos, size, axis, vel, isPusher, n + 1, debt);
    UnitsAndRemainder(vel);
    UnitsSucc(n, sign);
    ShiftSame(pos, axis, Units(n + 1, sign) + FracRem(vel), vel + sign);
  }

  /** The overshoot on one input: half a unit to the right, alone in the world, ends 1.5 units away. */
  lemma AsWrittenOvershootExample()
    ensures AxisMove(CollisionGrid([]), 0, (0.0, 0.0), None, X, 0.5, false, AsWrittenAttempts(0.5), map[]).0 == (1.5, 0.0)
  {
    EmptyGridIsFree(0, None);
    AsWrittenOvershoots(CollisionGrid([]), 0, (0.0, 0.0), None, X, 0.5, false, map[]);
  }

  /** As written, an unhindered axis movement covers its distance plus one unit step (none for a zero distance), and owes nothing. */
  lemma AsWrittenAxisMove(grid: CollisionGrid<bool>, id: Index, pos: Vector, size: Option<Vector>,
                          axis: Axis, vel: real, isPusher: bool, debt: Debt)
    requires Free(grid, id, size)
    ensures AxisMove(grid, id, pos, size, axis, vel, isPusher, AsWrittenAttempts(vel), debt).0 ==
            Shift(pos, axis, vel + StepSign(vel))
    ensures AxisMove(grid, id, pos, size, axis, vel, isPusher, AsWrittenAttempts(vel), debt).1 == debt
  {
    FreeAxisMove(grid, id, pos, size, axis, vel, isPusher, AsWrittenAttempts(vel), debt);
    if vel == 0.0 {
      ZeroDistanceStaysPut(grid, id, pos, size, axis, isPusher, AsWrittenAttempts(vel), debt);
      ShiftSame(pos, axis, 0.0, vel + StepSign(vel));
    } else {
      AsWrittenOvershoots(grid, id, pos, size, axis, vel, isPusher, debt);
    }
  }

  /** With one attempt per whole unit (`0 .. abs`), an unhindered entity covers exactly its distance. */
  lemma IntendedMovesExactly(grid: CollisionGrid<bool>, id: Index, pos: Vector, size: Option<Vector>,
                             axis: Axis, vel: real, isPusher: bool, debt: Debt)
    requires Free(grid, id, size)
    ensures AxisMove(grid, id, pos, size, axis, vel, isPusher, IntendedAttempts(vel), debt).0 == Shift(pos, axis, vel)
    ensures AxisMove(grid, id, pos, size, axis, vel, isPusher, IntendedAttempts(vel), debt).1 == debt
  {
    FreeAxisMove(grid, id, pos, size, axis, vel, isPusher, IntendedAttempts(vel), debt);
    UnitsAndRemainder(vel);
    ShiftSame(pos, axis, Units(UnitCount(vel), StepSign(vel)) + FracRem(vel), vel);
  }

  // ---------------------------------------------------------------------
  // One entity: X, then Y

  /**
   * The movement of one solid entity by the distance `dist` (its velocity times
   * the time step): the closure handed to `Axis::for_each`, threading the
   * position and the debt through both axes. `bound` chooses the unit loop's
   * bound: the system runs with `AsWritten`, the bound of the source.
   */
  function MoveEntity(bound: Bound, grid: CollisionGrid<bool>, id: Index, pos: Vector, size: Option<Vector>, dist: Vector,
                      isPusher: bool, debt: Debt): (Vector, Debt)
  {
    AxisStep(bound, grid, id, size, dist, isPusher, AxisStep(bound, grid, id, size, dist, isPusher, (pos, debt), X), Y)
  }

  /** The body of the `for_each` closure: the movement along one axis from `state`. */
  function AxisStep(bound: Bound, grid: CollisionGrid<bool>, id: Index, size: Option<Vector>, dist: Vector, isPusher: bool,
                    state: (Vector, Debt), axis: Axis): (Vector, Debt)
  {
    var vel := Coord(dist, axis);
    AxisMove(grid, id, state.0, size, axis, vel, isPusher, Attempts(bound, vel), state.1)
  }

  /**
   * The movement is `Axis::for_each` with the closure: X first, then Y from
   * the position and debt the X movement left.
   */
  lemma MoveEntityIsForEach(bound: Bound, grid: CollisionGrid<bool>, id: Index, pos: Vector, size: Option<Vector>, dist: Vector,
                            isPusher: bool, debt: Debt)
    ensures MoveEntity(bound, grid, id, pos, size, dist, isPusher, debt) ==
      ForEach((state: (Vector, Debt), axis: Axis) => AxisStep(bound, grid, id, size, dist, isPusher, state, axis), (pos, debt))
  {
  }

  /** `for_each` with the movement closure, as statements. */
  method MoveSolid(grid: CollisionGrid<bool>, id: Index, pos: Vector, size: Option<Vector>, dist: Vector,
                   isPusher: bool, debt: Debt) returns (p: Vector, d: Debt)
    ensures p == MoveEntity(AsWritten, grid, id, pos, size, dist, isPusher, debt).0
    ensures d == MoveEntity(AsWritten, grid, id, pos, size, dist, isPusher, debt).1
  {
    p, d := MoveAxis(grid, id, pos, size, X, dist.0, isPusher, Attempts(AsWritten, dist.0), debt);
    p, d := MoveAxis(grid, id, p, size, Y, dist.1, isPusher, Attempts(AsWritten, dist.1), d);
  }

  /** A solid entity never ends a tick where it collides with the grid: it stays put or ends on a free spot. */
  lemma MoveEntityEndsFreeOrStill(bound: Bound, grid: CollisionGrid<bool>, id: Index, pos: Vector, size: Option<Vector>,
                                  dist: Vector, isPusher: bool, debt: Debt)
    ensures var r := MoveEntity(bound, grid, id, pos, size, dist, isPusher, debt);
      r.0 == pos || grid.CollidingWith(RectAt(id, r.0, size)) == []
  {
    var x := AxisMove(grid, id, pos, size, X, dist.0, isPusher, Attempts(bound, dist.0), debt);
    AxisMoveEndsFreeOrStill(grid, id, pos, size, X, dist.0, isPusher, Attempts(bound, dist.0), debt);
    AxisMoveEndsFreeOrStill(grid, id, x.0, size, Y, dist.1, isPusher, Attempts(bound, dist.1), x.1);
  }

  /** Debt recorded while moving one entity only ever names pushable entities of the grid. */
  lemma MoveEntityDebtIsForPushables(bound: Bound, grid: CollisionGrid<bool>, id: Index, pos: Vector, size: Option<Vector>,
                                     dist: Vector, isPusher: bool, debt: Debt)
    ensures MoveEntity(bound, grid, id, pos, size, dist, isPusher, debt).1.Keys <= debt.Keys + PushableIds(grid)
  {
    var x := AxisMove(grid, id, pos, size, X, dist.0, isPusher, Attempts(bound, dist.0), debt);
    AxisMoveDebtIsForPushables(grid, id, pos, size, X, dist.0, isPusher, Attempts(bound, dist.0), debt);
    AxisMoveDebtIsForPushables(grid, id, x.0, size, Y, dist.1, isPusher, Attempts(bound, dist.1), x.1);
  }

  /** An entity that is not a pusher never records debt. */
  lemma MoveEntityOfNonPusher(bound: Bound, grid: CollisionGrid<bool>, id: Index, pos: Vector, size: Option<Vector>,
                              dist: Vector, isPusher: bool, debt: Debt)
    requires !isPusher
    ensures MoveEntity(bound, grid, id, pos, size, dist, isPusher, debt).1 == debt
  {
    var x := AxisMove(grid, id, pos, size, X, dist.0, isPusher, Attempts(bound, dist.0), debt);
    NonPusherOwesNothing(grid, id, pos, size, X, dist.0, Attempts(bound, dist.0), debt);
    NonPusherOwesNothing(grid, id, x.0, size, Y, dist.1, Attempts(bound, dist.1), x.1);
  }

  /** As written, an entity alone in the world overshoots by one unit along every axis it moves on, and owes nothing. */
  lemma FreeMoveAsWritten(grid: CollisionGrid<bool>, id: Index, pos: Vector, size: Option<Vector>,
                          dist: Vector, isPusher: bool, debt: Debt)
    requires Free(grid, id, size)
    ensures MoveEntity(AsWritten, grid, id, pos, size, dist, isPusher, debt).0 ==
            (pos.0 + dist.0 + StepSign(dist.0), pos.1 + dist.1 + StepSign(dist.1))
    ensures MoveEntity(AsWritten, grid, id, pos, size, dist, isPusher, debt).1 == debt
  {
    var x := AxisMove(grid, id, pos, size, X, dist.0, isPusher, AsWrittenAttempts(dist.0), debt);
    AsWrittenAxisMove(grid, id, pos, size, X, dist.0, isPusher, debt);
    AsWrittenAxisMove(grid, id, x.0, size, Y, dist.1, isPusher, x.1);
  }

  /** With the bound corrected, an entity alone in the world moves by exactly its distance, and owes nothing. */
  lemma FreeMoveIsTranslation(grid: CollisionGrid<bool>, id: Index, pos: Vector, size: Option<Vector>,
                              dist: Vector, isPusher: bool, debt: Debt)
    requires Free(grid, id, size)
    ensures MoveEntity(Intended, grid, id, pos, size, dist, isPusher, debt).0 == (pos.0 + dist.0, pos.1 + dist.1)
    ensures MoveEntity(Intended, grid, id, pos, size, dist, isPusher, debt).1 == debt
  {
    var x := AxisMove(grid, id, pos, size, X, dist.0, isPusher, IntendedAttempts(dist.0), debt);
    IntendedMovesExactly(grid, id, pos, size, X, dist.0, isPusher, debt);
    IntendedMovesExactly(grid, id, x.0, size, Y, dist.1, isPusher, x.1);
  }

  // ---------------------------------------------------------------------
  // The system

  /** `translate_x(v.x * dt)` and `translate_y(v.y * dt)`. */
  function Translate(p: Vector, velocity: Vector, dt: real): Vector
  {
    (p.0 + velocity.0 * dt, p.1 + velocity.1 * dt)
  }

  /** The distance covered in one tick: the velocity times the time step. */
  function Scale(velocity: Vector, dt: real): Vector
  {
    (velocity.0 * dt, velocity.1 * dt)
  }

  /** `translate_x(x)` and `translate_y(y)` by a debt `(x, y)`. */
  function Add(p: Vector, q: Vector): Vector
  {
    (p.0 + q.0, p.1 + q.1)
  }

  /** The components the system reads, one entry per entity. */
  datatype Components = Components(
    velocities: seq<Option<Vector>>,
    sizes: seq<Option<Vector>>,
    solid: seq<bool>,
    push: seq<bool>,
    pushable: seq<bool>)
  {
    /** One entry per entity of a world of `n` entities. */
    predicate Fits(n: nat)
    {
      |velocities| == n && |sizes| == n && |solid| == n && |push| == n && |pushable| == n
    }

    /** Entity `i` takes part in `run_without_collision`. */
    predicate MovesFreely(i: int)
      requires Fits(|velocities|)
    {
      0 <= i < |velocities| && velocities[i].Some? && !solid[i]
    }

    /** Entity `i` takes part in the movement loop of `run_with_collision`. */
    predicate MovesSolid(i: int)
      requires Fits(|velocities|)
    {
      0 <= i < |velocities| && velocities[i].Some? && solid[i]
    }
  }

  /** The positions after `run_without_collision`. */
  function FreePass(positions: seq<Vector>, c: Components, dt: real): (r: seq<Vector>)
    requires c.Fits(|positions|)
    ensures |r| == |positions|
    ensures forall i :: 0 <= i < |positions| ==>
      r[i] == if c.MovesFreely(i) then Translate(positions[i], c.velocities[i].value, dt) else positions[i]
  {
    seq(|positions|, i requires 0 <= i < |positions| =>
      if c.MovesFreely(i) then Translate(positions[i], c.velocities[i].value, dt) else positions[i])
  }

  /** `run_without_collision`: every entity with a velocity that is not solid moves freely. */
  method RunWithoutCollision(dt: real, c: Components, positions: array<Vector>)
    requires c.Fits(positions.Length)
    modifies positions
    ensures positions[..] == FreePass(old(positions[..]), c, dt)
  {
    ghost var start := positions[..];
    for i := 0 to positions.Length
      invariant forall j :: 0 <= j < i ==> positions[j] == FreePass(start, c, dt)[j]
      invariant forall j :: i <= j < positions.Length ==> positions[j] == start[j]
    {
      if c.velocities[i].Some? && !c.solid[i] {
        var velocity := c.velocities[i].value;
        positions[i] := (positions[i].0 + velocity.0 * dt, positions[i].1);
        positions[i] := (positions[i].0, positions[i].1 + velocity.1 * dt);
        assert positions[i].0 == Translate(start[i], velocity, dt).0;
        assert positions[i].1 == Translate(start[i], velocity, dt).1;
      }
      assert positions[i] == FreePass(start, c, dt)[i];
    }
  }

  /** The tuple the grid is built from for entity `i`: its pushable mark is `Some(true)` or nothing. */
  function SolidEntry(positions: seq<Vector>, c: Components, i: nat): (Index, Vector, Option<Vector>, Option<bool>)
    requires c.Fits(|positions|) && i < |positions|
  {
    (i, positions[i], c.sizes[i], if c.pushable[i] then Some(true) else None)
  }

  /** The grid tuples of the solid entities among the first `n`, in id order. */
  function SolidData(positions: seq<Vector>, c: Components, n: nat): (data: seq<(Index, Vector, Option<Vector>, Option<bool>)>)
    requires c.Fits(|positions|) && n <= |positions|
    ensures forall k :: 0 <= k < |data| ==>
      data[k].0 < n && c.solid[data[k].0] && data[k] == SolidEntry(positions, c, data[k].0)
  {
    if n == 0 then []
    else
      var front := SolidData(positions, c, n - 1);
      if c.solid[n - 1] then
        var data := front + [SolidEntry(positions, c, n - 1)];
        assert forall k :: 0 <= k < |front| ==> data[k] == front[k];
        data
      else front
  }

  /** The grid tuples are in strictly increasing id order. */
  lemma {:induction false} SolidDataIncreasing(positions: seq<Vector>, c: Components, n: nat)
    requires c.Fits(|positions|) && n <= |positions|
    ensures forall a, b :: 0 <= a < b < |SolidData(positions, c, n)| ==>
      SolidData(positions, c, n)[a].0 < SolidData(positions, c, n)[b].0
  {
    if n > 0 {
      SolidDataIncreasing(positions, c, n - 1);
      var front := SolidData(positions, c, n - 1);
      if c.solid[n - 1] {
        var data := SolidData(positions, c, n);
        assert data == front + [SolidEntry(positions, c, n - 1)];
        assert forall k :: 0 <= k < |front| ==> data[k] == front[k];
      }
    }
  }

  /** Every solid entity among the first `n` has a grid tuple. */
  lemma {:induction false} SolidDataHasEverySolid(positions: seq<Vector>, c: Components, n: nat, i: nat)
    requires c.Fits(|positions|) && i < n <= |positions| && c.solid[i]
    ensures exists k :: 0 <= k < |SolidData(positions, c, n)| && SolidData(positions, c, n)[k].0 == i
  {
    var front := SolidData(positions, c, n - 1);
    var data := SolidData(positions, c, n);
    if i == n - 1 {
      assert data == front + [SolidEntry(positions, c, n - 1)];
      assert data[|front|].0 == i;
    } else {
      SolidDataHasEverySolid(positions, c, n - 1, i);
      var k :| 0 <= k < |front| && front[k].0 == i;
      assert data[k] == front[k];
    }
  }

  /** The grid of all solid entities (`CollisionGrid::<bool>::from`). */
  function SolidGrid(positions: seq<Vector>, c: Components): CollisionGrid<bool>
    requires c.Fits(|positions|)
  {
    FromCustomTuples(SolidData(positions, c, |positions|))
  }

  /** The grid only reads the positions of solid entities. */
  lemma {:induction false} SolidDataReadsOnlySolids(p: seq<Vector>, q: seq<Vector>, c: Components, n: nat)
    requires c.Fits(|p|) && |p| == |q| && n <= |p|
    requires forall i :: 0 <= i < |p| && c.solid[i] ==> p[i] == q[i]
    ensures SolidData(p, c, n) == SolidData(q, c, n)
  {
    if n > 0 {
      SolidDataReadsOnlySolids(p, q, c, n - 1);
    }
  }

  /** The free pass moves no solid entity, so the grid is the one of the tick's start. */
  lemma GridIgnoresFreePass(positions: seq<Vector>, c: Components, dt: real)
    requires c.Fits(|positions|)
    ensures SolidGrid(FreePass(positions, c, dt), c) == SolidGrid(positions, c)
  {
    SolidDataReadsOnlySolids(FreePass(positions, c, dt), positions, c, |positions|);
  }

  /** Only entities that are solid and pushable are marked pushable in the grid. */
  lemma GridPushablesAreSolidPushables(positions: seq<Vector>, c: Components)
    requires c.Fits(|positions|)
    ensures forall k :: k in PushableIds(SolidGrid(positions, c)) ==>
      k < |positions| && c.solid[k] && c.pushable[k]
  {
    var data := SolidData(positions, c, |positions|);
    var grid := SolidGrid(positions, c);
    forall k | k in PushableIds(grid) ensures k < |positions| && c.solid[k] && c.pushable[k] {
      var i :| 0 <= i < |grid.rects| && grid.rects[i].custom == Some(true) && grid.rects[i].id == k;
      assert data[i].0 == k;
    }
  }

  /** Entity `i`'s distance for this tick. */
  function DistanceOf(c: Components, i: nat, dt: real): Vector
    requires c.Fits(|c.velocities|) && c.MovesSolid(i)
  {
    Scale(c.velocities[i].value, dt)
  }

  /** The debt after the movement loop has handled the first `n` entities, in id order. */
  function DebtAfter(bound: Bound, grid: CollisionGrid<bool>, positions: seq<Vector>, c: Components, dt: real, n: nat): Debt
    requires c.Fits(|positions|) && n <= |positions|
  {
    if n == 0 then map[]
    else
      var d := DebtAfter(bound, grid, positions, c, dt, n - 1);
      if c.MovesSolid(n - 1) then
        MoveEntity(bound, grid, n - 1, positions[n - 1], c.sizes[n - 1], DistanceOf(c, n - 1, dt), c.push[n - 1], d).1
      else d
  }

  /** Every debt names a pushable entity of the grid. */
  lemma {:induction false} DebtIsForPushables(bound: Bound, grid: CollisionGrid<bool>, positions: seq<Vector>, c: Components,
                                               dt: real, n: nat, debt: Debt)
    requires c.Fits(|positions|) && n <= |positions|
    requires debt == DebtAfter(bound, grid, positions, c, dt, n)
    ensures debt.Keys <= PushableIds(grid)
  {
    if n > 0 {
      var d := DebtAfter(bound, grid, positions, c, dt, n - 1);
      DebtIsForPushables(bound, grid, positions, c, dt, n - 1, d);
      if c.MovesSolid(n - 1) {
        MoveEntityDebtIsForPushables(bound, grid, n - 1, positions[n - 1], c.sizes[n - 1], DistanceOf(c, n - 1, dt),
                                     c.push[n - 1], d);
      }
    }
  }

  /** Without any pusher nobody owes anything. */
  lemma {:induction false} NoPusherNoDebt(bound: Bound, grid: CollisionGrid<bool>, positions: seq<Vector>, c: Components,
                                           dt: real, n: nat, debt: Debt)
    requires c.Fits(|positions|) && n <= |positions|
    requires forall i :: 0 <= i < |positions| ==> !c.push[i]
    requires debt == DebtAfter(bound, grid, positions, c, dt, n)
    ensures debt == map[]
  {
    if n > 0 {
      var d := DebtAfter(bound, grid, positions, c, dt, n - 1);
      NoPusherNoDebt(bound, grid, positions, c, dt, n - 1, d);
      NonPusherAddsNoDebt(bound, grid, positions, c, dt, n, d, debt);
    }
  }

  /** The movement loop's pass for a non-pusher leaves the debt as it was. */
  lemma NonPusherAddsNoDebt(bound: Bound, grid: CollisionGrid<bool>, positions: seq<Vector>, c: Components,
                            dt: real, n: nat, before: Debt, debt: Debt)
    requires c.Fits(|positions|) && 0 < n <= |positions| && !c.push[n - 1]
    requires before == DebtAfter(bound, grid, positions, c, dt, n - 1)
    requires debt == DebtAfter(bound, grid, positions, c, dt, n)
    ensures debt == before
  {
    if c.MovesSolid(n - 1) {
      MoveEntityOfNonPusher(bound, grid, n - 1, positions[n - 1], c.sizes[n - 1], DistanceOf(c, n - 1, dt),
                            c.push[n - 1], before);
    }
  }

  /** The positions after the movement loop, before any debt is paid. */
  function SolidPass(bound: Bound, grid: CollisionGrid<bool>, positions: seq<Vector>, c: Components, dt: real): (r: seq<Vector>)
    requires c.Fits(|positions|)
    ensures |r| == |positions|
    ensures forall i :: 0 <= i < |positions| && !c.MovesSolid(i) ==> r[i] == positions[i]
  {
    seq(|positions|, i requires 0 <= i < |positions| =>
      if c.MovesSolid(i) then
        MoveEntity(bound, grid, i, positions[i], c.sizes[i], DistanceOf(c, i, dt), c.push[i],
                   DebtAfter(bound, grid, positions, c, dt, i)).0
      else positions[i])
  }

  /** Entity `i`'s position with its debt paid, if it is pushable and owed anything. */
  function Paid(p: Vector, debt: Debt, pushable: bool, i: Index): Vector
  {
    if pushable && i in debt then Add(p, debt[i]) else p
  }

  /** The positions after `run_with_collision`. */
  function CollisionPass(bound: Bound, positions: seq<Vector>, c: Components, dt: real): (r: seq<Vector>)
    requires c.Fits(|positions|)
    ensures |r| == |positions|
  {
    var grid := SolidGrid(positions, c);
    var moved := SolidPass(bound, grid, positions, c, dt);
    var debt := DebtAfter(bound, grid, positions, c, dt, |positions|);
    seq(|positions|, i requires 0 <= i < |positions| => Paid(moved[i], debt, c.pushable[i], i))
  }

  /** The positions at the end of a tick of `MoveEntitiesSystem`. */
  function Tick(bound: Bound, positions: seq<Vector>, c: Components, dt: real): (r: seq<Vector>)
    requires c.Fits(|positions|)
    ensures |r| == |positions|
  {
    CollisionPass(bound, FreePass(positions, c, dt), c, dt)
  }

  /**
   * The last loop of `run_with_collision` for one debt: every pushable entity
   * whose id is `id` is translated by `amount`.
   */
  method PayOne(id: Index, amount: Vector, pushable: seq<bool>, positions: array<Vector>)
    requires |pushable| == positions.Length
    modifies positions
    ensures forall i :: 0 <= i < positions.Length ==>
      positions[i] == if pushable[i] && i == id then Add(old(positions[i]), amount) else old(positions[i])
  {
    for j := 0 to positions.Length
      invariant forall i :: 0 <= i < j ==>
        positions[i] == if pushable[i] && i == id then Add(old(positions[i]), amount) else old(positions[i])
      invariant forall i :: j <= i < positions.Length ==> positions[i] == old(positions[i])
    {
      if pushable[j] && j == id {
        positions[j] := Add(positions[j], amount);
      }
    }
  }

  /** Pays every debt, in whatever order the map hands its entries out. */
  method PayDebts(debt: Debt, pushable: seq<bool>, positions: array<Vector>)
    requires |pushable| == positions.Length
    modifies positions
    ensures forall i :: 0 <= i < positions.Length ==> positions[i] == Paid(old(positions[i]), debt, pushable[i], i)
  {
    var left := debt.Keys;
    while left != {}
      invariant left <= debt.Keys
      invariant forall i :: 0 <= i < positions.Length ==>
        positions[i] == if i in left then old(positions[i]) else Paid(old(positions[i]), debt, pushable[i], i)
      decreases |left|
    {
      var id :| id in left;
      PayOne(id, debt[id], pushable, positions);
      left := left - {id};
    }
  }

  /** The first loop of `run_with_collision`: the grid of every solid entity at its current position. */
  method BuildGrid(c: Components, positions: array<Vector>) returns (grid: CollisionGrid<bool>)
    requires c.Fits(positions.Length)
    ensures grid == SolidGrid(positions[..], c)
  {
    var data := [];
    for i := 0 to positions.Length
      invariant data == SolidData(positions[..], c, i)
    {
      if c.solid[i] {
        data := data + [(i, positions[i], c.sizes[i], if c.pushable[i] then Some(true) else None)];
      }
    }
    grid := FromCustomTuples(data);
  }

  /** The movement loop of `run_with_collision`: every solid entity with a velocity moves against `grid`. */
  method MoveSolids(grid: CollisionGrid<bool>, dt: real, c: Components, positions: array<Vector>) returns (debt: Debt)
    requires c.Fits(positions.Length)
    modifies positions
    ensures positions[..] == SolidPass(AsWritten, grid, old(positions[..]), c, dt)
    ensures debt == DebtAfter(AsWritten, grid, old(positions[..]), c, dt, positions.Length)
  {
    ghost var start := positions[..];
    ghost var want := SolidPass(AsWritten, grid, start, c, dt);
    debt := map[];
    for i := 0 to positions.Length
      invariant debt == DebtAfter(AsWritten, grid, start, c, dt, i)
      invariant forall j :: 0 <= j < i ==> positions[j] == want[j]
      invariant forall j :: i <= j < positions.Length ==> positions[j] == start[j]
    {
      debt := MoveOne(grid, dt, c, positions, i, debt, start);
    }
  }

  /** One pass of the movement loop, for entity `i`. */
  method MoveOne(grid: CollisionGrid<bool>, dt: real, c: Components, positions: array<Vector>, i: nat, debt: Debt,
                 ghost start: seq<Vector>) returns (d: Debt)
    requires c.Fits(positions.Length) && |start| == positions.Length && i < positions.Length
    requires positions[i] == start[i] && debt == DebtAfter(AsWritten, grid, start, c, dt, i)
    modifies positions
    ensures d == DebtAfter(AsWritten, grid, start, c, dt, i + 1)
    ensures positions[i] == SolidPass(AsWritten, grid, start, c, dt)[i]
    ensures forall j :: 0 <= j < positions.Length && j != i ==> positions[j] == old(positions[j])
  {
    d := debt;
    if c.velocities[i].Some? && c.solid[i] {
      var p;
      p, d := MoveSolid(grid, i, positions[i], c.sizes[i], DistanceOf(c, i, dt), c.push[i], debt);
      positions[i] := p;
    }
  }

  /** `run_with_collision`: builds the grid, moves every solid entity with a velocity, then pays the debts. */
  method RunWithCollision(dt: real, c: Components, positions: array<Vector>)
    requires c.Fits(positions.Length)
    modifies positions
    ensures positions[..] == CollisionPass(AsWritten, old(positions[..]), c, dt)
  {
    ghost var start := positions[..];
    var grid := BuildGrid(c, positions);
    var debt := MoveSolids(grid, dt, c, positions);
    ghost var moved := positions[..];
    PayDebts(debt, c.pushable, positions);
    assert forall i :: 0 <= i < positions.Length ==> positions[i] == Paid(moved[i], debt, c.pushable[i], i);
  }

  /** `MoveEntitiesSystem::run`: the free movers first, then the solid ones. */
  method Run(dt: real, c: Components, positions: array<Vector>)
    requires c.Fits(positions.Length)
    modifies positions
    ensures positions[..] == Tick(AsWritten, old(positions[..]), c, dt)
  {
    RunWithoutCollision(dt, c, positions);
    RunWithCollision(dt, c, positions);
  }

  /** Only solid, pushable entities are ever pushed. */
  lemma DebtOnlyMovesSolidPushables(bound: Bound, positions: seq<Vector>, c: Components, dt: real, i: nat)
    requires c.Fits(|positions|) && i < |positions|
    requires !(c.solid[i] && c.pushable[i])
    ensures var grid := SolidGrid(positions, c);
      CollisionPass(bound, positions, c, dt)[i] == SolidPass(bound, grid, positions, c, dt)[i]
  {
    var grid := SolidGrid(positions, c);
    DebtIsForPushables(bound, grid, positions, c, dt, |positions|, DebtAfter(bound, grid, positions, c, dt, |positions|));
    GridPushablesAreSolidPushables(positions, c);
  }

  /** An entity with a velocity that is not solid moves by its velocity times the time step, whatever is in its way. */
  lemma TickMovesFreeEntities(bound: Bound, positions: seq<Vector>, c: Components, dt: real, i: nat)
    requires c.Fits(|positions|) && c.MovesFreely(i)
    ensures Tick(bound, positions, c, dt)[i] == Translate(positions[i], c.velocities[i].value, dt)
  {
    DebtOnlyMovesSolidPushables(bound, FreePass(positions, c, dt), c, dt, i);
  }

  /** An entity without a velocity that cannot be pushed stays where it is. */
  lemma TickKeepsStillEntities(bound: Bound, positions: seq<Vector>, c: Components, dt: real, i: nat)
    requires c.Fits(|positions|) && i < |positions|
    requires c.velocities[i].None? && !c.pushable[i]
    ensures Tick(bound, positions, c, dt)[i] == positions[i]
  {
    DebtOnlyMovesSolidPushables(bound, FreePass(positions, c, dt), c, dt, i);
  }

  /**
   * A solid entity that cannot be pushed ends the tick where it started or on
   * a spot where it collides with no solid entity's position at the tick's start.
   */
  lemma TickSolidEndsFreeOrStill(bound: Bound, positions: seq<Vector>, c: Components, dt: real, i: nat)
    requires c.Fits(|positions|) && c.MovesSolid(i) && !c.pushable[i]
    ensures var r := Tick(bound, positions, c, dt)[i];
      r == positions[i] || SolidGrid(positions, c).CollidingWith(RectAt(i, r, c.sizes[i])) == []
  {
    var free := FreePass(positions, c, dt);
    var grid := SolidGrid(free, c);
    GridIgnoresFreePass(positions, c, dt);
    DebtOnlyMovesSolidPushables(bound, free, c, dt, i);
    MoveEntityEndsFreeOrStill(bound, grid, i, free[i], c.sizes[i], DistanceOf(c, i, dt), c.push[i],
                              DebtAfter(bound, grid, free, c, dt, i));
  }

  /** Without any pusher, nothing is pushed: the tick is the free pass followed by the solid movement alone. */
  lemma TickWithoutPushers(bound: Bound, positions: seq<Vector>, c: Components, dt: real)
    requires c.Fits(|positions|)
    requires forall i :: 0 <= i < |positions| ==> !c.push[i]
    ensures var free := FreePass(positions, c, dt);
      Tick(bound, positions, c, dt) == SolidPass(bound, SolidGrid(free, c), free, c, dt)
  {
    var free := FreePass(positions, c, dt);
    NoPusherNoDebt(bound, SolidGrid(free, c), free, c, dt, |free|, DebtAfter(bound, SolidGrid(free, c), free, c, dt, |free|));
  }
}
