/**
 * One tick of the collision system (src/systems/collision.rs): a grid is built
 * from every entity with a `Collision` component, then each such entity marks
 * every other entity overlapping it and ages its entries once.
 * Entity ids are positions in the per-entity sequences.
 */
module CollisionSystem {
  import opened Wrappers
  import opened Geo
  import opened CollisionRects
  import opened CollisionGrids
  import opened CollisionState

  /** The component storage holds a distinct object per entity. */
  ghost predicate DistinctComponents(cs: seq<Option<Collision>>)
  {
    forall i, j :: 0 <= i < |cs| && 0 <= j < |cs| && i != j && cs[i].Some? && cs[j].Some? ==>
      cs[i].value != cs[j].value
  }

  ghost function Components(cs: seq<Option<Collision>>): set<Collision>
  {
    set i | 0 <= i < |cs| && cs[i].Some? :: cs[i].value
  }

  ghost predicate AllValid(cs: seq<Option<Collision>>)
    reads Components(cs)
  {
    forall i :: 0 <= i < |cs| && cs[i].Some? ==> cs[i].value.Valid()
  }

  /** The rectangle of entity `i`: sized when it has a `Size`, a point otherwise. */
  function EntityRect(positions: seq<Vector>, sizes: seq<Option<Vector>>, i: nat): CollisionRect<()>
    requires i < |positions| == |sizes|
  {
    WithCustom(i, positions[i], sizes[i], Option.None)
  }

  /** The rectangles of the entities below `n` that have a `Collision`, in id order. */
  function GridRects(positions: seq<Vector>, sizes: seq<Option<Vector>>, present: seq<bool>, n: nat): (rs: seq<CollisionRect<()>>)
    requires n <= |positions| == |sizes| == |present|
    ensures forall k :: 0 <= k < |rs| ==> rs[k].id < n && present[rs[k].id] && rs[k] == EntityRect(positions, sizes, rs[k].id)
    ensures forall a, b :: 0 <= a < b < |rs| ==> rs[a].id < rs[b].id
    ensures forall i :: 0 <= i < n && present[i] ==> exists k :: 0 <= k < |rs| && rs[k].id == i
  {
    if n == 0 then []
    else
      var front := GridRects(positions, sizes, present, n - 1);
      if present[n - 1] then
        var rs := front + [EntityRect(positions, sizes, n - 1)];
        assert rs[|front|].id == n - 1;
        assert forall k :: 0 <= k < |front| ==> rs[k] == front[k];
        rs
      else front
  }

  /** Which entities carry a `Collision`. */
  function Present(cs: seq<Option<Collision>>): (p: seq<bool>)
    ensures |p| == |cs| && forall i :: 0 <= i < |cs| ==> p[i] == cs[i].Some?
  {
    seq(|cs|, i requires 0 <= i < |cs| => cs[i].Some?)
  }

  /** The grid built at the start of the tick. */
  function TickGrid(positions: seq<Vector>, sizes: seq<Option<Vector>>, present: seq<bool>): CollisionGrid<()>
    requires |positions| == |sizes| == |present|
  {
    NewGrid(GridRects(positions, sizes, present, |present|))
  }

  /** The ids of a list of rectangles, in order. */
  function Ids<T>(rs: seq<CollisionRect<T>>): (ids: seq<Index>)
    ensures |ids| == |rs| && forall k :: 0 <= k < |rs| ==> ids[k] == rs[k].id
  {
    seq(|rs|, k requires 0 <= k < |rs| => rs[k].id)
  }

  /** The entries after `set_collision_with` for each id of `ids`, in order. */
  function SetAll(m: Entries, ids: seq<Index>): (m': Entries)
    ensures m'.Keys == m.Keys + set k | 0 <= k < |ids| :: ids[k]
    ensures forall id :: id in m && (forall k :: 0 <= k < |ids| ==> ids[k] != id) ==> m'[id] == m[id]
    decreases |ids|
  {
    if |ids| == 0 then m else SetAll(SetCollision(m, ids[0]), ids[1..])
  }

  /** The entries of entity `id` after one tick: marks for every overlap, then `update`. */
  function Tick(grid: CollisionGrid<()>, m: Entries, id: Index): Entries
  {
    Updated(SetAll(m, Ids(grid.CollidingWithId(id))))
  }

  /** `CollisionSystem::run`. */
  method Run(positions: seq<Vector>, sizes: seq<Option<Vector>>, cs: seq<Option<Collision>>)
    requires |positions| == |sizes| == |cs|
    requires DistinctComponents(cs) && AllValid(cs)
    modifies Components(cs)
    ensures AllValid(cs)
    ensures forall i :: 0 <= i < |cs| && cs[i].Some? ==>
      cs[i].value.collisions == Tick(TickGrid(positions, sizes, Present(cs)), old(cs[i].value.collisions), i)
  {
    var grid := NewGrid(GridRects(positions, sizes, Present(cs), |cs|));
    TickAll(cs, grid);
  }

  /** The entity loop of `run` over a grid already built. */
  method TickAll(cs: seq<Option<Collision>>, grid: CollisionGrid<()>)
    requires DistinctComponents(cs) && AllValid(cs)
    modifies Components(cs)
    ensures AllValid(cs)
    ensures forall i :: 0 <= i < |cs| && cs[i].Some? ==>
      cs[i].value.collisions == Tick(grid, old(cs[i].value.collisions), i)
  {
    ghost var before := Snapshot(cs);
    ghost var want := seq(|cs|, j requires 0 <= j < |cs| => Tick(grid, before[j], j));
    for i := 0 to |cs|
      invariant AllValid(cs)
      invariant forall j :: 0 <= j < i && cs[j].Some? ==> cs[j].value.collisions == want[j]
      invariant forall j :: i <= j < |cs| && cs[j].Some? ==> cs[j].value.collisions == before[j]
    {
      if cs[i].Some? {
        TickOne(cs[i].value, grid, i);
      }
    }
  }

  /** The maps of every entity at one moment, an empty map where there is no `Collision`. */
  ghost function Snapshot(cs: seq<Option<Collision>>): (r: seq<Entries>)
    reads Components(cs)
    ensures |r| == |cs| && forall j :: 0 <= j < |cs| && cs[j].Some? ==> r[j] == cs[j].value.collisions
  {
    seq(|cs|, j requires 0 <= j < |cs| reads Components(cs) => if cs[j].Some? then cs[j].value.collisions else map[])
  }

  /** The body of the entity loop of `run`: mark every colliding id, then `update` once. */
  method TickOne(collision: Collision, grid: CollisionGrid<()>, id: Index)
    requires collision.Valid()
    modifies collision
    ensures collision.Valid()
    ensures collision.collisions == Tick(grid, old(collision.collisions), id)
  {
    MarkAll(collision, Ids(grid.CollidingWithId(id)));
    collision.Update();
  }

  /** The inner loop of `run`: `set_collision_with` for each colliding id, in order. */
  method MarkAll(collision: Collision, ids: seq<Index>)
    requires collision.Valid()
    modifies collision
    ensures collision.Valid()
    ensures collision.collisions == SetAll(old(collision.collisions), ids)
  {
    for k := 0 to |ids|
      invariant collision.Valid()
      invariant SetAll(old(collision.collisions), ids) == SetAll(collision.collisions, ids[k..])
    {
      assert ids[k..][1..] == ids[k + 1..];
      collision.SetCollisionWith(ids[k]);
    }
    assert ids[|ids|..] == [];
  }

  /** The grid has one rectangle per `Collision` entity, found by its id. */
  lemma TickGridRectById(positions: seq<Vector>, sizes: seq<Option<Vector>>, present: seq<bool>, i: Index)
    requires |positions| == |sizes| == |present|
    requires i < |present|
    ensures present[i] ==> TickGrid(positions, sizes, present).RectById(i) == Some(EntityRect(positions, sizes, i))
    ensures !present[i] ==> TickGrid(positions, sizes, present).RectById(i).None?
  {
    var g := TickGrid(positions, sizes, present);
    if present[i] {
      var k :| 0 <= k < |g.rects| && g.rects[k].id == i;
      RectByIdOfDistinct(g, k);
    }
  }

  /** Marking a list of ids leaves each of them refreshed and not `Leave`. */
  lemma {:induction false} SetAllMarks(m: Entries, ids: seq<Index>, o: Index)
    requires o in ids
    ensures o in SetAll(m, ids)
    ensures SetAll(m, ids)[o].setCollisionThisFrame
    ensures SetAll(m, ids)[o].state in {Enter, Steady}
    decreases |ids|
  {
    if ids[0] == o {
      if o in ids[1..] {
        SetAllMarks(SetCollision(m, ids[0]), ids[1..], o);
      } else {
        assert forall k :: 0 <= k < |ids[1..]| ==> ids[1..][k] != o;
      }
    } else {
      SetAllMarks(SetCollision(m, ids[0]), ids[1..], o);
    }
  }

  /** Two `Collision` entities overlap exactly when each finds the other in the grid. */
  lemma OverlapIsFound(positions: seq<Vector>, sizes: seq<Option<Vector>>, present: seq<bool>, i: Index, o: Index)
    requires |positions| == |sizes| == |present|
    requires i < |present| && o < |present| && present[i] && present[o]
    ensures o in Ids(TickGrid(positions, sizes, present).CollidingWithId(i)) <==>
      DoRectsCollide(EntityRect(positions, sizes, i), EntityRect(positions, sizes, o))
  {
    var g := TickGrid(positions, sizes, present);
    TickGridRectById(positions, sizes, present, i);
    var target := EntityRect(positions, sizes, i);
    var found := g.CollidingWith(target);
    if DoRectsCollide(target, EntityRect(positions, sizes, o)) {
      var k :| 0 <= k < |g.rects| && g.rects[k].id == o;
      assert g.rects[k] in found;
      var q :| 0 <= q < |found| && found[q] == g.rects[k];
      assert Ids(found)[q] == o;
    }
    if o in Ids(found) {
      var q :| 0 <= q < |found| && Ids(found)[q] == o;
      assert found[q] in g.rects;
    }
  }

  /** No entity ever records a collision with itself. */
  lemma TickNeverRecordsSelf(positions: seq<Vector>, sizes: seq<Option<Vector>>, present: seq<bool>, m: Entries, i: Index)
    requires |positions| == |sizes| == |present|
    requires i !in m
    ensures i !in Tick(TickGrid(positions, sizes, present), m, i)
  {
  }

  /** After a tick, an entity is in collision with every entity overlapping it this tick. */
  lemma OverlapIsInCollisionAfterTick(positions: seq<Vector>, sizes: seq<Option<Vector>>, present: seq<bool>, m: Entries, i: Index, o: Index)
    requires |positions| == |sizes| == |present|
    requires i < |present| && o < |present| && present[i] && present[o]
    requires DoRectsCollide(EntityRect(positions, sizes, i), EntityRect(positions, sizes, o))
    ensures var m' := Tick(TickGrid(positions, sizes, present), m, i);
      o in m' && m'[o].state != Leave && !m'[o].setCollisionThisFrame
  {
    var g := TickGrid(positions, sizes, present);
    OverlapIsFound(positions, sizes, present, i, o);
    SetAllMarks(m, Ids(g.CollidingWithId(i)), o);
  }

  /** If entity `i` records `o` this tick then `o` records `i`: overlap is symmetric. */
  lemma RecordingIsMutual(positions: seq<Vector>, sizes: seq<Option<Vector>>, present: seq<bool>, i: Index, o: Index)
    requires |positions| == |sizes| == |present|
    requires i < |present| && o < |present| && present[i] && present[o]
    ensures var g := TickGrid(positions, sizes, present);
      o in Ids(g.CollidingWithId(i)) <==> i in Ids(g.CollidingWithId(o))
  {
    OverlapIsFound(positions, sizes, present, i, o);
    OverlapIsFound(positions, sizes, present, o, i);
    CollideSymmetric(EntityRect(positions, sizes, i), EntityRect(positions, sizes, o));
  }
}
