/**
 * `CollisionGrid<T>` (src/geo/collision/collision_grid.rs): an immutable list of
 * rectangles answering overlap queries. The iterator adaptors of the
 * source (`find`, `any`, `filter`) are modelled by recursion over the list.
 */
module CollisionGrids {
  import opened Wrappers
  import opened Geo
  import opened CollisionRects

  /**
   * `CollisionGrid::do_rects_collide`: distinct ids, and the horizontal and
   * the vertical extents overlap, each a disjunction of two half-open cases.
   */
  predicate DoRectsCollide<T>(one: CollisionRect<T>, two: CollisionRect<T>)
  {
    one.id != two.id &&
    ((one.left >= two.left && one.left < two.right) ||
     (one.left <= two.left && one.right > two.left)) &&
    ((one.top <= two.top && one.top > two.bottom) ||
     (one.top >= two.top && one.bottom < two.top))
  }

  /** `k` is the first position of `rects` holding a rectangle with `id`. */
  ghost predicate FirstWithId<T>(rects: seq<CollisionRect<T>>, k: int, id: Index)
  {
    0 <= k < |rects| && rects[k].id == id &&
    forall j :: 0 <= j < k ==> rects[j].id != id
  }

  /** A first position in the tail is a first position in the whole list when the head does not match. */
  lemma FirstWithIdInTail<T>(rects: seq<CollisionRect<T>>, k: int, id: Index)
    requires |rects| > 0 && rects[0].id != id && FirstWithId(rects[1..], k, id)
    ensures FirstWithId(rects, k + 1, id) && rects[k + 1] == rects[1..][k]
  {
    forall j | 0 <= j < k + 1 ensures rects[j].id != id {
      if j > 0 {
        assert rects[j] == rects[1..][j - 1];
      }
    }
  }

  datatype CollisionGrid<T> = CollisionGrid(rects: seq<CollisionRect<T>>) {

    /** `rect_by_id`: the first rectangle carrying `id`, if any. */
    function RectById(id: Index): (r: Option<CollisionRect<T>>)
      ensures r.None? <==> forall i :: 0 <= i < |rects| ==> rects[i].id != id
      ensures r.Some? ==> exists k :: FirstWithId(rects, k, id) && rects[k] == r.value
      decreases |rects|
    {
      if |rects| == 0 then None
      else if rects[0].id == id then
        assert FirstWithId(rects, 0, id);
        Some(rects[0])
      else
        var r := CollisionGrid(rects[1..]).RectById(id);
        assert r.Some? ==> exists k :: FirstWithId(rects, k, id) && rects[k] == r.value by {
          if r.Some? {
            var k :| FirstWithId(rects[1..], k, id) && rects[1..][k] == r.value;
            FirstWithIdInTail(rects, k, id);
          }
        }
        r
    }

    /** `collides_any`: some rectangle of the grid collides with `target`. */
    function CollidesAny(target: CollisionRect<T>): (b: bool)
      ensures b <==> exists i :: 0 <= i < |rects| && DoRectsCollide(target, rects[i])
      decreases |rects|
    {
      if |rects| == 0 then false
      else if DoRectsCollide(target, rects[0]) then true
      else
        var b := CollisionGrid(rects[1..]).CollidesAny(target);
        assert forall i :: 1 <= i < |rects| ==> rects[i] == rects[1..][i - 1];
        b
    }

    /**
     * `colliding_with`: the rectangles of the grid colliding with `target`.
     * Order is stated by `CollidingWithConcat`.
     */
    function CollidingWith(target: CollisionRect<T>): (r: seq<CollisionRect<T>>)
      ensures |r| <= |rects|
      ensures forall i :: 0 <= i < |r| ==> r[i] in rects && DoRectsCollide(target, r[i])
      ensures forall i :: 0 <= i < |rects| && DoRectsCollide(target, rects[i]) ==> rects[i] in r
      decreases |rects|
    {
      if |rects| == 0 then []
      else
        var tail := CollisionGrid(rects[1..]).CollidingWith(target);
        assert forall i :: 1 <= i < |rects| ==> rects[i] == rects[1..][i - 1];
        if DoRectsCollide(target, rects[0]) then [rects[0]] + tail else tail
    }

    /** `colliding_with_id`: what collides with the rectangle of `id`, or nothing. */
    function CollidingWithId(id: Index): (r: seq<CollisionRect<T>>)
      ensures RectById(id).None? ==> r == []
      ensures RectById(id).Some? ==> r == CollidingWith(RectById(id).value)
      ensures forall i :: 0 <= i < |r| ==> r[i] in rects && r[i].id != id
    {
      match RectById(id)
      case Some(target) => CollidingWith(target)
      case None => []
    }
  }

  /** `CollisionGrid::new`. */
  function NewGrid<T>(rects: seq<CollisionRect<T>>): (g: CollisionGrid<T>)
    ensures g.rects == rects
  {
    CollisionGrid(rects)
  }

  /** `From<Vec<(Index, Vector, Option<Vector>)>>`: one rectangle per tuple, in order. */
  function FromTuples<T>(data: seq<(Index, Vector, Option<Vector>)>): (g: CollisionGrid<T>)
    ensures |g.rects| == |data|
    ensures forall i :: 0 <= i < |data| ==>
      g.rects[i].id == data[i].0 && g.rects[i].custom == None &&
      CentredOn(g.rects[i], data[i].1, data[i].2)
  {
    CollisionGrid(seq(|data|, i requires 0 <= i < |data| => FromTriple(data[i])))
  }

  /**
   * The same conversion from 4-tuples with custom data, used by the movement
   * system (src/systems/move_entities.rs:78-102).
   */
  function FromCustomTuples<T>(data: seq<(Index, Vector, Option<Vector>, Option<T>)>): (g: CollisionGrid<T>)
    ensures |g.rects| == |data|
    ensures forall i :: 0 <= i < |data| ==>
      g.rects[i].id == data[i].0 && g.rects[i].custom == data[i].3 &&
      CentredOn(g.rects[i], data[i].1, data[i].2)
  {
    CollisionGrid(seq(|data|, i requires 0 <= i < |data| => FromQuad(data[i])))
  }

  // ---------------------------------------------------------------------
  // Properties of the overlap predicate

  /** A rectangle never collides with one carrying the same id, itself included. */
  lemma SameIdNeverCollides<T>(a: CollisionRect<T>, b: CollisionRect<T>)
    requires a.id == b.id
    ensures !DoRectsCollide(a, b)
  {
  }

  /** The overlap predicate is symmetric. */
  lemma CollideSymmetric<T>(a: CollisionRect<T>, b: CollisionRect<T>)
    ensures DoRectsCollide(a, b) == DoRectsCollide(b, a)
  {
  }

  /** Rectangles with positive extents that only share an edge do not collide. */
  lemma EdgeTouchingDoesNotCollide<T>(a: CollisionRect<T>, b: CollisionRect<T>)
    requires a.left < a.right && b.left < b.right
    requires a.bottom < a.top && b.bottom < b.top
    requires a.right == b.left || b.right == a.left || a.bottom == b.top || b.bottom == a.top
    ensures !DoRectsCollide(a, b)
  {
  }

  /** Two point rectangles never collide, wherever they are. */
  lemma PointsNeverCollide<T>(a: CollisionRect<T>, b: CollisionRect<T>)
    requires a.left == a.right && a.top == a.bottom
    requires b.left == b.right && b.top == b.bottom
    ensures !DoRectsCollide(a, b)
  {
  }

  /** For rectangles with positive extents the predicate is strict overlap with distinct ids. */
  lemma CollideIsStrictOverlap<T>(a: CollisionRect<T>, b: CollisionRect<T>)
    requires a.left < a.right && b.left < b.right
    requires a.bottom < a.top && b.bottom < b.top
    ensures DoRectsCollide(a, b) <==>
      a.id != b.id && a.left < b.right && b.left < a.right && a.bottom < b.top && b.bottom < a.top
  {
  }

  // ---------------------------------------------------------------------
  // Properties of the queries

  /** `collides_any` holds exactly when `colliding_with` is non-empty. */
  lemma {:induction false} CollidesAnyIffColliding<T>(g: CollisionGrid<T>, target: CollisionRect<T>)
    ensures g.CollidesAny(target) <==> g.CollidingWith(target) != []
    decreases |g.rects|
  {
    if |g.rects| > 0 {
      CollidesAnyIffColliding(CollisionGrid(g.rects[1..]), target);
    }
  }

  /** `colliding_with` keeps grid order: it distributes over concatenation of grids. */
  lemma {:induction false} CollidingWithConcat<T>(a: seq<CollisionRect<T>>, b: seq<CollisionRect<T>>, target: CollisionRect<T>)
    ensures CollisionGrid(a + b).CollidingWith(target) ==
            CollisionGrid(a).CollidingWith(target) + CollisionGrid(b).CollidingWith(target)
    decreases |a|
  {
    if |a| > 0 {
      assert (a + b)[1..] == a[1..] + b;
      CollidingWithConcat(a[1..], b, target);
    } else {
      assert a + b == b;
    }
  }

  /** A single rectangle is kept exactly when it collides with the target. */
  lemma CollidingWithSingle<T>(x: CollisionRect<T>, target: CollisionRect<T>)
    ensures CollisionGrid([x]).CollidingWith(target) == if DoRectsCollide(target, x) then [x] else []
  {
    assert [x][1..] == [];
  }

  /** With distinct ids, `rect_by_id` of the id at position `k` is the rectangle at `k`. */
  lemma RectByIdOfDistinct<T>(g: CollisionGrid<T>, k: int)
    requires 0 <= k < |g.rects|
    requires forall i, j :: 0 <= i < j < |g.rects| ==> g.rects[i].id != g.rects[j].id
    ensures g.RectById(g.rects[k].id) == Some(g.rects[k])
  {
    var r := g.RectById(g.rects[k].id);
    var m :| FirstWithId(g.rects, m, g.rects[k].id) && g.rects[m] == r.value;
    assert !(m < k) && !(k < m);
  }
}
