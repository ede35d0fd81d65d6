/**
 * The older, non-generic collision types (src/geo/collision.rs): a rectangle
 * without custom data and a grid answering only `collides_any`. It is related
 * to the generic version by `ToGeneric`.
 */
module LegacyCollision {
  import opened Wrappers
  import opened Geo
  import CollisionRects
  import CollisionGrids

  datatype CollisionRect = CollisionRect(id: Index, top: real, bottom: real, left: real, right: real)

  /** `CollisionRect::new`: centred on `position`, a point when there is no size. */
  function New(id: Index, position: Vector, sizeOpt: Option<Vector>): (r: CollisionRect)
    ensures r.id == id
    ensures (r.left + r.right) / 2.0 == position.0 && r.right - r.left == CollisionRects.WidthOf(sizeOpt)
    ensures (r.bottom + r.top) / 2.0 == position.1 && r.top - r.bottom == CollisionRects.HeightOf(sizeOpt)
    ensures sizeOpt.None? ==> r.left == r.right == position.0 && r.bottom == r.top == position.1
  {
    if sizeOpt.Some? then
      var size := sizeOpt.value;
      CollisionRect(id,
        position.1 + size.1 * 0.5,
        position.1 - size.1 * 0.5,
        position.0 - size.0 * 0.5,
        position.0 + size.0 * 0.5)
    else
      CollisionRect(id, position.1, position.1, position.0, position.0)
  }

  /** `From<(Index, Vector, Option<Vector>)> for CollisionRect`. */
  function FromTriple(data: (Index, Vector, Option<Vector>)): (r: CollisionRect)
    ensures r.id == data.0
    ensures (r.left + r.right) / 2.0 == data.1.0 && r.right - r.left == CollisionRects.WidthOf(data.2)
    ensures (r.bottom + r.top) / 2.0 == data.1.1 && r.top - r.bottom == CollisionRects.HeightOf(data.2)
  {
    New(data.0, data.1, data.2)
  }

  /** `CollisionGrid::do_rects_collide` of the older grid. */
  predicate DoRectsCollide(one: CollisionRect, two: CollisionRect)
  {
    one.id != two.id &&
    ((one.left >= two.left && one.left < two.right) ||
     (one.left <= two.left && one.right > two.left)) &&
    ((one.top <= two.top && one.top > two.bottom) ||
     (one.top >= two.top && one.bottom < two.top))
  }

  datatype CollisionGrid = CollisionGrid(rects: seq<CollisionRect>) {

    /** `collides_any`: some stored rectangle collides with `target`. */
    function CollidesAny(target: CollisionRect): (b: bool)
      ensures b <==> exists i :: 0 <= i < |rects| && DoRectsCollide(target, rects[i])
      decreases |rects|
    {
      if |rects| == 0 then false
      else if DoRectsCollide(target, rects[0]) then true
      else
        var b := CollisionGrid(rects[1..]).CollidesAny(target);
        assert forall i :: 1 <= i < |rects| ==> rects[i] == rects[1..][i - 1];
        b
    }
  }

  /** `From<Vec<(Index, Vector, Option<Vector>)>> for CollisionGrid`: one rectangle per tuple, in order. */
  function FromTuples(data: seq<(Index, Vector, Option<Vector>)>): (g: CollisionGrid)
    ensures |g.rects| == |data|
    ensures forall i :: 0 <= i < |data| ==> g.rects[i] == New(data[i].0, data[i].1, data[i].2)
  {
    CollisionGrid(seq(|data|, i requires 0 <= i < |data| => FromTriple(data[i])))
  }

  /** The generic rectangle with the same id and edges and no custom data. */
  function ToGeneric<T>(r: CollisionRect): CollisionRects.CollisionRect<T>
  {
    CollisionRects.CollisionRect(r.id, r.top, r.bottom, r.left, r.right, None)
  }

  /** The generic grid holding the same rectangles in the same order. */
  function GridToGeneric<T>(g: CollisionGrid): (h: CollisionGrids.CollisionGrid<T>)
    ensures |h.rects| == |g.rects|
    ensures forall i :: 0 <= i < |g.rects| ==> h.rects[i] == ToGeneric(g.rects[i])
  {
    CollisionGrids.CollisionGrid(seq(|g.rects|, i requires 0 <= i < |g.rects| => ToGeneric(g.rects[i])))
  }

  /** The older constructor builds the same rectangle as the generic `new`. */
  lemma NewAgreesWithGeneric<T>(id: Index, position: Vector, sizeOpt: Option<Vector>)
    ensures ToGeneric<T>(New(id, position, sizeOpt)) == CollisionRects.New(id, position, sizeOpt)
  {
  }

  /** The older predicate is the generic predicate; in particular same ids never collide. */
  lemma CollideAgreesWithGeneric<T>(a: CollisionRect, b: CollisionRect)
    ensures DoRectsCollide(a, b) == CollisionGrids.DoRectsCollide<T>(ToGeneric(a), ToGeneric(b))
    ensures a.id == b.id ==> !DoRectsCollide(a, b)
    ensures DoRectsCollide(a, b) == DoRectsCollide(b, a)
  {
  }

  /** The older `collides_any` answers as the generic one on the same rectangles. */
  lemma {:induction false} CollidesAnyAgreesWithGeneric<T>(g: CollisionGrid, target: CollisionRect)
    ensures g.CollidesAny(target) == GridToGeneric<T>(g).CollidesAny(ToGeneric(target))
  {
    var h := GridToGeneric<T>(g);
    if g.CollidesAny(target) {
      var i :| 0 <= i < |g.rects| && DoRectsCollide(target, g.rects[i]);
      CollideAgreesWithGeneric<T>(target, g.rects[i]);
      assert CollisionGrids.DoRectsCollide(ToGeneric<T>(target), h.rects[i]);
    } else if h.CollidesAny(ToGeneric(target)) {
      var i :| 0 <= i < |h.rects| && CollisionGrids.DoRectsCollide(ToGeneric<T>(target), h.rects[i]);
      CollideAgreesWithGeneric<T>(target, g.rects[i]);
      assert false;
    }
  }
}
