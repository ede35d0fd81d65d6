/**
 * `CollisionRect<T>` (src/geo/collision/collision_rect.rs): an axis-aligned
 * rectangle owned by an entity, with optional custom data.
 */
module CollisionRects {
  import opened Wrappers
  import opened Geo

  datatype CollisionRect<T> = CollisionRect(
    id: Index,
    top: real,
    bottom: real,
    left: real,
    right: real,
    custom: Option<T>)

  /** Width of the optional size: the size's width, or 0 for a point. */
  function WidthOf(sizeOpt: Option<Vector>): real
  {
    if sizeOpt.Some? then sizeOpt.value.0 else 0.0
  }

  /** Height of the optional size: the size's height, or 0 for a point. */
  function HeightOf(sizeOpt: Option<Vector>): real
  {
    if sizeOpt.Some? then sizeOpt.value.1 else 0.0
  }

  /** The rectangle is centred on `position` with exactly the extents of `sizeOpt`. */
  ghost predicate CentredOn<T>(r: CollisionRect<T>, position: Vector, sizeOpt: Option<Vector>)
  {
    (r.left + r.right) / 2.0 == position.0 && r.right - r.left == WidthOf(sizeOpt) &&
    (r.bottom + r.top) / 2.0 == position.1 && r.top - r.bottom == HeightOf(sizeOpt)
  }

  /** `CollisionRect::with_custom`. */
  function WithCustom<T>(id: Index, position: Vector, sizeOpt: Option<Vector>, custom: Option<T>): (r: CollisionRect<T>)
    ensures r.id == id && r.custom == custom
    ensures CentredOn(r, position, sizeOpt)
    ensures sizeOpt.None? ==> r.left == r.right == position.0 && r.bottom == r.top == position.1
  {
    if sizeOpt.Some? then
      var size := sizeOpt.value;
      CollisionRect(id,
        position.1 + size.1 * 0.5,
        position.1 - size.1 * 0.5,
        position.0 - size.0 * 0.5,
        position.0 + size.0 * 0.5,
        custom)
    else
      CollisionRect(id, position.1, position.1, position.0, position.0, custom)
  }

  /** `CollisionRect::new`: no custom data. */
  function New<T>(id: Index, position: Vector, sizeOpt: Option<Vector>): (r: CollisionRect<T>)
    ensures r.id == id && r.custom == None
    ensures CentredOn(r, position, sizeOpt)
  {
    WithCustom(id, position, sizeOpt, None)
  }

  /** `From<(Index, Vector, Option<Vector>)>`. */
  function FromTriple<T>(data: (Index, Vector, Option<Vector>)): (r: CollisionRect<T>)
    ensures r.id == data.0 && r.custom == None
    ensures CentredOn(r, data.1, data.2)
  {
    New(data.0, data.1, data.2)
  }

  /** `From<(Index, Vector, Option<Vector>, Option<T>)>`. */
  function FromQuad<T>(data: (Index, Vector, Option<Vector>, Option<T>)): (r: CollisionRect<T>)
    ensures r.id == data.0 && r.custom == data.3
    ensures CentredOn(r, data.1, data.2)
  {
    WithCustom(data.0, data.1, data.2, data.3)
  }

  /**
   * A centred rectangle with a non-negative size is well formed: its
   * edges are ordered and the sides are exactly the size.
   */
  lemma SizedRectIsOrdered<T>(id: Index, position: Vector, size: Vector, custom: Option<T>)
    requires size.0 >= 0.0 && size.1 >= 0.0
    ensures var r := WithCustom(id, position, Some(size), custom);
      r.left <= r.right && r.bottom <= r.top &&
      r.right - r.left == size.0 && r.top - r.bottom == size.1 &&
      r.left == position.0 - size.0 / 2.0 && r.top == position.1 + size.1 / 2.0
  {
  }

  /** `new` is `with_custom` without custom data. */
  lemma NewIsWithCustomNone<T>(id: Index, position: Vector, sizeOpt: Option<Vector>)
    ensures New<T>(id, position, sizeOpt) == WithCustom(id, position, sizeOpt, None)
  {
  }

  /** Only the custom data tells `with_custom` results apart. */
  lemma WithCustomDiffersOnlyInCustom<T>(id: Index, position: Vector, sizeOpt: Option<Vector>, a: Option<T>, b: Option<T>)
    ensures WithCustom(id, position, sizeOpt, a) == WithCustom(id, position, sizeOpt, b).(custom := a)
  {
  }
}
