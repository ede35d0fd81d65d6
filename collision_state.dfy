/**
 * The per-entity collision component (src/components/collision.rs): a map from
 * the id of another entity to the state of the collision with it, refreshed by
 * `set_collision_with` and aged once per tick by `update`.
 */
module CollisionState {
  import Wrappers
  import opened Geo

  datatype State = Enter | Leave | Steady | None

  datatype Data = Data(state: State, setCollisionThisFrame: bool) {

    /** `Data::should_remove`: the entry is staged for removal. */
    predicate ShouldRemove()
    {
      state == None
    }

    /** `Data::unset`: `Leave` is staged for removal, every other state becomes `Leave`. */
    function Unset(): (d: Data)
      ensures d.setCollisionThisFrame == setCollisionThisFrame
      ensures d.ShouldRemove() <==> state == Leave
      ensures !d.ShouldRemove() ==> d.state == Leave
    {
      match state
      case Leave => this.(state := None)
      case _ => this.(state := Leave)
    }
  }

  type Entries = map<Index, Data>

  /** No stored entry is staged for removal: `update` removes those at once. */
  ghost predicate NoStaleEntries(m: Entries)
  {
    forall k :: k in m ==> m[k].state != None
  }

  /** The map after `set_collision_with(id)`. */
  function SetCollision(m: Entries, id: Index): (m': Entries)
    ensures m'.Keys == m.Keys + {id}
    ensures m'[id].setCollisionThisFrame
    ensures id !in m ==> m'[id].state == Enter
    ensures id in m && m[id].state == Leave ==> m'[id].state == Enter
    ensures id in m && m[id].state != Leave ==> m'[id].state == Steady
    ensures forall k :: k in m && k != id ==> m'[k] == m[k]
  {
    if id in m then
      m[id := Data(if m[id].state == Leave then Enter else Steady, true)]
    else
      m[id := Data(Enter, true)]
  }

  /** What `update` does to one entry before the removal pass. */
  function Age(d: Data): (r: Data)
    ensures !r.setCollisionThisFrame
    ensures d.setCollisionThisFrame ==> r.state == d.state
    ensures !d.setCollisionThisFrame ==> r == d.Unset()
  {
    if d.setCollisionThisFrame then d.(setCollisionThisFrame := false) else d.Unset()
  }

  /** `update` removes an entry when it was not refreshed this frame and ageing staged it. */
  predicate Removed(d: Data)
  {
    !d.setCollisionThisFrame && Age(d).ShouldRemove()
  }

  /** The map after `update`. */
  function Updated(m: Entries): (m': Entries)
    ensures m'.Keys <= m.Keys
    ensures forall k :: k in m' ==> !m'[k].setCollisionThisFrame
    ensures forall k :: k in m && m[k].setCollisionThisFrame ==> k in m' && m'[k].state == m[k].state
    ensures forall k :: k in m && !m[k].setCollisionThisFrame && m[k].state != Leave ==>
      k in m' && m'[k].state == Leave
    ensures forall k :: k in m && !m[k].setCollisionThisFrame && m[k].state == Leave ==> k !in m'
  {
    map k | k in m && !Removed(m[k]) :: Age(m[k])
  }

  /** `set_collision_with` keeps the map free of stale entries. */
  lemma SetCollisionKeepsNoStale(m: Entries, id: Index)
    requires NoStaleEntries(m)
    ensures NoStaleEntries(SetCollision(m, id))
  {
  }

  /** `update` keeps the map free of stale entries. */
  lemma UpdatedHasNoStale(m: Entries)
    requires NoStaleEntries(m)
    ensures NoStaleEntries(Updated(m))
  {
  }

  /**
   * Lifecycle of one entry: set once, then three updates with no further set.
   * After the first update the state is `Enter` (new entry) or `Steady`
   * (an ongoing one), after the second `Leave`, after the third it is gone.
   */
  lemma SetThenThreeUpdates(m: Entries, id: Index)
    requires NoStaleEntries(m)
    ensures var m1 := Updated(SetCollision(m, id));
      id in m1 && m1[id].state == (if id in m && m[id].state != Leave then Steady else Enter)
    ensures id in Updated(Updated(SetCollision(m, id))) &&
      Updated(Updated(SetCollision(m, id)))[id].state == Leave
    ensures id !in Updated(Updated(Updated(SetCollision(m, id))))
  {
    var m1 := Updated(SetCollision(m, id));
    var m2 := Updated(m1);
    assert id in m2 && m2[id].state == Leave;
  }

  /** Re-collision during `Leave` resets the entry to `Enter`, not `Steady`. */
  lemma ReCollisionResetsToEnter(m: Entries, id: Index)
    requires id in m && m[id].state == Leave
    ensures Updated(SetCollision(m, id))[id].state == Enter
  {
  }

  class Collision {
    var collisions: Entries

    ghost predicate Valid()
      reads this
    {
      NoStaleEntries(collisions)
    }

    /** `Collision::new`: no collisions. */
    constructor ()
      ensures Valid() && collisions == map[]
    {
      collisions := map[];
    }

    /** `in_collision`: some entry is stored, `Leave` entries included. */
    function InCollision(): (b: bool)
      reads this
      ensures b <==> exists k :: k in collisions
    {
      assert |collisions| == 0 ==> collisions == map[];
      |collisions| != 0
    }

    /** `collision_with`: the raw entry for `id`. */
    function CollisionWith(id: Index): (r: Wrappers.Option<Data>)
      reads this
      ensures r.Some? <==> id in collisions
      ensures r.Some? ==> r.value == collisions[id]
    {
      if id in collisions then Wrappers.Some(collisions[id]) else Wrappers.None
    }

    /** `in_collision_with`: an entry for `id` is stored and it is not `Leave`. */
    function InCollisionWith(id: Index): (b: bool)
      reads this
      ensures b <==> CollisionWith(id).Some? && CollisionWith(id).value.state != Leave
    {
      id in collisions && collisions[id].state != Leave
    }

    /** `set_collision_with`: marks `id` as colliding this frame. */
    method SetCollisionWith(id: Index)
      requires Valid()
      modifies this
      ensures Valid()
      ensures collisions == SetCollision(old(collisions), id)
    {
      if id in collisions {
        var data := collisions[id];
        var state := match data.state
          case Leave => Enter
          case _ => Steady;
        collisions := collisions[id := data.(state := state, setCollisionThisFrame := true)];
      } else {
        collisions := collisions[id := Data(Enter, true)];
      }
    }

    /**
     * `update`: one pass over the entries ages each of them and collects the
     * ids staged for removal, a second pass removes those ids.
     */
    method Update()
      requires Valid()
      modifies this
      ensures Valid()
      ensures collisions == Updated(old(collisions))
    {
      var toRemove := AgeAll();
      RemoveAll(toRemove);
      assert collisions == Updated(old(collisions));
    }

    /** The first pass of `update`: ages every entry and lists the ids staged for removal. */
    method AgeAll() returns (toRemove: seq<Index>)
      modifies this
      ensures collisions == map k | k in old(collisions) :: Age(old(collisions)[k])
      ensures forall k :: k in toRemove <==> k in old(collisions) && Removed(old(collisions)[k])
    {
      toRemove := [];
      var pending := collisions.Keys;
      while pending != {}
        invariant pending <= collisions.Keys == old(collisions).Keys
        invariant forall k :: k in pending ==> collisions[k] == old(collisions)[k]
        invariant forall k :: k in collisions && k !in pending ==> collisions[k] == Age(old(collisions)[k])
        invariant forall k :: k in toRemove <==> k in collisions && k !in pending && Removed(old(collisions)[k])
        decreases pending
      {
        var id :| id in pending;
        var data := collisions[id];
        if data.setCollisionThisFrame {
          collisions := collisions[id := data.(setCollisionThisFrame := false)];
        } else {
          data := data.Unset();
          collisions := collisions[id := data];
          if data.ShouldRemove() {
            toRemove := toRemove + [id];
          }
        }
        pending := pending - {id};
      }
    }

    /** The second pass of `update`: removes every listed id. */
    method RemoveAll(toRemove: seq<Index>)
      modifies this
      ensures collisions == old(collisions) - set i | 0 <= i < |toRemove| :: toRemove[i]
    {
      var j := 0;
      while j < |toRemove|
        invariant 0 <= j <= |toRemove|
        invariant collisions == old(collisions) - set i | 0 <= i < j :: toRemove[i]
      {
        collisions := collisions - {toRemove[j]};
        j := j + 1;
      }
    }
  }
}
