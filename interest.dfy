/** Points of interest (interest.go): while the player overlaps an entity of
    interest and confirms (the A button just pressed, or a left mouse
    press), that entity's InterestFunc runs. The callbacks are scene
    closures; here each one is named by a number, a nil callback is `None`,
    and a frame returns the names of the callbacks it runs, in entity
    order, for the caller to run. */
module Interests {
  import opened Common

  /** An interest entity: its id, the Collides flags the collision system
      writes, and its InterestFunc. */
  class InterestEntity {
    const id: nat
    const action: Option<nat>
    var collides: bv8

    constructor (id: nat, action: Option<nat>)
      ensures this.id == id && this.action == action && collides == 0
    {
      this.id, this.action, collides := id, action, 0;
    }
  }

  /** The frame's confirm input (interest.go:94). */
  predicate Confirmed(aJustPressed: bool, leftPress: bool)
  {
    aJustPressed || leftPress
  }

  /** The player overlaps the entity (interest.go:93). */
  predicate Overlapped(e: InterestEntity)
    reads e`collides
  {
    e.collides & CollisionGroupInterest != 0
  }

  /** The entity's callback runs on a frame with this input (interest.go:93-97). */
  predicate Fires(e: InterestEntity, confirmed: bool)
    reads e`collides
  {
    Overlapped(e) && confirmed && e.action.Some?
  }

  function Objects(es: seq<InterestEntity>): set<InterestEntity>
  {
    set e | e in es
  }

  /** The callbacks the first n entities run, in entity order. */
  function Fired(es: seq<InterestEntity>, confirmed: bool, n: nat): (r: seq<nat>)
    requires n <= |es|
    reads Objects(es)`collides
    ensures |r| <= n
  {
    if n == 0 then []
    else
      Fired(es, confirmed, n - 1)
      + if Fires(es[n - 1], confirmed) then [es[n - 1].action.value] else []
  }

  /** A callback runs exactly when it belongs to an entity the player
      overlaps on a confirmed frame; a nil callback never runs. */
  lemma {:induction false} FiredSpec(es: seq<InterestEntity>, confirmed: bool, n: nat, x: nat)
    requires n <= |es|
    ensures x in Fired(es, confirmed, n) <==>
              exists i :: 0 <= i < n && Fires(es[i], confirmed) && es[i].action == Some(x)
  {
    if n > 0 {
      FiredSpec(es, confirmed, n - 1, x);
      if Fires(es[n - 1], confirmed) && es[n - 1].action == Some(x) {
        assert x in Fired(es, confirmed, n);
      }
    }
  }

  /** Without a confirm nothing runs, whatever the player overlaps. */
  lemma {:induction false} NothingFiresUnconfirmed(es: seq<InterestEntity>, n: nat)
    requires n <= |es|
    ensures Fired(es, false, n) == []
  {
    if n > 0 {
      NothingFiresUnconfirmed(es, n - 1);
    }
  }

  /** Each entity runs its callback at most once a frame: when every entity
      overlapped on a confirmed frame has a callback, one runs per such
      entity. */
  lemma {:induction false} OneRunPerEntity(es: seq<InterestEntity>, n: nat)
    requires n <= |es|
    requires forall i :: 0 <= i < n ==> es[i].action.Some?
    ensures |Fired(es, true, n)| == |set i | 0 <= i < n && Overlapped(es[i])|
  {
    if n > 0 {
      OneRunPerEntity(es, n - 1);
      var before := set i | 0 <= i < n - 1 && Overlapped(es[i]);
      var after := set i | 0 <= i < n && Overlapped(es[i]);
      if Overlapped(es[n - 1]) {
        assert after == before + {n - 1};
      } else {
        assert after == before;
      }
    }
  }

  class InterestSystem {
    var entities: seq<InterestEntity>
    var skipNextFrame: bool
    var paused: bool

    constructor ()
      ensures entities == [] && !skipNextFrame && !paused
    {
      entities, skipNextFrame, paused := [], false, false;
    }

    /** interest.go:59-61 */
    method Add(e: InterestEntity)
      modifies this`entities
      ensures entities == old(entities) + [e]
    {
      entities := entities + [e];
    }

    /** Only entities with collision and interest components join
        (interest.go:63-69). */
    method AddByInterface(asInterest: Option<InterestEntity>)
      modifies this`entities
      ensures entities == old(entities) + (if asInterest.Some? then [asInterest.value] else [])
    {
      if asInterest.Some? {
        Add(asInterest.value);
      }
    }

    /** The first entity with the id leaves, the rest keep their order
        (interest.go:71-82). */
    method Remove(id: nat)
      modifies this`entities
      ensures entities == RemoveFirstWhere(old(entities), (e: InterestEntity) => e.id == id)
    {
      var d := FindFirst(entities, (e: InterestEntity) => e.id == id);
      if d >= 0 {
        entities := entities[..d] + entities[d + 1..];
      }
    }

    /** One frame (interest.go:84-101): a skipped frame only clears the
        flag, a paused one does nothing; otherwise the callbacks of the
        overlapped entities run, in order, on a confirmed frame. */
    method Update(aJustPressed: bool, leftPress: bool) returns (fired: seq<nat>)
      modifies this`skipNextFrame
      ensures old(skipNextFrame) ==> !skipNextFrame && fired == []
      ensures !old(skipNextFrame) && paused ==> fired == []
      ensures !old(skipNextFrame) && !paused ==>
                fired == Fired(entities, Confirmed(aJustPressed, leftPress), |entities|)
    {
      fired := [];
      if skipNextFrame {
        skipNextFrame := false;
        return;
      }
      if paused {
        return;
      }
      fired := RunAll(Confirmed(aJustPressed, leftPress));
    }

    /** The loop over the entities (interest.go:92-100). */
    method RunAll(confirmed: bool) returns (fired: seq<nat>)
      ensures fired == Fired(entities, confirmed, |entities|)
    {
      fired := [];
      for i := 0 to |entities|
        invariant fired == Fired(entities, confirmed, i)
      {
        var e := entities[i];
        if e.collides & CollisionGroupInterest != 0 {
          if confirmed {
            if e.action.Some? {
              fired := fired + [e.action.value];
            }
          }
        }
      }
    }

    /** interest.go:103-105 */
    method Pause()
      modifies this`paused
      ensures paused && skipNextFrame == old(skipNextFrame)
    {
      paused := true;
    }

    /** interest.go:107-110 */
    method Unpause()
      modifies this`paused, this`skipNextFrame
      ensures !paused && skipNextFrame
    {
      paused, skipNextFrame := false, true;
    }
  }
}
