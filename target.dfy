/** Target selection (target.go): the system keeps one entry per character
    and one per baddie; a frame looks up the character whose card is
    selected and, in this version of the game, does nothing more with it. */
module Targets {
  import opened Common
  import opened Characters

  /** targetEntity: a character or a baddie (the other is nil). */
  datatype TargetEntity = TargetEntity(chara: Option<Character>, baddie: Option<Baddie>)

  /** The entry belongs to the character with the id. */
  predicate CharaIs(e: TargetEntity, id: nat)
  {
    e.chara.Some? && e.chara.value.id == id
  }

  /** The entry belongs to the baddie with the id. */
  predicate BaddieIs(e: TargetEntity, id: nat)
  {
    e.baddie.Some? && e.baddie.value.id == id
  }

  /** The entry belongs to the entity with the id. */
  predicate Matches(e: TargetEntity, id: nat)
  {
    CharaIs(e, id) || BaddieIs(e, id)
  }

  /** The index Remove deletes, as written (target.go:56-70): the search
      stops at the first entry of the entity, but a character's entry
      records index 1 rather than its own index. */
  function RemoveIndexAsWritten(es: seq<TargetEntity>, id: nat): (d: int)
    ensures d < |es| || (d == 1 && |es| == 1)
  {
    var i := FirstWhere(es, (e: TargetEntity) => Matches(e, id));
    if i < 0 then -1
    else if CharaIs(es[i], id) then 1
    else i
  }

  /** Remove as written (target.go:55-74): `None` is the slice-bounds panic
      of `s.entities[d+1:]` when d + 1 is past the end. */
  function RemoveAsWritten(es: seq<TargetEntity>, id: nat): (r: Option<seq<TargetEntity>>)
    ensures RemoveIndexAsWritten(es, id) < 0 ==> r == Some(es)
    ensures r.None? <==> RemoveIndexAsWritten(es, id) >= |es|
  {
    var d := RemoveIndexAsWritten(es, id);
    if d < 0 then Some(es)
    else if d + 1 > |es| then None
    else Some(RemoveAt(es, d))
  }

  /** Remove as intended: the first entry of the entity leaves. */
  function Remove(es: seq<TargetEntity>, id: nat): seq<TargetEntity>
  {
    RemoveFirstWhere(es, (e: TargetEntity) => Matches(e, id))
  }

  /** The intended removal takes out exactly one entry of the entity when
      there is one, keeps every other entry in order, and never panics. */
  lemma RemoveSpec(es: seq<TargetEntity>, id: nat)
    ensures var d := FirstWhere(es, (e: TargetEntity) => Matches(e, id));
            var r := Remove(es, id);
            && (d < 0 <==> forall j :: 0 <= j < |es| ==> !Matches(es[j], id))
            && (d < 0 ==> r == es)
            && (d >= 0 ==> Matches(es[d], id) && r == es[..d] + es[d + 1..])
            && multiset(r) <= multiset(es)
  {
    var d := FirstWhere(es, (e: TargetEntity) => Matches(e, id));
    RemoveFirstWhereKeepsOrder(es, (e: TargetEntity) => Matches(e, id));
  }

  /** As written, removing a character whose entry comes first keeps that
      entry and deletes the second one instead; with the character's entry
      the only one, Remove panics. */
  lemma RemoveFirstCharacterAsWritten(es: seq<TargetEntity>, id: nat)
    requires |es| >= 1 && CharaIs(es[0], id)
    ensures |es| == 1 ==> RemoveAsWritten(es, id).None?
    ensures |es| >= 2 ==> RemoveAsWritten(es, id) == Some([es[0]] + es[2..])
    ensures |es| >= 2 ==> es[0] in RemoveAsWritten(es, id).value
  {
    assert Matches(es[0], id);
    if |es| >= 2 {
      assert RemoveAt(es, 1) == [es[0]] + es[2..];
    }
  }

  /** The two removals agree on baddies, and on a character whose entry
      sits at index 1: only a character entry elsewhere goes wrong. */
  lemma RemoveAgreesAsWritten(es: seq<TargetEntity>, id: nat)
    requires var d := FirstWhere(es, (e: TargetEntity) => Matches(e, id));
             d < 0 || !CharaIs(es[d], id) || d == 1
    ensures RemoveAsWritten(es, id) == Some(Remove(es, id))
  {
  }

  /** The index of the first character entry whose card is selected, or -1
      (target.go:85-93). */
  function FirstSelectedChara(es: seq<TargetEntity>): (r: int)
    reads set i | 0 <= i < |es| && es[i].chara.Some? :: es[i].chara.value`isCardSelected
    ensures -1 <= r < |es|
    ensures r >= 0 ==> es[r].chara.Some? && es[r].chara.value.isCardSelected
    ensures r >= 0 ==> forall j :: 0 <= j < r ==> !(es[j].chara.Some? && es[j].chara.value.isCardSelected)
    ensures r < 0 ==> forall j :: 0 <= j < |es| ==> !(es[j].chara.Some? && es[j].chara.value.isCardSelected)
    decreases |es|
  {
    if es == [] then -1
    else if es[0].chara.Some? && es[0].chara.value.isCardSelected then 0
    else
      var r := FirstSelectedChara(es[1..]);
      if r < 0 then -1 else r + 1
  }

  class TargetSystem {
    var entities: seq<TargetEntity>
    var paused: bool
    var skipNextFrame: bool

    constructor ()
      ensures entities == [] && !paused && !skipNextFrame
    {
      entities, paused, skipNextFrame := [], false, false;
    }

    /** target.go:40-42 */
    method Add(chara: Option<Character>, baddie: Option<Baddie>)
      modifies this`entities
      ensures entities == old(entities) + [TargetEntity(chara, baddie)]
    {
      entities := entities + [TargetEntity(chara, baddie)];
    }

    /** A character gets a character entry and a baddie a baddie entry; an
        entity that is both gets both, character first (target.go:44-53). */
    method AddByInterface(asChara: Option<Character>, asBaddie: Option<Baddie>)
      modifies this`entities
      ensures entities == old(entities)
                          + (if asChara.Some? then [TargetEntity(asChara, None)] else [])
                          + (if asBaddie.Some? then [TargetEntity(None, asBaddie)] else [])
    {
      if asChara.Some? {
        Add(asChara, None);
      }
      if asBaddie.Some? {
        Add(None, asBaddie);
      }
    }

    /** The entity's first entry leaves (target.go:55-74, corrected). */
    method RemoveEntity(id: nat)
      modifies this`entities
      ensures entities == Remove(old(entities), id)
    {
      var d := FindFirst(entities, (e: TargetEntity) => Matches(e, id));
      if d >= 0 {
        entities := entities[..d] + entities[d + 1..];
      }
    }

    /** One frame (target.go:76-98): a skipped frame only clears the flag,
        a paused one does nothing; otherwise the character whose card is
        selected is looked up and returned. */
    method Update() returns (chara: Option<Character>)
      modifies this`skipNextFrame
      ensures old(skipNextFrame) ==> !skipNextFrame && chara.None?
      ensures !old(skipNextFrame) && paused ==> chara.None?
      ensures !old(skipNextFrame) && !paused ==>
                var d := FirstSelectedChara(entities);
                chara == if d < 0 then None else entities[d].chara
    {
      chara := None;
      if skipNextFrame {
        skipNextFrame := false;
        return;
      }
      if paused {
        return;
      }
      chara := FindSelectedChara();
    }

    /** The search loop of a frame (target.go:85-93). */
    method FindSelectedChara() returns (chara: Option<Character>)
      ensures var d := FirstSelectedChara(entities);
              chara == if d < 0 then None else entities[d].chara
    {
      chara := None;
      var i := 0;
      while i < |entities|
        invariant 0 <= i <= |entities|
        invariant forall j :: 0 <= j < i ==> !(entities[j].chara.Some? && entities[j].chara.value.isCardSelected)
      {
        var e := entities[i];
        if e.chara.Some? {
          if e.chara.value.isCardSelected {
            chara := e.chara;
            return;
          }
        }
        i := i + 1;
      }
    }

    /** target.go:100-102 */
    method Pause()
      modifies this`paused
      ensures paused && skipNextFrame == old(skipNextFrame)
    {
      paused := true;
    }

    /** target.go:104-107 */
    method Unpause()
      modifies this`paused, this`skipNextFrame
      ensures !paused && skipNextFrame
    {
      paused, skipNextFrame := false, true;
    }
  }
}
