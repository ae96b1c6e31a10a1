/** The HP, MP and cast bars under each fighter (bars.go). Each frame the
    bars mirror HP and MP and advance a running cast; a cast that reaches its
    total time restarts the bar and, when the selected ability has an effect,
    fires it at the stored targets and forgets ability and targets. The model
    returns the firings, in entity order, instead of calling the effects from
    inside the loop; Abilities.Fire runs one. */
module Bars {
  import opened Common
  import opened Characters

  /** One bar entry: a character or an enemy pointer, either possibly nil. */
  datatype BarEntity = BarEntity(chara: Option<Character>, baddie: Option<Baddie>)

  /** An effect called with the caster's stored targets. */
  datatype Firing = Firing(caster: Character, ability: Ability, players: seq<Character>, baddies: seq<Baddie>)

  /** What Update reads and writes of one character. */
  datatype BarState = BarState(
    hp: real, mp: real, barHP: real, barMP: real,
    totalCastTime: real, currentCastTime: real, isCasting: bool,
    selectedAbility: Ability, targetPlayers: seq<Character>, targetBaddies: seq<Baddie>)

  function BarOf(c: Character): BarState
    reads c
  {
    BarState(c.hp, c.mp, c.barHP, c.barMP, c.totalCastTime, c.currentCastTime, c.isCasting,
             c.selectedAbility, c.targetPlayers, c.targetBaddies)
  }

  /** The cast reaches its total this frame and there is an effect to call. */
  predicate Fires(b: BarState, dt: real)
  {
    b.isCasting && b.currentCastTime + dt >= b.totalCastTime && b.selectedAbility.effect != NoEffect
  }

  /** One frame of one character's bars (bars.go:60-83). */
  function Tick(b: BarState, dt: real): BarState
  {
    var mirrored := b.(barHP := b.hp, barMP := b.mp);
    if !b.isCasting then mirrored
    else if b.currentCastTime + dt < b.totalCastTime then mirrored.(currentCastTime := b.currentCastTime + dt)
    else if b.selectedAbility.effect == NoEffect then mirrored.(currentCastTime := 0.0, totalCastTime := 1.0)
    else mirrored.(currentCastTime := 0.0, totalCastTime := 1.0, selectedAbility := NoAbility,
                   targetPlayers := [], targetBaddies := [])
  }

  /** The bar entry matches entity `id`: its character when it has one, else its enemy. */
  predicate Matches(e: BarEntity, id: nat)
  {
    if e.chara.Some? then e.chara.value.id == id
    else e.baddie.Some? && e.baddie.value.id == id
  }

  /** The characters with bars. */
  function Charas(es: seq<BarEntity>): set<Character>
  {
    set i | 0 <= i < |es| && es[i].chara.Some? :: es[i].chara.value
  }

  /** No character has two bar entries: the entity system adds each entity once. */
  predicate DistinctCharas(es: seq<BarEntity>)
  {
    forall i, j :: 0 <= i < j < |es| && es[i].chara.Some? && es[j].chara.Some? ==> es[i].chara.value != es[j].chara.value
  }

  /** Every entry's character state, or None for an enemy entry. */
  function Snapshots(es: seq<BarEntity>): (r: seq<Option<BarState>>)
    reads Charas(es)
    ensures |r| == |es|
    ensures forall i :: 0 <= i < |es| ==> r[i] == if es[i].chara.Some? then Some(BarOf(es[i].chara.value)) else None
  {
    seq(|es|, i reads Charas(es) requires 0 <= i < |es| =>
      if es[i].chara.Some? then Some(BarOf(es[i].chara.value)) else None)
  }

  /** The firings of one frame from the first n entries, in entity order,
      from the states before it. */
  function FiringsOf(es: seq<BarEntity>, snaps: seq<Option<BarState>>, dt: real, n: nat): (r: seq<Firing>)
    requires |snaps| == |es| && n <= |es|
    ensures |r| <= n
  {
    if n == 0 then []
    else
      FiringsOf(es, snaps, dt, n - 1)
      + if es[n - 1].chara.Some? && snaps[n - 1].Some? && Fires(snaps[n - 1].value, dt)
        then [Firing(es[n - 1].chara.value, snaps[n - 1].value.selectedAbility, snaps[n - 1].value.targetPlayers,
                     snaps[n - 1].value.targetBaddies)]
        else []
  }

  class BarSystem {
    var entities: seq<BarEntity>

    constructor ()
      ensures entities == []
    {
      entities := [];
    }

    /** bars.go:22-24 */
    method Add(chara: Option<Character>, bad: Option<Baddie>)
      modifies this
      ensures entities == old(entities) + [BarEntity(chara, bad)]
    {
      entities := entities + [BarEntity(chara, bad)];
    }

    /** An entity that is a character gets a character entry, and one that is
        an enemy an enemy entry (bars.go:26-35). */
    method AddByInterface(asChara: Option<Character>, asBaddie: Option<Baddie>)
      modifies this
      ensures entities == old(entities)
                          + (if asChara.Some? then [BarEntity(asChara, None)] else [])
                          + (if asBaddie.Some? then [BarEntity(None, asBaddie)] else [])
    {
      if asChara.Some? {
        Add(asChara, None);
      }
      if asBaddie.Some? {
        Add(None, asBaddie);
      }
    }

    /** bars.go:37-55 */
    method Remove(id: nat)
      modifies this
      ensures entities == RemoveFirstWhere(old(entities), (e: BarEntity) => Matches(e, id))
    {
      var d := FindFirst(entities, (e: BarEntity) => Matches(e, id));
      if d >= 0 {
        entities := entities[..d] + entities[d + 1..];
      }
    }

    /** One frame: every character's bars tick, enemies are skipped
        (bars.go:57-88). */
    method Update(dt: real) returns (firings: seq<Firing>)
      requires DistinctCharas(entities)
      modifies Charas(entities)`barHP, Charas(entities)`barMP, Charas(entities)`currentCastTime,
               Charas(entities)`totalCastTime, Charas(entities)`selectedAbility,
               Charas(entities)`targetPlayers, Charas(entities)`targetBaddies
      ensures forall i :: 0 <= i < |entities| && entities[i].chara.Some? ==>
                BarOf(entities[i].chara.value) == Tick(old(BarOf(entities[i].chara.value)), dt)
      ensures firings == FiringsOf(entities, old(Snapshots(entities)), dt, |entities|)
    {
      ghost var before := Snapshots(entities);
      firings := [];
      for i := 0 to |entities|
        invariant forall j :: 0 <= j < |entities| && entities[j].chara.Some? ==>
                    BarOf(entities[j].chara.value) == if j < i then Tick(before[j].value, dt) else before[j].value
        invariant firings == FiringsOf(entities, before, dt, i)
      {
        var e := entities[i];
        if e.chara.Some? {
          assert e.chara.value in Charas(entities);
          var fired := TickOne(e.chara.value, dt);
          firings := firings + fired;
          assert forall j :: 0 <= j < |entities| && j != i && entities[j].chara.Some? ==>
                   entities[j].chara.value != e.chara.value;
        } else if e.baddie.Some? {
        }
      }
    }

    /** The loop body for one character (bars.go:60-83). */
    static method TickOne(c: Character, dt: real) returns (fired: seq<Firing>)
      modifies c`barHP, c`barMP, c`currentCastTime, c`totalCastTime, c`selectedAbility,
               c`targetPlayers, c`targetBaddies
      ensures BarOf(c) == Tick(old(BarOf(c)), dt)
      ensures fired == if Fires(old(BarOf(c)), dt)
                       then [Firing(c, old(c.selectedAbility), old(c.targetPlayers), old(c.targetBaddies))]
                       else []
    {
      Mirror(c);
      fired := [];
      if c.isCasting {
        fired := Advance(c, dt);
      }
    }

    /** The bars take the current HP and MP (bars.go:60-67). */
    static method Mirror(c: Character)
      modifies c`barHP, c`barMP
      ensures c.barHP == c.hp && c.barMP == c.mp
    {
      if c.barHP != c.hp {
        c.barHP := c.hp;
      }
      if c.barMP != c.mp {
        c.barMP := c.mp;
      }
    }

    /** A running cast moves on; when due it restarts and fires
        (bars.go:68-81). */
    static method Advance(c: Character, dt: real) returns (fired: seq<Firing>)
      modifies c`currentCastTime, c`totalCastTime, c`selectedAbility, c`targetPlayers, c`targetBaddies
      ensures var due := old(c.currentCastTime) + dt >= old(c.totalCastTime);
              var fires := due && old(c.selectedAbility).effect != NoEffect;
              && c.currentCastTime == (if due then 0.0 else old(c.currentCastTime) + dt)
              && c.totalCastTime == (if due then 1.0 else old(c.totalCastTime))
              && c.selectedAbility == (if fires then NoAbility else old(c.selectedAbility))
              && c.targetPlayers == (if fires then [] else old(c.targetPlayers))
              && c.targetBaddies == (if fires then [] else old(c.targetBaddies))
              && fired == if fires then [Firing(c, old(c.selectedAbility), old(c.targetPlayers), old(c.targetBaddies))] else []
    {
      fired := [];
      c.currentCastTime := c.currentCastTime + dt;
      if c.currentCastTime >= c.totalCastTime {
        c.currentCastTime := 0.0;
        c.totalCastTime := 1.0;
        if c.selectedAbility.effect != NoEffect {
          fired := [Firing(c, c.selectedAbility, c.targetPlayers, c.targetBaddies)];
          c.selectedAbility := NoAbility;
          c.targetPlayers := [];
          c.targetBaddies := [];
        }
      }
    }
  }

  // ---------------------------------------------------------------------------
  // Properties

  /** A running cast keeps its timer in [0, total) for non-negative frame
      times: a finished cast restarts at 0 of 1 (bars.go:69-72). */
  predicate TimerValid(b: BarState)
  {
    0.0 <= b.currentCastTime < b.totalCastTime
  }

  lemma TickKeepsTimerValid(b: BarState, dt: real)
    requires TimerValid(b) && dt >= 0.0
    ensures TimerValid(Tick(b, dt))
  {
  }

  /** After a tick the bars show the current HP and MP, and HP and MP
      themselves are untouched (bars.go:60-67). */
  lemma TickMirrors(b: BarState, dt: real)
    ensures Tick(b, dt).barHP == b.hp && Tick(b, dt).barMP == b.mp
    ensures Tick(b, dt).hp == b.hp && Tick(b, dt).mp == b.mp
    ensures Tick(b, dt).isCasting == b.isCasting
  {
  }

  /** An effect fires at most once per selection: the firing tick forgets the
      ability, and a bar with no ability never fires (bars.go:73-78). */
  lemma FiresOnce(b: BarState, dt: real, dt': real)
    requires Fires(b, dt)
    ensures !Fires(Tick(b, dt), dt')
    ensures Tick(b, dt).targetPlayers == [] && Tick(b, dt).targetBaddies == []
  {
  }

  /** A tick that does not fire keeps the ability and its targets. */
  lemma NoFireKeepsSelection(b: BarState, dt: real)
    requires !Fires(b, dt)
    ensures Tick(b, dt).selectedAbility == b.selectedAbility
    ensures Tick(b, dt).targetPlayers == b.targetPlayers && Tick(b, dt).targetBaddies == b.targetBaddies
  {
  }

  /** Ticks one bar through a run of frames. */
  function Run(b: BarState, dts: seq<real>): BarState
    decreases |dts|
  {
    if dts == [] then b else Tick(Run(b, dts[..|dts| - 1]), dts[|dts| - 1])
  }

  function Sum(dts: seq<real>): real
    decreases |dts|
  {
    if dts == [] then 0.0 else Sum(dts[..|dts| - 1]) + dts[|dts| - 1]
  }

  /** A cast that has not yet reached its total has been running for exactly
      the frame times so far: without a firing, the timer is the sum. */
  lemma {:induction false} RunAccumulates(b: BarState, dts: seq<real>)
    requires b.isCasting && b.selectedAbility.effect != NoEffect
    requires b.currentCastTime + Sum(dts) < b.totalCastTime
    requires forall k :: 0 <= k < |dts| ==> dts[k] >= 0.0
    ensures Run(b, dts).currentCastTime == b.currentCastTime + Sum(dts)
    ensures Run(b, dts).totalCastTime == b.totalCastTime
    ensures Run(b, dts).selectedAbility == b.selectedAbility && Run(b, dts).isCasting
    decreases |dts|
  {
    if dts != [] {
      var init := dts[..|dts| - 1];
      assert forall k :: 0 <= k < |init| ==> init[k] == dts[k];
      RunAccumulates(b, init);
    }
  }

  /** The frame at which the accumulated time reaches the total fires the
      effect with the targets chosen when the cast began. */
  lemma CastFiresWhenDue(b: BarState, dts: seq<real>, dt: real)
    requires b.isCasting && b.selectedAbility.effect != NoEffect
    requires b.currentCastTime + Sum(dts) < b.totalCastTime
    requires b.currentCastTime + Sum(dts) + dt >= b.totalCastTime
    requires forall k :: 0 <= k < |dts| ==> dts[k] >= 0.0
    ensures Fires(Run(b, dts), dt)
    ensures Run(b, dts).targetPlayers == b.targetPlayers && Run(b, dts).targetBaddies == b.targetBaddies
  {
    RunAccumulates(b, dts);
    RunKeepsTargets(b, dts);
  }

  lemma {:induction false} RunKeepsTargets(b: BarState, dts: seq<real>)
    requires b.isCasting && b.selectedAbility.effect != NoEffect
    requires b.currentCastTime + Sum(dts) < b.totalCastTime
    requires forall k :: 0 <= k < |dts| ==> dts[k] >= 0.0
    ensures Run(b, dts).targetPlayers == b.targetPlayers && Run(b, dts).targetBaddies == b.targetBaddies
    decreases |dts|
  {
    if dts != [] {
      var init := dts[..|dts| - 1];
      assert forall k :: 0 <= k < |init| ==> init[k] == dts[k];
      RunAccumulates(b, init);
      RunKeepsTargets(b, init);
    }
  }

  /** Remove drops the first entry for the entity and keeps the rest in
      order; with no entry for it, nothing changes. */
  lemma RemoveSpec(es: seq<BarEntity>, id: nat)
    ensures var r := RemoveFirstWhere(es, (e: BarEntity) => Matches(e, id));
            var d := FirstWhere(es, (e: BarEntity) => Matches(e, id));
            && (d < 0 <==> forall i :: 0 <= i < |es| ==> !Matches(es[i], id))
            && (d < 0 ==> r == es)
            && (d >= 0 ==> Matches(es[d], id) && |r| == |es| - 1 && r[..d] + [es[d]] + r[d..] == es)
  {
    RemoveFirstWhereKeepsOrder(es, (e: BarEntity) => Matches(e, id));
  }

  /** Firings come only from casting characters whose cast is due, each
      with the ability and the targets stored in the bar, and every such
      character fires. */
  lemma {:induction false} FiringsAreDue(es: seq<BarEntity>, snaps: seq<Option<BarState>>, dt: real, n: nat, f: Firing)
    requires |snaps| == |es| && n <= |es|
    ensures f in FiringsOf(es, snaps, dt, n) ==>
              exists i :: 0 <= i < n && es[i].chara == Some(f.caster) && snaps[i].Some?
                          && Fires(snaps[i].value, dt)
                          && f == Firing(f.caster, snaps[i].value.selectedAbility, snaps[i].value.targetPlayers, snaps[i].value.targetBaddies)
    ensures (exists i :: 0 <= i < n && es[i].chara == Some(f.caster) && snaps[i].Some? && Fires(snaps[i].value, dt)
               && f == Firing(f.caster, snaps[i].value.selectedAbility, snaps[i].value.targetPlayers, snaps[i].value.targetBaddies))
            ==> f in FiringsOf(es, snaps, dt, n)
  {
    if n > 0 {
      FiringsAreDue(es, snaps, dt, n - 1, f);
    }
  }
}
