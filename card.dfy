/** Card selection (card.go): the row of character cards, one of them
    raised as the selected one. Left and right move a cursor with
    wrap-around; the raised card catches up with the cursor at the start of
    the next frame; A and B open the ability and item menus for the raised
    card's character, X and Y pick the plain attack or defend for it
    directly. */
module CardSelect {
  import opened Common
  import opened Phases
  import opened Characters
  import opened Abilities
  import opened Menus

  /** paused, skipNextFrame, setIdx (the raised card, -1 for none) and
      curIdx (the cursor). */
  datatype CardIdx = CardIdx(paused: bool, skipNextFrame: bool, setIdx: int, curIdx: int)

  /** What a frame did: a panic, or the new indices, every card's
      IsCardSelected flag, the phase messages sent, and the ability given to
      the card at an index, if any. */
  datatype CardOutcome =
    | CardPanic
    | CardOk(st: CardIdx, flags: seq<bool>, cmds: seq<PhaseCommand>, choice: Option<(int, Ability)>)

  /** The raised card catches up with the cursor (card.go:73-82): the old
      raised card and the cursor's card are lowered, then the cursor's card
      is raised. None when either index is outside the row, which panics. */
  function Sync(setIdx: int, curIdx: int, flags: seq<bool>): Option<seq<bool>>
  {
    if setIdx == curIdx then Some(flags)
    else if (setIdx >= 0 && setIdx >= |flags|) || !(0 <= curIdx < |flags|) then None
    else
      var lowered := if setIdx >= 0 then flags[setIdx := false][curIdx := false] else flags;
      Some(lowered[curIdx := true])
  }

  /** Left and right move the cursor with wrap-around (card.go:83-93). */
  function Nav(cur: int, len: nat, btn: Buttons): int
  {
    if btn.left then (if cur - 1 < 0 then len - 1 else cur - 1)
    else if btn.right then (if cur + 1 > len - 1 then 0 else cur + 1)
    else cur
  }

  /** The cursor stays on a card; left on the first card goes to the last
      and right on the last to the first; right undoes left and left undoes
      right. */
  lemma NavSpec(cur: int, len: nat, btn: Buttons)
    requires 0 <= cur < len
    ensures 0 <= Nav(cur, len, btn) < len
    ensures btn.left && cur == 0 ==> Nav(cur, len, btn) == len - 1
    ensures !btn.left && btn.right && cur == len - 1 ==> Nav(cur, len, btn) == 0
    ensures var l := Buttons(false, false, true, false, false, false, false, false);
            var r := Buttons(false, false, false, true, false, false, false, false);
            Nav(Nav(cur, len, l), len, r) == cur && Nav(Nav(cur, len, r), len, l) == cur
  {
  }

  const ToAbilitySelect: seq<PhaseCommand> := [SetPhase(AbilitySelect), DequeuePhase]
  const ToItemSelect: seq<PhaseCommand> := [SetPhase(ItemSelect), DequeuePhase]

  /** A, B, X or Y, in that order of priority (card.go:94-116): the phase
      messages sent and the ability given to the raised card, if any. X and
      Y index the raised card: None when it is outside the row, which
      panics. */
  function Action(raised: int, len: nat, btn: Buttons): Option<(seq<PhaseCommand>, Option<(int, Ability)>)>
  {
    if btn.a then Some((ToAbilitySelect, None))
    else if btn.b then Some((ToItemSelect, None))
    else if btn.x || btn.y then
      if !(0 <= raised < len) then None
      else if btn.x then Some((ToTarget, Some((raised, RegularAttackAbility))))
      else Some((ToCardSelect, Some((raised, DefendAbility))))
    else Some(([], None))
  }

  /** One Update (card.go:65-117): skip and pause as in every menu; then the
      raised card catches up with the cursor; then the cursor moves; then
      the buttons act on the card raised this frame. */
  function CardFrame(st: CardIdx, flags: seq<bool>, btn: Buttons): CardOutcome
  {
    if st.skipNextFrame then CardOk(st.(skipNextFrame := false), flags, [], None)
    else if st.paused then CardOk(st, flags, [], None)
    else
      match Sync(st.setIdx, st.curIdx, flags)
      case None => CardPanic
      case Some(synced) =>
        var st' := st.(setIdx := st.curIdx, curIdx := Nav(st.curIdx, |flags|, btn));
        match Action(st.curIdx, |flags|, btn)
        case None => CardPanic
        case Some(act) => CardOk(st', synced, act.0, act.1)
  }

  /** Exactly the card at index k is selected. */
  function OnlyAt(n: nat, k: int): (r: seq<bool>)
    ensures |r| == n && forall i :: 0 <= i < n ==> r[i] == (i == k)
  {
    seq(n, i requires 0 <= i < n => i == k)
  }

  /** The card that is (or, before the first frame, is about to be) raised. */
  function Raised(st: CardIdx): int
  {
    if st.setIdx >= 0 then st.setIdx else 0
  }

  /** The row is not empty, both indices are on it (the raised one may be
      unset only while the cursor is on the first card, as after opening),
      and exactly the raised card is selected. */
  predicate Valid(st: CardIdx, flags: seq<bool>)
  {
    && |flags| > 0 && 0 <= st.curIdx < |flags| && -1 <= st.setIdx < |flags|
    && (st.setIdx < 0 ==> st.curIdx == 0)
    && flags == OnlyAt(|flags|, Raised(st))
  }

  /** On a Valid row a frame never panics and keeps the row Valid; a live
      frame raises the card the cursor was on at its start (the highlight
      lags the cursor by a frame); X and Y give their ability to exactly
      that card; A, B, X and Y send their phase messages. */
  lemma CardFrameSpec(st: CardIdx, flags: seq<bool>, btn: Buttons)
    requires Valid(st, flags)
    ensures var out := CardFrame(st, flags, btn);
            var live := !st.skipNextFrame && !st.paused;
            && out.CardOk?
            && Valid(out.st, out.flags)
            && (live ==> out.st.setIdx == st.curIdx && out.flags == OnlyAt(|flags|, st.curIdx))
            && (!live ==> out.flags == flags && out.cmds == [] && out.choice.None?)
            && (live && btn.a ==> out.cmds == ToAbilitySelect && out.choice.None?)
            && (live && !btn.a && btn.b ==> out.cmds == ToItemSelect && out.choice.None?)
            && (live && !btn.a && !btn.b && btn.x ==> out.cmds == ToTarget && out.choice == Some((st.curIdx, RegularAttackAbility)))
            && (live && !btn.a && !btn.b && !btn.x && btn.y ==> out.cmds == ToCardSelect && out.choice == Some((st.curIdx, DefendAbility)))
            && (out.choice.Some? ==> out.flags[out.choice.value.0])
  {
    if !st.skipNextFrame && !st.paused {
      NavSpec(st.curIdx, |flags|, btn);
      var synced := Sync(st.setIdx, st.curIdx, flags);
      assert synced == Some(OnlyAt(|flags|, st.curIdx)) by {
        if st.setIdx != st.curIdx {
          var lowered := if st.setIdx >= 0 then flags[st.setIdx := false][st.curIdx := false] else flags;
          assert lowered[st.curIdx := true] == OnlyAt(|flags|, st.curIdx);
        }
      }
    }
  }

  /** A row with no cards panics on its first live frame, whatever is
      pressed: the catch-up raises the cursor's card before any button is
      read (card.go:73-82), and there is no card 0 to raise. */
  lemma EmptyRowPanics(st: CardIdx, btn: Buttons)
    requires !st.skipNextFrame && !st.paused && st.setIdx != st.curIdx
    ensures CardFrame(st, [], btn).CardPanic?
  {
  }

  /** pause (card.go:119-135): the indices go back to "nothing raised,
      cursor on the first card". */
  function CardPaused(st: CardIdx): CardIdx
  {
    st.(paused := true, setIdx := -1, curIdx := 0)
  }

  /** unpause (card.go:137-149): only the first card is selected; the next
      frame is skipped. None when there are no cards, which panics. */
  function CardOpened(st: CardIdx, len: nat): Option<(CardIdx, seq<bool>)>
  {
    if len == 0 then None else Some((st.(paused := false, skipNextFrame := true), OnlyAt(len, 0)))
  }

  /** Pausing and opening again always gives a Valid row, whatever the
      indices were, as long as there is a card. */
  lemma ReopenedValid(st: CardIdx, len: nat)
    requires len > 0
    ensures var o := CardOpened(CardPaused(st), len);
            o.Some? && Valid(o.value.0, o.value.1) && o.value.0.skipNextFrame && !o.value.0.paused
  {
  }

  /** When the cards' flags are a Valid row, the menus serve the raised
      card's character, and opening a menu draws that same character. */
  lemma MenusServeRaisedCard(es: seq<Character>, st: CardIdx)
    requires Valid(st, CardFlags(es))
    ensures FirstSelected(es) == Raised(st) && LastSelected(es) == Raised(st)
    ensures AtMostOneSelected(es)
  {
    var k := Raised(st);
    assert CardFlags(es)[k];
    assert forall i :: 0 <= i < |es| ==> (es[i].isCardSelected <==> i == k) by {
      forall i | 0 <= i < |es|
        ensures es[i].isCardSelected <==> i == k
      {
        assert CardFlags(es)[i] == OnlyAt(|es|, k)[i];
      }
    }
  }

  /** No character appears twice in the row: the entity system adds each
      entity once. */
  predicate Distinct(es: seq<Character>)
  {
    forall i, j :: 0 <= i < j < |es| ==> es[i] != es[j]
  }

  class CardSelectSystem {
    var entities: seq<Character>
    var paused: bool
    var skipNextFrame: bool
    var setIdx: int
    var curIdx: int

    function Idx(): CardIdx
      reads this
    {
      CardIdx(paused, skipNextFrame, setIdx, curIdx)
    }

    /** New: nothing raised yet (card.go:26-39). */
    constructor ()
      ensures entities == [] && Idx() == CardIdx(false, false, -1, 0)
    {
      entities := [];
      paused, skipNextFrame := false, false;
      setIdx, curIdx := -1, 0;
    }

    /** card.go:41-43 */
    method Add(chara: Character)
      modifies this`entities
      ensures entities == old(entities) + [chara]
    {
      entities := entities + [chara];
    }

    /** Only characters join the row (card.go:45-50). */
    method AddByInterface(asChara: Option<Character>)
      modifies this`entities
      ensures entities == old(entities) + (if asChara.Some? then [asChara.value] else [])
    {
      if asChara.Some? {
        Add(asChara.value);
      }
    }

    /** The first entity with the id leaves the row (card.go:52-63). */
    method Remove(id: nat)
      modifies this`entities
      ensures entities == RemoveFirstWhere(old(entities), (c: Character) => c.id == id)
    {
      var d := FindFirst(entities, (c: Character) => c.id == id);
      if d >= 0 {
        entities := entities[..d] + entities[d + 1..];
      }
    }

    /** One frame (card.go:65-117), as `CardFrame` says: the indices, every
        card's IsCardSelected flag, the messages, and the ability X or Y
        gives; no other character's SelectedAbility changes. */
    method Update(btn: Buttons) returns (cmds: seq<PhaseCommand>, panicked: bool)
      requires Distinct(entities)
      modifies this`skipNextFrame, this`setIdx, this`curIdx
      modifies Objects(entities)`isCardSelected, Objects(entities)`selectedAbility
      ensures var out := CardFrame(old(Idx()), old(CardFlags(entities)), btn);
              && panicked == out.CardPanic?
              && (!panicked ==> Idx() == out.st && CardFlags(entities) == out.flags && cmds == out.cmds)
              && (!panicked ==> forall i :: 0 <= i < |entities| ==>
                    entities[i].selectedAbility ==
                      if out.choice.Some? && out.choice.value.0 == i then out.choice.value.1
                      else old(entities[i].selectedAbility))
    {
      cmds, panicked := [], false;
      if skipNextFrame {
        skipNextFrame := false;
        return;
      }
      if paused {
        return;
      }
      cmds, panicked := Live(btn);
    }

    /** A frame that is neither skipped nor paused (card.go:73-116). */
    method Live(btn: Buttons) returns (cmds: seq<PhaseCommand>, panicked: bool)
      requires Distinct(entities)
      modifies this`setIdx, this`curIdx
      modifies Objects(entities)`isCardSelected, Objects(entities)`selectedAbility
      ensures var synced := Sync(old(setIdx), old(curIdx), old(CardFlags(entities)));
              var act := Action(old(curIdx), |entities|, btn);
              && panicked == (synced.None? || act.None?)
              && (!panicked ==> setIdx == old(curIdx) && curIdx == Nav(old(curIdx), |entities|, btn))
              && (!panicked ==> CardFlags(entities) == synced.value && cmds == act.value.0)
              && (!panicked ==> forall i :: 0 <= i < |entities| ==>
                    entities[i].selectedAbility ==
                      if act.value.1.Some? && act.value.1.value.0 == i then act.value.1.value.1
                      else old(entities[i].selectedAbility))
    {
      Highlight();
      if setIdx != curIdx {
        return [], true;
      }
      curIdx := Nav(curIdx, |entities|, btn);
      cmds, panicked := Act(btn);
    }

    /** The buttons' actions on the raised card (card.go:94-116). */
    method Act(btn: Buttons) returns (cmds: seq<PhaseCommand>, panicked: bool)
      requires Distinct(entities)
      modifies Objects(entities)`selectedAbility
      ensures var act := Action(setIdx, |entities|, btn);
              && panicked == act.None?
              && (!panicked ==> cmds == act.value.0)
              && (!panicked ==> forall i :: 0 <= i < |entities| ==>
                    entities[i].selectedAbility ==
                      if act.value.1.Some? && act.value.1.value.0 == i then act.value.1.value.1
                      else old(entities[i].selectedAbility))
    {
      panicked := false;
      if btn.a {
        cmds := ToAbilitySelect;
      } else if btn.b {
        cmds := ToItemSelect;
      } else if btn.x || btn.y {
        if !(0 <= setIdx < |entities|) {
          return [], true;
        }
        entities[setIdx].selectedAbility := if btn.x then RegularAttackAbility else DefendAbility;
        cmds := if btn.x then ToTarget else ToCardSelect;
      } else {
        cmds := [];
      }
    }

    /** The raised card catches up with the cursor (card.go:73-82). On a
        panic setIdx is left unequal to curIdx, and the caller stops. */
    method Highlight()
      requires Distinct(entities)
      modifies this`setIdx, Objects(entities)`isCardSelected
      ensures var synced := Sync(old(setIdx), curIdx, old(CardFlags(entities)));
              && (synced.None? <==> setIdx != curIdx)
              && (synced.Some? ==> CardFlags(entities) == synced.value)
    {
      if setIdx != curIdx {
        if (setIdx >= 0 && setIdx >= |entities|) || !(0 <= curIdx < |entities|) {
          return;
        }
        ghost var flags := CardFlags(entities);
        if setIdx >= 0 {
          entities[setIdx].isCardSelected := false;
          entities[curIdx].isCardSelected := false;
        }
        entities[curIdx].isCardSelected := true;
        assert CardFlags(entities) == (if setIdx >= 0 then flags[setIdx := false][curIdx := false] else flags)[curIdx := true];
        setIdx := curIdx;
      }
    }

    /** pause (card.go:119-135): every card's cast timer is reset to an
        empty one-second cast, then the raised card is read to lower it,
        which panics when the index is past the row; the indices are reset. */
    method Pause() returns (panicked: bool)
      modifies this`paused, this`setIdx, this`curIdx
      modifies Objects(entities)`totalCastTime, Objects(entities)`currentCastTime
      ensures panicked == (old(setIdx) >= |entities|)
      ensures forall c :: c in entities ==> c.totalCastTime == 1.0 && c.currentCastTime == 0.0
      ensures !panicked ==> Idx() == CardPaused(old(Idx()))
    {
      paused := true;
      for i := 0 to |entities|
        invariant setIdx == old(setIdx) && curIdx == old(curIdx) && paused
        invariant forall j :: 0 <= j < i ==> entities[j].totalCastTime == 1.0 && entities[j].currentCastTime == 0.0
      {
        entities[i].totalCastTime := 1.0;
        entities[i].currentCastTime := 0.0;
      }
      if setIdx >= |entities| {
        return true;
      }
      panicked := false;
      setIdx, curIdx := -1, 0;
    }

    /** unpause (card.go:137-149): every card lowered, then the first one
        raised, which panics on an empty row. */
    method Unpause() returns (panicked: bool)
      requires Distinct(entities)
      modifies this`paused, this`skipNextFrame, Objects(entities)`isCardSelected
      ensures panicked == (|entities| == 0)
      ensures !panicked ==> var o := CardOpened(old(Idx()), |entities|).value;
                            Idx() == o.0 && CardFlags(entities) == o.1
    {
      paused, skipNextFrame := false, true;
      for i := 0 to |entities|
        invariant !paused && skipNextFrame
        invariant forall j :: 0 <= j < i ==> !entities[j].isCardSelected
      {
        entities[i].isCardSelected := false;
      }
      if |entities| == 0 {
        return true;
      }
      entities[0].isCardSelected := true;
      panicked := false;
      forall j | 0 <= j < |entities|
        ensures CardFlags(entities)[j] == OnlyAt(|entities|, 0)[j]
      {
        if j != 0 {
          assert entities[0] != entities[j];
        }
      }
    }
  }
}
