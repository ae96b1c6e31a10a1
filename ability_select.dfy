/** The ability menu system (ability.go): the list of the card-selected
    character's abilities, scrolled and confirmed with the buttons, which
    records the confirmed ability on that character and moves the phase on
    to target selection. */
module AbilitySelect {
  import opened Common
  import opened Phases
  import opened Characters
  import opened Menus

  /** What the menu shows of an ability. */
  function AbilityEntries(abs: seq<Ability>): (r: seq<Entry>)
    ensures |r| == |abs|
    ensures forall i :: 0 <= i < |abs| ==> r[i] == Entry(abs[i].shorthand, abs[i].title, abs[i].description)
  {
    seq(|abs|, i requires 0 <= i < |abs| => Entry(abs[i].shorthand, abs[i].title, abs[i].description))
  }

  class AbilitySelectSystem {
    var entities: seq<Character>
    var paused: bool
    var skipNextFrame: bool
    var w: Window
    var view: View

    function State(): MenuState
      reads this
    {
      MenuState(paused, skipNextFrame, w, view)
    }

    /** The list a frame works on: the first card-selected character's. */
    function Selected(): Option<seq<Entry>>
      reads this, Objects(entities)
    {
      var i := FirstSelected(entities);
      if i < 0 then None else Some(AbilityEntries(entities[i].abilities))
    }

    /** The list an opening draws: the last card-selected character's. */
    function Drawn(): Option<seq<Entry>>
      reads this, Objects(entities)
    {
      var i := LastSelected(entities);
      if i < 0 then None else Some(AbilityEntries(entities[i].abilities))
    }

    /** New: no entities, indices zero, placeholder texts (ability.go:33-121). */
    constructor ()
      ensures entities == [] && State() == MenuState(false, false, Window(0, 0, 0), BlankView)
    {
      entities := [];
      paused, skipNextFrame := false, false;
      w := Window(0, 0, 0);
      view := BlankView;
    }

    /** ability.go:123-125 */
    method Add(chara: Character)
      modifies this`entities
      ensures entities == old(entities) + [chara]
    {
      entities := entities + [chara];
    }

    /** Only characters join the menu (ability.go:127-132). */
    method AddByInterface(asChara: Option<Character>)
      modifies this`entities
      ensures entities == old(entities) + (if asChara.Some? then [asChara.value] else [])
    {
      if asChara.Some? {
        Add(asChara.value);
      }
    }

    /** The first entity with the id leaves the menu (ability.go:134-145). */
    method Remove(id: nat)
      modifies this`entities
      ensures entities == RemoveFirstWhere(old(entities), (c: Character) => c.id == id)
    {
      var d := FindFirst(entities, (c: Character) => c.id == id);
      if d >= 0 {
        entities := entities[..d] + entities[d + 1..];
      }
    }

    /** One frame (ability.go:147-332): the state moves as `Frame` says;
        a confirmed ability becomes the selected character's SelectedAbility
        and sets its IsAbilitySelected, and no other character changes. */
    method Update(btn: Buttons) returns (cmds: seq<PhaseCommand>, panicked: bool)
      modifies this`w, this`view, this`skipNextFrame
      modifies Objects(entities)`selectedAbility, Objects(entities)`isAbilitySelected
      ensures var out := Frame(AbilityMenu, old(State()), old(Selected()), btn);
              && panicked == out.MenuPanic?
              && (!panicked ==> State() == out.st && cmds == out.cmds)
              && (!panicked && out.picked >= 0 ==>
                    var c := entities[old(FirstSelected(entities))];
                    c.selectedAbility == c.abilities[out.picked] && c.isAbilitySelected)
              && (!panicked ==> forall c :: c in entities && (out.picked < 0 || c != entities[old(FirstSelected(entities))]) ==>
                    c.selectedAbility == old(c.selectedAbility) && c.isAbilitySelected == old(c.isAbilitySelected))
    {
      cmds, panicked := [], false;
      if skipNextFrame {
        skipNextFrame := false;
        return;
      }
      if paused {
        return;
      }
      var k := FindSelected(entities);
      if k < 0 {
        return;
      }
      var chara := entities[k];
      var es := AbilityEntries(chara.abilities);
      var cur := Clamp(w.cur, |es|, btn);
      if Confirms(btn) {
        var pick := if cur < |es| then cur else |es| - 1;
        if pick < 0 {
          panicked := true;
          return;
        }
        chara.selectedAbility := chara.abilities[pick];
        chara.isAbilitySelected := true;
        cmds := ToTarget;
      } else if Backs(btn) {
        cmds := ToCardSelect;
      }
      var r := Redraw(es, w.(cur := cur), view);
      if r.None? {
        panicked := true;
        return;
      }
      w, view := r.value.0, r.value.1;
    }

    /** pause: hide the menu; indices and texts stay (ability.go:334-352). */
    method Pause()
      modifies this`paused
      ensures State() == Paused(old(State()))
    {
      paused := true;
    }

    /** unpause, with the cursor put back on the first entry and every
        entry of a short list drawn (ability.go:354-434): the loop draws the
        list of each card-selected entity in turn, so the last one wins. */
    method Unpause()
      modifies this`paused, this`skipNextFrame, this`w, this`view
      ensures State() == Opened(old(State()), Drawn())
    {
      paused, skipNextFrame := false, true;
      w := Window(0, 0, 0);
      view := BlankView;
      for i := 0 to |entities|
        invariant !paused && skipNextFrame && w == Window(0, 0, 0)
        invariant var d := LastSelected(entities[..i]);
                  view == if d < 0 then BlankView else OpenedView(AbilityEntries(entities[d].abilities))
      {
        assert entities[..i + 1][..i] == entities[..i];
        if entities[i].isCardSelected {
          view := OpenedView(AbilityEntries(entities[i].abilities));
        }
      }
      assert entities[..|entities|] == entities;
    }
  }
}
