/** The item menu system (item.go): the card-selected character's
    inventory, scrolled and confirmed with the buttons, which records the
    confirmed item on that character and moves the phase on to target
    selection. */
module ItemSelect {
  import opened Common
  import opened Phases
  import opened Characters
  import opened Menus

  /** What the menu shows of an item. */
  function ItemEntries(items: seq<Item>): (r: seq<Entry>)
    ensures |r| == |items|
    ensures forall i :: 0 <= i < |items| ==> r[i] == Entry(items[i].shorthand, items[i].title, items[i].description)
  {
    seq(|items|, i requires 0 <= i < |items| => Entry(items[i].shorthand, items[i].title, items[i].description))
  }

  class ItemSelectSystem {
    var entities: seq<Character>
    var paused: bool
    var skipNextFrame: bool
    var w: Window
    var view: View

    function State(): MenuState
      reads this
    {
      MenuState(paused, skipNextFrame, w, view)
    }

    /** The list a frame works on: the first card-selected character's. */
    function Selected(): Option<seq<Entry>>
      reads this, Objects(entities)
    {
      var i := FirstSelected(entities);
      if i < 0 then None else Some(ItemEntries(entities[i].inventory))
    }

    /** The list an opening draws: the last card-selected character's. */
    function Drawn(): Option<seq<Entry>>
      reads this, Objects(entities)
    {
      var i := LastSelected(entities);
      if i < 0 then None else Some(ItemEntries(entities[i].inventory))
    }

    /** New: no entities, indices zero, placeholder texts (item.go:33-121). */
    constructor ()
      ensures entities == [] && State() == MenuState(false, false, Window(0, 0, 0), BlankView)
    {
      entities := [];
      paused, skipNextFrame := false, false;
      w := Window(0, 0, 0);
      view := BlankView;
    }

    /** item.go:123-125 */
    method Add(chara: Character)
      modifies this`entities
      ensures entities == old(entities) + [chara]
    {
      entities := entities + [chara];
    }

    /** Only characters join the menu (item.go:127-132). */
    method AddByInterface(asChara: Option<Character>)
      modifies this`entities
      ensures entities == old(entities) + (if asChara.Some? then [asChara.value] else [])
    {
      if asChara.Some? {
        Add(asChara.value);
      }
    }

    /** The first entity with the id leaves the menu (item.go:134-145). */
    method Remove(id: nat)
      modifies this`entities
      ensures entities == RemoveFirstWhere(old(entities), (c: Character) => c.id == id)
    {
      var d := FindFirst(entities, (c: Character) => c.id == id);
      if d >= 0 {
        entities := entities[..d] + entities[d + 1..];
      }
    }

    /** One frame (item.go:147-335): the state moves as `Frame` says; a
        confirmed item becomes the selected character's SelectedItem, and no
        other character changes. */
    method Update(btn: Buttons) returns (cmds: seq<PhaseCommand>, panicked: bool)
      modifies this`w, this`view, this`skipNextFrame, Objects(entities)`selectedItem
      ensures var out := Frame(ItemMenu, old(State()), old(Selected()), btn);
              && panicked == out.MenuPanic?
              && (!panicked ==> State() == out.st && cmds == out.cmds)
              && (!panicked && out.picked >= 0 ==>
                    var c := entities[old(FirstSelected(entities))];
                    c.selectedItem == c.inventory[out.picked])
              && (!panicked ==> forall c :: c in entities && (out.picked < 0 || c != entities[old(FirstSelected(entities))]) ==>
                    c.selectedItem == old(c.selectedItem))
    {
      cmds, panicked := [], false;
      if skipNextFrame {
        skipNextFrame := false;
        return;
      }
      if paused {
        return;
      }
      var k := FindSelected(entities);
      if k < 0 {
        return;
      }
      var chara := entities[k];
      var es := ItemEntries(chara.inventory);
      var cur := Clamp(w.cur, |es|, btn);
      if Confirms(btn) {
        if cur >= |es| {
          cmds := ToCardSelect;
          return;
        }
        if cur < 0 {
          panicked := true;
          return;
        }
        chara.selectedItem := chara.inventory[cur];
        cmds := ToTarget;
      } else if Backs(btn) {
        cmds := ToCardSelect;
      }
      var r := Redraw(es, w.(cur := cur), view);
      if r.None? {
        panicked := true;
        return;
      }
      w, view := r.value.0, r.value.1;
    }

    /** pause: hide the menu; indices and texts stay (item.go:337-355). */
    method Pause()
      modifies this`paused
      ensures State() == Paused(old(State()))
    {
      paused := true;
    }

    /** unpause, with the cursor put back on the first entry and the rows
        filled without indexing past a short list (item.go:357-436): the loop draws the
        list of each card-selected entity in turn, so the last one wins. */
    method Unpause()
      modifies this`paused, this`skipNextFrame, this`w, this`view
      ensures State() == Opened(old(State()), Drawn())
    {
      paused, skipNextFrame := false, true;
      w := Window(0, 0, 0);
      view := BlankView;
      for i := 0 to |entities|
        invariant !paused && skipNextFrame && w == Window(0, 0, 0)
        invariant var d := LastSelected(entities[..i]);
                  view == if d < 0 then BlankView else OpenedView(ItemEntries(entities[d].inventory))
      {
        assert entities[..i + 1][..i] == entities[..i];
        if entities[i].isCardSelected {
          view := OpenedView(ItemEntries(entities[i].inventory));
        }
      }
      assert entities[..|entities|] == entities;
    }
  }
}
