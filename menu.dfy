/** The four-row scrolling list shared by the ability and item menus
    (ability.go:147-434, item.go:147-436): a clamped cursor index, the index
    of the entry in the first row, the index of the entry last drawn, and the
    drawn rows. Both menus run the same index arithmetic on their own list,
    so it is stated once here over menu entries; the two differ only in what
    confirming does, which `Kind` selects. */
module Menus {
  import opened Common
  import opened Phases

  /** The buttons read in one frame. */
  datatype Buttons = Buttons(up: bool, down: bool, left: bool, right: bool, a: bool, b: bool, x: bool, y: bool)

  /** What a row shows of an ability or an item. */
  datatype Entry = Entry(shorthand: string, title: string, description: string)

  /** The placeholder text of an empty row. */
  const Blank := "---"

  /** The drawn menu: four rows of shorthands, the title and description of
      the entry under the cursor, and the row the cursor sprite points at. */
  datatype View = View(shorts: seq<string>, name: string, desc: string, row: int)

  const BlankView: View := View([Blank, Blank, Blank, Blank], Blank, Blank, 0)

  /** curIdx, topIdx and setIdx. */
  datatype Window = Window(cur: int, top: int, drawn: int)

  /** Up moves the cursor up but not below 0; down moves it down but not past
      the last entry, and not below 0 for an empty list (ability.go:165-177). */
  function Clamp(cur: int, len: nat, btn: Buttons): int
  {
    if btn.up then (if cur - 1 < 0 then 0 else cur - 1)
    else if btn.down then (if cur + 1 >= len then (if len - 1 < 0 then 0 else len - 1) else cur + 1)
    else cur
  }

  /** The last index of a list, or 0 for an empty one. */
  function MaxIndex(len: nat): nat
  {
    if len == 0 then 0 else len - 1
  }

  /** The cursor never goes below 0, down never takes it past max(len-1, 0),
      and from a cursor inside the list each press moves it by one at most. */
  lemma ClampSpec(cur: int, len: nat, btn: Buttons)
    ensures btn.up ==> 0 <= Clamp(cur, len, btn) && (cur > 0 ==> Clamp(cur, len, btn) == cur - 1)
    ensures !btn.up && btn.down && -1 <= cur ==> 0 <= Clamp(cur, len, btn) <= MaxIndex(len)
    ensures !btn.up && btn.down && 0 <= cur < MaxIndex(len) ==> Clamp(cur, len, btn) == cur + 1
    ensures !btn.up && !btn.down ==> Clamp(cur, len, btn) == cur
    ensures 0 <= cur <= MaxIndex(len) ==>
              0 <= Clamp(cur, len, btn) <= MaxIndex(len) && -1 <= Clamp(cur, len, btn) - cur <= 1
  {
  }

  /** The new first row: the window follows a cursor that left it above or
      below, and stays put otherwise (ability.go:197, 251-252, 306). */
  function NewTop(cur: int, top: int): int
  {
    if cur < top then cur else if cur > top + 3 then cur - 3 else top
  }

  /** The cursor is inside the four visible rows. */
  predicate Windowed(cur: int, top: int)
  {
    top <= cur <= top + 3
  }

  /** After scrolling the cursor is inside the window; a cursor already
      inside leaves the window where it is. */
  lemma NewTopSpec(cur: int, top: int)
    ensures Windowed(cur, NewTop(cur, top))
    ensures Windowed(cur, top) ==> NewTop(cur, top) == top
    ensures cur < top ==> NewTop(cur, top) == cur
    ensures cur > top + 3 ==> NewTop(cur, top) + 3 == cur
  {
  }

  /** The rows of a window starting at `top`: row k shows entry top+k when
      there is one, and the placeholder otherwise. */
  function WindowShorts(entries: seq<Entry>, top: int): (r: seq<string>)
    ensures |r| == 4
    ensures forall k :: 0 <= k < 4 ==> r[k] == if 0 <= top + k < |entries| then entries[top + k].shorthand else Blank
  {
    seq(4, k requires 0 <= k < 4 => if 0 <= top + k < |entries| then entries[top + k].shorthand else Blank)
  }

  /** How many rows the descending fallthrough switches fill: row k (0-based)
      only when the list has more than k+1 entries. */
  function FilledRows(len: nat): nat
  {
    if len <= 1 then 0 else if len - 1 < 4 then len - 1 else 4
  }

  /** The rows as the descending fallthrough switches fill them after a
      scroll (ability.go:222-250, ability.go:277-305): the first
      FilledRows rows from entry top on, placeholders after. None when a
      filled row would index outside the list, which panics. */
  function FillAsWritten(entries: seq<Entry>, top: int): Option<seq<string>>
  {
    var n := FilledRows(|entries|);
    if n > 0 && (top < 0 || top + n > |entries|) then None
    else Some(seq(4, k requires 0 <= k < 4 => if k < n then entries[top + k].shorthand else Blank))
  }

  /** The window starts at 0, or has four entries from its first row on. */
  predicate InBounds(top: int, len: nat)
  {
    top == 0 || (0 < top && top + 3 < len)
  }

  /** A scroll only ever happens on a list of more than four entries, and
      there the fallthrough fill is the intended one. */
  lemma FillAgreesInBounds(entries: seq<Entry>, top: int)
    requires InBounds(top, |entries|) && |entries| > 4
    ensures FillAsWritten(entries, top) == Some(WindowShorts(entries, top))
  {
    var r := FillAsWritten(entries, top);
    assert r.Some?;
    assert |r.value| == 4;
    assert forall k :: 0 <= k < 4 ==> r.value[k] == WindowShorts(entries, top)[k];
    assert r.value == WindowShorts(entries, top);
  }

  /** The redraw after input, only when the cursor moved off the drawn entry:
      a scroll refills the rows and moves the window, a move inside the
      window moves the cursor sprite; then the title and description of the
      entry under the cursor, and the drawn index catches up with the cursor
      (ability.go:196-331). None is a panic: an index outside the list. */
  function Redraw(entries: seq<Entry>, w: Window, v: View): Option<(Window, View)>
  {
    if w.cur == w.drawn then Some((w, v))
    else
      var top' := NewTop(w.cur, w.top);
      var scrolled := w.cur < w.top || w.cur > w.top + 3;
      var fill := FillAsWritten(entries, top');
      if scrolled && fill.None? then None
      else if !(0 <= w.cur < |entries|) then None
      else
        var v1 := if scrolled then v.(shorts := fill.value) else v.(row := w.cur - w.top);
        Some((Window(w.cur, top', w.cur), v1.(name := entries[w.cur].title, desc := entries[w.cur].description)))
  }

  /** The menu is at rest and agrees with a list: the drawn entry is the one
      under the cursor; the cursor is inside the window and the list; the
      sprite points at the cursor's row; the window starts at 0 or is full;
      the rows show the window; the title and description are the cursor
      entry's. */
  predicate Valid(entries: seq<Entry>, w: Window, v: View)
  {
    && w.cur == w.drawn && Windowed(w.cur, w.top) && 0 <= w.cur <= MaxIndex(|entries|)
    && v.row == w.cur - w.top && InBounds(w.top, |entries|)
    && v.shorts == WindowShorts(entries, w.top)
    && (|entries| > 0 ==> v.name == entries[w.cur].title && v.desc == entries[w.cur].description)
  }

  /** In a Valid menu the row under the cursor sprite shows the entry the
      cursor index designates. */
  lemma ValidShowsCursorEntry(entries: seq<Entry>, w: Window, v: View)
    requires Valid(entries, w, v) && |entries| > 0
    ensures 0 <= v.row < 4 && v.shorts[v.row] == entries[w.cur].shorthand
  {
  }

  /** While the list does not change, one frame of cursor movement and redraw
      keeps the menu Valid, never indexes outside the list, and moves the
      cursor as `Clamp` says. */
  lemma RedrawKeepsValid(entries: seq<Entry>, w: Window, v: View, btn: Buttons)
    requires Valid(entries, w, v)
    ensures var r := Redraw(entries, w.(cur := Clamp(w.cur, |entries|, btn)), v);
            r.Some? && Valid(entries, r.value.0, r.value.1) && r.value.0.cur == Clamp(w.cur, |entries|, btn)
  {
    var len := |entries|;
    var cur := Clamp(w.cur, len, btn);
    ClampSpec(w.cur, len, btn);
    if cur != w.cur {
      NewTopSpec(cur, w.top);
      var top' := NewTop(cur, w.top);
      if cur < w.top || cur > w.top + 3 {
        assert len > 4 && InBounds(top', len);
        FillAgreesInBounds(entries, top');
      }
    }
  }

  // ---------------------------------------------------------------------------
  // One frame of a menu

  /** The two menus differ in what confirming does. */
  datatype Kind = AbilityMenu | ItemMenu

  /** The state of one menu system apart from its entities. */
  datatype MenuState = MenuState(paused: bool, skipNextFrame: bool, w: Window, view: View)

  /** What a frame did: a panic, or the new state, the phase messages sent
      and the index of the confirmed entry (-1 for none). */
  datatype MenuOutcome = MenuPanic | MenuOk(st: MenuState, cmds: seq<PhaseCommand>, picked: int)

  const ToTarget: seq<PhaseCommand> := [SetPhase(Target), DequeuePhase]
  const ToCardSelect: seq<PhaseCommand> := [SetPhase(CardSelect), DequeuePhase]

  /** A menu hands over to the next phase by requesting it and dequeuing at
      once: while a phase runs and nothing is queued, the requested phase is
      next; a queued phase goes first and the request waits behind the
      queue; from an idle controller the pair cancels out. */
  lemma HandOffSpec(st: PhaseState, p: Phase)
    ensures !Idle(st) && st.queue == [] ==> ApplyAll(st, [SetPhase(p), DequeuePhase]) == st.(pending := p)
    ensures !Idle(st) && st.queue != [] ==>
              ApplyAll(st, [SetPhase(p), DequeuePhase]) == st.(pending := st.queue[0], queue := st.queue[1..] + [p])
    ensures Idle(st) && st.queue == [] ==> ApplyAll(st, [SetPhase(p), DequeuePhase]) == st
  {
    var cmds := [SetPhase(p), DequeuePhase];
    assert cmds[..1] == [SetPhase(p)];
    assert [SetPhase(p)][..0] == [];
    assert ApplyAll(st, [SetPhase(p)]) == Request(st, p);
    assert ApplyAll(st, cmds) == Dequeue(Request(st, p));
    if !Idle(st) && st.queue != [] {
      assert (st.queue + [p])[1..] == st.queue[1..] + [p];
    }
  }

  /** A always wins over B, and up and down over both. */
  predicate Confirms(btn: Buttons) { !btn.up && !btn.down && btn.a }
  predicate Backs(btn: Buttons) { !btn.up && !btn.down && !btn.a && btn.b }

  /** One Update of a menu, given the list of the first card-selected
      character, or None when no card is selected (ability.go:147-332,
      item.go:147-335). The frame after opening is skipped; a paused menu and
      a menu without a selected character do nothing. Confirming in the
      ability menu takes the cursor entry, or the last one when the cursor is
      past the end, and panics on an empty list; in the item menu a cursor
      past the end goes back to card selection instead. */
  function Frame(kind: Kind, st: MenuState, sel: Option<seq<Entry>>, btn: Buttons): MenuOutcome
  {
    if st.skipNextFrame then MenuOk(st.(skipNextFrame := false), [], -1)
    else if st.paused || sel.None? then MenuOk(st, [], -1)
    else
      var entries := sel.value;
      var cur := Clamp(st.w.cur, |entries|, btn);
      if Confirms(btn) && kind == ItemMenu && cur >= |entries| then MenuOk(st, ToCardSelect, -1)
      else
        var picked := if !Confirms(btn) then -1 else if cur < |entries| then cur else |entries| - 1;
        if Confirms(btn) && picked < 0 then MenuPanic
        else
          var cmds := if Confirms(btn) then ToTarget else if Backs(btn) then ToCardSelect else [];
          match Redraw(entries, st.w.(cur := cur), st.view)
          case None => MenuPanic
          case Some(r) => MenuOk(st.(w := r.0, view := r.1), cmds, picked)
  }

  /** On a Valid menu a frame panics only when an ability is confirmed from an
      empty list; it keeps the menu Valid; a confirmed entry is the one under
      the cursor, which the sprite's row shows, and sends the phase to target
      selection; B and confirming an empty item list go back to card
      selection; anything else sends nothing. */
  lemma FrameSpec(kind: Kind, st: MenuState, entries: seq<Entry>, btn: Buttons)
    requires Valid(entries, st.w, st.view)
    ensures var out := Frame(kind, st, Some(entries), btn);
            var live := !st.skipNextFrame && !st.paused;
            && (out.MenuPanic? <==> live && kind == AbilityMenu && Confirms(btn) && |entries| == 0)
            && (out.MenuOk? ==> Valid(entries, out.st.w, out.st.view) && out.st.paused == st.paused)
            && (out.MenuOk? && out.picked >= 0 ==>
                  live && Confirms(btn) && out.picked == st.w.cur < |entries|
                  && st.view.shorts[st.view.row] == entries[out.picked].shorthand
                  && out.cmds == ToTarget)
            && (live && Confirms(btn) && |entries| > 0 ==> out.MenuOk? && out.picked == st.w.cur)
            && (live && Confirms(btn) && |entries| == 0 && kind == ItemMenu ==> out == MenuOk(st, ToCardSelect, -1))
            && (live && Backs(btn) ==> out.MenuOk? && out.cmds == ToCardSelect && out.picked == -1)
            && (out.MenuOk? && !(live && (Confirms(btn) || Backs(btn))) ==> out.cmds == [] && out.picked == -1)
  {
    if !st.skipNextFrame && !st.paused {
      RedrawKeepsValid(entries, st.w, st.view, btn);
      if |entries| > 0 {
        ValidShowsCursorEntry(entries, st.w, st.view);
      }
    }
  }

  // ---------------------------------------------------------------------------
  // Opening the menu

  /** The rows, title and description for a freshly opened menu: rows from
      entry 0, and the first entry's title and description when there is
      one. */
  function OpenedView(entries: seq<Entry>): View
  {
    BlankView.(shorts := WindowShorts(entries, 0),
               name := if |entries| >= 1 then entries[0].title else Blank,
               desc := if |entries| >= 1 then entries[0].description else Blank)
  }

  /** unpause as intended: unpaused, the next frame skipped, the cursor on
      the first entry, and the view of the selected character's list (the
      placeholders when no card is selected). */
  function Opened(st: MenuState, sel: Option<seq<Entry>>): MenuState
  {
    MenuState(false, true, Window(0, 0, 0), if sel.Some? then OpenedView(sel.value) else BlankView)
  }

  /** An opened menu is Valid for the list it was opened on, shows every
      entry of a list of up to four, and has the cursor on the first row. */
  lemma OpenedSpec(st: MenuState, entries: seq<Entry>)
    ensures var o := Opened(st, Some(entries));
            && Valid(entries, o.w, o.view) && !o.paused && o.skipNextFrame
            && (forall k :: 0 <= k < 4 && k < |entries| ==> o.view.shorts[k] == entries[k].shorthand)
            && (forall k :: |entries| <= k < 4 ==> o.view.shorts[k] == Blank)
            && o.view.row == 0 && o.w.cur == 0
  {
  }

  /** pause: only the paused flag changes; indices and texts stay. */
  function Paused(st: MenuState): MenuState
  {
    st.(paused := true)
  }

  /** A paused menu ignores every frame until it is opened again, and keeps
      its indices and texts. */
  lemma PausedIgnoresInput(kind: Kind, st: MenuState, sel: Option<seq<Entry>>, btn: Buttons)
    requires !st.skipNextFrame
    ensures Frame(kind, Paused(st), sel, btn) == MenuOk(Paused(st), [], -1)
  {
  }

  // ---------------------------------------------------------------------------
  // Opening the menu as written

  /** The ability menu's unpause as written (ability.go:354-434): the indices
      are left where the last visit put them; the cursor sprite goes to the
      first row; the descending fallthrough fills row k only when the list
      has more than k+1 entries, and the title and description only when it
      has more than one. */
  function AbilityOpenedAsWritten(st: MenuState, sel: Option<seq<Entry>>): MenuState
  {
    var v := if sel.None? then BlankView
             else
               var es := sel.value;
               View(seq(4, k requires 0 <= k < 4 => if |es| > k + 1 then es[k].shorthand else Blank),
                    if |es| > 1 then es[0].title else Blank,
                    if |es| > 1 then es[0].description else Blank, 0);
    MenuState(false, true, st.w, v)
  }

  /** The item menu's unpause as written (item.go:357-436): an ascending
      switch whose first case falls through into the later ones, so a list
      of more than one entry fills all four rows from entries 0 to 3 and
      panics (None) when it has two or three; a single entry shows nothing.
      The indices are left where they were. */
  function ItemOpenedAsWritten(st: MenuState, sel: Option<seq<Entry>>): Option<MenuState>
  {
    if sel.None? || |sel.value| <= 1 then Some(MenuState(false, true, st.w, BlankView))
    else if |sel.value| < 4 then None
    else
      var es := sel.value;
      Some(MenuState(false, true, st.w, View([es[0].shorthand, es[1].shorthand, es[2].shorthand, es[3].shorthand],
                                              es[0].title, es[0].description, 0)))
  }

  /** The ability menu as written never shows the last entry of a list of up
      to four, and shows no title for a single entry, where the intended
      view shows it. */
  lemma AbilityOpenDropsLastEntry(st: MenuState, entries: seq<Entry>)
    requires 1 <= |entries| <= 4
    ensures AbilityOpenedAsWritten(st, Some(entries)).view.shorts[|entries| - 1] == Blank
    ensures Opened(st, Some(entries)).view.shorts[|entries| - 1] == entries[|entries| - 1].shorthand
    ensures |entries| == 1 ==> AbilityOpenedAsWritten(st, Some(entries)).view.name == Blank
                               && Opened(st, Some(entries)).view.name == entries[0].title
  {
  }

  /** The item menu as written panics exactly on lists of two or three
      entries and shows a single entry as empty; the intended opening is
      total and shows it. */
  lemma ItemOpenPanics(st: MenuState, entries: seq<Entry>)
    ensures ItemOpenedAsWritten(st, Some(entries)).None? <==> 2 <= |entries| <= 3
    ensures |entries| == 1 ==> ItemOpenedAsWritten(st, Some(entries)).value.view.shorts[0] == Blank
                               && Opened(st, Some(entries)).view.shorts[0] == entries[0].shorthand
    ensures |entries| >= 4 ==> ItemOpenedAsWritten(st, Some(entries)) == Some(Opened(st, Some(entries)).(w := st.w))
  {
    if |entries| >= 4 {
      var o := Opened(st, Some(entries));
      assert o.view.shorts == [entries[0].shorthand, entries[1].shorthand, entries[2].shorthand, entries[3].shorthand];
    }
  }

  /** A menu left with the cursor on the third entry (curIdx = setIdx = 2,
      topIdx = 0), as after confirming that entry. */
  const LeftOnThird: MenuState := MenuState(true, false, Window(2, 0, 2), BlankView)

  const NoButtons: Buttons := Buttons(false, false, false, false, false, false, false, false)

  /** Left-over indices from the last visit: opened again on a three-entry
      list, the menu highlights the first row and shows the first entry's
      title, yet confirming picks the third entry. */
  lemma StaleCursorPicksHiddenEntry(e: Entry, f: Entry, g: Entry)
    ensures var reopened := AbilityOpenedAsWritten(LeftOnThird, Some([e, f, g])).(skipNextFrame := false);
            && reopened.view.row == 0 && reopened.view.name == e.title
            && Frame(AbilityMenu, reopened, Some([e, f, g]), NoButtons.(a := true)) == MenuOk(reopened, ToTarget, 2)
  {
  }

  /** Opened again on a one-entry list, pressing up moves the stale cursor
      to index 1 and draws an entry that does not exist; opened as intended
      the same press is harmless. */
  lemma StaleCursorPanics(e: Entry)
    ensures Frame(AbilityMenu, AbilityOpenedAsWritten(LeftOnThird, Some([e])).(skipNextFrame := false), Some([e]), NoButtons.(up := true)).MenuPanic?
    ensures Frame(AbilityMenu, Opened(LeftOnThird, Some([e])).(skipNextFrame := false), Some([e]), NoButtons.(up := true)).MenuOk?
  {
    var o := Opened(LeftOnThird, Some([e])).(skipNextFrame := false);
    OpenedSpec(LeftOnThird, [e]);
    FrameSpec(AbilityMenu, o, [e], NoButtons.(up := true));
  }
}
