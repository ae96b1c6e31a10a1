/** The save-flag logic of the scene's interactions (scene.go): inspecting
    Mars and the nanite box counts the visits and picks the dialogue tier;
    the safe offers the next key in a fixed order, then to open; the space
    window may offer the keyboard that holds the space key. Each interaction
    queues its phase script and may register an accept callback, which runs
    later, in the Accept phase, if the player says yes.

    What an interaction says is kept as the choice it makes (which tier,
    which offer), not as the dialogue lines. The random rolls are
    parameters. */
module SceneInteractions {
  import opened Common
  import opened Phases
  import opened Saves

  // ---------------------------------------------------------------------------
  // Keys

  datatype Key = NaniteKey | DeskKey | HoodKey | SpaceKey

  /** The safe's order of preference (scene.go:1486-1602). */
  function Rank(k: Key): nat
  {
    match k
    case NaniteKey => 0
    case DeskKey => 1
    case HoodKey => 2
    case SpaceKey => 3
  }

  function Has(ks: KeySet, k: Key): bool
  {
    match k
    case NaniteKey => ks.nanite
    case DeskKey => ks.desk
    case HoodKey => ks.hood
    case SpaceKey => ks.space
  }

  function With(ks: KeySet, k: Key): (r: KeySet)
    ensures Has(r, k)
    ensures forall j :: j != k ==> Has(r, j) == Has(ks, j)
  {
    match k
    case NaniteKey => ks.(nanite := true)
    case DeskKey => ks.(desk := true)
    case HoodKey => ks.(hood := true)
    case SpaceKey => ks.(space := true)
  }

  function Bit(b: bool): nat
  {
    if b then 1 else 0
  }

  /** How many keys of the set are present. */
  function KeysIn(ks: KeySet): (n: nat)
    ensures n <= 4
    ensures n == 4 <==> forall k :: Has(ks, k)
  {
    assert Has(ks, NaniteKey) == ks.nanite && Has(ks, DeskKey) == ks.desk;
    assert Has(ks, HoodKey) == ks.hood && Has(ks, SpaceKey) == ks.space;
    Bit(ks.nanite) + Bit(ks.desk) + Bit(ks.hood) + Bit(ks.space)
  }

  /** Adding a missing key adds one to the count. */
  lemma KeysInWith(ks: KeySet, k: Key)
    requires !Has(ks, k)
    ensures KeysIn(With(ks, k)) == KeysIn(ks) + 1
  {
  }

  // ---------------------------------------------------------------------------
  // checkKeyCount

  /** The safe animation checkKeyCount selects for a key count
      (scene.go:2074-2087). */
  function KeyCountAnimation(keyCount: int): (name: string)
  {
    if keyCount == 0 then "0"
    else if keyCount == 1 then "1"
    else if keyCount == 2 then "2"
    else if keyCount == 3 then "3"
    else "4"
  }

  /** The animation is named by the count for 0 to 4 keys, and any other
      count shows the full safe; different counts up to four show
      different animations. */
  lemma KeyCountAnimationSpec(keyCount: int)
    ensures 0 <= keyCount <= 4 ==> KeyCountAnimation(keyCount) == Itoa(keyCount)
    ensures keyCount < 0 || keyCount > 4 ==> KeyCountAnimation(keyCount) == Itoa(4)
    ensures forall j :: 0 <= j <= 4 && j != keyCount && 0 <= keyCount <= 4 ==>
              KeyCountAnimation(j) != KeyCountAnimation(keyCount)
  {
    assert Itoa(0) == "0" && Itoa(1) == "1" && Itoa(2) == "2" && Itoa(3) == "3" && Itoa(4) == "4";
  }

  // ---------------------------------------------------------------------------
  // Phase scripts

  /** What an interaction queues after its lines (scene.go:1651-1678): the
      accept prompt when it registered a callback, else Listen; then
      LogClear and Walk; then a dequeue. */
  function Script(offered: bool): seq<PhaseCommand>
  {
    [SetPhase(if offered then Accept else Listen), SetPhase(LogClear), SetPhase(Walk), DequeuePhase]
  }

  /** What an accept callback that prints lines sends (scene.go:1493-1514):
      a dequeue, then Listen, LogClear, Walk and a dequeue. */
  const AcceptedScript: seq<PhaseCommand> :=
    [DequeuePhase, SetPhase(Listen), SetPhase(LogClear), SetPhase(Walk), DequeuePhase]

  /** Interactions fire while walking, with nothing queued: the script makes
      the prompt (or Listen) the next phase, with LogClear and Walk after it. */
  lemma ScriptHandsOver(st: PhaseState, offered: bool)
    requires !Idle(st) && st.queue == []
    ensures ApplyAll(st, Script(offered)) == PhaseState(st.current, if offered then Accept else Listen, [LogClear, Walk])
  {
    var s := Script(offered);
    assert s[..1][..0] == [] && s[..2][..1] == s[..1] && s[..3][..2] == s[..2];
    assert ApplyAll(st, s[..1]) == Request(st, s[0].phase);
    assert ApplyAll(st, s[..2]) == Request(Request(st, s[0].phase), LogClear);
    assert ApplyAll(st, s[..3]) == Request(Request(Request(st, s[0].phase), LogClear), Walk);
    assert s == s[..3] + [DequeuePhase];
  }

  // ---------------------------------------------------------------------------
  // Interactions

  /** What an accept callback does (the closures registered at
      scene.go:1489, 1520, 1550, 1577, 1618, 600 and 1924). */
  datatype SceneAction = PutKey(key: Key) | OpenSafe | TakeNaniteKey | PlayKeyboard(roll: int)

  /** The messages a callback sends: taking the nanite key only sets its
      flag (scene.go:600-604); every other callback prints lines. */
  function ActionScript(a: SceneAction): seq<PhaseCommand>
  {
    if a.TakeNaniteKey? then [] else AcceptedScript
  }

  /** Saying yes at the prompt that `ScriptHandsOver` set up shows the
      callback's lines (Listen), then clears the log and walks; saying no,
      or taking the nanite key, goes straight to LogClear and Walk. */
  lemma ConfirmedScript(c: Controller, a: SceneAction, id: nat)
    requires c.st == PhaseState(Accept, Accept, [LogClear, Walk])
    requires c.acceptFunc == Some(Callback(id, ActionScript(a)))
    ensures Confirm(c, true).st == if a.TakeNaniteKey? then PhaseState(Accept, LogClear, [Walk])
                                   else PhaseState(Accept, Listen, [LogClear, Walk])
    ensures Confirm(c, false).st == PhaseState(Accept, LogClear, [Walk])
  {
    if !a.TakeNaniteKey? {
      var s := AcceptedScript;
      var st := c.st;
      assert s[..1][..0] == [] && s[..2][..1] == s[..1] && s[..3][..2] == s[..2] && s[..4][..3] == s[..3];
      assert ApplyAll(st, s[..1]) == PhaseState(Accept, LogClear, [Walk]);
      assert ApplyAll(st, s[..2]) == PhaseState(Accept, LogClear, [Walk, Listen]);
      assert ApplyAll(st, s[..3]) == PhaseState(Accept, LogClear, [Walk, Listen, LogClear]);
      assert ApplyAll(st, s[..4]) == PhaseState(Accept, LogClear, [Walk, Listen, LogClear, Walk]);
      assert s == s[..4] + [DequeuePhase];
      assert ApplyAll(st, s) == PhaseState(Accept, Walk, [Listen, LogClear, Walk]);
    }
  }

  /** The choice a visit makes, in place of its lines. */
  datatype Said =
    | MarsLines(tier: nat)
    | BoxLines(find: BoxFind, keyOffered: bool)
    | SafeLines(offer: SafeOffer)
    | WindowLines(keyboard: bool)

  /** The new save, what was said, the callback registered and the phase
      messages sent. */
  datatype Visit = Visit(save: SaveData, said: Said, accept: Option<SceneAction>, cmds: seq<PhaseCommand>)

  // Mars

  /** The Mars dialogue for a check count (scene.go:419-445). */
  function MarsTier(checks: int): nat
  {
    if checks < 2 then 1 else if checks < 3 then 2 else if checks < 4 then 3 else 4
  }

  /** Inspecting Mars (scene.go:416-463): the count goes up first, and the
      new count picks the lines. */
  function VisitMars(s: SaveData): Visit
  {
    var s' := s.(checks := s.checks.(mars := s.checks.mars + 1));
    Visit(s', MarsLines(MarsTier(s'.checks.mars)), None, Script(false))
  }

  /** Only the Mars count changes, by one; the n-th visit gets tier n, up
      to the fourth, which repeats from then on; no callback is offered. */
  lemma VisitMarsSpec(s: SaveData)
    requires s.checks.mars >= 0
    ensures var v := VisitMars(s);
            && v.save.checks.mars == s.checks.mars + 1
            && v.save.(checks := s.checks) == s
            && v.said.tier == (if s.checks.mars + 1 < 4 then s.checks.mars + 1 else 4)
            && v.accept.None? && v.cmds == Script(false)
  {
  }

  /** n visits to Mars. */
  function MarsVisits(s: SaveData, n: nat): SaveData
  {
    if n == 0 then s else VisitMars(MarsVisits(s, n - 1)).save
  }

  /** From a fresh count, the visit after n others says tier n + 1, up to
      tier 4; the tiers never go back. */
  lemma {:induction false} MarsTiersInOrder(s: SaveData, n: nat)
    requires s.checks.mars == 0
    ensures MarsVisits(s, n).checks.mars == n
    ensures VisitMars(MarsVisits(s, n)).said.tier == if n + 1 < 4 then n + 1 else 4
    ensures n > 0 ==> VisitMars(MarsVisits(s, n - 1)).said.tier <= VisitMars(MarsVisits(s, n)).said.tier
  {
    if n > 0 {
      MarsTiersInOrder(s, n - 1);
    }
  }

  // Nanite box

  /** What the player finds in the nanite box (scene.go:480-587); `r` is
      the draw from 0 to 10 on a rummage. */
  datatype BoxFind = FirstLook | Rummage(r: int) | LookedEnough | Toad | ToadGone

  function BoxFindAt(checks: int, r: int): BoxFind
  {
    if checks < 2 then FirstLook
    else if checks < 10 then Rummage(r)
    else if checks < 20 then LookedEnough
    else if checks < 21 then Toad
    else ToadGone
  }

  /** A rummage drawing 9 or 10 finds protective gear (scene.go:544-555). */
  predicate FindsPPE(f: BoxFind)
  {
    f.Rummage? && (f.r == 9 || f.r == 10)
  }

  /** Inspecting the nanite box (scene.go:478-620): the count goes up, the
      new count and the draw pick the find, gear is taken if found, and
      the nanite key is offered until it is held. */
  function VisitBox(s: SaveData, r: int): Visit
  {
    var n := s.checks.naniteBox + 1;
    var f := BoxFindAt(n, r);
    var s' := s.(checks := s.checks.(naniteBox := n), hasPPE := s.hasPPE || FindsPPE(f));
    var offer := !s'.keysHeld.nanite;
    Visit(s', BoxLines(f, offer), if offer then Some(TakeNaniteKey) else None, Script(offer))
  }

  /** The box count goes up by one and nothing else changes but the gear;
      gear is held afterwards iff it was before or this visit is the second
      to ninth and draws 9 or 10; the nanite key is offered, with the
      accept prompt, exactly while it is not held. */
  lemma VisitBoxSpec(s: SaveData, r: int)
    ensures var v := VisitBox(s, r);
            && v.save.checks.naniteBox == s.checks.naniteBox + 1
            && v.save.(checks := s.checks, hasPPE := s.hasPPE) == s
            && (v.save.hasPPE <==> s.hasPPE || (2 <= s.checks.naniteBox + 1 < 10 && (r == 9 || r == 10)))
            && (v.accept.Some? <==> !s.keysHeld.nanite)
            && (v.accept.Some? ==> v.accept.value == TakeNaniteKey)
            && v.cmds == Script(!s.keysHeld.nanite)
  {
  }

  // Safe

  datatype SafeOffer = AlreadyOpen | OfferKey(key: Key) | OfferOpen | NoMoreKeys

  /** The key is held but not yet in the safe. */
  predicate Pending(s: SaveData, k: Key)
  {
    Has(s.keysHeld, k) && !Has(s.keysInSafe, k)
  }

  /** What the safe offers (scene.go:1483-1615). */
  function SafeOfferFor(s: SaveData): SafeOffer
  {
    if s.isSafeOpen && s.found.spookyBoard then AlreadyOpen
    else if Pending(s, NaniteKey) then OfferKey(NaniteKey)
    else if Pending(s, DeskKey) then OfferKey(DeskKey)
    else if Pending(s, HoodKey) then OfferKey(HoodKey)
    else if Pending(s, SpaceKey) then OfferKey(SpaceKey)
    else if s.keysInSafe.desk && s.keysInSafe.nanite && s.keysInSafe.hood && s.keysInSafe.space && !s.isSafeOpen
    then OfferOpen
    else NoMoreKeys
  }

  /** An open safe whose board was taken offers nothing; otherwise the
      first pending key in the order nanite, desk, hood, space is offered;
      opening is offered only with all four keys in a closed safe and none
      pending. */
  lemma SafeOfferSpec(s: SaveData, k: Key)
    ensures SafeOfferFor(s) == AlreadyOpen <==> s.isSafeOpen && s.found.spookyBoard
    ensures SafeOfferFor(s) == OfferKey(k) <==>
              && !(s.isSafeOpen && s.found.spookyBoard)
              && Pending(s, k)
              && forall j :: Rank(j) < Rank(k) ==> !Pending(s, j)
    ensures SafeOfferFor(s) == OfferOpen <==>
              && !(s.isSafeOpen && s.found.spookyBoard)
              && (forall j :: !Pending(s, j))
              && KeysIn(s.keysInSafe) == 4 && !s.isSafeOpen
  {
    assert forall j :: Rank(j) < Rank(DeskKey) ==> j == NaniteKey;
    assert forall j :: Rank(j) < Rank(HoodKey) ==> j == NaniteKey || j == DeskKey;
    assert forall j :: Rank(j) < Rank(SpaceKey) ==> j != SpaceKey;
    assert forall j :: Pending(s, j) ==> Pending(s, NaniteKey) || Pending(s, DeskKey) || Pending(s, HoodKey) || Pending(s, SpaceKey);
  }

  /** The callback an offer registers. */
  function OfferAction(o: SafeOffer): Option<SceneAction>
  {
    match o
    case OfferKey(k) => Some(PutKey(k))
    case OfferOpen => Some(OpenSafe)
    case _ => None
  }

  /** Inspecting the safe (scene.go:1480-1679) changes no flag by itself. */
  function VisitSafe(s: SaveData): Visit
  {
    var o := SafeOfferFor(s);
    Visit(s, SafeLines(o), OfferAction(o), Script(OfferAction(o).Some?))
  }

  // Window

  /** Looking out of the space window (scene.go:1907-2012): without the
      space key, a perception roll from 0 to 19 of 8 or more offers the
      keyboard. */
  function VisitWindow(s: SaveData, roll: int): Visit
  {
    var offered := !s.keysHeld.space && roll >= 8;
    Visit(s, WindowLines(offered), if offered then Some(PlayKeyboard(roll)) else None, Script(offered))
  }

  /** The keyboard yields the space key, as written (scene.go:1925-1965):
      the middle branch tests the first roll again, not the second. */
  predicate KeyboardBreaksAsWritten(roll: int, rollAgain: int)
  {
    if rollAgain < 7 then true else if roll < 10 then false else true
  }

  /** The keyboard yields the space key unless the second roll is 7 to 9. */
  predicate KeyboardBreaks(rollAgain: int)
  {
    if rollAgain < 7 then true else if rollAgain < 10 then false else true
  }

  /** As written, a first roll of 10 or more gives the key whatever the
      second roll, and a first roll of 8 or 9 gives it only on a second
      roll under 7: the high branch is out of reach for 8 and 9 and the
      plain one for 10 and up. As intended, only the second roll decides. */
  lemma KeyboardRolls(roll: int, rollAgain: int)
    requires roll >= 8
    ensures roll >= 10 ==> KeyboardBreaksAsWritten(roll, rollAgain)
    ensures roll < 10 ==> (KeyboardBreaksAsWritten(roll, rollAgain) <==> rollAgain < 7)
    ensures KeyboardBreaks(rollAgain) <==> rollAgain < 7 || rollAgain >= 10
    ensures KeyboardBreaksAsWritten(10, 8) && !KeyboardBreaks(8)
    ensures !KeyboardBreaksAsWritten(8, 12) && KeyboardBreaks(12)
  {
  }

  /** Looking out of the window and saying yes, as intended: the space key
      is won exactly when the first roll offers the keyboard and the second
      is not 7 to 9; nothing else in the save or the safe changes. */
  lemma WindowGivesSpaceKey(w: World, roll: int, rollAgain: int)
    requires !w.save.keysHeld.space
    ensures var v := VisitWindow(w.save, roll);
            var w' := if v.accept.Some? then Accepted(w, v.accept.value, rollAgain) else w;
            && (w'.save.keysHeld.space <==> roll >= 8 && (rollAgain < 7 || rollAgain >= 10))
            && w'.save.(keysHeld := w.save.keysHeld) == w.save
            && w'.save.keysHeld.(space := false) == w.save.keysHeld
            && w'.safeAnim == w.safeAnim
  {
  }

  // ---------------------------------------------------------------------------
  // Callbacks

  /** The save and the safe's selected animation. */
  datatype World = World(save: SaveData, safeAnim: string)

  /** Putting a key in the safe as written (scene.go:1489-1492,
      1520-1523, 1550-1553, 1577-1607): for the space key checkKeyCount
      runs before the count goes up. */
  function PutKeyAsWritten(w: World, k: Key): World
  {
    var s := w.save;
    var anim := if k == SpaceKey then KeyCountAnimation(s.keyCount) else KeyCountAnimation(s.keyCount + 1);
    World(s.(keyCount := s.keyCount + 1, keysInSafe := With(s.keysInSafe, k)), anim)
  }

  /** Putting a key in the safe: count, then show the count, then the flag. */
  function PutKeyInSafe(w: World, k: Key): World
  {
    var s := w.save.(keyCount := w.save.keyCount + 1);
    World(s.(keysInSafe := With(s.keysInSafe, k)), KeyCountAnimation(s.keyCount))
  }

  /** Opening the safe (scene.go:1618-1646): the "open" animation, and the
      board is taken. */
  function OpenTheSafe(w: World): World
  {
    World(w.save.(found := w.save.found.(spookyBoard := true), isSafeOpen := true), "open")
  }

  /** What a confirmed callback does to the world; `rollAgain` is the
      keyboard's second roll, from 0 to 19. */
  function Accepted(w: World, a: SceneAction, rollAgain: int): World
  {
    match a
    case PutKey(k) => PutKeyInSafe(w, k)
    case OpenSafe => OpenTheSafe(w)
    case TakeNaniteKey => w.(save := w.save.(keysHeld := With(w.save.keysHeld, NaniteKey)))
    case PlayKeyboard(_) =>
      if KeyboardBreaks(rollAgain) then w.(save := w.save.(keysHeld := With(w.save.keysHeld, SpaceKey))) else w
  }

  /** The safe's count agrees with the keys in it, and the safe shows that
      count unless no key is in or it shows itself open. */
  predicate SafeShowsKeys(w: World)
  {
    && w.save.keyCount == KeysIn(w.save.keysInSafe)
    && (w.save.keyCount > 0 ==> w.safeAnim == KeyCountAnimation(w.save.keyCount) || w.safeAnim == "open")
  }

  /** Putting in the key the safe offers keeps the count and the animation
      in step: the safe then shows the new number of keys. */
  lemma PutKeyShowsCount(w: World, k: Key)
    requires SafeShowsKeys(w) && SafeOfferFor(w.save) == OfferKey(k)
    ensures var w' := PutKeyInSafe(w, k);
            && SafeShowsKeys(w')
            && w'.safeAnim == KeyCountAnimation(KeysIn(w'.save.keysInSafe))
            && KeysIn(w'.save.keysInSafe) == KeysIn(w.save.keysInSafe) + 1
  {
    KeysInWith(w.save.keysInSafe, k);
  }

  /** As written, putting in the space key leaves the safe showing one key
      fewer than it holds. */
  lemma SpaceKeyAnimationLags(w: World)
    requires SafeShowsKeys(w) && SafeOfferFor(w.save) == OfferKey(SpaceKey)
    ensures var w' := PutKeyAsWritten(w, SpaceKey);
            && KeysIn(w'.save.keysInSafe) == w'.save.keyCount
            && w'.safeAnim == KeyCountAnimation(w'.save.keyCount - 1)
            && w'.safeAnim != KeyCountAnimation(w'.save.keyCount)
            && !SafeShowsKeys(w')
  {
    KeysInWith(w.save.keysInSafe, SpaceKey);
    assert w.save.keyCount < 4 by {
      assert !Has(w.save.keysInSafe, SpaceKey);
    }
    KeyCountAnimationSpec(w.save.keyCount);
  }

  /** Other keys agree in both versions. */
  lemma PutKeyAgreesAsWritten(w: World, k: Key)
    requires k != SpaceKey
    ensures PutKeyAsWritten(w, k) == PutKeyInSafe(w, k)
  {
  }

  /** Opening the offered safe takes the board, shows the open safe, keeps
      the count of four, and the safe then says it is already open. */
  lemma OpenTheSafeSpec(w: World)
    requires SafeShowsKeys(w) && SafeOfferFor(w.save) == OfferOpen
    ensures var w' := OpenTheSafe(w);
            && SafeShowsKeys(w') && w'.save.keyCount == 4
            && w'.save.isSafeOpen && w'.save.found.spookyBoard && w'.safeAnim == "open"
            && SafeOfferFor(w'.save) == AlreadyOpen
  {
    SafeOfferSpec(w.save, NaniteKey);
  }

  /** One visit to the safe, saying yes to whatever it offers. */
  function SafeRound(w: World): World
  {
    var v := VisitSafe(w.save);
    if v.accept.Some? then Accepted(w, v.accept.value, 0) else w
  }

  /** With all four keys held and none in, four rounds put in the nanite,
      desk, hood and space keys in that order, the safe counting 1 to 4,
      and the fifth opens it. */
  lemma FourKeysOpenTheSafe(w: World)
    requires w.save.keysHeld == KeySet(true, true, true, true) && w.save.keysInSafe == NoKeys
    requires w.save.keyCount == 0 && !w.save.isSafeOpen
    ensures var w1 := SafeRound(w);
            var w2 := SafeRound(w1);
            var w3 := SafeRound(w2);
            var w4 := SafeRound(w3);
            var w5 := SafeRound(w4);
            && w1.save.keysInSafe == KeySet(true, false, false, false) && w1.safeAnim == "1"
            && w2.save.keysInSafe == KeySet(true, true, false, false) && w2.safeAnim == "2"
            && w3.save.keysInSafe == KeySet(true, true, true, false) && w3.safeAnim == "3"
            && w4.save.keysInSafe == KeySet(true, true, true, true) && w4.safeAnim == "4"
            && w5.save.isSafeOpen && w5.save.found.spookyBoard && w5.safeAnim == "open"
  {
    var w1 := SafeRound(w);
    assert SafeOfferFor(w.save) == OfferKey(NaniteKey);
    var w2 := SafeRound(w1);
    assert SafeOfferFor(w1.save) == OfferKey(DeskKey);
    var w3 := SafeRound(w2);
    assert SafeOfferFor(w2.save) == OfferKey(HoodKey);
    var w4 := SafeRound(w3);
    assert SafeOfferFor(w3.save) == OfferKey(SpaceKey);
    assert SafeOfferFor(w4.save) == OfferOpen;
  }

  // ---------------------------------------------------------------------------
  // The scene's state

  /** The global save and the safe's animation component, which the
      interaction closures update in place. */
  class Scene {
    var save: SaveData
    var safeAnim: string

    function State(): World
      reads this
    {
      World(save, safeAnim)
    }

    constructor (save: SaveData, safeAnim: string)
      ensures State() == World(save, safeAnim)
    {
      this.save, this.safeAnim := save, safeAnim;
    }

    /** checkKeyCount (scene.go:2074-2087). */
    method CheckKeyCount()
      modifies this`safeAnim
      ensures safeAnim == KeyCountAnimation(save.keyCount)
    {
      match save.keyCount
      case 0 => safeAnim := "0";
      case 1 => safeAnim := "1";
      case 2 => safeAnim := "2";
      case 3 => safeAnim := "3";
      case _ => safeAnim := "4";
    }

    /** The Mars closure (scene.go:416-463). */
    method InspectMars() returns (said: Said, cmds: seq<PhaseCommand>)
      modifies this`save
      ensures Visit(save, said, None, cmds) == VisitMars(old(save))
    {
      save := save.(checks := save.checks.(mars := save.checks.mars + 1));
      var tier := 4;
      if save.checks.mars < 2 {
        tier := 1;
      } else if save.checks.mars < 3 {
        tier := 2;
      } else if save.checks.mars < 4 {
        tier := 3;
      }
      said := MarsLines(tier);
      cmds := [SetPhase(Listen), SetPhase(LogClear), SetPhase(Walk), DequeuePhase];
    }

    /** The nanite-box closure (scene.go:478-620); `r` is `rand.Intn(11)`. */
    method InspectNaniteBox(r: int) returns (said: Said, accept: Option<SceneAction>, cmds: seq<PhaseCommand>)
      modifies this`save
      ensures Visit(save, said, accept, cmds) == VisitBox(old(save), r)
    {
      save := save.(checks := save.checks.(naniteBox := save.checks.naniteBox + 1));
      var find := BoxFindAt(save.checks.naniteBox, r);
      if FindsPPE(find) && !save.hasPPE {
        save := save.(hasPPE := true);
      }
      var offer := !save.keysHeld.nanite;
      accept := if offer then Some(TakeNaniteKey) else None;
      said := BoxLines(find, offer);
      cmds := Script(offer);
    }

    /** The safe closure (scene.go:1480-1679). */
    method InspectSafe() returns (said: Said, accept: Option<SceneAction>, cmds: seq<PhaseCommand>)
      ensures Visit(save, said, accept, cmds) == VisitSafe(save)
      ensures accept.Some? ==> accept.value.PutKey? || accept.value.OpenSafe?
    {
      var offer := SafeOfferFor(save);
      accept := OfferAction(offer);
      said := SafeLines(offer);
      cmds := Script(accept.Some?);
    }

    /** The window closure (scene.go:1907-2012); `roll` is `rand.Intn(20)`. */
    method LookOutWindow(roll: int) returns (said: Said, accept: Option<SceneAction>, cmds: seq<PhaseCommand>)
      ensures Visit(save, said, accept, cmds) == VisitWindow(save, roll)
      ensures accept.Some? <==> !save.keysHeld.space && roll >= 8
    {
      accept := None;
      if !save.keysHeld.space {
        if roll >= 8 {
          accept := Some(PlayKeyboard(roll));
        }
      }
      said := WindowLines(accept.Some?);
      cmds := Script(accept.Some?);
    }

    /** A registered callback runs after a yes at the prompt. */
    method RunAccepted(a: SceneAction, rollAgain: int)
      modifies this
      ensures State() == Accepted(old(State()), a, rollAgain)
    {
      match a
      case PutKey(k) =>
        save := save.(keyCount := save.keyCount + 1);
        CheckKeyCount();
        save := save.(keysInSafe := With(save.keysInSafe, k));
      case OpenSafe =>
        safeAnim := "open";
        save := save.(found := save.found.(spookyBoard := true), isSafeOpen := true);
      case TakeNaniteKey =>
        save := save.(keysHeld := save.keysHeld.(nanite := true));
      case PlayKeyboard(_) =>
        if rollAgain < 7 {
          save := save.(keysHeld := save.keysHeld.(space := true));
        } else if rollAgain < 10 {
        } else {
          save := save.(keysHeld := save.keysHeld.(space := true));
        }
    }
  }
}
