/** The abilities of the opening fight and what their effects do
    (abilities.go). Each effect is a method on the caster that appends log
    lines, edits the caster's ability list or HP and updates the save
    record; the dice it throws are parameters. Pure functions say what each
    effect does as a function of the dice, the save flags and the caster. */
module Abilities {
  import opened Common
  import opened Characters
  import opened Saves

  // ---------------------------------------------------------------------------
  // The abilities (abilities.go:21-484)

  const RegularAttackAbility: Ability :=
    Ability("Regular boring old attack.", "Fight", "Normal Series: Normal punch.",
            0.0, SingleEnemy, DexCastTime, RegularAttack)
  const DefendAbility: Ability :=
    Ability("Defend yourself!", "Defend", "Protect yourself this turn to take less damage!",
            0.0, NoTarget, KeepCastTime, Defend)
  const LookAroundAbility: Ability :=
    Ability("Look Around!", "Look",
            "Look around the fight area for \nclues! Maybe something useful \nwill turn up!",
            0.0, NoTarget, KeepCastTime, LookAround)
  const SafeSearchAbility: Ability :=
    Ability("Search the Safe!", "SSafe", "Search that safe! Myabe it has something useful inside!",
            0.0, NoTarget, KeepCastTime, SafeSearch)
  const AskPinAbility: Ability :=
    Ability("Ask about the Pin!", "Ask", "Ask the President what his super secret safe pin is",
            0.0, SingleFriend, KeepCastTime, AskPin)
  const GuessPinAbility: Ability :=
    Ability("Guess the Pin!", "Guess", "Try a random pin on the safe!",
            0.0, NoTarget, KeepCastTime, GuessPin)
  const InputPinAbility: Ability :=
    Ability("Input the Pin!", "Input", "Input the pin and open the safe!",
            0.0, NoTarget, KeepCastTime, InputPin)
  const DistractAndDodgeAbility: Ability :=
    Ability("Distract and Dodge", "DnD",
            "Distract the ghost to get its attention, then dodge its energy blast! The safe will take the brunt of the blast!",
            0.0, SingleEnemy, KeepCastTime, DistractAndDodge)
  const GrabItemInSafeAbility: Ability :=
    Ability("Grab whatever's in that safe!", "SGrab",
            "Grab what's inside the now open safe and add it to your inventory",
            0.0, NoTarget, KeepCastTime, GrabItemInSafe)
  const GlintSearchAbility: Ability :=
    Ability("Look closer at the wall!", "SWall", "Take a closer look at the gleam in the wall.",
            0.0, NoTarget, KeepCastTime, GlintSearch)
  const MedKitSearchAbility: Ability :=
    Ability("Search the med kit!", "SKit", "Scavenge the med kit for band-aids and medicine!",
            5.0, NoTarget, KeepCastTime, MedKitSearch)
  const ReadSpookyBoardAbility: Ability :=
    Ability("Ready Spooky Board!", "RSpookB", "Take a reading from the spooky board!",
            0.0, NoTarget, KeepCastTime, ReadSpookyBoard)
  /** Declared as the zero ability: empty title, no effect. */
  const ScratchSaltAbility: Ability := NoAbility

  /** The four abilities a solved safe pin takes away, in removal order. */
  const PinTitles: seq<string> :=
    [GuessPinAbility.title, AskPinAbility.title, InputPinAbility.title, DistractAndDodgeAbility.title]

  // ---------------------------------------------------------------------------
  // Cast time (abilities.go:27-32)

  /** The regular attack's cast time: 1.5 seconds less a hundredth of the
      caster's dexterity, never below 0.2. */
  function RegularAttackCastTime(dex: real): (t: real)
  {
    if 1.5 - dex / 100.0 < 0.2 then 0.2 else 1.5 - dex / 100.0
  }

  /** The floor holds, the time never exceeds 1.5 for non-negative dexterity,
      and more dexterity never means a longer cast. */
  lemma CastTimeBounds(d1: real, d2: real)
    requires d1 <= d2
    ensures RegularAttackCastTime(d1) >= 0.2
    ensures d1 >= 0.0 ==> RegularAttackCastTime(d1) <= 1.5
    ensures RegularAttackCastTime(d2) <= RegularAttackCastTime(d1)
    ensures d1 <= 130.0 ==> RegularAttackCastTime(d1) == 1.5 - d1 / 100.0
  {
  }

  /** Runs an ability's cast-time closure; only the regular attack's does anything. */
  method ApplyCastTime(rule: CastRule, you: Character)
    modifies you`totalCastTime
    ensures rule == DexCastTime ==> you.totalCastTime == RegularAttackCastTime(you.dex)
    ensures rule != DexCastTime ==> you.totalCastTime == old(you.totalCastTime)
  {
    if rule == DexCastTime {
      you.totalCastTime := 1.5 - you.dex / 100.0;
      if you.totalCastTime < 0.2 {
        you.totalCastTime := 0.2;
      }
    }
  }

  // ---------------------------------------------------------------------------
  // Look Around (abilities.go:55-134)

  const LookIntro := "You look around the room..."
  const NothingOfNote := "But don't see anything of note."
  const SafeLines: seq<string> := ["That safe over there looks SUSPICIOUS!"]
  const GlintLines: seq<string> := ["Is that wall...glinting?", "Maybe you should check it out!"]
  const MedKitLines: seq<string> :=
    ["There's a safety kit on the back wall here", "Maybe there's a medkit in there",
     "That could help anyone who gets injured!"]
  const SaltLines: seq<string> :=
    ["There's a Himylian Salt Lamp on the desk here", "Salt circles can help fight ghosts!",
     "Or so I've heard..."]
  const SeenEverything := "You've already seen everything in the room."

  /** Everything Look Around can reveal has been found. */
  predicate AllFound(s: SaveData)
  {
    s.found.spookyBoard && s.found.spookyBoardPointer && s.found.medKit && s.found.salt
  }

  /** How many of the four discoveries are still to be made. */
  function Unfound(s: SaveData): nat
  {
    (if s.found.spookyBoard then 0 else 1) + (if s.found.spookyBoardPointer then 0 else 1)
    + (if s.found.medKit then 0 else 1) + (if s.found.salt then 0 else 1)
  }

  /** `a` is the ability that reveals a discovery not yet made. */
  predicate Reveals(s: SaveData, a: Ability)
  {
    || (a == SafeSearchAbility && !s.found.spookyBoard)
    || (a == GlintSearchAbility && !s.found.spookyBoardPointer)
    || (a == MedKitSearchAbility && !s.found.medKit)
    || (a == ScratchSaltAbility && !s.found.salt)
  }

  /** The first discovery not yet made, for a roll of 6..19 (abilities.go:61-90). */
  function SeeSomethingAdds(s: SaveData): seq<Ability>
  {
    if !s.found.spookyBoard then [SafeSearchAbility]
    else if !s.found.spookyBoardPointer then [GlintSearchAbility]
    else if !s.found.medKit then [MedKitSearchAbility]
    else if !s.found.salt then [ScratchSaltAbility]
    else []
  }

  function SeeSomethingLines(s: SaveData): seq<string>
  {
    if !s.found.spookyBoard then SafeLines
    else if !s.found.spookyBoardPointer then GlintLines
    else if !s.found.medKit then MedKitLines
    else if !s.found.salt then SaltLines
    else [SeenEverything]
  }

  /** Every discovery not yet made, for a roll of 20 (abilities.go:91-125). */
  function SeeEverythingAdds(s: SaveData): seq<Ability>
  {
    (if !s.found.spookyBoard then [SafeSearchAbility] else [])
    + (if !s.found.spookyBoardPointer then [GlintSearchAbility] else [])
    + (if !s.found.medKit then [MedKitSearchAbility] else [])
    + (if !s.found.salt then [ScratchSaltAbility] else [])
  }

  function SeeEverythingFinds(s: SaveData): seq<string>
  {
    (if !s.found.spookyBoard then SafeLines else [])
    + (if !s.found.spookyBoardPointer then GlintLines else [])
    + (if !s.found.medKit then MedKitLines else [])
    + (if !s.found.salt then SaltLines else [])
  }

  function SeeEverythingLines(s: SaveData): seq<string>
  {
    SeeEverythingFinds(s) + (if AllFound(s) then [SeenEverything] else [])
  }

  /** The abilities Look Around hands to AddAbility, in order, for a roll of 1..20. */
  function LookAroundAdds(roll: int, s: SaveData): seq<Ability>
  {
    if roll <= 5 then [] else if roll <= 19 then SeeSomethingAdds(s) else SeeEverythingAdds(s)
  }

  /** The log lines of Look Around. */
  function LookAroundLines(roll: int, s: SaveData): seq<string>
  {
    [LookIntro] +
    if roll <= 5 then [NothingOfNote] else if roll <= 19 then SeeSomethingLines(s) else SeeEverythingLines(s)
  }

  /** A low roll finds nothing; a middle roll offers at most the first
      discovery not yet made; a 20 offers every one; only undiscovered things
      are ever offered, and "already seen" appears on a middle or high roll
      exactly when everything is found (abilities.go:58-125). */
  lemma LookAroundSpec(roll: int, s: SaveData)
    requires 1 <= roll <= 20
    ensures roll <= 5 ==> LookAroundLines(roll, s) == [LookIntro, NothingOfNote] && LookAroundAdds(roll, s) == []
    ensures 6 <= roll <= 19 ==> |LookAroundAdds(roll, s)| == (if AllFound(s) then 0 else 1)
    ensures roll == 20 ==> |LookAroundAdds(roll, s)| == Unfound(s)
    ensures forall a :: a in LookAroundAdds(roll, s) ==> Reveals(s, a)
    ensures roll > 5 ==> (SeenEverything in LookAroundLines(roll, s) <==> AllFound(s))
    ensures 6 <= roll <= 19 && !s.found.spookyBoard ==> LookAroundAdds(roll, s) == [SafeSearchAbility]
    ensures 6 <= roll <= 19 && s.found.spookyBoard && !s.found.spookyBoardPointer
            ==> LookAroundAdds(roll, s) == [GlintSearchAbility]
  {
    var body := LookAroundLines(roll, s)[1..];
    assert LookAroundLines(roll, s) == [LookIntro] + body;
    if roll > 5 {
      var finds := SafeLines + GlintLines + MedKitLines + SaltLines;
      assert SeenEverything !in finds;
      assert LookIntro != SeenEverything;
      if roll == 20 {
        assert forall x :: x in SeeEverythingFinds(s) ==> x in finds;
      } else {
        assert forall x :: x in body ==> x in finds + [SeenEverything];
      }
    }
  }

  lemma AddedAllSnoc(abs: seq<Ability>, adds: seq<Ability>, a: Ability)
    ensures AddedAll(abs, adds + [a]) == Added(AddedAll(abs, adds), a)
  {
    assert (adds + [a])[..|adds|] == adds;
  }

  method CastLookAround(you: Character, s: SaveData, roll: int) returns (lines: seq<string>)
    modifies you`abilities
    ensures lines == LookAroundLines(roll, s)
    ensures you.abilities == AddedAll(old(you.abilities), LookAroundAdds(roll, s))
  {
    lines := [LookIntro];
    if roll <= 5 {
      lines := lines + [NothingOfNote];
    } else if roll <= 19 {
      var found := SeeSomething(you, s);
      lines := lines + found;
    } else {
      var found := SeeEverything(you, s);
      lines := lines + found;
      SeeEverythingAdded(old(you.abilities), s);
    }
  }

  method SeeSomething(you: Character, s: SaveData) returns (lines: seq<string>)
    modifies you`abilities
    ensures lines == SeeSomethingLines(s)
    ensures you.abilities == AddedAll(old(you.abilities), SeeSomethingAdds(s))
  {
    if !s.found.spookyBoard {
      lines := SafeLines;
      AddedAllSnoc(you.abilities, [], SafeSearchAbility);
      you.AddAbility(SafeSearchAbility);
    } else if !s.found.spookyBoardPointer {
      lines := GlintLines;
      AddedAllSnoc(you.abilities, [], GlintSearchAbility);
      you.AddAbility(GlintSearchAbility);
    } else if !s.found.medKit {
      lines := MedKitLines;
      AddedAllSnoc(you.abilities, [], MedKitSearchAbility);
      you.AddAbility(MedKitSearchAbility);
    } else if !s.found.salt {
      lines := SaltLines;
      AddedAllSnoc(you.abilities, [], ScratchSaltAbility);
      you.AddAbility(ScratchSaltAbility);
    } else {
      lines := [SeenEverything];
    }
  }

  /** The list after a discovery that is offered only while still hidden. */
  function AddedIf(abs: seq<Ability>, hidden: bool, a: Ability): seq<Ability>
  {
    if hidden then Added(abs, a) else abs
  }

  /** The list after a 20, one discovery after another. */
  function SeeEverythingAbilities(abs: seq<Ability>, s: SaveData): seq<Ability>
  {
    var afterBoard := AddedIf(abs, !s.found.spookyBoard, SafeSearchAbility);
    var afterPointer := AddedIf(afterBoard, !s.found.spookyBoardPointer, GlintSearchAbility);
    var afterKit := AddedIf(afterPointer, !s.found.medKit, MedKitSearchAbility);
    AddedIf(afterKit, !s.found.salt, ScratchSaltAbility)
  }

  /** Adding the hidden discoveries one by one is adding the list of them. */
  lemma SeeEverythingAdded(abs: seq<Ability>, s: SaveData)
    ensures SeeEverythingAbilities(abs, s) == AddedAll(abs, SeeEverythingAdds(s))
  {
    var adds := SeeEverythingAdds(s);
    var p0: seq<Ability> := [];
    var p1 := p0 + (if !s.found.spookyBoard then [SafeSearchAbility] else []);
    var p2 := p1 + (if !s.found.spookyBoardPointer then [GlintSearchAbility] else []);
    var p3 := p2 + (if !s.found.medKit then [MedKitSearchAbility] else []);
    var p4 := p3 + (if !s.found.salt then [ScratchSaltAbility] else []);
    assert p4 == adds;
    AddedIfSnoc(abs, p0, !s.found.spookyBoard, SafeSearchAbility);
    AddedIfSnoc(abs, p1, !s.found.spookyBoardPointer, GlintSearchAbility);
    AddedIfSnoc(abs, p2, !s.found.medKit, MedKitSearchAbility);
    AddedIfSnoc(abs, p3, !s.found.salt, ScratchSaltAbility);
  }

  lemma AddedIfSnoc(abs: seq<Ability>, adds: seq<Ability>, hidden: bool, a: Ability)
    ensures AddedAll(abs, adds + (if hidden then [a] else [])) == AddedIf(AddedAll(abs, adds), hidden, a)
  {
    if hidden {
      AddedAllSnoc(abs, adds, a);
    } else {
      assert adds + [] == adds;
    }
  }

  /** One discovery of a 20: when it is still hidden, its lines and its ability. */
  method Reveal(you: Character, hidden: bool, a: Ability, found: seq<string>) returns (lines: seq<string>)
    modifies you`abilities
    ensures lines == (if hidden then found else [])
    ensures you.abilities == AddedIf(old(you.abilities), hidden, a)
  {
    lines := [];
    if hidden {
      lines := found;
      you.AddAbility(a);
    }
  }

  method SeeEverything(you: Character, s: SaveData) returns (lines: seq<string>)
    modifies you`abilities
    ensures lines == SeeEverythingLines(s)
    ensures you.abilities == SeeEverythingAbilities(old(you.abilities), s)
  {
    var board := Reveal(you, !s.found.spookyBoard, SafeSearchAbility, SafeLines);
    var pointer := Reveal(you, !s.found.spookyBoardPointer, GlintSearchAbility, GlintLines);
    var kit := Reveal(you, !s.found.medKit, MedKitSearchAbility, MedKitLines);
    var salt := Reveal(you, !s.found.salt, ScratchSaltAbility, SaltLines);
    lines := board + pointer + kit + salt;
    if s.found.spookyBoard && s.found.spookyBoardPointer && s.found.medKit && s.found.salt {
      lines := lines + [SeenEverything];
    }
  }

  // ---------------------------------------------------------------------------
  // Search the Safe (abilities.go:137-170)

  const SafeSearchLines: seq<string> :=
    ["Looks like the safe has 4 key holes",
     "If you have the keys in your INVENTORY",
     "You should be able to easily open it.",
     "If not though,",
     "Maybe one of the ghost's ENERGY BLASTS can break through.",
     "There's also a pin-pad that *might* open it if you guess it right.",
     "I can never remember it, but you might be able to ask ME what the pin is",
     "If you've recruited me..."]

  function SafeSearchAdds(s: SaveData): seq<Ability>
  {
    [DistractAndDodgeAbility, GuessPinAbility] + (if s.recruitedMe then [AskPinAbility] else [])
  }

  /** Searching the safe always offers Distract and Dodge and Guess the Pin,
      and Ask about the Pin exactly when Me has been recruited
      (abilities.go:152-161). */
  lemma SafeSearchSpec(abs: seq<Ability>, s: SaveData)
    requires UniqueTitles(abs)
    ensures var r := AddedAll(abs, SafeSearchAdds(s));
            UniqueTitles(r)
            && HasTitle(r, DistractAndDodgeAbility.title) && HasTitle(r, GuessPinAbility.title)
            && (s.recruitedMe ==> HasTitle(r, AskPinAbility.title))
            && (!s.recruitedMe && !HasTitle(abs, AskPinAbility.title) ==> !HasTitle(r, AskPinAbility.title))
  {
    var adds := SafeSearchAdds(s);
    AddedAllSpec(abs, adds);
    if !s.recruitedMe && !HasTitle(abs, AskPinAbility.title) {
      var two := [DistractAndDodgeAbility, GuessPinAbility];
      assert adds == two;
      assert two[..1] == [DistractAndDodgeAbility] && [DistractAndDodgeAbility][..0] == [];
      var r1 := Added(abs, DistractAndDodgeAbility);
      var r2 := Added(r1, GuessPinAbility);
      AddedAllSnoc(abs, [], DistractAndDodgeAbility);
      AddedAllSnoc(abs, [DistractAndDodgeAbility], GuessPinAbility);
      assert AddedAll(abs, adds) == r2;
      AddedKeepsAbsent(abs, DistractAndDodgeAbility, AskPinAbility.title);
      AddedKeepsAbsent(r1, GuessPinAbility, AskPinAbility.title);
    }
  }

  /** Adding an ability with another title does not add `t`. */
  lemma AddedKeepsAbsent(abs: seq<Ability>, a: Ability, t: string)
    requires !HasTitle(abs, t) && a.title != t
    ensures !HasTitle(Added(abs, a), t)
  {
    if !HasTitle(abs, a.title) {
      assert Titles(abs + [a]) == Titles(abs) + [a.title];
    }
  }

  method CastSafeSearch(you: Character, s: SaveData) returns (lines: seq<string>)
    modifies you`abilities
    ensures lines == SafeSearchLines
    ensures you.abilities == AddedAll(old(you.abilities), SafeSearchAdds(s))
  {
    ghost var start := you.abilities;
    lines := SafeSearchLines[..5];
    AddedAllSnoc(start, [], DistractAndDodgeAbility);
    you.AddAbility(DistractAndDodgeAbility);
    lines := lines + SafeSearchLines[5..];
    AddedAllSnoc(start, [DistractAndDodgeAbility], GuessPinAbility);
    you.AddAbility(GuessPinAbility);
    if s.recruitedMe {
      AddedAllSnoc(start, [DistractAndDodgeAbility, GuessPinAbility], AskPinAbility);
      you.AddAbility(AskPinAbility);
    }
  }

  // ---------------------------------------------------------------------------
  // Pin abilities (abilities.go:172-291)

  /** The list once the pin is solved: the four pin abilities removed, then
      Grab added. */
  function PinSolved(abs: seq<Ability>): seq<Ability>
  {
    Added(RemovedAll(abs, PinTitles), GrabItemInSafeAbility)
  }

  /** With unique titles, solving the pin leaves none of the four pin
      abilities, holds Grab, and keeps titles unique. */
  lemma PinSolvedSpec(abs: seq<Ability>)
    requires UniqueTitles(abs)
    ensures forall t :: t in PinTitles ==> !HasTitle(PinSolved(abs), t)
    ensures HasTitle(PinSolved(abs), GrabItemInSafeAbility.title)
    ensures UniqueTitles(PinSolved(abs))
  {
    RemovedAllFromUnique(abs, PinTitles);
    var mid := RemovedAll(abs, PinTitles);
    AddedSpec(mid, GrabItemInSafeAbility);
    forall t | t in PinTitles
      ensures !HasTitle(PinSolved(abs), t)
    {
      AddedKeepsAbsent(mid, GrabItemInSafeAbility, t);
    }
  }

  /** One more title removed. */
  lemma RemovedAllStep(abs: seq<Ability>, titles: seq<string>, k: nat)
    requires k < |titles|
    ensures RemovedAll(abs, titles[..k + 1]) == Removed(RemovedAll(abs, titles[..k]), titles[k])
  {
    assert titles[..k + 1][..k] == titles[..k];
  }

  /** Removes the four pin abilities in order. */
  method RemovePinAbilities(you: Character)
    modifies you`abilities
    ensures you.abilities == RemovedAll(old(you.abilities), PinTitles)
  {
    ghost var start := you.abilities;
    assert PinTitles[..0] == [];
    RemovedAllStep(start, PinTitles, 0);
    you.RemoveAbility(GuessPinAbility.title);
    RemovedAllStep(start, PinTitles, 1);
    you.RemoveAbility(AskPinAbility.title);
    RemovedAllStep(start, PinTitles, 2);
    you.RemoveAbility(InputPinAbility.title);
    RemovedAllStep(start, PinTitles, 3);
    you.RemoveAbility(DistractAndDodgeAbility.title);
    assert PinTitles[..4] == PinTitles;
  }

  const AskIntroTail := " and ask about the secret safe"
  const AskAnswerLines: seq<string> :=
    ["My pin? I can never remember it", "So I never set it.", "It's the factory-default: 1234!"]
  const AskSelfLines: seq<string> := ["Oh yeah!", "I AM THE PRESIDENT!"]
  const AskConfusedLines: seq<string> := ["They look confused.", "Maybe that wasn't the president?"]

  /** Whether asking about the pin reveals it: the target, or else the
      caster, is Me. */
  predicate AskRevealsPin(targetName: string, yourName: string)
  {
    targetName == "Me" || yourName == "Me"
  }

  function AskPinLines(targetName: string, yourName: string): seq<string>
  {
    ["You turn to " + targetName + AskIntroTail]
    + if targetName == "Me" then AskAnswerLines
      else if yourName == "Me" then AskSelfLines
      else AskConfusedLines
  }

  function AskPinAbilities(abs: seq<Ability>, targetName: string, yourName: string): seq<Ability>
  {
    if AskRevealsPin(targetName, yourName)
    then Added(Removed(Removed(abs, GuessPinAbility.title), AskPinAbility.title), InputPinAbility)
    else abs
  }

  /** Asking changes the list only when the target or the caster is Me, and
      then trades Guess and Ask for Input (abilities.go:184-207). */
  lemma AskPinSpec(abs: seq<Ability>, targetName: string, yourName: string)
    requires UniqueTitles(abs)
    ensures !AskRevealsPin(targetName, yourName) ==> AskPinAbilities(abs, targetName, yourName) == abs
    ensures AskRevealsPin(targetName, yourName) ==>
              var r := AskPinAbilities(abs, targetName, yourName);
              && !HasTitle(r, GuessPinAbility.title) && !HasTitle(r, AskPinAbility.title)
              && HasTitle(r, InputPinAbility.title) && UniqueTitles(r)
  {
    if AskRevealsPin(targetName, yourName) {
      var r1 := Removed(abs, GuessPinAbility.title);
      RemovedFromUnique(abs, GuessPinAbility.title);
      RemovedFromUnique(r1, AskPinAbility.title);
      var r2 := Removed(r1, AskPinAbility.title);
      RemovedKeepsAbsent(r1, AskPinAbility.title, GuessPinAbility.title);
      AddedSpec(r2, InputPinAbility);
      AddedKeepsAbsent(r2, InputPinAbility, GuessPinAbility.title);
      AddedKeepsAbsent(r2, InputPinAbility, AskPinAbility.title);
    }
  }

  /** Ask about the Pin. Indexing the first target panics on an empty list. */
  method CastAskPin(you: Character, targetPlayers: seq<Character>) returns (lines: seq<string>, panicked: bool)
    modifies you`abilities
    ensures panicked <==> targetPlayers == []
    ensures !panicked ==> lines == AskPinLines(targetPlayers[0].name, you.name)
    ensures !panicked ==> you.abilities == AskPinAbilities(old(you.abilities), targetPlayers[0].name, you.name)
    ensures panicked ==> you.abilities == old(you.abilities)
  {
    if targetPlayers == [] {
      return [], true;
    }
    panicked := false;
    var tar := targetPlayers[0];
    lines := ["You turn to " + tar.name + AskIntroTail];
    if tar.name == "Me" {
      lines := lines + AskAnswerLines;
      you.RemoveAbility(GuessPinAbility.title);
      you.RemoveAbility(AskPinAbility.title);
      you.AddAbility(InputPinAbility);
    } else {
      if you.name == "Me" {
        lines := lines + AskSelfLines;
        you.RemoveAbility(GuessPinAbility.title);
        you.RemoveAbility(AskPinAbility.title);
        you.AddAbility(InputPinAbility);
      } else {
        lines := lines + AskConfusedLines;
      }
    }
  }

  const GuessIntroLines: seq<string> :=
    ["It's FOUR DIGITS!",
     "That's literally a one in ten thousand chance!",
     "But, despite the odds, you try to guess anyway...",
     "You punch in 4 random numbers and hit enter."]
  const GuessRightLines: seq<string> := ["Wow. You actually guessed it!", "Great job!", "You opened the safe!"]
  const GuessWrongLines: seq<string> := ["Guess that wasn't it.", "You can always try again!"]

  /** The draw that opens the safe. */
  const WinningPin := 1234

  function GuessPinLines(draw: int): seq<string>
  {
    GuessIntroLines + if draw == WinningPin then GuessRightLines else GuessWrongLines
  }

  function GuessPinAbilities(abs: seq<Ability>, draw: int): seq<Ability>
  {
    if draw == WinningPin then PinSolved(abs) else abs
  }

  /** Guess the Pin: the winning draw solves the pin; any other draw leaves
      the list alone and adds the two "wrong" lines (abilities.go:233-256). */
  lemma GuessPinSpec(abs: seq<Ability>, draw: int)
    requires UniqueTitles(abs)
    ensures draw != WinningPin ==>
              GuessPinAbilities(abs, draw) == abs && GuessPinLines(draw) == GuessIntroLines + GuessWrongLines
    ensures draw == WinningPin ==>
              && HasTitle(GuessPinAbilities(abs, draw), GrabItemInSafeAbility.title)
              && !HasTitle(GuessPinAbilities(abs, draw), GuessPinAbility.title)
  {
    if draw == WinningPin {
      PinSolvedSpec(abs);
    }
  }

  method CastGuessPin(you: Character, draw: int) returns (lines: seq<string>)
    modifies you`abilities
    ensures lines == GuessPinLines(draw)
    ensures you.abilities == GuessPinAbilities(old(you.abilities), draw)
  {
    lines := GuessIntroLines;
    if draw == WinningPin {
      lines := lines + GuessRightLines;
      RemovePinAbilities(you);
      you.AddAbility(GrabItemInSafeAbility);
    } else {
      lines := lines + GuessWrongLines;
    }
  }

  const InputPinLines: seq<string> := ["You carefully input the pin."]

  /** Input the Pin: the removals and the Grab run inside the loop over its
      one log line, so exactly once (abilities.go:274-290). */
  method CastInputPin(you: Character) returns (lines: seq<string>)
    modifies you`abilities
    ensures lines == InputPinLines
    ensures you.abilities == PinSolved(old(you.abilities))
  {
    lines := InputPinLines;
    for i := 0 to |lines|
      invariant i == 0 ==> you.abilities == old(you.abilities)
      invariant i == 1 ==> you.abilities == PinSolved(old(you.abilities))
    {
      RemovePinAbilities(you);
      you.AddAbility(GrabItemInSafeAbility);
    }
  }

  // ---------------------------------------------------------------------------
  // Distract and Dodge (abilities.go:293-350)

  const DodgeIntroLines: seq<string> :=
    ["The Blood Mouthed Ghost begins charging up his laser!",
     "HEY! NOT-SPOOKY-AT-ALL! You couldn't hit me with that blast",
     "Just like you couldn't scare my little sister's imaginary friend!",
     "You shout.",
     "The Spookster turns to you.",
     "The blast grows bigger than it ever has!"]
  const DodgedLines: seq<string> :=
    ["You narrowly dodge the blast", "It hits the safe dead-on!",
     "Looks like it broke the door!", "Go check it out!"]

  /** The dodge check: a d100 plus 20 plus the caster's dexterity against a
      d100 plus the enemy's dexterity, each dexterity truncated to an integer. */
  predicate Dodged(dodge: int, ghostDodge: int, yourDex: real, ghostDex: real)
  {
    dodge + 1 + 20 + Trunc(yourDex) > Trunc(ghostDex) + ghostDodge + 1
  }

  function BlastDamage(blast: int, ghostStr: real, ghostInt: real): int
  {
    blast + 15 + Trunc(ghostStr + ghostInt)
  }

  function HitLines(dmg: int): seq<string>
  {
    ["The ghost fires the blast right into your FACE!", "Ooof. That's gotta hurt",
     "The ghost deals " + Itoa(dmg) + " damage to you!"]
  }

  /** A successful dodge: the pin abilities go and Grab is appended directly,
      without AddAbility's check for a held title. */
  function DodgeAbilities(abs: seq<Ability>): seq<Ability>
  {
    RemovedAll(abs, PinTitles) + [GrabItemInSafeAbility]
  }

  /** On a dodge the Grab count goes up by one whatever was held, so a
      caster already holding Grab ends with two (abilities.go:327). */
  lemma DodgeAppendsGrab(abs: seq<Ability>)
    requires UniqueTitles(abs)
    ensures forall t :: t in PinTitles ==> !HasTitle(DodgeAbilities(abs), t)
    ensures Count(Titles(DodgeAbilities(abs)), GrabItemInSafeAbility.title)
            == Count(Titles(abs), GrabItemInSafeAbility.title) + 1
  {
    var mid := RemovedAll(abs, PinTitles);
    RemovedAllFromUnique(abs, PinTitles);
    assert Titles(DodgeAbilities(abs)) == Titles(mid) + [GrabItemInSafeAbility.title];
    CountAppend(Titles(mid), [GrabItemInSafeAbility.title], GrabItemInSafeAbility.title);
    assert [GrabItemInSafeAbility.title][..0] == [];
    RemovedAllKeepsCount(abs, PinTitles, GrabItemInSafeAbility.title);
    forall t | t in PinTitles
      ensures !HasTitle(DodgeAbilities(abs), t)
    {
      assert Titles(DodgeAbilities(abs)) == Titles(mid) + [GrabItemInSafeAbility.title];
    }
  }

  /** Removing other titles leaves the count of `t` alone. */
  lemma {:induction false} RemovedAllKeepsCount(abs: seq<Ability>, titles: seq<string>, t: string)
    requires t !in titles
    ensures Count(Titles(RemovedAll(abs, titles)), t) == Count(Titles(abs), t)
    decreases |titles|
  {
    if titles != [] {
      var init := titles[..|titles| - 1];
      assert t !in init by { assert forall x :: x in init ==> x in titles; }
      RemovedAllKeepsCount(abs, init, t);
      RemovedSpec(RemovedAll(abs, init), titles[|titles| - 1]);
    }
  }

  method CastDistractAndDodge(you: Character, targetBaddies: seq<Baddie>, dodge: int, ghostDodge: int, blast: int)
    returns (lines: seq<string>, panicked: bool)
    modifies you`abilities, you`hp
    ensures panicked <==> targetBaddies == []
    ensures panicked ==> you.abilities == old(you.abilities) && you.hp == old(you.hp)
    ensures !panicked && Dodged(dodge, ghostDodge, you.dex, targetBaddies[0].dex) ==>
              lines == DodgeIntroLines + DodgedLines
              && you.abilities == DodgeAbilities(old(you.abilities)) && you.hp == old(you.hp)
    ensures !panicked && !Dodged(dodge, ghostDodge, you.dex, targetBaddies[0].dex) ==>
              var dmg := BlastDamage(blast, targetBaddies[0].str, targetBaddies[0].intellect);
              lines == DodgeIntroLines + HitLines(dmg)
              && you.abilities == old(you.abilities) && you.hp == old(you.hp) - dmg as real
  {
    lines := DodgeIntroLines;
    if targetBaddies == [] {
      return lines, true;
    }
    panicked := false;
    var foe := targetBaddies[0];
    if dodge + 1 + 20 + Trunc(you.dex) > Trunc(foe.dex) + ghostDodge + 1 {
      lines := lines + DodgedLines;
      RemovePinAbilities(you);
      you.abilities := you.abilities + [GrabItemInSafeAbility];
    } else {
      var dmg := blast + 15 + Trunc(foe.str + foe.intellect);
      lines := lines + HitLines(dmg);
      you.hp := you.hp - dmg as real;
    }
  }

  // ---------------------------------------------------------------------------
  // Grab, Glint, Med kit (abilities.go:352-461)

  const GrabEmptyLines: seq<string> :=
    ["You try to grab the item from the safe", "But there's nothing there!",
     "Someone must've gotten here before you!"]
  const GrabBoardLines: seq<string> :=
    ["Inside the safe is a SPOOKYBOARD!", "The SPOOKYBOARD was added to your inventory"]

  function GrabSave(s: SaveData): SaveData
  {
    if s.found.spookyBoard then s else s.(found := s.found.(spookyBoard := true), isSafeOpen := true)
  }

  /** Grab takes the board and opens the safe only if the board is not held
      yet, and touches no other part of the save (abilities.go:360-373). */
  lemma GrabSaveSpec(s: SaveData)
    ensures GrabSave(s).found.spookyBoard
    ensures s.found.spookyBoard ==> GrabSave(s) == s
    ensures !s.found.spookyBoard ==> GrabSave(s).isSafeOpen
    ensures GrabSave(s).(found := s.found, isSafeOpen := s.isSafeOpen) == s
    ensures GrabSave(s).found.(spookyBoard := s.found.spookyBoard) == s.found
  {
    if s.found.spookyBoard {
    } else {
    }
  }

  /** Grab always removes itself (abilities.go:374). */
  lemma GrabRemovesItself(abs: seq<Ability>)
    requires UniqueTitles(abs)
    ensures !HasTitle(Removed(abs, GrabItemInSafeAbility.title), GrabItemInSafeAbility.title)
  {
    RemovedFromUnique(abs, GrabItemInSafeAbility.title);
  }

  method CastGrabItemInSafe(you: Character, s: SaveData) returns (lines: seq<string>, s': SaveData)
    modifies you`abilities
    ensures lines == (if s.found.spookyBoard then GrabEmptyLines else GrabBoardLines)
    ensures s' == GrabSave(s)
    ensures you.abilities == Removed(old(you.abilities), GrabItemInSafeAbility.title)
  {
    s' := s;
    if s'.found.spookyBoard {
      lines := GrabEmptyLines;
    } else {
      lines := GrabBoardLines;
      s' := s'.(found := s'.found.(spookyBoard := true));
      s' := s'.(isSafeOpen := true);
    }
    you.RemoveAbility(GrabItemInSafeAbility.title);
  }

  const GlintSearchLines: seq<string> :=
    ["Looks like something shiny", "Is just behind the wall here!",
     "The hole it gleams through is too small to get it out of.", "Maybe if we were to damage it?"]

  /** Looking closer at the wall only removes that ability (abilities.go:391-407). */
  method CastGlintSearch(you: Character) returns (lines: seq<string>)
    modifies you`abilities
    ensures lines == GlintSearchLines
    ensures you.abilities == Removed(old(you.abilities), GlintSearchAbility.title)
  {
    lines := GlintSearchLines;
    you.RemoveAbility(GlintSearchAbility.title);
  }

  const MimicLinesHead: seq<string> :=
    ["You reach into the bag", "But that wasn't a zipper! They're teeth!",
     "That's not a med-kit! It's a Mimic!", "And it takes a chomp at your arm!"]
  const SearchTail: seq<string> :=
    ["You didn't have enough time to search the whole bag", "There's plenty more stuff inside!"]

  /** The med-kit check: a d100 plus the caster's intelligence beats 35. */
  predicate KitOpens(medkit: int, yourInt: real)
  {
    medkit + 1 + Trunc(yourInt) > 35
  }

  function KitFindLines(bandages: int, drinks: int): seq<string>
  {
    (if bandages > 0 then [Itoa(bandages) + " bandages"] + (if drinks > 0 then ["and"] else []) else [])
    + if drinks > 0 then [Itoa(drinks) + " sports drinks"]
      else if bandages <= 0 then ["nothing."] else []
  }

  function KitSave(s: SaveData, bandages: int, drinks: int): SaveData
  {
    s.(supplies := Supplies(s.supplies.bandageCount + (if bandages > 0 then bandages else 0),
                            s.supplies.drinkCount + (if drinks > 0 then drinks else 0)))
  }

  /** The kit's counts never go down, grow by at most 3 bandages and 2
      drinks, and nothing else in the save changes (abilities.go:422-433). */
  lemma KitSaveSpec(s: SaveData, dBandage: int, dDrink: int)
    requires 0 <= dBandage < 6 && 0 <= dDrink < 6
    ensures var t := KitSave(s, dBandage - 2, dDrink - 3);
            && s.supplies.bandageCount <= t.supplies.bandageCount <= s.supplies.bandageCount + 3
            && s.supplies.drinkCount <= t.supplies.drinkCount <= s.supplies.drinkCount + 2
            && t.(supplies := s.supplies) == s
  {
    if dBandage > 2 {
    } else {
    }
  }

  /** The search reports "nothing." exactly when neither draw is positive
      (abilities.go:424-436). */
  lemma KitNothingIff(bandages: int, drinks: int)
    ensures "nothing." in KitFindLines(bandages, drinks) <==> bandages <= 0 && drinks <= 0
  {
    var lines := KitFindLines(bandages, drinks);
    if bandages > 0 || drinks > 0 {
      var bandageLine, drinkLine := Itoa(bandages) + " bandages", Itoa(drinks) + " sports drinks";
      assert forall x :: x in lines ==> x == "and" || x == bandageLine || x == drinkLine;
      assert |bandageLine| > 9 && |drinkLine| > 14;
    }
  }

  /** What the open kit yields: the find lines and the updated counts. */
  method KitFind(s: SaveData, bandaidcount: int, watercount: int) returns (lines: seq<string>, s': SaveData)
    ensures lines == KitFindLines(bandaidcount, watercount)
    ensures s' == KitSave(s, bandaidcount, watercount)
  {
    s' := s;
    lines := [];
    if bandaidcount > 0 {
      lines := lines + [Itoa(bandaidcount) + " bandages"];
      s' := s'.(supplies := s'.supplies.(bandageCount := s'.supplies.bandageCount + bandaidcount));
      if watercount > 0 {
        lines := lines + ["and"];
      }
    }
    ghost var mid := lines;
    if watercount > 0 {
      lines := lines + [Itoa(watercount) + " sports drinks"];
      s' := s'.(supplies := s'.supplies.(drinkCount := s'.supplies.drinkCount + watercount));
    } else if bandaidcount <= 0 {
      lines := lines + ["nothing."];
    }
    assert lines[..|mid|] == mid;
  }

  /** Search the med kit; the draws are the d100 check, the two d6 counts and
      the bite's d20. */
  method CastMedKitSearch(you: Character, s: SaveData, medkit: int, dBandage: int, dDrink: int, chomp: int)
    returns (lines: seq<string>, s': SaveData)
    modifies you`hp
    ensures KitOpens(medkit, you.intellect) ==>
              lines == ["You approach the medkit", "And open it!", "Inside you find"]
                       + KitFindLines(dBandage - 2, dDrink - 3) + SearchTail
              && s' == KitSave(s, dBandage - 2, dDrink - 3) && you.hp == old(you.hp)
    ensures !KitOpens(medkit, you.intellect) ==>
              lines == ["You approach the medkit"] + MimicLinesHead
                       + ["Ouchie! That looks like " + Itoa(chomp + 5) + " points of damage!"]
              && s' == s && you.hp == old(you.hp) - (chomp + 5) as real
  {
    s' := s;
    lines := ["You approach the medkit"];
    if medkit + 1 + Trunc(you.intellect) > 35 {
      lines := lines + ["And open it!", "Inside you find"];
      var found;
      found, s' := KitFind(s, dBandage - 2, dDrink - 3);
      lines := lines + found + SearchTail;
    } else {
      var dmg := chomp + 5;
      lines := lines + MimicLinesHead + ["Ouchie! That looks like " + Itoa(dmg) + " points of damage!"];
      you.hp := you.hp - dmg as real;
    }
  }

  // ---------------------------------------------------------------------------
  // Firing an effect

  /** The dice an effect may throw: Intn(20) for Look Around, Intn(10000) for
      Guess the Pin, two Intn(100) and an Intn(30) for Distract and Dodge,
      Intn(100), two Intn(6) and an Intn(20) for the med kit. */
  datatype Dice = Dice(
    perception: int, pin: int, dodge: int, ghostDodge: int, blast: int,
    medkit: int, bandages: int, drinks: int, chomp: int)

  /** Calls an ability's effect closure with the caster's stored targets. A
      nil closure is never called: the cast bar checks first. */
  method Fire(effect: Effect, you: Character, targetPlayers: seq<Character>, targetBaddies: seq<Baddie>,
              s: SaveData, dice: Dice)
    returns (lines: seq<string>, s': SaveData, panicked: bool)
    requires effect != NoEffect
    modifies you`abilities, you`hp
    ensures panicked <==> (effect == AskPin && targetPlayers == [])
                          || (effect == DistractAndDodge && targetBaddies == [])
    ensures effect != GrabItemInSafe && effect != MedKitSearch ==> s' == s
    ensures effect == GrabItemInSafe ==> s' == GrabSave(s)
    ensures effect !in {DistractAndDodge, MedKitSearch} ==> you.hp == old(you.hp)
    ensures panicked ==> you.abilities == old(you.abilities) && you.hp == old(you.hp)
    ensures effect in {RegularAttack, Defend, ReadSpookyBoard} ==>
              lines == [] && you.abilities == old(you.abilities)
    ensures effect == LookAround ==>
              && lines == LookAroundLines(dice.perception + 1, s)
              && you.abilities == AddedAll(old(you.abilities), LookAroundAdds(dice.perception + 1, s))
    ensures effect == SafeSearch ==>
              lines == SafeSearchLines && you.abilities == AddedAll(old(you.abilities), SafeSearchAdds(s))
    ensures effect == AskPin && !panicked ==>
              && lines == AskPinLines(targetPlayers[0].name, you.name)
              && you.abilities == AskPinAbilities(old(you.abilities), targetPlayers[0].name, you.name)
    ensures effect == GuessPin ==>
              lines == GuessPinLines(dice.pin) && you.abilities == GuessPinAbilities(old(you.abilities), dice.pin)
    ensures effect == InputPin ==> lines == InputPinLines && you.abilities == PinSolved(old(you.abilities))
    ensures effect == DistractAndDodge && !panicked ==>
              if Dodged(dice.dodge, dice.ghostDodge, you.dex, targetBaddies[0].dex) then
                lines == DodgeIntroLines + DodgedLines
                && you.abilities == DodgeAbilities(old(you.abilities)) && you.hp == old(you.hp)
              else
                var dmg := BlastDamage(dice.blast, targetBaddies[0].str, targetBaddies[0].intellect);
                lines == DodgeIntroLines + HitLines(dmg)
                && you.abilities == old(you.abilities) && you.hp == old(you.hp) - dmg as real
    ensures effect == GrabItemInSafe ==>
              && lines == (if s.found.spookyBoard then GrabEmptyLines else GrabBoardLines)
              && you.abilities == Removed(old(you.abilities), GrabItemInSafeAbility.title)
    ensures effect == GlintSearch ==>
              lines == GlintSearchLines && you.abilities == Removed(old(you.abilities), GlintSearchAbility.title)
    ensures effect == MedKitSearch ==> you.abilities == old(you.abilities)
    ensures effect == MedKitSearch && KitOpens(dice.medkit, you.intellect) ==>
              && lines == ["You approach the medkit", "And open it!", "Inside you find"]
                          + KitFindLines(dice.bandages - 2, dice.drinks - 3) + SearchTail
              && s' == KitSave(s, dice.bandages - 2, dice.drinks - 3) && you.hp == old(you.hp)
    ensures effect == MedKitSearch && !KitOpens(dice.medkit, you.intellect) ==>
              && lines == ["You approach the medkit"] + MimicLinesHead
                          + ["Ouchie! That looks like " + Itoa(dice.chomp + 5) + " points of damage!"]
              && s' == s && you.hp == old(you.hp) - (dice.chomp + 5) as real
  {
    s', panicked, lines := s, false, [];
    match effect {
      case RegularAttack =>
      case Defend =>
      case ReadSpookyBoard =>
      case LookAround =>
        lines := CastLookAround(you, s, dice.perception + 1);
      case SafeSearch =>
        lines := CastSafeSearch(you, s);
      case AskPin =>
        lines, panicked := CastAskPin(you, targetPlayers);
      case GuessPin =>
        lines := CastGuessPin(you, dice.pin);
      case InputPin =>
        lines := CastInputPin(you);
      case DistractAndDodge =>
        lines, panicked := CastDistractAndDodge(you, targetBaddies, dice.dodge, dice.ghostDodge, dice.blast);
      case GrabItemInSafe =>
        lines, s' := CastGrabItemInSafe(you, s);
      case GlintSearch =>
        lines := CastGlintSearch(you);
      case MedKitSearch =>
        lines, s' := CastMedKitSearch(you, s, dice.medkit, dice.bandages, dice.drinks, dice.chomp);
    }
  }
}
