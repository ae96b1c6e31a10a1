/** Characters, enemies and the abilities and items they carry
    (character.go, with the `Ability` record as abilities.go declares it). */
module Characters {
  import opened Common

  /** Who an ability may be aimed at (character.go:28-38). */
  datatype Target =
    | NoTarget | SingleEnemy | AllEnemy | SingleFriend | AllFriend | SingleAny | All

  /** The behaviour behind an ability's effect closure; `NoEffect` is a nil
      closure. RegularAttack, Defend and ReadSpookyBoard have closures with
      empty bodies. */
  datatype Effect =
    | NoEffect | RegularAttack | Defend | LookAround | SafeSearch | AskPin | GuessPin
    | InputPin | DistractAndDodge | GrabItemInSafe | GlintSearch | MedKitSearch | ReadSpookyBoard

  /** The behaviour behind an ability's cast-time closure: nil, an empty body,
      or the regular attack's dexterity rule. */
  datatype CastRule = NoCastRule | KeepCastTime | DexCastTime

  datatype Ability = Ability(
    title: string,
    shorthand: string,
    description: string,
    mpCost: real,
    targetType: Target,
    castRule: CastRule,
    effect: Effect)

  /** The zero `Ability{}`. */
  const NoAbility: Ability := Ability("", "", "", 0.0, NoTarget, NoCastRule, NoEffect)

  /** An inventory entry, with the fields the item menu shows. */
  datatype Item = Item(title: string, shorthand: string, description: string)

  const NoItem: Item := Item("", "", "")

  class Baddie {
    const id: nat
    var str: real
    var dex: real
    var intellect: real

    constructor (id: nat, str: real, dex: real, intellect: real)
      ensures this.id == id && this.str == str && this.dex == dex && this.intellect == intellect
    {
      this.id, this.str, this.dex, this.intellect := id, str, dex, intellect;
    }
  }

  class Character {
    const id: nat
    const name: string
    var hp: real
    var mp: real
    var str: real
    var def: real
    var dex: real
    var intellect: real
    var abilities: seq<Ability>
    var inventory: seq<Item>
    var isCardSelected: bool
    var isAbilitySelected: bool
    var selectedAbility: Ability
    var selectedItem: Item
    var targetPlayers: seq<Character>
    var targetBaddies: seq<Baddie>
    var barHP: real
    var barMP: real
    var totalCastTime: real
    var currentCastTime: real
    var isCasting: bool

    constructor (id: nat, name: string, hp: real, mp: real, abilities: seq<Ability>, inventory: seq<Item>)
      ensures this.id == id && this.name == name && this.hp == hp && this.mp == mp
      ensures this.abilities == abilities && this.inventory == inventory
      ensures !isCardSelected && !isAbilitySelected && !isCasting
      ensures selectedAbility == NoAbility && targetPlayers == [] && targetBaddies == []
    {
      this.id, this.name, this.hp, this.mp := id, name, hp, mp;
      str, def, dex, intellect := 0.0, 0.0, 0.0, 0.0;
      this.abilities, this.inventory := abilities, inventory;
      isCardSelected, isAbilitySelected := false, false;
      selectedAbility, selectedItem := NoAbility, NoItem;
      targetPlayers, targetBaddies := [], [];
      barHP, barMP, totalCastTime, currentCastTime := 0.0, 0.0, 0.0, 0.0;
      isCasting := false;
    }

    /** RemoveAbility as intended: find the first ability with the title and
        splice it out (character.go:51-62). */
    method RemoveAbility(title: string)
      modifies this`abilities
      ensures abilities == Removed(old(abilities), title)
    {
      var delete := FindFirst(abilities, (a: Ability) => a.title == title);
      if delete >= 0 {
        abilities := abilities[..delete] + abilities[delete + 1..];
      }
    }

    /** AddAbility: called by the effects but not defined in the repository;
        modelled as adding the ability unless one with its title is held. */
    method AddAbility(a: Ability)
      modifies this`abilities
      ensures abilities == Added(old(abilities), a)
    {
      var d := FindFirst(abilities, (b: Ability) => b.title == a.title);
      if d < 0 {
        abilities := abilities + [a];
      }
    }
  }

  // ---------------------------------------------------------------------------
  // The ability list as a value

  function Titles(abs: seq<Ability>): (r: seq<string>)
    ensures |r| == |abs| && forall i :: 0 <= i < |abs| ==> r[i] == abs[i].title
  {
    seq(|abs|, i requires 0 <= i < |abs| => abs[i].title)
  }

  predicate HasTitle(abs: seq<Ability>, title: string)
  {
    title in Titles(abs)
  }

  /** No title occurs twice. */
  predicate UniqueTitles(abs: seq<Ability>)
  {
    forall i, j :: 0 <= i < j < |abs| ==> abs[i].title != abs[j].title
  }

  /** RemoveAbility as written (character.go:51-62): the search loop stores
      the match in `idx` instead of `delete`, so `delete` stays -1 and the
      splice guarded by `delete >= 0` never runs. */
  function RemovedAsWritten(abs: seq<Ability>, title: string): seq<Ability>
  {
    abs
  }

  /** The list after RemoveAbility: the first ability with the title spliced out. */
  function Removed(abs: seq<Ability>, title: string): seq<Ability>
  {
    RemoveFirstWhere(abs, (a: Ability) => a.title == title)
  }

  /** The list after AddAbility. */
  function Added(abs: seq<Ability>, a: Ability): seq<Ability>
  {
    if HasTitle(abs, a.title) then abs else abs + [a]
  }

  /** Abilities added one after another. */
  function AddedAll(abs: seq<Ability>, adds: seq<Ability>): seq<Ability>
    decreases |adds|
  {
    if adds == [] then abs else Added(AddedAll(abs, adds[..|adds| - 1]), adds[|adds| - 1])
  }

  /** Titles removed one after another. */
  function RemovedAll(abs: seq<Ability>, titles: seq<string>): seq<Ability>
    decreases |titles|
  {
    if titles == [] then abs else Removed(RemovedAll(abs, titles[..|titles| - 1]), titles[|titles| - 1])
  }

  /** Removing a title: without one the list is unchanged; with one, exactly
      its first occurrence goes, the list shrinks by one, every other ability
      stays in order and that title's count drops by one (character.go:53-61). */
  lemma RemovedSpec(abs: seq<Ability>, title: string)
    ensures !HasTitle(abs, title) ==> Removed(abs, title) == abs
    ensures HasTitle(abs, title) ==>
              var d := FirstWhere(abs, (a: Ability) => a.title == title);
              && 0 <= d < |abs| && abs[d].title == title
              && (forall j :: 0 <= j < d ==> abs[j].title != title)
              && Removed(abs, title) == abs[..d] + abs[d + 1..]
              && |Removed(abs, title)| == |abs| - 1
              && Count(Titles(Removed(abs, title)), title) == Count(Titles(abs), title) - 1
    ensures forall t :: t != title ==> Count(Titles(Removed(abs, title)), t) == Count(Titles(abs), t)
  {
    var p := (a: Ability) => a.title == title;
    var d := FirstWhere(abs, p);
    if d >= 0 {
      assert HasTitle(abs, title) by { assert Titles(abs)[d] == title; }
      var r := abs[..d] + abs[d + 1..];
      assert Titles(abs) == Titles(abs[..d]) + [title] + Titles(abs[d + 1..]);
      assert Titles(r) == Titles(abs[..d]) + Titles(abs[d + 1..]);
      forall t
        ensures Count(Titles(abs), t) == Count(Titles(r), t) + (if t == title then 1 else 0)
      {
        CountAppend(Titles(abs[..d]) + [title], Titles(abs[d + 1..]), t);
        CountAppend(Titles(abs[..d]), [title], t);
        CountAppend(Titles(abs[..d]), Titles(abs[d + 1..]), t);
        assert [title][..0] == [];
      }
    }
  }

  /** As written, RemoveAbility leaves every list as it was, so a held
      title stays held; the intended version takes exactly one ability out
      and, when titles are unique, the title with it. */
  lemma RemoveAbilityAsWrittenKeepsMatch(abs: seq<Ability>, title: string)
    ensures RemovedAsWritten(abs, title) == abs
    ensures HasTitle(abs, title) ==>
              && HasTitle(RemovedAsWritten(abs, title), title)
              && |Removed(abs, title)| == |abs| - 1
    ensures HasTitle(abs, title) && UniqueTitles(abs) ==> !HasTitle(Removed(abs, title), title)
  {
    RemovedSpec(abs, title);
    if UniqueTitles(abs) {
      RemovedFromUnique(abs, title);
    }
  }

  /** Adding holds the title afterwards, adds nothing when the title is
      already held, keeps titles unique, and is undone by removing the title
      when it was new. */
  lemma AddedSpec(abs: seq<Ability>, a: Ability)
    ensures HasTitle(Added(abs, a), a.title)
    ensures HasTitle(abs, a.title) ==> Added(abs, a) == abs
    ensures !HasTitle(abs, a.title) ==> Added(abs, a) == abs + [a] && Removed(Added(abs, a), a.title) == abs
    ensures UniqueTitles(abs) ==> UniqueTitles(Added(abs, a))
    ensures Added(Added(abs, a), a) == Added(abs, a)
  {
    var r := Added(abs, a);
    if !HasTitle(abs, a.title) {
      assert Titles(r)[|abs|] == a.title;
      var p := (b: Ability) => b.title == a.title;
      forall j | 0 <= j < |abs|
        ensures !p(abs[j])
      {
        assert Titles(abs)[j] == abs[j].title;
      }
      FirstWhereIsFirst(r, p, |abs|);
      assert r[..|abs|] == abs;
      if UniqueTitles(abs) {
        forall i, j | 0 <= i < j < |r|
          ensures r[i].title != r[j].title
        {
          if j == |abs| {
            assert Titles(abs)[i] == abs[i].title;
          }
        }
      }
    }
    assert HasTitle(r, a.title);
  }

  /** Removing a title from a list with unique titles leaves none with it,
      and unique titles stay unique. */
  lemma RemovedFromUnique(abs: seq<Ability>, title: string)
    requires UniqueTitles(abs)
    ensures !HasTitle(Removed(abs, title), title)
    ensures UniqueTitles(Removed(abs, title))
  {
    RemovedDropsTitle(abs, title);
    RemovedKeepsUnique(abs, title);
  }

  lemma RemovedDropsTitle(abs: seq<Ability>, title: string)
    requires UniqueTitles(abs)
    ensures forall i :: 0 <= i < |Removed(abs, title)| ==> Removed(abs, title)[i].title != title
  {
    var p := (a: Ability) => a.title == title;
    var d := FirstWhere(abs, p);
    var r := Removed(abs, title);
    if d >= 0 {
      assert r == RemoveAt(abs, d);
      forall i | 0 <= i < |r|
        ensures r[i].title != title
      {
        if i < d {
          assert r[i] == abs[i];
        } else {
          assert r[i] == abs[i + 1];
        }
      }
    } else {
      assert r == abs;
      forall i | 0 <= i < |r|
        ensures r[i].title != title
      {
        assert !p(abs[i]);
      }
    }
  }

  lemma RemovedKeepsUnique(abs: seq<Ability>, title: string)
    requires UniqueTitles(abs)
    ensures UniqueTitles(Removed(abs, title))
  {
    var d := FirstWhere(abs, (a: Ability) => a.title == title);
    if d >= 0 {
      var r := RemoveAt(abs, d);
      forall i, j | 0 <= i < j < |r|
        ensures r[i].title != r[j].title
      {
        var i' := if i < d then i else i + 1;
        var j' := if j < d then j else j + 1;
        assert r[i] == abs[i'] && r[j] == abs[j'];
      }
    }
  }

  /** Several removals from a unique-titled list leave none of the titles. */
  lemma {:induction false} RemovedAllFromUnique(abs: seq<Ability>, titles: seq<string>)
    requires UniqueTitles(abs)
    ensures UniqueTitles(RemovedAll(abs, titles))
    ensures forall t :: t in titles ==> !HasTitle(RemovedAll(abs, titles), t)
    decreases |titles|
  {
    if titles != [] {
      var init := titles[..|titles| - 1];
      var last := titles[|titles| - 1];
      RemovedAllFromUnique(abs, init);
      var mid := RemovedAll(abs, init);
      RemovedFromUnique(mid, last);
      forall t | t in titles
        ensures !HasTitle(RemovedAll(abs, titles), t)
      {
        if t != last {
          assert t in init;
          RemovedSpec(mid, last);
          RemovedKeepsAbsent(mid, last, t);
        }
      }
    }
  }

  /** Removing never introduces a title. */
  lemma RemovedKeepsAbsent(abs: seq<Ability>, title: string, t: string)
    requires !HasTitle(abs, t)
    ensures !HasTitle(Removed(abs, title), t)
  {
    RemovedSpec(abs, title);
    CountAbsentTitle(abs, t);
    if HasTitle(Removed(abs, title), t) {
      CountPresentTitle(Removed(abs, title), t);
      if t == title {
        assert false;
      }
    }
  }

  lemma CountAbsentTitle(abs: seq<Ability>, t: string)
    requires !HasTitle(abs, t)
    ensures Count(Titles(abs), t) == 0
  {
    CountAbsent(Titles(abs), t);
  }

  lemma CountPresentTitle(abs: seq<Ability>, t: string)
    requires HasTitle(abs, t)
    ensures Count(Titles(abs), t) > 0
  {
    CountPositive(Titles(abs), t);
  }

  /** Adding several abilities to a unique-titled list keeps it unique and
      ends with every added title held. */
  lemma {:induction false} AddedAllSpec(abs: seq<Ability>, adds: seq<Ability>)
    requires UniqueTitles(abs)
    ensures UniqueTitles(AddedAll(abs, adds))
    ensures forall a :: a in adds ==> HasTitle(AddedAll(abs, adds), a.title)
    ensures forall t :: HasTitle(abs, t) ==> HasTitle(AddedAll(abs, adds), t)
    decreases |adds|
  {
    if adds != [] {
      var init := adds[..|adds| - 1];
      var last := adds[|adds| - 1];
      AddedAllSpec(abs, init);
      var mid := AddedAll(abs, init);
      AddedSpec(mid, last);
      AddedKeepsTitles(mid, last);
      forall a | a in adds
        ensures HasTitle(AddedAll(abs, adds), a.title)
      {
        if a != last {
          assert a in init;
        }
      }
    }
  }

  lemma AddedKeepsTitles(abs: seq<Ability>, a: Ability)
    ensures forall t :: HasTitle(abs, t) ==> HasTitle(Added(abs, a), t)
  {
    forall t | HasTitle(abs, t)
      ensures HasTitle(Added(abs, a), t)
    {
      var i :| 0 <= i < |abs| && Titles(abs)[i] == t;
      assert Titles(Added(abs, a))[i] == t;
    }
  }

  // ---------------------------------------------------------------------------
  // The card-selected character

  /** Every character's objects, for reads clauses over a list of them. */
  function Objects(es: seq<Character>): set<Character>
  {
    set c | c in es
  }

  /** Every character's IsCardSelected flag, in order. */
  function CardFlags(es: seq<Character>): (r: seq<bool>)
    reads Objects(es)`isCardSelected
    ensures |r| == |es| && forall i :: 0 <= i < |es| ==> r[i] == es[i].isCardSelected
    decreases |es|
  {
    if es == [] then [] else CardFlags(es[..|es| - 1]) + [es[|es| - 1].isCardSelected]
  }

  /** The index of the first character whose card is selected, or -1: the
      character the menus and target selection serve (ability.go:155-161). */
  function FirstSelected(es: seq<Character>): (r: int)
    reads Objects(es)`isCardSelected
    ensures -1 <= r < |es|
    ensures r >= 0 ==> es[r].isCardSelected && forall j :: 0 <= j < r ==> !es[j].isCardSelected
    ensures r < 0 ==> forall j :: 0 <= j < |es| ==> !es[j].isCardSelected
    decreases |es|
  {
    if es == [] then -1
    else if es[0].isCardSelected then 0
    else
      var r := FirstSelected(es[1..]);
      if r < 0 then -1 else r + 1
  }

  /** The index of the last character whose card is selected, or -1: the
      menus' unpause loops over every entity without stopping, so the last
      selected one is drawn (ability.go:393-433). */
  function LastSelected(es: seq<Character>): (r: int)
    reads Objects(es)`isCardSelected
    ensures -1 <= r < |es|
    ensures r >= 0 ==> es[r].isCardSelected && forall j :: r < j < |es| ==> !es[j].isCardSelected
    ensures r < 0 ==> forall j :: 0 <= j < |es| ==> !es[j].isCardSelected
    decreases |es|
  {
    if es == [] then -1
    else if es[|es| - 1].isCardSelected then |es| - 1
    else LastSelected(es[..|es| - 1])
  }

  /** At most one card is selected, as card selection keeps it. */
  predicate AtMostOneSelected(es: seq<Character>)
    reads Objects(es)`isCardSelected
  {
    forall i, j :: 0 <= i < j < |es| && es[i].isCardSelected ==> !es[j].isCardSelected
  }

  /** With at most one card selected, the character a menu draws on opening
      is the one its frames serve. */
  lemma OneSelectedAgrees(es: seq<Character>)
    requires AtMostOneSelected(es)
    ensures FirstSelected(es) == LastSelected(es)
  {
  }

  /** The search loop of the menus' Update (ability.go:155-161). */
  method FindSelected(es: seq<Character>) returns (d: int)
    ensures d == FirstSelected(es)
  {
    d := -1;
    var i := 0;
    while i < |es|
      invariant 0 <= i <= |es|
      invariant forall j :: 0 <= j < i ==> !es[j].isCardSelected
    {
      if es[i].isCardSelected {
        d := i;
        return;
      }
      i := i + 1;
    }
  }
}
