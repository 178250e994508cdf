/**
 * The static farming and crafting knowledge the detectors consult (analysis_engine.py): keyed
 * strategy tables with a default record, and the fixed crafting catalogue. The long strategy
 * texts are named by table and key rather than spelled out.
 */
module Knowledge {
  import opened Wrappers
  import opened Market

  /** A farming strategy: method, where to farm, and the strategy text. */
  datatype FarmingRecord = FarmingRecord(farmingMethod: string, locations: seq<string>, strategy: Advice)

  /** Farming maps and strategy for one divination card. */
  datatype CardRecord = CardRecord(maps: seq<string>, strategy: Advice)

  /**
   * The lookup tables the farming detector consults, each with its fallback record. The
   * detector's own tables are `Builtin`; the lookups below work on any `Tables`.
   */
  datatype Tables = Tables(
    scarabs: map<string, FarmingRecord>, scarabDefault: FarmingRecord,
    fragments: seq<(string, FarmingRecord)>, fragmentDefault: FarmingRecord,
    cards: map<string, CardRecord>, cardDefault: CardRecord,
    oil: FarmingRecord)

  // ---------------------------------------------------------------- scarabs

  const ScarabTable: map<string, FarmingRecord> := map[
    "Cartography" := FarmingRecord("Atlas Passive Tree + Map Farming",
                       ["Maps with Cartography Scarab passives"], TableText("scarab", "Cartography")),
    "Reliquary" := FarmingRecord("Heist Blueprint Farming",
                     ["Heist Blueprints", "Smuggler's Caches"], TableText("scarab", "Reliquary")),
    "Bestiary" := FarmingRecord("Einhar Mission Farming",
                    ["Maps with Einhar missions"], TableText("scarab", "Bestiary")),
    "Harbinger" := FarmingRecord("Harbinger Farming",
                     ["Maps with Harbinger passives"], TableText("scarab", "Harbinger")),
    "Legion" := FarmingRecord("Legion Farming",
                  ["Maps with Legion passives"], TableText("scarab", "Legion")),
    "Breach" := FarmingRecord("Breach Farming",
                  ["Maps with Breach passives"], TableText("scarab", "Breach")),
    "Expedition" := FarmingRecord("Expedition Farming",
                      ["Maps with Expedition passives"], TableText("scarab", "Expedition")),
    "Blight" := FarmingRecord("Blight Farming",
                  ["Maps with Blight passives"], TableText("scarab", "Blight")),
    "Metamorph" := FarmingRecord("Metamorph Farming",
                     ["Maps with Metamorph passives"], TableText("scarab", "Metamorph")),
    "Divination" := FarmingRecord("Divination Card Farming",
                      ["Maps with Divination Card passives"], TableText("scarab", "Divination"))
  ]

  const DefaultScarabStrategy: FarmingRecord :=
    FarmingRecord("General Scarab Farming", ["Delirium Maps", "Blight Maps", "Legion Encounters"],
                  TableText("scarab", "default"))

  /**
   * `s.split(' ')[-1]`: the text after the last space (all of `s` when it has none). The
   * result holds no space, ends `s`, and is preceded in `s` by a space unless it is all of `s`.
   */
  function AfterLastSpace(s: string): (r: string)
    ensures ' ' !in r
    ensures |r| <= |s| && r == s[|s| - |r|..]
    ensures |r| < |s| ==> s[|s| - |r| - 1] == ' '
  {
    if s == [] then []
    else if s[|s| - 1] == ' ' then []
    else AfterLastSpace(s[..|s| - 1]) + [s[|s| - 1]]
  }

  /** The scarab type key: the last space-separated word of the name, `''` without a space. */
  function ScarabKey(name: string): (r: string)
    ensures ' ' !in r
    ensures ' ' in name ==> |r| < |name| && r == name[|name| - |r|..] && name[|name| - |r| - 1] == ' '
    ensures ' ' !in name ==> r == ""
  {
    if ' ' in name then AfterLastSpace(name) else ""
  }

  /** `get_scarab_farming_strategy(scarab_type)`: exact key match, else the default record. */
  function ScarabStrategy(kb: Tables, scarabType: string): (r: FarmingRecord)
    ensures scarabType in kb.scarabs ==> r == kb.scarabs[scarabType]
    ensures scarabType !in kb.scarabs ==> r == kb.scarabDefault
  {
    if scarabType in kb.scarabs then kb.scarabs[scarabType] else kb.scarabDefault
  }

  /** Whatever comes before the last space does not matter: the last word is the key. */
  lemma {:induction false} AfterLastSpaceOfWord(p: string, w: string)
    requires ' ' !in w
    ensures AfterLastSpace(p + " " + w) == w
  {
    if w == [] {
      assert (p + " " + w)[|p + " " + w| - 1] == ' ';
    } else {
      var s := p + " " + w;
      var w' := w[..|w| - 1];
      assert s[..|s| - 1] == p + " " + w';
      assert ' ' !in w';
      AfterLastSpaceOfWord(p, w');
      assert s[|s| - 1] == w[|w| - 1];
      assert w' + [w[|w| - 1]] == w;
    }
  }

  /**
   * The key is taken from the end of the name, so a name in the "<tier> <type> Scarab" form
   * yields the key "Scarab", which the table lacks: it gets the default record.
   */
  lemma ScarabKeyOfTieredName()
    ensures ScarabKey("Gilded Cartography Scarab") == "Scarab"
    ensures ScarabStrategy(Builtin, ScarabKey("Gilded Cartography Scarab")) == DefaultScarabStrategy
  {
    var s := "Gilded Cartography Scarab";
    assert s == "Gilded Cartography" + " " + "Scarab";
    AfterLastSpaceOfWord("Gilded Cartography", "Scarab");
    assert ' ' in s by { assert s[18] == ' '; }
    assert "Scarab" !in ScarabTable;
  }

  /** A name whose last word is a table key finds that key's record. */
  lemma ScarabKeyFindsTableEntry()
    ensures ScarabKey("Scarab of Divination") == "Divination"
    ensures ScarabStrategy(Builtin, ScarabKey("Scarab of Divination")) == ScarabTable["Divination"]
  {
    var s := "Scarab of Divination";
    assert s == "Scarab of" + " " + "Divination";
    AfterLastSpaceOfWord("Scarab of", "Divination");
    assert ' ' in s by { assert s[9] == ' '; }
  }

  /** A name without a space has the empty key, which is not in the table. */
  lemma ScarabKeyWithoutSpace(name: string)
    requires ' ' !in name
    ensures ScarabKey(name) == "" && ScarabStrategy(Builtin, ScarabKey(name)) == DefaultScarabStrategy
  {
  }

  // -------------------------------------------------------------- fragments

  /** The fragment table, in the insertion order in which its keys are tried. */
  const FragmentTable: seq<(string, FarmingRecord)> := [
    ("Maven's Invitation", FarmingRecord("Maven Witness Farming",
                             ["Maps witnessed by Maven"], TableText("fragment", "Maven's Invitation"))),
    ("Forgotten", FarmingRecord("Shaper Guardian Maps",
                    ["Shaper Guardian Maps"], TableText("fragment", "Forgotten"))),
    ("Formed", FarmingRecord("Elder Guardian Maps",
                 ["Elder Guardian Maps"], TableText("fragment", "Formed"))),
    ("Twisted", FarmingRecord("Breachlord Domains",
                  ["Breach Domains"], TableText("fragment", "Twisted"))),
    ("Mortal", FarmingRecord("Atziri Farming",
                 ["Vaal Side Areas", "Sacrifice Fragments"], TableText("fragment", "Mortal"))),
    ("Sacrifice", FarmingRecord("Vaal Side Area Farming",
                    ["Vaal Side Areas"], TableText("fragment", "Sacrifice"))),
    ("Simulacrum", FarmingRecord("Delirium Mirror Farming",
                     ["Maps with Delirium passives"], TableText("fragment", "Simulacrum"))),
    ("Timeless", FarmingRecord("Legion Farming",
                   ["Maps with Legion passives"], TableText("fragment", "Timeless")))
  ]

  const DefaultFragmentStrategy: FarmingRecord :=
    FarmingRecord("General Fragment Farming", ["High-tier Maps", "Boss Encounters"],
                  TableText("fragment", "default"))

  /** `k` occurs in `s` starting at position `i`. */
  predicate OccursAt(k: string, s: string, i: int) {
    0 <= i && i + |k| <= |s| && s[i..i + |k|] == k
  }

  /** Python's `k in s` on strings. */
  function Contains(k: string, s: string): bool {
    if |k| <= |s| && s[..|k|] == k then true
    else if |s| <= |k| then false
    else Contains(k, s[1..])
  }

  /** `Contains` holds exactly when `k` occurs in `s` at some position. */
  lemma {:induction false} ContainsOccurs(k: string, s: string)
    ensures Contains(k, s) <==> exists i :: OccursAt(k, s, i)
  {
    if |k| <= |s| && s[..|k|] == k {
      assert OccursAt(k, s, 0);
    } else if |s| <= |k| {
      assert forall i :: OccursAt(k, s, i) ==> i == 0;
    } else {
      ContainsOccurs(k, s[1..]);
      forall i | OccursAt(k, s, i) ensures OccursAt(k, s[1..], i - 1) {
        assert i != 0;
        assert s[i..i + |k|] == s[1..][i - 1..i - 1 + |k|];
      }
      if Contains(k, s[1..]) {
        var j :| OccursAt(k, s[1..], j);
        assert s[j + 1..j + 1 + |k|] == s[1..][j..j + |k|];
        assert OccursAt(k, s, j + 1);
      }
    }
  }

  /** The record of the first entry, in table order, whose key occurs in `name`. */
  function FirstContained(table: seq<(string, FarmingRecord)>, name: string): Option<FarmingRecord> {
    if table == [] then None
    else if Contains(table[0].0, name) then Some(table[0].1)
    else FirstContained(table[1..], name)
  }

  /**
   * `FirstContained` finds nothing exactly when no key occurs in the name, and otherwise the
   * record of a key that occurs, with no earlier key occurring.
   */
  lemma {:induction false} FirstContainedSpec(table: seq<(string, FarmingRecord)>, name: string)
    ensures FirstContained(table, name).None? <==> forall i :: 0 <= i < |table| ==> !Contains(table[i].0, name)
    ensures FirstContained(table, name).Some? ==>
      exists i :: 0 <= i < |table| && Contains(table[i].0, name) && FirstContained(table, name).value == table[i].1
                  && forall j :: 0 <= j < i ==> !Contains(table[j].0, name)
  {
    if table != [] && !Contains(table[0].0, name) {
      FirstContainedSpec(table[1..], name);
      assert forall i :: 1 <= i < |table| ==> table[i] == table[1..][i - 1];
      var r := FirstContained(table, name);
      if r.Some? {
        var i :| 0 <= i < |table[1..]| && Contains(table[1..][i].0, name) && r.value == table[1..][i].1
                 && forall j :: 0 <= j < i ==> !Contains(table[1..][j].0, name);
        forall j | 1 <= j < i + 1 ensures !Contains(table[j].0, name) {
          assert table[j] == table[1..][j - 1];
        }
        assert Contains(table[i + 1].0, name) && r.value == table[i + 1].1;
      }
    }
  }

  /** `get_fragment_farming_strategy(name)`: first table key contained in the name, else default. */
  function FragmentStrategy(kb: Tables, name: string): (r: FarmingRecord)
    ensures (forall i :: 0 <= i < |kb.fragments| ==> !Contains(kb.fragments[i].0, name)) ==> r == kb.fragmentDefault
    ensures (exists i :: 0 <= i < |kb.fragments| && Contains(kb.fragments[i].0, name)) ==>
      exists i :: 0 <= i < |kb.fragments| && Contains(kb.fragments[i].0, name) && r == kb.fragments[i].1 &&
                  forall j :: 0 <= j < i ==> !Contains(kb.fragments[j].0, name)
  {
    FirstContainedSpec(kb.fragments, name);
    FirstContained(kb.fragments, name).GetOr(kb.fragmentDefault)
  }

  /** An invitation name picks the first entry, not a later one it might also contain. */
  lemma FragmentStrategyExample()
    ensures FragmentStrategy(Builtin, "Maven's Invitation: The Formed") == FragmentTable[0].1
  {
    var s := "Maven's Invitation: The Formed";
    assert s[0..18] == "Maven's Invitation";
    assert Contains(FragmentTable[0].0, s);
  }

  // -------------------------------------------------------- divination cards

  const CardTable: map<string, CardRecord> := map[
    "The Doctor" := CardRecord(["Burial Chambers", "Spider Forest"], TableText("card", "The Doctor")),
    "The Nurse" := CardRecord(["Tower Map"], TableText("card", "The Nurse")),
    "The Fiend" := CardRecord(["Putrid Cloister"], TableText("card", "The Fiend")),
    "House of Mirrors" := CardRecord(["The Mirror of Kalandra (Reflection of Kalandra)"],
                                     TableText("card", "House of Mirrors")),
    "The Demon" := CardRecord(["Uber Maven", "Uber Elder"], TableText("card", "The Demon")),
    "The Immortal" := CardRecord(["Hall of Grandmasters"], TableText("card", "The Immortal")),
    "The Iron Bard" := CardRecord(["Conservatory Map"], TableText("card", "The Iron Bard")),
    "The Apothecary" := CardRecord(["Crimson Temple"], TableText("card", "The Apothecary")),
    "Unrequited Love" := CardRecord(["Terrace Map"], TableText("card", "Unrequited Love")),
    "The Enlightened" := CardRecord(["Scriptorium Map"], TableText("card", "The Enlightened")),
    "The Sephirot" := CardRecord(["Excavation Map"], TableText("card", "The Sephirot")),
    "Seven Years Bad Luck" := CardRecord(["Laboratory Map"], TableText("card", "Seven Years Bad Luck")),
    "The Hoarder" := CardRecord(["Arcade Map", "Burial Chambers Map"], TableText("card", "The Hoarder")),
    "The Saint's Treasure" := CardRecord(["Arcade Map"], TableText("card", "The Saint's Treasure")),
    "Abandoned Wealth" := CardRecord(["Arsenal Map", "Atoll Map"], TableText("card", "Abandoned Wealth"))
  ]

  const DefaultCardRecord: CardRecord :=
    CardRecord(["Any Map with Divination Card focus"], TableText("card", "default"))

  /** `get_div_card_farming_locations(name)`: exact full-name match, else the default record. */
  function CardLocations(kb: Tables, cardName: string): (r: CardRecord)
    ensures cardName in kb.cards ==> r == kb.cards[cardName]
    ensures cardName !in kb.cards ==> r == kb.cardDefault
  {
    if cardName in kb.cards then kb.cards[cardName] else kb.cardDefault
  }

  // ------------------------------------------------------------------- oils

  const OilMethod: string := "Blight Farming"
  const OilLocations: seq<string> := ["Blight Maps", "Blight Encounters"]
  const OilStrategy: Advice := TableText("oil", "default")

  /** The tables of analysis_engine.py. */
  const Builtin: Tables :=
    Tables(ScarabTable, DefaultScarabStrategy, FragmentTable, DefaultFragmentStrategy,
           CardTable, DefaultCardRecord, FarmingRecord(OilMethod, OilLocations, OilStrategy))

  // --------------------------------------------------------------- crafting

  /** One crafting method of the catalogue, before the league is attached. */
  datatype CraftingMethod = CraftingMethod(name: string, materials: seq<string>,
                                           estimatedCost: real, estimatedReturn: real, baseScore: real)

  /** The catalogue in its written order. */
  const CraftingCatalogue: seq<CraftingMethod> := [
    CraftingMethod("Cluster Jewel Crafting",
      ["Large Cluster Jewel (8 passives)", "Chaos Orbs", "Alteration Orbs", "Regal Orbs"], 150.0, 300.0, 85.0),
    CraftingMethod("Essence Crafting",
      ["Deafening Essence of Dread/Anger/Hatred/Wrath", "Influenced item bases"], 200.0, 350.0, 75.0),
    CraftingMethod("Fossil Crafting",
      ["Pristine Fossils", "Jagged Fossils", "Dense Fossils", "Resonators"], 250.0, 500.0, 90.0),
    CraftingMethod("Harvest Reforge Crafting",
      ["Base items", "Harvest crafts (reforge with X)"], 300.0, 600.0, 95.0),
    CraftingMethod("Eldritch Currency Crafting",
      ["Eldritch Chaos Orbs", "Eldritch Exalted Orbs", "Gloves/Boots/Helmets/Body Armour"], 400.0, 700.0, 80.0),
    CraftingMethod("Fractured Item Crafting",
      ["Items with good fractured mods", "Essences", "Fossils"], 500.0, 1000.0, 100.0),
    CraftingMethod("Veiled Chaos Orb Crafting",
      ["Veiled Chaos Orbs", "Influenced item bases"], 150.0, 300.0, 70.0),
    CraftingMethod("Awakener Orb Crafting",
      ["Awakener's Orb", "Two influenced items with desired mods"], 1000.0, 2000.0, 95.0),
    CraftingMethod("Recombinator Crafting",
      ["Recombinators", "Two well-rolled items"], 300.0, 800.0, 85.0),
    CraftingMethod("Meta-mod Crafting",
      ["Exalted Orbs", "Divine Orbs", "Crafting bench (2 ex for metamod)"], 800.0, 1500.0, 90.0)
  ]
}
