/**
 * The crafting detector (analysis_engine.py, `analyze_crafting_opportunities`): the fixed
 * catalogue of crafting methods, each tagged with the primary league, sorted by score.
 */
module Crafting {
  import opened Config
  import opened Market
  import opened Seqs
  import opened Knowledge

  /** A catalogue entry once the league has been attached. */
  function CraftingOf(m: CraftingMethod): Opportunity {
    Crafting(m.name, TableText("crafting-description", m.name), m.materials,
             TableText("crafting", m.name), m.estimatedCost, m.estimatedReturn, m.baseScore,
             PrimaryLeague)
  }

  /** The list the tagging loop accumulates: one opportunity per entry, in catalogue order. */
  function Tagged(ms: seq<CraftingMethod>): (r: seq<Opportunity>)
    ensures |r| == |ms|
  {
    if ms == [] then [] else Tagged(ms[..|ms| - 1]) + [CraftingOf(ms[|ms| - 1])]
  }

  /** Entry `i` of the tagged list is what entry `i` of the catalogue becomes. */
  lemma {:induction false} TaggedAt(ms: seq<CraftingMethod>, i: int)
    requires 0 <= i < |ms|
    ensures Tagged(ms)[i] == CraftingOf(ms[i])
  {
    if i < |ms| - 1 {
      TaggedAt(ms[..|ms| - 1], i);
    }
  }

  /**
   * `analyze_crafting_opportunities(market_data)` as a value, over a given catalogue (the
   * detector's own is `CraftingCatalogue`); the snapshot is not consulted.
   */
  function CraftingSpec(catalogue: seq<CraftingMethod>): seq<Opportunity> {
    SortDesc(Tagged(catalogue), ScoreKey)
  }

  /** The detector's loop over a catalogue; the detector's own is `CraftingCatalogue`. */
  method AnalyzeCraftingOpportunities(catalogue: seq<CraftingMethod>, marketData: Snapshot)
    returns (r: seq<Opportunity>)
    ensures r == CraftingSpec(catalogue)
  {
    var methods := catalogue;
    var tagged := [];
    for i := 0 to |methods|
      invariant tagged == Tagged(methods[..i])
    {
      assert methods[..i + 1][..i] == methods[..i];
      tagged := tagged + [CraftingOf(methods[i])];
    }
    assert methods[..|methods|] == methods;
    r := SortDesc(tagged, ScoreKey);
  }

  /**
   * The crafting list holds every catalogue entry exactly once, each a crafting opportunity
   * for the primary league, sorted by score, with entries of equal score in catalogue order.
   */
  lemma CraftingProperties(catalogue: seq<CraftingMethod>)
    ensures |CraftingSpec(catalogue)| == |catalogue|
    ensures multiset(CraftingSpec(catalogue)) == multiset(Tagged(catalogue))
    ensures forall o :: o in CraftingSpec(catalogue) ==> o.Crafting? && o.league == PrimaryLeague
    ensures SortedDesc(CraftingSpec(catalogue), ScoreKey)
    ensures forall k :: WithKey(CraftingSpec(catalogue), ScoreKey, k) == WithKey(Tagged(catalogue), ScoreKey, k)
  {
    var t := Tagged(catalogue);
    SortDescSorted(t, ScoreKey);
    forall k ensures WithKey(CraftingSpec(catalogue), ScoreKey, k) == WithKey(t, ScoreKey, k) {
      SortDescStable(t, ScoreKey, k);
    }
    forall o | o in CraftingSpec(catalogue) ensures o.Crafting? && o.league == PrimaryLeague {
      assert o in multiset(t);
      var i :| 0 <= i < |t| && t[i] == o;
      TaggedAt(catalogue, i);
    }
  }

  /**
   * Ten records with these scores, in this order, come out of the stable sort as: the 100,
   * the two 95s, the two 90s, the two 85s (each pair in input order), the 80, the 75, the 70.
   */
  lemma SortTen(x0: Opportunity, x1: Opportunity, x2: Opportunity, x3: Opportunity, x4: Opportunity,
                x5: Opportunity, x6: Opportunity, x7: Opportunity, x8: Opportunity, x9: Opportunity)
    requires ScoreKey(x0) == 85.0 && ScoreKey(x1) == 75.0 && ScoreKey(x2) == 90.0 && ScoreKey(x3) == 95.0
    requires ScoreKey(x4) == 80.0 && ScoreKey(x5) == 100.0 && ScoreKey(x6) == 70.0 && ScoreKey(x7) == 95.0
    requires ScoreKey(x8) == 85.0 && ScoreKey(x9) == 90.0
    ensures SortDesc([x0] + ([x1] + ([x2] + ([x3] + ([x4] + ([x5] + ([x6] + ([x7] + ([x8] + ([x9] + []))))))))), ScoreKey) ==
            [x5] + ([x3] + ([x7] + ([x2] + ([x9] + ([x0] + ([x8] + ([x4] + ([x1] + ([x6] + [])))))))))
  {
    var k := ScoreKey;
    SortDescCons(x9, [], k);
    InsertFront(x9, [], k);
    SortDescCons(x8, [x9] + [], k);
    InsertPast(x8, x9, [], k);
    InsertFront(x8, [], k);
    SortDescCons(x7, [x8] + ([x9] + []), k);
    InsertFront(x7, [x9] + ([x8] + []), k);
    SortDescCons(x6, [x7] + ([x8] + ([x9] + [])), k);
    InsertPast(x6, x7, [x9] + ([x8] + []), k);
    InsertPast(x6, x9, [x8] + [], k);
    InsertPast(x6, x8, [], k);
    InsertFront(x6, [], k);
    SortDescCons(x5, [x6] + ([x7] + ([x8] + ([x9] + []))), k);
    InsertFront(x5, [x7] + ([x9] + ([x8] + ([x6] + []))), k);
    SortDescCons(x4, [x5] + ([x6] + ([x7] + ([x8] + ([x9] + [])))), k);
    InsertPast(x4, x5, [x7] + ([x9] + ([x8] + ([x6] + []))), k);
    InsertPast(x4, x7, [x9] + ([x8] + ([x6] + [])), k);
    InsertPast(x4, x9, [x8] + ([x6] + []), k);
    InsertPast(x4, x8, [x6] + [], k);
    InsertFront(x4, [x6] + [], k);
    SortDescCons(x3, [x4] + ([x5] + ([x6] + ([x7] + ([x8] + ([x9] + []))))), k);
    InsertPast(x3, x5, [x7] + ([x9] + ([x8] + ([x4] + ([x6] + [])))), k);
    InsertFront(x3, [x7] + ([x9] + ([x8] + ([x4] + ([x6] + [])))), k);
    SortDescCons(x2, [x3] + ([x4] + ([x5] + ([x6] + ([x7] + ([x8] + ([x9] + [])))))), k);
    InsertPast(x2, x5, [x3] + ([x7] + ([x9] + ([x8] + ([x4] + ([x6] + []))))), k);
    InsertPast(x2, x3, [x7] + ([x9] + ([x8] + ([x4] + ([x6] + [])))), k);
    InsertPast(x2, x7, [x9] + ([x8] + ([x4] + ([x6] + []))), k);
    InsertFront(x2, [x9] + ([x8] + ([x4] + ([x6] + []))), k);
    SortDescCons(x1, [x2] + ([x3] + ([x4] + ([x5] + ([x6] + ([x7] + ([x8] + ([x9] + []))))))), k);
    InsertPast(x1, x5, [x3] + ([x7] + ([x2] + ([x9] + ([x8] + ([x4] + ([x6] + [])))))), k);
    InsertPast(x1, x3, [x7] + ([x2] + ([x9] + ([x8] + ([x4] + ([x6] + []))))), k);
    InsertPast(x1, x7, [x2] + ([x9] + ([x8] + ([x4] + ([x6] + [])))), k);
    InsertPast(x1, x2, [x9] + ([x8] + ([x4] + ([x6] + []))), k);
    InsertPast(x1, x9, [x8] + ([x4] + ([x6] + [])), k);
    InsertPast(x1, x8, [x4] + ([x6] + []), k);
    InsertPast(x1, x4, [x6] + [], k);
    InsertFront(x1, [x6] + [], k);
    SortDescCons(x0, [x1] + ([x2] + ([x3] + ([x4] + ([x5] + ([x6] + ([x7] + ([x8] + ([x9] + [])))))))), k);
    InsertPast(x0, x5, [x3] + ([x7] + ([x2] + ([x9] + ([x8] + ([x4] + ([x1] + ([x6] + []))))))), k);
    InsertPast(x0, x3, [x7] + ([x2] + ([x9] + ([x8] + ([x4] + ([x1] + ([x6] + [])))))), k);
    InsertPast(x0, x7, [x2] + ([x9] + ([x8] + ([x4] + ([x1] + ([x6] + []))))), k);
    InsertPast(x0, x2, [x9] + ([x8] + ([x4] + ([x1] + ([x6] + [])))), k);
    InsertPast(x0, x9, [x8] + ([x4] + ([x1] + ([x6] + []))), k);
    InsertFront(x0, [x8] + ([x4] + ([x1] + ([x6] + []))), k);
  }

  /** A sequence of ten, written element by element. */
  lemma Spelled(s: seq<Opportunity>)
    requires |s| == 10
    ensures s == [s[0]] + ([s[1]] + ([s[2]] + ([s[3]] + ([s[4]] + ([s[5]] + ([s[6]] + ([s[7]] + ([s[8]] + ([s[9]] + [])))))))))
  {
    Unspelled(s[0], s[1], s[2], s[3], s[4], s[5], s[6], s[7], s[8], s[9]);
    assert s == [s[0], s[1], s[2], s[3], s[4], s[5], s[6], s[7], s[8], s[9]];
  }

  /** Reading back the elements of a sequence written element by element. */
  lemma Unspelled(x0: Opportunity, x1: Opportunity, x2: Opportunity, x3: Opportunity, x4: Opportunity,
                  x5: Opportunity, x6: Opportunity, x7: Opportunity, x8: Opportunity, x9: Opportunity)
    ensures [x0] + ([x1] + ([x2] + ([x3] + ([x4] + ([x5] + ([x6] + ([x7] + ([x8] + ([x9] + []))))))))) == [x0, x1, x2, x3, x4, x5, x6, x7, x8, x9]
  {
  }

  /** The catalogue's scores and names, entry by entry. */
  lemma CatalogueEntries()
    ensures |CraftingCatalogue| == 10
    ensures CraftingCatalogue[0].baseScore == 85.0 && CraftingCatalogue[0].name == "Cluster Jewel Crafting"
    ensures CraftingCatalogue[1].baseScore == 75.0 && CraftingCatalogue[1].name == "Essence Crafting"
    ensures CraftingCatalogue[2].baseScore == 90.0 && CraftingCatalogue[2].name == "Fossil Crafting"
    ensures CraftingCatalogue[3].baseScore == 95.0 && CraftingCatalogue[3].name == "Harvest Reforge Crafting"
    ensures CraftingCatalogue[4].baseScore == 80.0 && CraftingCatalogue[4].name == "Eldritch Currency Crafting"
    ensures CraftingCatalogue[5].baseScore == 100.0 && CraftingCatalogue[5].name == "Fractured Item Crafting"
    ensures CraftingCatalogue[6].baseScore == 70.0 && CraftingCatalogue[6].name == "Veiled Chaos Orb Crafting"
    ensures CraftingCatalogue[7].baseScore == 95.0 && CraftingCatalogue[7].name == "Awakener Orb Crafting"
    ensures CraftingCatalogue[8].baseScore == 85.0 && CraftingCatalogue[8].name == "Recombinator Crafting"
    ensures CraftingCatalogue[9].baseScore == 90.0 && CraftingCatalogue[9].name == "Meta-mod Crafting"
  {
  }

  /**
   * For any ten-entry catalogue with the scores of the detector's own, the crafting list is:
   * the 100, the two 95s, the two 90s, the two 85s (each pair in catalogue order), the 80,
   * the 75 and the 70.
   */
  lemma CraftingOrderOf(c: seq<CraftingMethod>)
    requires |c| == 10
    requires c[0].baseScore == 85.0 && c[1].baseScore == 75.0 && c[2].baseScore == 90.0
    requires c[3].baseScore == 95.0 && c[4].baseScore == 80.0 && c[5].baseScore == 100.0
    requires c[6].baseScore == 70.0 && c[7].baseScore == 95.0 && c[8].baseScore == 85.0
    requires c[9].baseScore == 90.0
    ensures CraftingSpec(c) == [CraftingOf(c[5]), CraftingOf(c[3]), CraftingOf(c[7]), CraftingOf(c[2]),
                                CraftingOf(c[9]), CraftingOf(c[0]), CraftingOf(c[8]), CraftingOf(c[4]),
                                CraftingOf(c[1]), CraftingOf(c[6])]
  {
    var t := Tagged(c);
    forall i | 0 <= i < 10 ensures t[i] == CraftingOf(c[i]) {
      TaggedAt(c, i);
    }
    Spelled(t);
    SortTen(t[0], t[1], t[2], t[3], t[4], t[5], t[6], t[7], t[8], t[9]);
    Unspelled(t[5], t[3], t[7], t[2], t[9], t[0], t[8], t[4], t[1], t[6]);
  }

  /**
   * The crafting list, by name: Fractured (100), Harvest (95), Awakener (95), Fossil (90),
   * Meta-mod (90), Cluster (85), Recombinator (85), Eldritch (80), Essence (75), Veiled (70).
   */
  lemma CraftingOrder()
    ensures CraftingSpec(CraftingCatalogue) ==
      [CraftingOf(CraftingCatalogue[5]), CraftingOf(CraftingCatalogue[3]), CraftingOf(CraftingCatalogue[7]),
       CraftingOf(CraftingCatalogue[2]), CraftingOf(CraftingCatalogue[9]), CraftingOf(CraftingCatalogue[0]),
       CraftingOf(CraftingCatalogue[8]), CraftingOf(CraftingCatalogue[4]), CraftingOf(CraftingCatalogue[1]),
       CraftingOf(CraftingCatalogue[6])]
  {
    CatalogueEntries();
    CraftingOrderOf(CraftingCatalogue);
  }
}
