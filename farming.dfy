/**
 * The farming detector (analysis_engine.py, `analyze_farming_opportunities` and its four
 * per-category analysers): the most valuable scarabs, fragments, oils and divination cards,
 * each with where and how to farm it.
 */
module Farming {
  import opened Wrappers
  import opened Config
  import opened Market
  import opened Seqs
  import opened Knowledge

  /** How many of the most valuable records of the category are considered. */
  function TopCount(kind: FarmKind): nat {
    match kind
    case ScarabFarm => 10
    case FragmentFarm => 10
    case OilFarm => 5
    case DivinationCardFarm => 10
  }

  /** Records worth less than this many chaos are skipped. */
  function MinValue(kind: FarmKind): real {
    match kind
    case ScarabFarm => 10.0
    case FragmentFarm => 15.0
    case OilFarm => 10.0
    case DivinationCardFarm => 50.0
  }

  /** The score: the chaos value weighted by 0.8, 0.9, 0.7 or 0.6 according to the category. */
  function FarmScore(kind: FarmKind, chaosValue: real): real {
    match kind
    case ScarabFarm => chaosValue * 0.8
    case FragmentFarm => chaosValue * 0.9
    case OilFarm => chaosValue * 0.7
    case DivinationCardFarm => chaosValue * 0.6
  }

  /** A higher value never scores lower. */
  lemma FarmScoreMonotone(kind: FarmKind, a: real, b: real)
    requires a <= b
    ensures FarmScore(kind, a) <= FarmScore(kind, b)
  {
  }

  /** Where and how to farm a record of this category with this name. */
  function FarmRecord(kb: Tables, kind: FarmKind, name: string): FarmingRecord {
    match kind
    case ScarabFarm => ScarabStrategy(kb, ScarabKey(name))
    case FragmentFarm => FragmentStrategy(kb, name)
    case OilFarm => kb.oil
    case DivinationCardFarm =>
      var card := CardLocations(kb, name);
      FarmingRecord("Targeted Map Farming", card.maps, card.strategy)
  }

  /** The opportunity one considered record yields, if it is valuable enough. */
  function FarmOf(kb: Tables, kind: FarmKind, item: Item): Option<Opportunity> {
    var name := NameOf(item);
    var chaosValue := ChaosOf(item);
    if chaosValue < MinValue(kind) then None
    else
      var record := FarmRecord(kb, kind, name);
      Some(Farming(kind, name, chaosValue, record.farmingMethod, record.locations, record.strategy,
                   FarmScore(kind, chaosValue), LeagueOf(item)))
  }

  function FarmFn(kb: Tables, kind: FarmKind): Item -> Option<Opportunity> {
    item => FarmOf(kb, kind, item)
  }

  /** The records considered: sorted by chaos value, highest first, the first `TopCount`. */
  function Considered(kind: FarmKind, items: seq<Item>): seq<Item> {
    Take(SortDesc(items, ChaosOf), TopCount(kind))
  }

  /** One per-category analyser as a value. */
  function FarmCategorySpec(kb: Tables, kind: FarmKind, items: seq<Item>): seq<Opportunity> {
    Collect(Considered(kind, items), FarmFn(kb, kind))
  }

  /**
   * A considered record yields an opportunity exactly when its value reaches the category's
   * floor; the opportunity names it, carries its value and league, scores value times the
   * category's weight and takes method, locations and strategy from the category's table.
   */
  lemma FarmOfCondition(kb: Tables, kind: FarmKind, item: Item)
    ensures FarmOf(kb, kind, item).Some? <==> ChaosOf(item) >= MinValue(kind)
    ensures FarmOf(kb, kind, item).Some? ==>
      var o := FarmOf(kb, kind, item).value;
      && o.Farming? && o.kind == kind && o.item == NameOf(item) && o.chaosValue == ChaosOf(item)
      && o.score == FarmScore(kind, ChaosOf(item)) && o.league == LeagueOf(item)
      && o.farmingMethod == FarmRecord(kb, kind, NameOf(item)).farmingMethod
      && o.locations == FarmRecord(kb, kind, NameOf(item)).locations
      && o.advice == FarmRecord(kb, kind, NameOf(item)).strategy
  {
  }

  /**
   * Every oil worth at least 10 chaos gets the same method, locations and strategy: Blight
   * farming in Blight maps and encounters, scored at 0.7 of its value.
   */
  lemma OilOpportunity(item: Item)
    ensures ChaosOf(item) >= 10.0 ==>
      FarmOf(Builtin, OilFarm, item) ==
        Some(Farming(OilFarm, NameOf(item), ChaosOf(item), "Blight Farming", ["Blight Maps", "Blight Encounters"],
                     Knowledge.OilStrategy, ChaosOf(item) * 0.7, LeagueOf(item)))
    ensures ChaosOf(item) < 10.0 ==> FarmOf(Builtin, OilFarm, item).None?
  {
  }

  /** The body of a per-category analyser's loop for one record: skipped below the floor. */
  method FarmItem(kb: Tables, kind: FarmKind, item: Item) returns (o: Option<Opportunity>)
    ensures o == FarmOf(kb, kind, item)
  {
    var name := NameOf(item);
    var chaosValue := ChaosOf(item);
    if chaosValue < MinValue(kind) {
      return None;
    }
    var strategy := FarmRecord(kb, kind, name);
    o := Some(Farming(kind, name, chaosValue, strategy.farmingMethod, strategy.locations,
                      strategy.strategy, FarmScore(kind, chaosValue), LeagueOf(item)));
  }

  /**
   * The per-category analyser's loop (`analyze_scarab_farming`, `analyze_fragment_farming`,
   * `analyze_oil_farming`, `analyze_div_card_farming` differ only in the constants above).
   */
  method FarmCategory(kb: Tables, kind: FarmKind, items: seq<Item>) returns (r: seq<Opportunity>)
    ensures r == FarmCategorySpec(kb, kind, items)
  {
    var sorted := SortDesc(items, ChaosOf);
    var top := Take(sorted, TopCount(kind));
    r := FarmEach(kb, kind, top);
  }

  /** The loop over the considered records, each kept when `FarmItem` yields an opportunity. */
  method FarmEach(kb: Tables, kind: FarmKind, top: seq<Item>) returns (r: seq<Opportunity>)
    ensures r == Collect(top, FarmFn(kb, kind))
  {
    r := [];
    for i := 0 to |top|
      invariant r == Collect(top[..i], FarmFn(kb, kind))
    {
      var item := top[i];
      assert top[..i + 1] == top[..i] + [item];
      CollectSnoc(top[..i], item, FarmFn(kb, kind));
      var opportunity := FarmItem(kb, kind, item);
      if opportunity.Some? {
        r := r + [opportunity.value];
      }
    }
    assert top[..|top|] == top;
  }

  /**
   * One category's list: at most `TopCount` long, sorted by score, of farming opportunities of
   * this category, each the opportunity of a record that has a value at least the floor, is
   * among the first `TopCount` by value, and is worth at least every record left out of that
   * prefix.
   */
  lemma FarmCategoryProperties(kb: Tables, kind: FarmKind, items: seq<Item>)
    ensures |FarmCategorySpec(kb, kind, items)| <= TopCount(kind)
    ensures SortedDesc(FarmCategorySpec(kb, kind, items), ScoreKey)
    ensures forall o :: o in FarmCategorySpec(kb, kind, items) ==> o.Farming? && o.kind == kind
    ensures forall o :: o in FarmCategorySpec(kb, kind, items) ==>
      exists x :: x in Considered(kind, items) && FarmOf(kb, kind, x) == Some(o) &&
                  ChaosOf(x) >= MinValue(kind) && x in items &&
                  forall y :: y in Drop(SortDesc(items, ChaosOf), TopCount(kind)) ==> ChaosOf(x) >= ChaosOf(y)
  {
    FarmCategorySorted(kb, kind, items);
    FarmCategoryMembers(kb, kind, items);
  }

  /** A category's list is sorted by score because scores grow with the value it is cut by. */
  lemma FarmCategorySorted(kb: Tables, kind: FarmKind, items: seq<Item>)
    ensures SortedDesc(FarmCategorySpec(kb, kind, items), ScoreKey)
  {
    var sorted := SortDesc(items, ChaosOf);
    var f := FarmFn(kb, kind);
    SortDescSorted(items, ChaosOf);
    TakeSorted(sorted, TopCount(kind), ChaosOf);
    forall x, y | f(x).Some? && f(y).Some? && ChaosOf(x) >= ChaosOf(y)
      ensures ScoreKey(f(x).value) >= ScoreKey(f(y).value)
    {
      FarmOfCondition(kb, kind, x);
      FarmOfCondition(kb, kind, y);
      FarmScoreMonotone(kind, ChaosOf(y), ChaosOf(x));
    }
    CollectSorted(Considered(kind, items), f, ChaosOf, ScoreKey);
  }

  /** Each entry of a category's list comes from a considered record of at least the floor. */
  lemma FarmCategoryMembers(kb: Tables, kind: FarmKind, items: seq<Item>)
    ensures forall o :: o in FarmCategorySpec(kb, kind, items) ==> o.Farming? && o.kind == kind
    ensures forall o :: o in FarmCategorySpec(kb, kind, items) ==>
      exists x :: x in Considered(kind, items) && FarmOf(kb, kind, x) == Some(o) &&
                  ChaosOf(x) >= MinValue(kind) && x in items &&
                  forall y :: y in Drop(SortDesc(items, ChaosOf), TopCount(kind)) ==> ChaosOf(x) >= ChaosOf(y)
  {
    var sorted := SortDesc(items, ChaosOf);
    var top := Considered(kind, items);
    var f := FarmFn(kb, kind);
    TopIsLargest(items, TopCount(kind), ChaosOf);
    TopN(items, TopCount(kind), ChaosOf);
    forall o | o in FarmCategorySpec(kb, kind, items)
      ensures o.Farming? && o.kind == kind
      ensures exists x :: x in top && FarmOf(kb, kind, x) == Some(o) &&
                  ChaosOf(x) >= MinValue(kind) && x in items &&
                  forall y :: y in Drop(sorted, TopCount(kind)) ==> ChaosOf(x) >= ChaosOf(y)
    {
      CollectMember(top, f, o);
      var i :| 0 <= i < |top| && f(top[i]) == Some(o);
      var x := top[i];
      assert x in top;
      FarmOfCondition(kb, kind, x);
    }
  }

  /** The four categories in the order the detector concatenates them. */
  function FarmingCandidates(kb: Tables, marketData: Snapshot): seq<Opportunity> {
    FarmCategorySpec(kb, ScarabFarm, Category(marketData, "scarabs")) +
    FarmCategorySpec(kb, FragmentFarm, Category(marketData, "fragments")) +
    FarmCategorySpec(kb, OilFarm, Category(marketData, "oils")) +
    FarmCategorySpec(kb, DivinationCardFarm, Category(marketData, "divination_cards"))
  }

  /** `analyze_farming_opportunities(market_data)`: merged, sorted by score, at most 20. */
  function FarmingSpec(kb: Tables, marketData: Snapshot): seq<Opportunity> {
    Take(SortDesc(FarmingCandidates(kb, marketData), ScoreKey), 20)
  }

  method AnalyzeFarmingOpportunities(kb: Tables, marketData: Snapshot) returns (r: seq<Opportunity>)
    ensures r == FarmingSpec(kb, marketData)
  {
    var scarabs := FarmCategory(kb, ScarabFarm, Category(marketData, "scarabs"));
    var fragments := FarmCategory(kb, FragmentFarm, Category(marketData, "fragments"));
    var oils := FarmCategory(kb, OilFarm, Category(marketData, "oils"));
    var cards := FarmCategory(kb, DivinationCardFarm, Category(marketData, "divination_cards"));
    var farming := scarabs + fragments + oils + cards;
    r := Take(SortDesc(farming, ScoreKey), 20);
  }

  /**
   * The farming list: at most 20 long, sorted by score, drawn from at most 35 candidates
   * (10 + 10 + 5 + 10) and only farming opportunities; every candidate is kept when no more
   * than 20 qualify, and among equal scores the merge keeps category order.
   */
  lemma FarmingProperties(kb: Tables, marketData: Snapshot)
    ensures |FarmingCandidates(kb, marketData)| <= 35
    ensures |FarmingSpec(kb, marketData)| <= 20
    ensures SortedDesc(FarmingSpec(kb, marketData), ScoreKey)
    ensures forall o :: o in FarmingSpec(kb, marketData) ==> o in FarmingCandidates(kb, marketData) && o.Farming?
    ensures |FarmingCandidates(kb, marketData)| <= 20 ==>
      multiset(FarmingSpec(kb, marketData)) == multiset(FarmingCandidates(kb, marketData))
    ensures forall k :: WithKey(FarmingSpec(kb, marketData), ScoreKey, k) <= WithKey(FarmingCandidates(kb, marketData), ScoreKey, k)
  {
    var all := FarmingCandidates(kb, marketData);
    FarmCategoryProperties(kb, ScarabFarm, Category(marketData, "scarabs"));
    FarmCategoryProperties(kb, FragmentFarm, Category(marketData, "fragments"));
    FarmCategoryProperties(kb, OilFarm, Category(marketData, "oils"));
    FarmCategoryProperties(kb, DivinationCardFarm, Category(marketData, "divination_cards"));
    TopN(all, 20, ScoreKey);
  }

  /**
   * A divination card "The Doctor" worth 80 chaos is listed with score 48, farmed by targeted
   * map farming in Burial Chambers and Spider Forest.
   */
  lemma DoctorExample()
    ensures var doctor := NoKeys.(name := Some("The Doctor"), chaosValue := Some(80.0));
      FarmCategorySpec(Builtin, DivinationCardFarm, [doctor]) ==
        [Farming(DivinationCardFarm, "The Doctor", 80.0, "Targeted Map Farming",
                 ["Burial Chambers", "Spider Forest"], TableText("card", "The Doctor"), 48.0, PrimaryLeague)]
  {
    var doctor := NoKeys.(name := Some("The Doctor"), chaosValue := Some(80.0));
    assert Considered(DivinationCardFarm, [doctor]) == [doctor];
    assert CardLocations(Builtin, "The Doctor") == CardTable["The Doctor"];
    assert [doctor][..0] == [];
  }

  /** A card worth 40 chaos is below the 50-chaos floor and yields nothing. */
  lemma CardBelowFloor()
    ensures FarmCategorySpec(Builtin, DivinationCardFarm, [NoKeys.(name := Some("The Doctor"), chaosValue := Some(40.0))]) == []
  {
    var card := NoKeys.(name := Some("The Doctor"), chaosValue := Some(40.0));
    assert Considered(DivinationCardFarm, [card]) == [card];
    assert [card][..0] == [];
  }
}
