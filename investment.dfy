/**
 * The investment detector (analysis_engine.py, `analyze_investment_opportunities`): records of
 * four categories that carry a price trend, rated by the investment formula, kept above a
 * rating of 60, worded by the direction of the trend and ranked by rating.
 */
module Investment {
  import opened Wrappers
  import opened Market
  import opened Seqs
  import opened Scoring

  /** The four lists the detector reads from the snapshot. */
  datatype Pools = Pools(currencies: seq<Item>, fragments: seq<Item>, scarabs: seq<Item>, oils: seq<Item>)

  function PoolsOf(marketData: Snapshot): Pools {
    Pools(Category(marketData, "currencies"), Category(marketData, "fragments"),
          Category(marketData, "scarabs"), Category(marketData, "oils"))
  }

  /** `currencies + fragments + scarabs + oils` */
  function AllItems(p: Pools): seq<Item> {
    p.currencies + p.fragments + p.scarabs + p.oils
  }

  /** `'price_change' in item or 'receive_change' in item` */
  predicate HasHistory(item: Item) {
    item.priceChange.Some? || item.receiveChange.Some?
  }

  function KeepWithHistory(item: Item): Option<Item> {
    if HasHistory(item) then Some(item) else None
  }

  /** The comprehension `[item for item in all_items if ...]`: the records with a trend, in order. */
  function WithHistory(items: seq<Item>): seq<Item> {
    Collect(items, KeepWithHistory)
  }

  /** A record survives the comprehension exactly when it is in the input and has a trend. */
  lemma WithHistoryMember(items: seq<Item>, x: Item)
    ensures x in WithHistory(items) <==> x in items && HasHistory(x)
  {
    CollectMember(items, KeepWithHistory, x);
    if x in items && HasHistory(x) {
      var i :| 0 <= i < |items| && items[i] == x;
      assert KeepWithHistory(items[i]) == Some(x);
    }
  }

  /** `item.get('receive_change', item.get('price_change', 0))` */
  function ChangeOf(item: Item): (r: real)
    ensures item.receiveChange.Some? ==> r == item.receiveChange.value
    ensures item.receiveChange.None? && item.priceChange.Some? ==> r == item.priceChange.value
    ensures item.receiveChange.None? && item.priceChange.None? ==> r == 0.0
  {
    item.receiveChange.GetOr(item.priceChange.GetOr(0.0))
  }

  /** The type label: the first of the four lists that holds an equal record. */
  function CategoryIn(p: Pools, item: Item): ItemCategory {
    if item in p.currencies then CurrencyItem
    else if item in p.fragments then FragmentItem
    else if item in p.scarabs then ScarabItem
    else if item in p.oils then OilItem
    else OtherItem
  }

  /** A record drawn from the four lists is always labelled with one of them, never "Other". */
  lemma CategoryOfPooled(p: Pools, item: Item)
    requires item in AllItems(p)
    ensures CategoryIn(p, item) != OtherItem
    ensures CategoryIn(p, item) == CurrencyItem <==> item in p.currencies
    ensures CategoryIn(p, item) == FragmentItem <==> item !in p.currencies && item in p.fragments
    ensures CategoryIn(p, item) == ScarabItem <==>
      item !in p.currencies && item !in p.fragments && item in p.scarabs
    ensures CategoryIn(p, item) == OilItem <==>
      item !in p.currencies && item !in p.fragments && item !in p.scarabs
  {
    assert item in p.currencies + p.fragments + p.scarabs || item in p.oils;
  }

  /** The strategy wording: rising above 10 %, falling below -10 %, otherwise stable. */
  function InvestAdvice(name: string, change: real, price: real): (r: Advice)
    ensures r.ShortTermAdvice? <==> change > 10.0
    ensures r.LongTermAdvice? <==> change < -10.0
    ensures r.StableAdvice? <==> -10.0 <= change <= 10.0
    ensures r.ShortTermAdvice? || r.LongTermAdvice? || r.StableAdvice?
  {
    if change > 10.0 then ShortTermAdvice(name, change, price)
    else if change < -10.0 then LongTermAdvice(name, change, price)
    else StableAdvice(name, price)
  }

  /** The rating the detector gives a record. */
  function RatingOf(item: Item): real {
    InvestmentRating(ChaosOf(item), ChangeOf(item), VolumeOf(item))
  }

  /** The opportunity one record with a trend yields, if any. */
  function InvestOf(p: Pools, item: Item): Option<Opportunity> {
    var name := NameOf(item);
    var chaosValue := ChaosOf(item);
    var change := ChangeOf(item);
    if chaosValue <= 0.0 then None
    else
      var rating := RatingOf(item);
      if rating > 60.0 then
        Some(Investment(CategoryIn(p, item), name, chaosValue, change, rating,
                        InvestAdvice(name, change, chaosValue), LeagueOf(item)))
      else None
  }

  function InvestFn(p: Pools): Item -> Option<Opportunity> {
    item => InvestOf(p, item)
  }

  /** The list the detector's loop accumulates, before sorting. */
  function InvestmentCandidates(p: Pools): seq<Opportunity> {
    Collect(WithHistory(AllItems(p)), InvestFn(p))
  }

  /** `analyze_investment_opportunities(market_data)` as a value. */
  function InvestmentSpec(marketData: Snapshot): seq<Opportunity> {
    Take(SortDesc(InvestmentCandidates(PoolsOf(marketData)), RatingKey), 20)
  }

  /**
   * A record yields an opportunity exactly when its value is positive and its rating exceeds
   * 60; the opportunity carries its name, value, trend (receive change first), rating, league
   * and type label, and its wording follows the trend.
   */
  lemma InvestOfCondition(p: Pools, item: Item)
    ensures InvestOf(p, item).Some? <==> ChaosOf(item) > 0.0 && RatingOf(item) > 60.0
    ensures InvestOf(p, item).Some? ==>
      var o := InvestOf(p, item).value;
      && o.Investment? && o.category == CategoryIn(p, item) && o.item == NameOf(item)
      && o.chaosValue == ChaosOf(item) && o.priceChange == ChangeOf(item)
      && o.rating == RatingOf(item) && o.rating > 60.0 && o.league == LeagueOf(item)
      && o.advice == InvestAdvice(NameOf(item), ChangeOf(item), ChaosOf(item))
  {
  }

  /** The body of the detector's loop for one record with a trend. */
  method RateRecord(pools: Pools, item: Item) returns (o: Option<Opportunity>)
    ensures o == InvestOf(pools, item)
  {
    var name := NameOf(item);
    var chaosValue := ChaosOf(item);
    var priceChange := ChangeOf(item);
    if chaosValue <= 0.0 {
      return None;
    }
    var itemType;
    if item in pools.currencies {
      itemType := CurrencyItem;
    } else if item in pools.fragments {
      itemType := FragmentItem;
    } else if item in pools.scarabs {
      itemType := ScarabItem;
    } else if item in pools.oils {
      itemType := OilItem;
    } else {
      itemType := OtherItem;
    }
    var rating := InvestmentRating(chaosValue, priceChange, VolumeOf(item));
    if rating > 60.0 {
      var strategy := InvestAdvice(name, priceChange, chaosValue);
      o := Some(Investment(itemType, name, chaosValue, priceChange, rating, strategy, LeagueOf(item)));
    } else {
      o := None;
    }
  }

  method AnalyzeInvestmentOpportunities(marketData: Snapshot) returns (r: seq<Opportunity>)
    ensures r == InvestmentSpec(marketData)
  {
    var pools := PoolsOf(marketData);
    var allItems := pools.currencies + pools.fragments + pools.scarabs + pools.oils;
    var itemsWithHistory := WithHistory(allItems);
    var found := [];
    for i := 0 to |itemsWithHistory|
      invariant found == Collect(itemsWithHistory[..i], InvestFn(pools))
    {
      var item := itemsWithHistory[i];
      assert itemsWithHistory[..i + 1] == itemsWithHistory[..i] + [item];
      CollectSnoc(itemsWithHistory[..i], item, InvestFn(pools));
      var opportunity := RateRecord(pools, item);
      if opportunity.Some? {
        found := found + [opportunity.value];
      }
    }
    assert itemsWithHistory[..|itemsWithHistory|] == itemsWithHistory;
    r := Take(SortDesc(found, RatingKey), 20);
  }

  /**
   * The investment list: at most 20 long, sorted by rating, every entry rated above 60 and
   * built from a record of the four lists that has a trend and a positive value and is never
   * labelled "Other"; all candidates are kept when no more than 20 qualify, and among equal
   * ratings the list keeps the order of the four lists.
   */
  lemma InvestmentProperties(marketData: Snapshot)
    ensures |InvestmentSpec(marketData)| <= 20
    ensures SortedDesc(InvestmentSpec(marketData), RatingKey)
    ensures forall o :: o in InvestmentSpec(marketData) ==>
      o.Investment? && o.rating > 60.0 && o.category != OtherItem &&
      exists x :: x in AllItems(PoolsOf(marketData)) && HasHistory(x) && ChaosOf(x) > 0.0 &&
                  InvestOf(PoolsOf(marketData), x) == Some(o)
    ensures |InvestmentCandidates(PoolsOf(marketData))| <= 20 ==>
      multiset(InvestmentSpec(marketData)) == multiset(InvestmentCandidates(PoolsOf(marketData)))
    ensures forall k :: WithKey(InvestmentSpec(marketData), RatingKey, k) <=
                        WithKey(InvestmentCandidates(PoolsOf(marketData)), RatingKey, k)
  {
    var p := PoolsOf(marketData);
    var all := InvestmentCandidates(p);
    TopN(all, 20, RatingKey);
    forall o | o in InvestmentSpec(marketData)
      ensures o.Investment? && o.rating > 60.0 && o.category != OtherItem
      ensures exists x :: x in AllItems(p) && HasHistory(x) && ChaosOf(x) > 0.0 && InvestOf(p, x) == Some(o)
    {
      assert o in all;
      var h := WithHistory(AllItems(p));
      CollectMember(h, InvestFn(p), o);
      var i :| 0 <= i < |h| && InvestFn(p)(h[i]) == Some(o);
      var x := h[i];
      WithHistoryMember(AllItems(p), x);
      InvestOfCondition(p, x);
      CategoryOfPooled(p, x);
    }
  }

  /**
   * A currency worth 100 chaos, rising 15 % on a volume of 250, is rated 67.5 and worded as a
   * short-term investment.
   */
  lemma RisingCurrencyExample()
    ensures var x := NoKeys.(name := Some("Divine Orb"), chaosValue := Some(100.0),
                             receiveChange := Some(15.0), tradeVolume := Some(250.0));
      InvestOf(Pools([x], [], [], []), x) ==
        Some(Investment(CurrencyItem, "Divine Orb", 100.0, 15.0, 67.5,
                        ShortTermAdvice("Divine Orb", 15.0, 100.0), Config.PrimaryLeague))
  {
    InvestmentRatingExampleRising();
  }

  /** A record worth 3 chaos changing 1 % with no volume is rated 55.5 and left out. */
  lemma CheapItemExample()
    ensures var y := NoKeys.(name := Some("Scrap"), chaosValue := Some(3.0), priceChange := Some(1.0));
      RatingOf(y) == 55.5 && InvestOf(Pools([], [], [], [y]), y) == None
  {
    InvestmentRatingExampleCheap();
  }
}
