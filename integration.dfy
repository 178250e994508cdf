/**
 * League integration (data_integration.py, class `DataIntegration`): each primary-league record
 * is joined by name with the historical-league record of the same name, gaining the old value,
 * the relative change, a trend label and the larger volatility; divination cards also gain
 * their farming locations from the reference data.
 */
module Integration {
  import opened Wrappers
  import opened Config
  import opened Market
  import opened Seqs

  /** A reference entry for one divination card; its `farming_locations` key may be missing. */
  datatype CardReference = CardReference(farmingLocations: Option<seq<string>>)

  /** The placeholder returned for a card the reference data does not know. */
  const DefaultCardLocations: seq<string> := ["Check PoE Wiki for specific farming locations"]

  /** `get_divination_card_locations(card_name)` over the reference data's card map. */
  function CardLocations(cards: map<string, CardReference>, cardName: string): (r: seq<string>)
    ensures cardName in cards ==> r == cards[cardName].farmingLocations.GetOr([])
    ensures cardName !in cards ==> r == DefaultCardLocations
  {
    if cardName in cards then cards[cardName].farmingLocations.GetOr([]) else DefaultCardLocations
  }

  // -------------------------------------------------------------- name index

  /** `{c['name']: c for c in records if 'name' in c}`: later records overwrite earlier ones. */
  function ByName(records: seq<Item>): map<string, Item> {
    if records == [] then map[]
    else
      var last := records[|records| - 1];
      var prefix := ByName(records[..|records| - 1]);
      if last.name.Some? then prefix[last.name.value := last] else prefix
  }

  /** `j` is the last position of a record named `name`. */
  predicate LastNamed(records: seq<Item>, name: string, j: int) {
    0 <= j < |records| && records[j].name == Some(name) &&
    forall k :: j < k < |records| ==> records[k].name != Some(name)
  }

  /**
   * A name is indexed exactly when some record carries it, and it maps to the last record that
   * carries it.
   */
  lemma {:induction false} ByNameSpec(records: seq<Item>, name: string)
    ensures name in ByName(records) <==> exists j :: 0 <= j < |records| && records[j].name == Some(name)
    ensures name in ByName(records) ==>
      exists j :: LastNamed(records, name, j) && ByName(records)[name] == records[j]
  {
    if records != [] {
      var n := |records| - 1;
      var prefix := records[..n];
      ByNameSpec(prefix, name);
      if records[n].name == Some(name) {
        assert LastNamed(records, name, n);
      } else {
        assert forall j :: 0 <= j < n ==> prefix[j] == records[j];
        if name in ByName(records) {
          var j :| LastNamed(prefix, name, j) && ByName(prefix)[name] == prefix[j];
          assert LastNamed(records, name, j);
        }
      }
    }
  }

  // ------------------------------------------------------------------ joining

  /** Relative change in percent against the historical value; 0 when that is not positive. */
  function HistoricalChange(current: real, historical: real): (r: real)
    ensures historical > 0.0 ==> r * historical == (current - historical) * 100.0
    ensures historical <= 0.0 ==> r == 0.0
  {
    if historical > 0.0 then ((current - historical) / historical) * 100.0 else 0.0
  }

  /** The trend label: rising above 10 %, falling below -10 %, otherwise stable. */
  function TrendOf(change: real): (r: Trend)
    ensures r == Rising <==> change > 10.0
    ensures r == Falling <==> change < -10.0
    ensures r == Stable <==> -10.0 <= change <= 10.0
  {
    if change > 10.0 then Rising else if change < -10.0 then Falling else Stable
  }

  function Max(a: real, b: real): (r: real)
    ensures r >= a && r >= b && (r == a || r == b)
  {
    if a >= b then a else b
  }

  /** A primary record joined with its historical counterpart. */
  function Joined(current: Item, historical: Item): Item {
    var historicalValue := ChaosOf(historical);
    var change := HistoricalChange(ChaosOf(current), historicalValue);
    current.(historicalValue := Some(historicalValue), historicalChange := Some(change),
             priceTrend := Some(TrendOf(change)),
             volatility := Some(Max(current.volatility.GetOr(0.0), historical.volatility.GetOr(0.0))))
  }

  /**
   * The join sets the historical value, the change, the trend and the larger volatility, and
   * leaves every other key of the primary record as it was.
   */
  lemma JoinedFields(current: Item, historical: Item)
    ensures var j := Joined(current, historical);
      && j.historicalValue == Some(ChaosOf(historical))
      && j.historicalChange == Some(HistoricalChange(ChaosOf(current), ChaosOf(historical)))
      && j.priceTrend == Some(TrendOf(HistoricalChange(ChaosOf(current), ChaosOf(historical))))
      && j.volatility.Some?
      && j.volatility.value >= current.volatility.GetOr(0.0)
      && j.volatility.value >= historical.volatility.GetOr(0.0)
      && j.(historicalValue := current.historicalValue, historicalChange := current.historicalChange,
            priceTrend := current.priceTrend, volatility := current.volatility) == current
  {
  }

  /** Whether the list being integrated is an item list, whose cards gain farming locations. */
  datatype ListKind = CurrencyList | ItemList

  /** What the loop appends for one primary record, if it has a name. */
  function Integrated(cards: map<string, CardReference>, kind: ListKind, index: map<string, Item>,
                      item: Item): Option<Item> {
    if item.name.None? then None
    else
      var name := item.name.value;
      var joined := if name in index then Joined(item, index[name]) else item;
      if kind == ItemList && item.itemType == Some(DivinationCardType) then
        Some(joined.(farmingLocations := Some(CardLocations(cards, name))))
      else Some(joined)
  }

  function IntegratedFn(cards: map<string, CardReference>, kind: ListKind, index: map<string, Item>): Item -> Option<Item> {
    item => Integrated(cards, kind, index, item)
  }

  /** `integrate_currencies` / `integrate_items` as a value. */
  function IntegrateSpec(cards: map<string, CardReference>, kind: ListKind, primary: seq<Item>,
                         historical: seq<Item>): seq<Item> {
    Collect(primary, IntegratedFn(cards, kind, ByName(historical)))
  }

  function KeepNamed(item: Item): Option<Item> {
    if item.name.Some? then Some(item) else None
  }

  /** The primary records that have a name, in their order. */
  function Named(primary: seq<Item>): seq<Item> {
    Collect(primary, KeepNamed)
  }

  /**
   * The integrated list corresponds one to one, in order, to the named primary records: entry
   * `i` is what named record `i` becomes.
   */
  lemma {:induction false} IntegrateAligned(cards: map<string, CardReference>, kind: ListKind,
                                            primary: seq<Item>, historical: seq<Item>)
    ensures |IntegrateSpec(cards, kind, primary, historical)| == |Named(primary)|
    ensures forall i :: 0 <= i < |Named(primary)| ==>
      Integrated(cards, kind, ByName(historical), Named(primary)[i]) ==
        Some(IntegrateSpec(cards, kind, primary, historical)[i])
  {
    if primary != [] {
      var p := primary[..|primary| - 1];
      var x := primary[|primary| - 1];
      IntegrateAligned(cards, kind, p, historical);
      var f := IntegratedFn(cards, kind, ByName(historical));
      assert IntegrateSpec(cards, kind, primary, historical) == Collect(p, f) + Emit(f(x));
      assert Named(primary) == Named(p) + Emit(KeepNamed(x));
    }
  }

  /**
   * An unmatched record is copied unchanged, except that a divination card of an item list
   * gains its farming locations.
   */
  lemma UnmatchedCopied(cards: map<string, CardReference>, kind: ListKind, index: map<string, Item>, item: Item)
    requires item.name.Some? && item.name.value !in index
    ensures kind == ItemList && item.itemType == Some(DivinationCardType) ==>
      Integrated(cards, kind, index, item) ==
        Some(item.(farmingLocations := Some(CardLocations(cards, item.name.value))))
    ensures !(kind == ItemList && item.itemType == Some(DivinationCardType)) ==>
      Integrated(cards, kind, index, item) == Some(item)
  {
  }

  /**
   * The integrated list: no longer than the primary list, one entry per named primary record in
   * primary order, each carrying the name of a primary record, and a record named only in the
   * historical list never appears.
   */
  lemma IntegrateProperties(cards: map<string, CardReference>, kind: ListKind, primary: seq<Item>,
                            historical: seq<Item>)
    ensures |IntegrateSpec(cards, kind, primary, historical)| == |Named(primary)| <= |primary|
    ensures forall i :: 0 <= i < |IntegrateSpec(cards, kind, primary, historical)| ==>
      IntegrateSpec(cards, kind, primary, historical)[i].name == Named(primary)[i].name
    ensures forall o :: o in IntegrateSpec(cards, kind, primary, historical) ==>
      o.name.Some? && exists x :: x in primary && x.name == o.name
  {
    var r := IntegrateSpec(cards, kind, primary, historical);
    var named := Named(primary);
    IntegrateAligned(cards, kind, primary, historical);
    forall i | 0 <= i < |r| ensures r[i].name == named[i].name && named[i].name.Some? && named[i] in primary {
      CollectMember(primary, KeepNamed, named[i]);
    }
    forall o | o in r ensures o.name.Some? && exists x :: x in primary && x.name == o.name {
      var i :| 0 <= i < |r| && r[i] == o;
      assert named[i] in primary && named[i].name == o.name;
    }
  }

  // ------------------------------------------------------------- whole market

  /** Market data keyed by league: `market_data.get(league, {})`. */
  function League(marketData: map<string, Snapshot>, league: string): Snapshot {
    if league in marketData then marketData[league] else map[]
  }

  /** The integrated data: one list per category of the market snapshot, and a timestamp. */
  datatype IntegratedData = IntegratedData(
    currencies: seq<Item>, fragments: seq<Item>, oils: seq<Item>, incubators: seq<Item>,
    artifacts: seq<Item>, divinationCards: seq<Item>, scarabs: seq<Item>, timestamp: string)

  /** No data for any category. */
  function EmptyData(now: string): IntegratedData {
    IntegratedData([], [], [], [], [], [], [], now)
  }

  /** One category of the two leagues integrated. */
  function CategorySpec(cards: map<string, CardReference>, kind: ListKind, primary: Snapshot,
                        historical: Snapshot, key: string): seq<Item> {
    IntegrateSpec(cards, kind, Category(primary, key), Category(historical, key))
  }

  /**
   * `integrate_data(market_data)` as a value, the clock read being `now`: currencies are
   * integrated as currencies, the six other categories as items.
   */
  function IntegrateDataSpec(cards: map<string, CardReference>, marketData: map<string, Snapshot>,
                             now: string): IntegratedData {
    var p := League(marketData, PrimaryLeague);
    var h := League(marketData, HistoricalLeague);
    IntegratedData(CategorySpec(cards, CurrencyList, p, h, "currencies"),
                   CategorySpec(cards, ItemList, p, h, "fragments"),
                   CategorySpec(cards, ItemList, p, h, "oils"),
                   CategorySpec(cards, ItemList, p, h, "incubators"),
                   CategorySpec(cards, ItemList, p, h, "artifacts"),
                   CategorySpec(cards, ItemList, p, h, "divination_cards"),
                   CategorySpec(cards, ItemList, p, h, "scarabs"),
                   now)
  }

  /**
   * A category missing from the primary league's data integrates to the empty list, and
   * without any primary-league data the result is the empty structure.
   */
  lemma IntegrateDataMissing(cards: map<string, CardReference>, marketData: map<string, Snapshot>,
                             now: string, key: string)
    ensures key !in League(marketData, PrimaryLeague) ==>
      CategorySpec(cards, CurrencyList, League(marketData, PrimaryLeague), League(marketData, HistoricalLeague), key) == [] &&
      CategorySpec(cards, ItemList, League(marketData, PrimaryLeague), League(marketData, HistoricalLeague), key) == []
    ensures PrimaryLeague !in marketData ==> IntegrateDataSpec(cards, marketData, now) == EmptyData(now)
  {
  }

  class DataIntegration {
    /** The reference data's divination-card map (loaded from disk by the original). */
    const referenceCards: map<string, CardReference>

    constructor(referenceCards: map<string, CardReference>)
      ensures this.referenceCards == referenceCards
    {
      this.referenceCards := referenceCards;
    }

    /** The body of the integration loop for one record: skipped when it has no name. */
    method IntegrateRecord(kind: ListKind, historicalByName: map<string, Item>, item: Item)
      returns (o: Option<Item>)
      ensures o == Integrated(referenceCards, kind, historicalByName, item)
    {
      if item.name.None? {
        return None;
      }
      var name := item.name.value;
      var integrated := item;
      if name in historicalByName {
        var historical := historicalByName[name];
        var currentValue := ChaosOf(item);
        var historicalValue := ChaosOf(historical);
        var historicalChange := HistoricalChange(currentValue, historicalValue);
        integrated := integrated.(historicalValue := Some(historicalValue),
                                  historicalChange := Some(historicalChange));
        integrated := integrated.(priceTrend := Some(TrendOf(historicalChange)));
        var currentVolatility := item.volatility.GetOr(0.0);
        var historicalVolatility := historical.volatility.GetOr(0.0);
        integrated := integrated.(volatility := Some(Max(currentVolatility, historicalVolatility)));
      }
      if kind == ItemList && item.itemType == Some(DivinationCardType) {
        integrated := integrated.(farmingLocations := Some(CardLocations(referenceCards, name)));
      }
      o := Some(integrated);
    }

    /** The loop shared by `integrate_currencies` and `integrate_items`. */
    method IntegrateList(kind: ListKind, primary: seq<Item>, historical: seq<Item>) returns (r: seq<Item>)
      ensures r == IntegrateSpec(referenceCards, kind, primary, historical)
    {
      var historicalByName := ByName(historical);
      r := IntegrateEach(kind, historicalByName, primary);
    }

    /** The loop over the primary records once the historical records are indexed by name. */
    method IntegrateEach(kind: ListKind, historicalByName: map<string, Item>, primary: seq<Item>)
      returns (r: seq<Item>)
      ensures r == Collect(primary, IntegratedFn(referenceCards, kind, historicalByName))
    {
      r := [];
      for i := 0 to |primary|
        invariant r == Collect(primary[..i], IntegratedFn(referenceCards, kind, historicalByName))
      {
        var item := primary[i];
        assert primary[..i + 1] == primary[..i] + [item];
        CollectSnoc(primary[..i], item, IntegratedFn(referenceCards, kind, historicalByName));
        var integrated := IntegrateRecord(kind, historicalByName, item);
        if integrated.Some? {
          r := r + [integrated.value];
        }
      }
      assert primary[..|primary|] == primary;
    }

    method IntegrateCurrencies(primary: seq<Item>, historical: seq<Item>) returns (r: seq<Item>)
      ensures r == IntegrateSpec(referenceCards, CurrencyList, primary, historical)
    {
      r := IntegrateList(CurrencyList, primary, historical);
    }

    method IntegrateItems(primary: seq<Item>, historical: seq<Item>) returns (r: seq<Item>)
      ensures r == IntegrateSpec(referenceCards, ItemList, primary, historical)
    {
      r := IntegrateList(ItemList, primary, historical);
    }

    /** `integrate_data(market_data)`: the result is filled one category at a time. */
    method IntegrateData(marketData: map<string, Snapshot>, now: string) returns (r: IntegratedData)
      ensures r == IntegrateDataSpec(referenceCards, marketData, now)
    {
      r := EmptyData(now);
      var primary := League(marketData, PrimaryLeague);
      var historical := League(marketData, HistoricalLeague);
      var list := IntegrateCurrencies(Category(primary, "currencies"), Category(historical, "currencies"));
      r := r.(currencies := list);
      list := IntegrateItems(Category(primary, "fragments"), Category(historical, "fragments"));
      r := r.(fragments := list);
      list := IntegrateItems(Category(primary, "oils"), Category(historical, "oils"));
      r := r.(oils := list);
      list := IntegrateItems(Category(primary, "scarabs"), Category(historical, "scarabs"));
      r := r.(scarabs := list);
      list := IntegrateItems(Category(primary, "incubators"), Category(historical, "incubators"));
      r := r.(incubators := list);
      list := IntegrateItems(Category(primary, "artifacts"), Category(historical, "artifacts"));
      r := r.(artifacts := list);
      list := IntegrateItems(Category(primary, "divination_cards"), Category(historical, "divination_cards"));
      r := r.(divinationCards := list);
    }
  }
}
