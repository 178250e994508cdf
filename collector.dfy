/**
 * Record normalisation in the market-data collector (data_collector.py): how one line of a
 * price-feed response becomes a currency or item record, with defaults for missing keys and
 * extra keys for scarabs and divination cards. Fetching the response is not modelled; the
 * parsed response lines are the input.
 */
module Collector {
  import opened Wrappers
  import opened Config
  import opened Market
  import opened Seqs
  import Scoring

  /** A price-history object (`sparkline`, `receiveSparkLine`, ...), of which only the total counts. */
  datatype Sparkline = Sparkline(totalChange: Option<real>)

  /** The `receive` object of a currency line. */
  datatype Receive = Receive(count: Option<real>)

  /** One line of a currency-overview response. */
  datatype CurrencyLine = CurrencyLine(
    currencyTypeName: Option<string>, chaosEquivalent: Option<real>, receive: Option<Receive>,
    receiveSparkLine: Option<Sparkline>, paySparkLine: Option<Sparkline>, detailsId: Option<string>)

  /** An explicit modifier: a dictionary, whose `text` key may be missing, or anything else. */
  datatype Modifier = ModifierDict(text: Option<string>) | NotADict

  /** One line of an item-overview response. */
  datatype ItemLine = ItemLine(
    name: Option<string>, baseType: Option<string>, chaosValue: Option<real>,
    exaltedValue: Option<real>, divineValue: Option<real>, count: Option<real>,
    sparkline: Option<Sparkline>, detailsId: Option<string>,
    explicitModifiers: Option<seq<Modifier>>, stackSize: Option<int>, levelRequired: Option<int>,
    links: Option<int>, gemQuality: Option<int>, corrupted: Option<bool>)

  /** `line.get(key, {}).get('totalChange')` */
  function TotalChange(s: Option<Sparkline>): Option<real> {
    if s.Some? then s.value.totalChange else None
  }

  function Abs(x: real): real { if x < 0.0 then -x else x }

  /** `abs(total) / 100` when the total is present, else 0. */
  function VolatilityOf(s: Option<Sparkline>): (r: real)
    ensures r >= 0.0
    ensures TotalChange(s).Some? ==> r * 100.0 == Abs(TotalChange(s).value)
    ensures TotalChange(s).None? ==> r == 0.0
  {
    if TotalChange(s).Some? then Abs(TotalChange(s).value) / 100.0 else 0.0
  }

  // ------------------------------------------------------------ currencies

  /**
   * The record `_fetch_currency_data` builds from one line. It always has a trade volume, a
   * receive and pay change (0 when the line lacks them) and the volatility of the receive
   * history; it carries the line's name, value and id, the requested type and the league, and
   * no item-only key.
   */
  function CurrencyRecord(line: CurrencyLine, currencyType: string, league: string, now: string): (r: Item)
    ensures r.name == line.currencyTypeName && r.chaosValue == line.chaosEquivalent
    ensures r.tradeVolume.Some? && (line.receive.None? || line.receive.value.count.None? ==> r.tradeVolume.value == 0.0)
    ensures r.receiveChange.Some? && (TotalChange(line.receiveSparkLine).None? ==> r.receiveChange.value == 0.0)
    ensures r.payChange.Some? && (TotalChange(line.paySparkLine).None? ==> r.payChange.value == 0.0)
    ensures r.volatility == Some(VolatilityOf(line.receiveSparkLine))
    ensures r.volatility.value * 100.0 == Abs(r.receiveChange.value)
    ensures r.currencyType == Some(currencyType) && r.league == Some(league)
    ensures r.itemType.None? && r.effect.None? && r.farmingLocations.None? && r.investmentRating.None?
  {
    NoKeys.(name := line.currencyTypeName, chaosValue := line.chaosEquivalent,
            tradeVolume := Some(if line.receive.Some? then line.receive.value.count.GetOr(0.0) else 0.0),
            receiveChange := Some(TotalChange(line.receiveSparkLine).GetOr(0.0)),
            payChange := Some(TotalChange(line.paySparkLine).GetOr(0.0)),
            volatility := Some(VolatilityOf(line.receiveSparkLine)),
            detailsId := line.detailsId, currencyType := Some(currencyType),
            league := Some(league), timestamp := Some(now))
  }

  function CurrencyFn(currencyType: string, league: string, now: string): CurrencyLine -> Option<Item> {
    line => Some(CurrencyRecord(line, currencyType, league, now))
  }

  /** The records of a currency response, `data.get('lines', [])` being `lines`. */
  function CurrencyRecords(lines: Option<seq<CurrencyLine>>, currencyType: string, league: string,
                           now: string): seq<Item> {
    Collect(lines.GetOr([]), CurrencyFn(currencyType, league, now))
  }

  /** The loop of `_fetch_currency_data` after the response has been parsed. */
  method ProcessCurrencyLines(lines: Option<seq<CurrencyLine>>, currencyType: string, league: string,
                              now: string) returns (currencies: seq<Item>)
    ensures currencies == CurrencyRecords(lines, currencyType, league, now)
  {
    var all := lines.GetOr([]);
    var f := CurrencyFn(currencyType, league, now);
    currencies := [];
    for i := 0 to |all|
      invariant currencies == Collect(all[..i], f)
    {
      assert all[..i + 1] == all[..i] + [all[i]];
      CollectSnoc(all[..i], all[i], f);
      var currency := CurrencyRecord(all[i], currencyType, league, now);
      currencies := currencies + [currency];
    }
    assert all[..|all|] == all;
  }

  /** One currency record per line, in line order; no lines at all gives no records. */
  lemma CurrencyRecordsAligned(lines: Option<seq<CurrencyLine>>, currencyType: string, league: string, now: string)
    ensures |CurrencyRecords(lines, currencyType, league, now)| == |lines.GetOr([])|
    ensures forall i :: 0 <= i < |lines.GetOr([])| ==>
      CurrencyRecords(lines, currencyType, league, now)[i] == CurrencyRecord(lines.GetOr([])[i], currencyType, league, now)
  {
    CollectTotal(lines.GetOr([]), CurrencyFn(currencyType, league, now));
  }

  // ----------------------------------------------------------------- items

  const UnknownEffect: string := "Unknown effect"

  /** The placeholder every divination card record gets (`_get_divination_card_locations`). */
  const CardPlaceholder: seq<string> := ["Check PoE Wiki for specific farming locations"]

  /** `_get_divination_card_locations(card_name)`: the placeholder, whatever the name. */
  function DivinationCardLocations(cardName: Option<string>): (r: seq<string>)
    ensures r == CardPlaceholder
  {
    CardPlaceholder
  }

  /** The `text` of the first modifier that is a dictionary with a `text` key, if any. */
  function FirstText(modifiers: seq<Modifier>): (r: Option<string>)
    ensures r.Some? ==> exists i :: 0 <= i < |modifiers| && HasText(modifiers[i]) && r == modifiers[i].text
  {
    if modifiers == [] then None
    else if modifiers[0].ModifierDict? && modifiers[0].text.Some? then modifiers[0].text
    else
      var rest := modifiers[1..];
      var r := FirstText(rest);
      assert r.Some? ==> exists i :: 0 <= i < |modifiers| && HasText(modifiers[i]) && r == modifiers[i].text by {
        if r.Some? {
          var k :| 0 <= k < |rest| && HasText(rest[k]) && r == rest[k].text;
          assert rest[k] == modifiers[k + 1];
        }
      }
      r
  }

  /**
   * `_extract_scarab_effect(modifiers)` as a value: "Unknown effect", or the text of one of
   * the modifiers (which one is stated by `ScarabEffectFirst`).
   */
  function ScarabEffect(modifiers: seq<Modifier>): (r: string)
    ensures r == UnknownEffect || exists i :: 0 <= i < |modifiers| && HasText(modifiers[i]) && r == modifiers[i].text.value
  {
    FirstText(modifiers).GetOr(UnknownEffect)
  }

  predicate HasText(m: Modifier) { m.ModifierDict? && m.text.Some? }

  /** The effect is "Unknown effect" when no modifier qualifies, in particular for no modifiers. */
  lemma {:induction false} ScarabEffectUnknown(modifiers: seq<Modifier>)
    requires forall i :: 0 <= i < |modifiers| ==> !HasText(modifiers[i])
    ensures ScarabEffect(modifiers) == UnknownEffect
  {
    if modifiers != [] {
      assert forall i :: 0 <= i < |modifiers| - 1 ==> modifiers[1..][i] == modifiers[i + 1];
      ScarabEffectUnknown(modifiers[1..]);
    }
  }

  /** The effect is the text of the first modifier that qualifies. */
  lemma {:induction false} ScarabEffectFirst(modifiers: seq<Modifier>, i: nat)
    requires i < |modifiers| && HasText(modifiers[i])
    requires forall j :: 0 <= j < i ==> !HasText(modifiers[j])
    ensures ScarabEffect(modifiers) == modifiers[i].text.value
  {
    if i > 0 {
      var rest := modifiers[1..];
      assert forall j :: 0 <= j < i - 1 ==> rest[j] == modifiers[j + 1];
      assert rest[i - 1] == modifiers[i];
      ScarabEffectFirst(rest, i - 1);
    }
  }

  /** `_extract_scarab_effect(modifiers)`: the first-match loop with its early returns. */
  method ExtractScarabEffect(modifiers: seq<Modifier>) returns (effect: string)
    ensures effect == ScarabEffect(modifiers)
  {
    if modifiers == [] {
      return UnknownEffect;
    }
    for i := 0 to |modifiers|
      invariant FirstText(modifiers) == FirstText(modifiers[i..])
    {
      var modifier := modifiers[i];
      if modifier.ModifierDict? && modifier.text.Some? {
        return modifier.text.value;
      }
      assert modifiers[i..][1..] == modifiers[i + 1..];
    }
    return UnknownEffect;
  }

  /**
   * `_calculate_investment_rating(price, price_change, volume)`, written as the collector writes
   * it with Python's `max` and `min` (each returns its first argument on a tie).
   */
  function CollectorRating(price: real, priceChange: real, volume: real): real {
    var priceFactor := var q := 50.0 / (if price > 1.0 then price else 1.0); if q < 1.0 then q else 1.0;
    var changeFactor := priceChange / 100.0 + 0.5;
    var volumeFactor := var v := volume / 200.0; if v < 1.0 then v else 1.0;
    Scoring.Round1((priceFactor * 0.3 + changeFactor * 0.5 + volumeFactor * 0.2) * 100.0)
  }

  /** The collector's rating is the engine's investment rating, for every input. */
  lemma CollectorRatingIsEngineRating(price: real, priceChange: real, volume: real)
    ensures CollectorRating(price, priceChange, volume) == Scoring.InvestmentRating(price, priceChange, volume)
  {
    assert (if price > 1.0 then price else 1.0) == Scoring.AtLeast1(price);
  }

  /** The record `_fetch_item_data` builds from one line, before the extra keys. */
  function BaseItemRecord(line: ItemLine, itemType: string, league: string, now: string): Item {
    NoKeys.(name := line.name, baseType := line.baseType, itemType := Some(itemType),
            chaosValue := line.chaosValue, exaltedValue := line.exaltedValue,
            divineValue := line.divineValue, tradeVolume := Some(line.count.GetOr(0.0)),
            priceChange := Some(TotalChange(line.sparkline).GetOr(0.0)),
            volatility := Some(VolatilityOf(line.sparkline)), detailsId := line.detailsId,
            league := Some(league), timestamp := Some(now))
  }

  /**
   * The finished item record: base keys, then the card, scarab and optional line keys. Only
   * scarab records get an effect and an investment rating (the engine's formula on the line's
   * value, change and count), only divination card records get farming locations (the
   * placeholder), the optional keys are present exactly when the line has them, and the trade
   * volume, price change and volatility follow the line with defaults 0.
   */
  function ItemRecord(line: ItemLine, itemType: string, league: string, now: string): (r: Item)
    ensures r.name == line.name && r.chaosValue == line.chaosValue && r.itemType == Some(itemType)
    ensures r.tradeVolume == Some(line.count.GetOr(0.0))
    ensures r.priceChange == Some(TotalChange(line.sparkline).GetOr(0.0))
    ensures r.volatility == Some(VolatilityOf(line.sparkline))
    ensures r.effect.Some? <==> itemType == ScarabType
    ensures r.investmentRating.Some? <==> itemType == ScarabType
    ensures itemType == ScarabType ==>
      r.effect.value == ScarabEffect(line.explicitModifiers.GetOr([])) &&
      r.investmentRating.value == Scoring.InvestmentRating(line.chaosValue.GetOr(0.0),
                                                           TotalChange(line.sparkline).GetOr(0.0),
                                                           line.count.GetOr(0.0))
    ensures r.farmingLocations.Some? <==> itemType == DivinationCardType
    ensures itemType == DivinationCardType ==> r.farmingLocations.value == CardPlaceholder
    ensures (r.stackSize.Some? <==> line.stackSize.Some?) && (r.level.Some? <==> line.levelRequired.Some?)
    ensures (r.links.Some? <==> line.links.Some?) && (r.quality.Some? <==> line.gemQuality.Some?)
    ensures r.corrupted.Some? <==> line.corrupted.Some?
    ensures r.receiveChange.None? && r.currencyType.None?
  {
    CollectorRatingIsEngineRating(line.chaosValue.GetOr(0.0), TotalChange(line.sparkline).GetOr(0.0),
                                  line.count.GetOr(0.0));
    var base := BaseItemRecord(line, itemType, league, now);
    var withCard := if itemType == DivinationCardType
                    then base.(farmingLocations := Some(DivinationCardLocations(line.name))) else base;
    var withScarab := if itemType == ScarabType
                      then withCard.(effect := Some(ScarabEffect(line.explicitModifiers.GetOr([]))),
                                     investmentRating := Some(CollectorRating(line.chaosValue.GetOr(0.0),
                                                                              TotalChange(line.sparkline).GetOr(0.0),
                                                                              line.count.GetOr(0.0))))
                      else withCard;
    withScarab.(stackSize := line.stackSize, level := line.levelRequired, links := line.links,
                quality := line.gemQuality, corrupted := line.corrupted)
  }

  /** The body of `_fetch_item_data`'s loop: the record is built, then keys are added to it. */
  method BuildItemRecord(line: ItemLine, itemType: string, league: string, now: string) returns (item: Item)
    ensures item == ItemRecord(line, itemType, league, now)
  {
    item := BaseItemRecord(line, itemType, league, now);
    if itemType == DivinationCardType {
      item := item.(farmingLocations := Some(DivinationCardLocations(line.name)));
    }
    if itemType == ScarabType {
      var effect := ExtractScarabEffect(line.explicitModifiers.GetOr([]));
      item := item.(effect := Some(effect));
      item := item.(investmentRating := Some(CollectorRating(line.chaosValue.GetOr(0.0),
                                                             TotalChange(line.sparkline).GetOr(0.0),
                                                             line.count.GetOr(0.0))));
    }
    if line.stackSize.Some? {
      item := item.(stackSize := line.stackSize);
    }
    if line.levelRequired.Some? {
      item := item.(level := line.levelRequired);
    }
    if line.links.Some? {
      item := item.(links := line.links);
    }
    if line.gemQuality.Some? {
      item := item.(quality := line.gemQuality);
    }
    if line.corrupted.Some? {
      item := item.(corrupted := line.corrupted);
    }
  }

  function ItemFn(itemType: string, league: string, now: string): ItemLine -> Option<Item> {
    line => Some(ItemRecord(line, itemType, league, now))
  }

  /** The records of an item response, `data.get('lines', [])` being `lines`. */
  function ItemRecords(lines: Option<seq<ItemLine>>, itemType: string, league: string, now: string): seq<Item> {
    Collect(lines.GetOr([]), ItemFn(itemType, league, now))
  }

  /** The loop of `_fetch_item_data` after the response has been parsed. */
  method ProcessItemLines(lines: Option<seq<ItemLine>>, itemType: string, league: string, now: string)
    returns (items: seq<Item>)
    ensures items == ItemRecords(lines, itemType, league, now)
  {
    var all := lines.GetOr([]);
    var f := ItemFn(itemType, league, now);
    items := [];
    for i := 0 to |all|
      invariant items == Collect(all[..i], f)
    {
      assert all[..i + 1] == all[..i] + [all[i]];
      CollectSnoc(all[..i], all[i], f);
      var item := BuildItemRecord(all[i], itemType, league, now);
      items := items + [item];
    }
    assert all[..|all|] == all;
  }

  /** One item record per line, in line order. */
  lemma ItemRecordsAligned(lines: Option<seq<ItemLine>>, itemType: string, league: string, now: string)
    ensures |ItemRecords(lines, itemType, league, now)| == |lines.GetOr([])|
    ensures forall i :: 0 <= i < |lines.GetOr([])| ==>
      ItemRecords(lines, itemType, league, now)[i] == ItemRecord(lines.GetOr([])[i], itemType, league, now)
  {
    CollectTotal(lines.GetOr([]), ItemFn(itemType, league, now));
  }
}
