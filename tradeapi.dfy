/**
 * The two sequence computations inside the trade-site client (poe_api.py): averaging the
 * exchange rate of a list of bulk-exchange listings with a two-standard-deviation outlier
 * filter, and summarising the listed prices of an item search per currency. The HTTP requests
 * are not modelled; their parsed responses are the inputs.
 */
module TradeApi {
  import opened Wrappers
  import opened Seqs

  // ------------------------------------------------------------ arithmetic on lists of reals

  function Sum(s: seq<real>): real {
    if s == [] then 0.0 else Sum(s[..|s| - 1]) + s[|s| - 1]
  }

  /** `sum(s) / len(s)` */
  function Mean(s: seq<real>): real
    requires |s| > 0
  {
    Sum(s) / (|s| as real)
  }

  /** `min(s)` */
  function Min(s: seq<real>): (r: real)
    requires |s| > 0
    ensures r in s
    ensures forall i :: 0 <= i < |s| ==> r <= s[i]
  {
    if |s| == 1 then s[0]
    else
      var m := Min(s[..|s| - 1]);
      assert forall i :: 0 <= i < |s| - 1 ==> s[..|s| - 1][i] == s[i];
      if s[|s| - 1] < m then s[|s| - 1] else m
  }

  /** `max(s)` */
  function Max(s: seq<real>): (r: real)
    requires |s| > 0
    ensures r in s
    ensures forall i :: 0 <= i < |s| ==> s[i] <= r
  {
    if |s| == 1 then s[0]
    else
      var m := Max(s[..|s| - 1]);
      assert forall i :: 0 <= i < |s| - 1 ==> s[..|s| - 1][i] == s[i];
      if s[|s| - 1] > m then s[|s| - 1] else m
  }

  /** A sum lies between the length times a lower and times an upper bound of the elements. */
  lemma {:induction false} SumBounds(s: seq<real>, lo: real, hi: real)
    requires forall i :: 0 <= i < |s| ==> lo <= s[i] <= hi
    ensures (|s| as real) * lo <= Sum(s) <= (|s| as real) * hi
  {
    if s != [] {
      var p := s[..|s| - 1];
      assert forall i :: 0 <= i < |p| ==> p[i] == s[i];
      SumBounds(p, lo, hi);
      assert (|s| as real) * lo == (|p| as real) * lo + lo;
      assert (|s| as real) * hi == (|p| as real) * hi + hi;
    }
  }

  /** Dividing bounds on a total by a positive count. */
  lemma DivideBounds(lo: real, hi: real, total: real, n: real)
    requires n > 0.0 && n * lo <= total <= n * hi
    ensures lo <= total / n <= hi
  {
  }

  /** `n` times four times the mean `total / n` is four times `total`. */
  lemma FourTimesMean(total: real, n: real, mean: real)
    requires n > 0.0 && mean == total / n
    ensures n * (4.0 * mean) == 4.0 * total
  {
    assert n * mean == total;
  }

  /** The mean lies between any lower and upper bound of the elements. */
  lemma MeanBetween(s: seq<real>, lo: real, hi: real)
    requires |s| > 0
    requires forall i :: 0 <= i < |s| ==> lo <= s[i] <= hi
    ensures lo <= Mean(s) <= hi
  {
    SumBounds(s, lo, hi);
    DivideBounds(lo, hi, Sum(s), |s| as real);
  }

  /** The mean lies between the smallest and the largest element. */
  lemma MeanBounds(s: seq<real>)
    requires |s| > 0
    ensures Min(s) <= Mean(s) <= Max(s)
  {
    MeanBetween(s, Min(s), Max(s));
  }

  lemma SquareNonNegative(d: real)
    ensures d * d >= 0.0
  {
    if d < 0.0 {
      assert d * d == (-d) * (-d);
    }
  }

  /** `sum((x - mean) ** 2 for x in s)` */
  function SquaredDeviation(s: seq<real>, mean: real): (r: real)
    ensures r >= 0.0
  {
    if s == [] then 0.0
    else
      SquareNonNegative(s[|s| - 1] - mean);
      SquaredDeviation(s[..|s| - 1], mean) + (s[|s| - 1] - mean) * (s[|s| - 1] - mean)
  }

  /** The population variance, the square of the source's `std_dev`. */
  function Variance(s: seq<real>): real
    requires |s| > 0
  {
    SquaredDeviation(s, Mean(s)) / (|s| as real)
  }

  /**
   * `abs(r - mean) <= 2 * std_dev`, stated on squares: both sides are non-negative, so the
   * comparison of the squares `(r - mean)^2 <= 4 * variance` decides the same way.
   */
  predicate WithinTwoSigma(r: real, mean: real, variance: real) {
    (r - mean) * (r - mean) <= 4.0 * variance
  }

  function KeepWithin(mean: real, variance: real): real -> Option<real> {
    r => if WithinTwoSigma(r, mean, variance) then Some(r) else None
  }

  /** `[r for r in rates if abs(r - mean) <= 2 * std_dev]` */
  function WithoutOutliers(rates: seq<real>): seq<real>
    requires |rates| > 0
  {
    Collect(rates, KeepWithin(Mean(rates), Variance(rates)))
  }

  /** If every squared deviation exceeds `c`, their sum exceeds `c` times the length. */
  lemma {:induction false} DeviationAbove(s: seq<real>, mean: real, c: real)
    requires |s| > 0
    requires forall i :: 0 <= i < |s| ==> (s[i] - mean) * (s[i] - mean) > c
    ensures SquaredDeviation(s, mean) > (|s| as real) * c
  {
    var p := s[..|s| - 1];
    assert forall i :: 0 <= i < |p| ==> p[i] == s[i];
    if |p| > 0 {
      DeviationAbove(p, mean, c);
    }
  }

  /**
   * Whatever the centre `m`, some element's squared deviation from it is at most four times
   * the average squared deviation: were every one above, their sum would exceed four times
   * itself.
   */
  lemma SomeWithinFourfold(s: seq<real>, m: real)
    requires |s| > 0
    ensures exists i :: 0 <= i < |s| && WithinTwoSigma(s[i], m, SquaredDeviation(s, m) / (|s| as real))
  {
    var total := SquaredDeviation(s, m);
    var n := |s| as real;
    var v := total / n;
    if forall i :: 0 <= i < |s| ==> !WithinTwoSigma(s[i], m, v) {
      DeviationAbove(s, m, 4.0 * v);
      FourTimesMean(total, n, v);
      assert false;
    }
  }

  /** Some rate is within two standard deviations of the mean. */
  lemma SomeWithinTwoSigma(rates: seq<real>)
    requires |rates| > 0
    ensures exists i :: 0 <= i < |rates| && WithinTwoSigma(rates[i], Mean(rates), Variance(rates))
  {
    SomeWithinFourfold(rates, Mean(rates));
  }

  /** The outlier filter never removes every rate, and keeps exactly the rates within two sigma. */
  lemma OutlierFilterKeepsSome(rates: seq<real>)
    requires |rates| > 0
    ensures |WithoutOutliers(rates)| > 0
    ensures forall r :: r in WithoutOutliers(rates) <==> r in rates && WithinTwoSigma(r, Mean(rates), Variance(rates))
  {
    var f := KeepWithin(Mean(rates), Variance(rates));
    forall r ensures r in WithoutOutliers(rates) <==> r in rates && WithinTwoSigma(r, Mean(rates), Variance(rates)) {
      CollectMember(rates, f, r);
    }
    SomeWithinTwoSigma(rates);
    var i :| 0 <= i < |rates| && WithinTwoSigma(rates[i], Mean(rates), Variance(rates));
    assert rates[i] in WithoutOutliers(rates);
  }

  // ------------------------------------------------------------ exchange listings

  /** The `price` object of an exchange listing; `exchange` stands for `price['exchange']['amount']`. */
  datatype ExchangePrice = ExchangePrice(amount: Option<real>, exchange: Option<real>)

  datatype Listing = Listing(price: Option<ExchangePrice>)

  /** An exchange response; an empty response has no `listings`. */
  datatype ExchangeResults = ExchangeResults(listings: Option<seq<Listing>>)

  /**
   * The rate one listing yields: none for a listing without a price, amount or exchange, or
   * with a non-positive amount on either side.
   */
  function RateOf(listing: Listing, invert: bool): (r: Option<real>)
    ensures r.Some? <==> listing.price.Some? && listing.price.value.amount.Some? &&
                         listing.price.value.exchange.Some? &&
                         listing.price.value.amount.value > 0.0 && listing.price.value.exchange.value > 0.0
    ensures r.Some? ==> r.value > 0.0
    ensures r.Some? && !invert ==> r.value * listing.price.value.amount.value == listing.price.value.exchange.value
    ensures r.Some? && invert ==> r.value * listing.price.value.exchange.value == listing.price.value.amount.value
  {
    if listing.price.None? then None
    else
      var price := listing.price.value;
      if price.amount.None? || price.exchange.None? then None
      else
        var amount := price.amount.value;
        var exchangeAmount := price.exchange.value;
        if amount <= 0.0 || exchangeAmount <= 0.0 then None
        else Some(if !invert then exchangeAmount / amount else amount / exchangeAmount)
  }

  function RateFn(invert: bool): Listing -> Option<real> {
    listing => RateOf(listing, invert)
  }

  /** The `rates` the listing loop accumulates. */
  function Rates(listings: seq<Listing>, invert: bool): seq<real> {
    Collect(listings, RateFn(invert))
  }

  /** The average of the accepted rates: the plain mean up to five, the filtered mean beyond. */
  function AverageRate(rates: seq<real>): Option<real> {
    if rates == [] then None
    else if |rates| > 5 then
      var filtered := WithoutOutliers(rates);
      if filtered != [] then Some(Mean(filtered)) else None
    else Some(Mean(rates))
  }

  /** `process_exchange_results(results, invert)` as a value. */
  function ExchangeRateSpec(results: Option<ExchangeResults>, invert: bool): Option<real> {
    if results.None? || results.value.listings.None? || results.value.listings.value == [] then None
    else AverageRate(Rates(results.value.listings.value, invert))
  }

  /** The listing loop of `process_exchange_results`, with its `continue`s. */
  method CollectRates(listings: seq<Listing>, invert: bool) returns (rates: seq<real>)
    ensures rates == Rates(listings, invert)
  {
    rates := [];
    for i := 0 to |listings|
      invariant rates == Collect(listings[..i], RateFn(invert))
    {
      var listing := listings[i];
      assert listings[..i + 1] == listings[..i] + [listing];
      CollectSnoc(listings[..i], listing, RateFn(invert));
      if listing.price.None? {
        continue;
      }
      var price := listing.price.value;
      if price.amount.None? || price.exchange.None? {
        continue;
      }
      var amount := price.amount.value;
      var exchangeAmount := price.exchange.value;
      if amount <= 0.0 || exchangeAmount <= 0.0 {
        continue;
      }
      var rate := if !invert then exchangeAmount / amount else amount / exchangeAmount;
      rates := rates + [rate];
    }
    assert listings[..|listings|] == listings;
  }

  /** `process_exchange_results(results, invert)` */
  method ProcessExchangeResults(results: Option<ExchangeResults>, invert: bool) returns (r: Option<real>)
    ensures r == ExchangeRateSpec(results, invert)
  {
    if results.None? || results.value.listings.None? || results.value.listings.value == [] {
      return None;
    }
    var rates := CollectRates(results.value.listings.value, invert);
    if rates != [] {
      if |rates| > 5 {
        var filtered := WithoutOutliers(rates);
        r := if filtered != [] then Some(Mean(filtered)) else None;
      } else {
        r := Some(Mean(rates));
      }
    } else {
      r := None;
    }
  }

  /**
   * The average exists exactly when some listing yields a rate; it is then positive and lies
   * between the smallest and the largest accepted rate. Up to five rates it is their mean;
   * beyond, it is the mean of the rates within two standard deviations of the mean.
   */
  lemma AverageRateProperties(rates: seq<real>)
    ensures AverageRate(rates).Some? <==> rates != []
    ensures rates != [] ==> Min(rates) <= AverageRate(rates).value <= Max(rates)
    ensures 0 < |rates| <= 5 ==> AverageRate(rates) == Some(Mean(rates))
    ensures |rates| > 5 ==> AverageRate(rates) == Some(Mean(WithoutOutliers(rates)))
  {
    if rates != [] {
      OutlierFilterKeepsSome(rates);
      var used := if |rates| > 5 then WithoutOutliers(rates) else rates;
      assert forall r :: r in used ==> r in rates;
      MeanBounds(used);
      assert Min(rates) <= Min(used) by {
        var k :| 0 <= k < |used| && used[k] == Min(used);
      }
      assert Max(used) <= Max(rates) by {
        var k :| 0 <= k < |used| && used[k] == Max(used);
      }
    }
  }

  /** All accepted rates are positive, so is their average. */
  lemma RatesPositive(listings: seq<Listing>, invert: bool)
    ensures forall r :: r in Rates(listings, invert) ==> r > 0.0
  {
    forall r | r in Rates(listings, invert) ensures r > 0.0 {
      CollectMember(listings, RateFn(invert), r);
    }
  }

  /**
   * `process_exchange_results` returns nothing for a missing or empty listing list and when no
   * listing yields a rate; otherwise a positive rate between the smallest and largest accepted.
   */
  lemma ExchangeRateProperties(results: Option<ExchangeResults>, invert: bool)
    ensures results.None? || results.value.listings.None? || results.value.listings.value == [] ==>
      ExchangeRateSpec(results, invert).None?
    ensures results.Some? && results.value.listings.Some? ==>
      var rates := Rates(results.value.listings.value, invert);
      && (ExchangeRateSpec(results, invert).Some? <==> rates != [])
      && (rates != [] ==> var r := ExchangeRateSpec(results, invert).value;
            r > 0.0 && Min(rates) <= r <= Max(rates))
  {
    if results.Some? && results.value.listings.Some? {
      var rates := Rates(results.value.listings.value, invert);
      AverageRateProperties(rates);
      RatesPositive(results.value.listings.value, invert);
      if rates != [] {
        assert Min(rates) in rates;
      }
    }
  }

  // ------------------------------------------------------------ item price check

  datatype SearchPrice = SearchPrice(amount: Option<real>, currency: Option<string>)

  datatype SearchListing = SearchListing(price: Option<SearchPrice>)

  /** One search hit; `listing` is its listing object, when it has one. */
  datatype SearchHit = SearchHit(listing: Option<SearchListing>)

  /** The search response: its `items` and its `total`. */
  datatype SearchResults = SearchResults(items: Option<seq<SearchHit>>, total: Option<int>)

  /** An entry of `prices`. */
  datatype PriceEntry = PriceEntry(amount: real, currency: string)

  /** The summary of one currency's amounts. */
  datatype Summary = Summary(min: real, max: real, mean: real, median: real, count: nat)

  /** `stats`: a summary for chaos and one for divine, each present only when it has amounts. */
  datatype Stats = Stats(chaos: Option<Summary>, divine: Option<Summary>)

  /** The dictionary `get_item_price_check` returns. */
  datatype PriceCheck = PriceCheck(itemName: string, itemType: string, league: string,
                                   totalListings: int, prices: seq<PriceEntry>, stats: Stats,
                                   timestamp: string)

  /** The entry one hit contributes: none without a listing, price, amount or currency. */
  function EntryOf(hit: SearchHit): (r: Option<PriceEntry>)
    ensures r.Some? <==> hit.listing.Some? && hit.listing.value.price.Some? &&
                         hit.listing.value.price.value.amount.Some? &&
                         hit.listing.value.price.value.currency.Some?
    ensures r.Some? ==> r.value.amount == hit.listing.value.price.value.amount.value &&
                        r.value.currency == hit.listing.value.price.value.currency.value
  {
    if hit.listing.None? then None
    else
      var listing := hit.listing.value;
      if listing.price.None? then None
      else
        var price := listing.price.value;
        if price.amount.None? || price.currency.None? then None
        else Some(PriceEntry(price.amount.value, price.currency.value))
  }

  function EntryFn(): SearchHit -> Option<PriceEntry> {
    hit => EntryOf(hit)
  }

  /** The `prices` the hit loop accumulates. */
  function Prices(hits: seq<SearchHit>): seq<PriceEntry> {
    Collect(hits, EntryFn())
  }

  function AmountIn(currency: string): PriceEntry -> Option<real> {
    (p: PriceEntry) => if p.currency == currency then Some(p.amount) else None
  }

  /** `[p['amount'] for p in prices if p['currency'] == currency]` */
  function AmountsIn(prices: seq<PriceEntry>, currency: string): seq<real> {
    Collect(prices, AmountIn(currency))
  }

  function Negated(x: real): real { -x }

  /** `sorted(s)`: the stable descending sort on the negated value is the ascending sort. */
  function Ascending(s: seq<real>): seq<real> {
    SortDesc(s, Negated)
  }

  /** The summary of a non-empty list of amounts; the median is `sorted(s)[len(s) // 2]`. */
  function Summarise(s: seq<real>): Summary
    requires |s| > 0
  {
    Summary(Min(s), Max(s), Mean(s), Ascending(s)[|s| / 2], |s|)
  }

  /** The summary of a currency, if it has amounts. */
  function SummaryOf(prices: seq<PriceEntry>, currency: string): Option<Summary> {
    var amounts := AmountsIn(prices, currency);
    if amounts != [] then Some(Summarise(amounts)) else None
  }

  /** `get_item_price_check(league, item_type, item_name)` as a value, the search response given. */
  function PriceCheckSpec(league: string, itemType: string, itemName: string,
                          results: SearchResults, now: string): PriceCheck {
    var prices := Prices(results.items.GetOr([]));
    if prices != [] then
      PriceCheck(itemName, itemType, league, results.total.GetOr(0), Take(prices, 10),
                 Stats(SummaryOf(prices, "chaos"), SummaryOf(prices, "divine")), now)
    else
      PriceCheck(itemName, itemType, league, 0, [], Stats(None, None), now)
  }

  /** The hit loop of `get_item_price_check`, with its `continue`s. */
  method CollectPrices(hits: seq<SearchHit>) returns (prices: seq<PriceEntry>)
    ensures prices == Prices(hits)
  {
    prices := [];
    for i := 0 to |hits|
      invariant prices == Collect(hits[..i], EntryFn())
    {
      var hit := hits[i];
      assert hits[..i + 1] == hits[..i] + [hit];
      CollectSnoc(hits[..i], hit, EntryFn());
      if hit.listing.None? {
        continue;
      }
      var listing := hit.listing.value;
      if listing.price.None? {
        continue;
      }
      var price := listing.price.value;
      if price.amount.None? || price.currency.None? {
        continue;
      }
      prices := prices + [PriceEntry(price.amount.value, price.currency.value)];
    }
    assert hits[..|hits|] == hits;
  }

  /** `get_item_price_check` after the search request, whose response is `results`. */
  method GetItemPriceCheck(league: string, itemType: string, itemName: string,
                           results: SearchResults, now: string) returns (r: PriceCheck)
    ensures r == PriceCheckSpec(league, itemType, itemName, results, now)
  {
    var prices := CollectPrices(results.items.GetOr([]));
    if prices != [] {
      var chaosPrices := AmountsIn(prices, "chaos");
      var divinePrices := AmountsIn(prices, "divine");
      var stats := Stats(None, None);
      if chaosPrices != [] {
        stats := stats.(chaos := Some(Summarise(chaosPrices)));
      }
      if divinePrices != [] {
        stats := stats.(divine := Some(Summarise(divinePrices)));
      }
      r := PriceCheck(itemName, itemType, league, results.total.GetOr(0), Take(prices, 10), stats, now);
    } else {
      r := PriceCheck(itemName, itemType, league, 0, [], Stats(None, None), now);
    }
  }

  /** The ascending sort orders the amounts and keeps each of them. */
  lemma AscendingProperties(s: seq<real>)
    ensures |Ascending(s)| == |s| && multiset(Ascending(s)) == multiset(s)
    ensures forall i, j :: 0 <= i < j < |s| ==> Ascending(s)[i] <= Ascending(s)[j]
  {
    SortDescSorted(s, Negated);
  }

  /**
   * A summary counts the amounts; its minimum and maximum are amounts bounding all others,
   * and its mean and median lie between them.
   */
  lemma SummaryProperties(s: seq<real>)
    requires |s| > 0
    ensures var m := Summarise(s);
      && m.count == |s| && m.min in s && m.max in s
      && (forall i :: 0 <= i < |s| ==> m.min <= s[i] <= m.max)
      && m.min <= m.mean <= m.max && m.min <= m.median <= m.max && m.median in s
  {
    AscendingProperties(s);
    MeanBounds(s);
    var a := Ascending(s);
    assert a[|s| / 2] in multiset(s);
  }

  /** An amount is listed for a currency exactly when some entry in that currency carries it. */
  lemma AmountsInMember(prices: seq<PriceEntry>, currency: string, x: real)
    ensures x in AmountsIn(prices, currency) <==> PriceEntry(x, currency) in prices
  {
    CollectMember(prices, AmountIn(currency), x);
    if PriceEntry(x, currency) in prices {
      var i :| 0 <= i < |prices| && prices[i] == PriceEntry(x, currency);
      assert AmountIn(currency)(prices[i]) == Some(x);
    }
  }

  /** A currency has a summary exactly when some entry is in that currency. */
  lemma SummaryPresent(prices: seq<PriceEntry>, currency: string)
    ensures SummaryOf(prices, currency).Some? <==> exists x :: PriceEntry(x, currency) in prices
    ensures SummaryOf(prices, currency).Some? ==>
      SummaryOf(prices, currency).value == Summarise(AmountsIn(prices, currency))
  {
    var amounts := AmountsIn(prices, currency);
    if amounts != [] {
      AmountsInMember(prices, currency, amounts[0]);
    }
    if exists x :: PriceEntry(x, currency) in prices {
      var x :| PriceEntry(x, currency) in prices;
      AmountsInMember(prices, currency, x);
    }
  }

  /**
   * The price check: with no usable hit it reports no listings, no prices and empty stats;
   * otherwise it keeps the first ten entries and the response's total (0 when absent), and
   * summarises chaos and divine amounts separately, each present exactly when some entry is in
   * that currency.
   */
  lemma PriceCheckProperties(league: string, itemType: string, itemName: string,
                             results: SearchResults, now: string)
    ensures var r := PriceCheckSpec(league, itemType, itemName, results, now);
      var prices := Prices(results.items.GetOr([]));
      && r.itemName == itemName && r.itemType == itemType && r.league == league
      && (prices == [] ==> r.totalListings == 0 && r.prices == [] && r.stats == Stats(None, None))
      && (prices != [] ==>
            && r.totalListings == results.total.GetOr(0)
            && |r.prices| <= 10 && r.prices == prices[..|r.prices|]
            && (|prices| <= 10 ==> r.prices == prices)
            && r.stats == Stats(SummaryOf(prices, "chaos"), SummaryOf(prices, "divine")))
  {
  }
}
