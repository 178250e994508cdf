# PoEHelper market analysis, modelled in Dafny

PoEHelper is a Path of Exile market assistant. A collector turns poe.ninja price lines into item
records. An integration step joins the primary league's records with those of a historical
league. The analysis engine runs four detectors over the market snapshot:

- flipping: single-step trades, plus a multi-step currency cycle search;
- farming: scarabs, fragments, oils and divination cards;
- crafting: a fixed catalogue of methods;
- investment: items whose price has a trend.

The engine keeps the latest results and hands them out with a timestamp. Besides that, the
official trade API client averages exchange rates and summarises price searches, and the
dashboard script formats the results.

The model has one module per component:

- `Market` holds a record with optional keys (an absent key is `None`) and the `Opportunity`
  variants the detectors produce.
- `Seqs` holds the list operations the code relies on. Python's stable `sort(reverse=True)` is
  `SortDesc`, slicing is `Take`, and a filtering, appending loop is `Collect`.
- `Scoring` has the two score formulas.
- `Knowledge` has the farming strategy tables and the crafting catalogue. The tables are a
  parameter of the detectors; `Knowledge.Builtin` holds the entries the model checks examples
  against.
- `Flipping`, `Farming`, `Crafting` and `Investment` hold the detectors.
- `Engine` has the `AnalysisEngine` class, whose `opportunities` field is replaced on each run.
- `Integration` has the `DataIntegration` class.
- `Collector` has the record construction of the data collector.
- `TradeApi` has the exchange-rate averaging and the price-check summary.
- `Display` has the dashboard's formatting helpers.

Each loop of the source is a method proved equal to a specification function of its inputs.
The properties the code promises (bounds, ordering, membership, what a record is made of, the
round trips) are proved as lemmas about those functions.

## Model

| member | source | states |
|---|---|---|
| Seqs.Take | analysis_engine.py:128 | a slice `[:n]` is the prefix of length min(n, len) |
| Seqs.Drop | analysis_engine.py:128 | the slice and the rest put back together give the list |
| Seqs.SortDesc | analysis_engine.py:125 | the descending sort keeps the length and is a permutation |
| Seqs.Insert | analysis_engine.py:125 | inserting adds exactly that element |
| Seqs.InsertBounded | analysis_engine.py:125 | inserting keeps all keys under a common bound |
| Seqs.InsertSorted | analysis_engine.py:125 | inserting into a descending list keeps it descending |
| Seqs.InsertFront | analysis_engine.py:125 | an element not below the head goes first, ahead of any equal key |
| Seqs.InsertPast | analysis_engine.py:125 | an element below the head goes after it |
| Seqs.SortDescCons | analysis_engine.py:125 | the sort inserts the head into the sorted tail |
| Seqs.SortDescSorted | analysis_engine.py:125 | the sort's output is in descending key order |
| Seqs.InsertKeepsTies | analysis_engine.py:125 | inserting keeps the input order among elements of equal key |
| Seqs.SortDescStable | analysis_engine.py:125 | the sort is stable: elements of each key stay in input order |
| Seqs.TakeSorted | analysis_engine.py:128 | a prefix of a sorted list is sorted |
| Seqs.TopIsLargest | analysis_engine.py:125-128 | the top n and the rest partition the input, and no dropped element beats a kept one |
| Seqs.WithKeyTake | analysis_engine.py:128 | among equal keys, a slice keeps some first ones in order |
| Seqs.TopN | analysis_engine.py:125-128 | sort-then-slice gives at most n sorted elements of the input, all of them when there are at most n, ties in input order |
| Seqs.Collect | analysis_engine.py:98-118 | a filtering loop produces at most one output per input |
| Seqs.CollectSnoc | analysis_engine.py:98-118 | one more input adds its own output, if any, at the end |
| Seqs.CollectAppend | analysis_engine.py:98-118 | filtering distributes over concatenation |
| Seqs.CollectTotal | data_collector.py:140-153 | a loop that always appends gives one output per input, in order |
| Seqs.CollectMember | analysis_engine.py:98-118 | a value is output exactly when some input yields it |
| Seqs.CollectSorted | analysis_engine.py:250-273 | filtering a sorted list through an order-preserving map keeps it sorted |
| Scoring.Round1 | analysis_engine.py:794 | rounding to one decimal moves a value by at most 0.05 |
| Scoring.Round1Monotone | analysis_engine.py:794 | rounding never reverses order |
| Scoring.Round1Exact | analysis_engine.py:794 | a value with one decimal is left alone |
| Scoring.Round1Within | analysis_engine.py:794 | rounding keeps a value of [0, 100] inside [0, 100] and leaves 100 alone |
| Scoring.OpportunityScore | analysis_engine.py:796-809 | with non-negative inputs the opportunity score lies in [0, 100]; ratio ≥ 1, volatility ≥ 0.2 and volume ≥ 200 score the full 100 |
| Scoring.OpportunityScoreMonotone | analysis_engine.py:796-809 | the score grows with profit ratio, volatility and volume |
| Scoring.PriceFactorAntitone | analysis_engine.py:787 | the price factor is positive and drops as the price rises |
| Scoring.InvestmentRating | analysis_engine.py:781-794 | for changes within ±50 % and non-negative volume the rating lies in [0, 100] |
| Scoring.InvestmentRatingMonotone | analysis_engine.py:781-794 | the rating rises as the price drops, or as the change or the volume rise |
| Scoring.InvestmentRatingLeavesRange | analysis_engine.py:781-794 | the change factor is not capped: a 60 % rise rates 105 |
| Scoring.InvestmentRatingExampleRising | analysis_engine.py:781-794 | price 100, +15 %, volume 250 rate 67.5 |
| Scoring.InvestmentRatingExampleCheap | analysis_engine.py:781-794 | price 3, +1 %, no volume rate 55.5 |
| Knowledge.AfterLastSpace | analysis_engine.py:258 | `split(' ')[-1]` is the space-free suffix after the last space |
| Knowledge.ScarabKey | analysis_engine.py:258-259 | the key is the space-free last word of a name with a space, and empty for a name without one |
| Knowledge.ScarabStrategy | analysis_engine.py:279-341 | the scarab strategy is the table entry for the key, else the default |
| Knowledge.AfterLastSpaceOfWord | analysis_engine.py:258 | the suffix of "p w" is the last word w |
| Knowledge.ScarabKeyOfTieredName | analysis_engine.py:258-259 | "Gilded Cartography Scarab" has key "Scarab", which is not in the table, so it gets the default strategy |
| Knowledge.ScarabKeyFindsTableEntry | analysis_engine.py:258-259 | "Scarab of Divination" has key "Divination" and finds its table entry |
| Knowledge.ScarabKeyWithoutSpace | analysis_engine.py:258-259 | a one-word name has the empty key and so the default strategy |
| Knowledge.ContainsOccurs | analysis_engine.py:429 | Python's substring test holds exactly when the key occurs at some position |
| Knowledge.FirstContainedSpec | analysis_engine.py:428-439 | the fragment lookup fails exactly when no key occurs in the name; otherwise it gives the first key that occurs |
| Knowledge.FragmentStrategy | analysis_engine.py:382-439 | no table key in the name gives the default; otherwise the record of the first key in table order that occurs in the name |
| Knowledge.FragmentStrategyExample | analysis_engine.py:428-431 | "Maven's Invitation: The Formed" takes the first matching table entry |
| Knowledge.CardLocations | analysis_engine.py:516-591 | a listed card gets its own locations, any other card the default |
| Flipping.CurrencyValues | analysis_engine.py:95 | the name/value map fails, emptying the result, exactly when a priced record has no name |
| Flipping.SingleStepCondition | analysis_engine.py:98-118 | a flip is emitted exactly when value and receive change exist, volatility > 0.05 and value > 5 |
| Flipping.SingleStepFields | analysis_engine.py:100-117 | the flip's volatility, profit and score follow from the record; the score lies in [0, 100] |
| Flipping.SingleStepFlips | analysis_engine.py:98-118 | the loop emits each record's flip in order |
| Flipping.EndsForGuards | analysis_engine.py:159-165 | end currencies differ from the start and the middle, and are worth at least 5 |
| Flipping.MidsForGuards | analysis_engine.py:151-165 | middle currencies differ from the start and are worth at least 5 |
| Flipping.StartsForGuards | analysis_engine.py:143-165 | every cycle starts among the first ten high-volume currencies and passes all guards |
| Flipping.EvaluatedCycles | analysis_engine.py:140-165 | every evaluated cycle is made of distinct high-volume currencies worth at least 5 |
| Flipping.CycleCollapses | analysis_engine.py:168-174 | each step's divide-then-multiply cancels, so a cycle keeps 0.99³ of its value, −2.9701 % |
| Flipping.CycleNeverProfits | analysis_engine.py:177-190 | no cycle clears the 2 % threshold |
| Flipping.MultiStepNeverEmits | analysis_engine.py:134-196 | the multi-step search always returns the empty list |
| Flipping.CycleEnds | analysis_engine.py:159-190 | the innermost loop emits the cycles' opportunities in order |
| Flipping.CycleMids | analysis_engine.py:151-190 | the middle loop emits them in order |
| Flipping.FindMultiStepFlips | analysis_engine.py:134-196 | the search equals its specification: high volume, first ten starts, sorted, top ten |
| Flipping.AnalyzeFlippingOpportunities | analysis_engine.py:84-132 | the detector equals its specification |
| Flipping.FlippingFailsWithoutName | analysis_engine.py:95-132 | a priced record without a name makes the detector return [] |
| Flipping.FlippingIsSingleSteps | analysis_engine.py:98-128 | otherwise the result is the top 20 single-step flips by score |
| Flipping.FlippingProperties | analysis_engine.py:125-128 | at most 20 flips, sorted by score; all of them when there are few; ties keep input order |
| Flipping.FlippingFromInputs | analysis_engine.py:98-128 | every listed flip is the flip of some input currency or fragment |
| Farming.FarmScoreMonotone | analysis_engine.py:239-514 | a more valuable item never scores lower |
| Farming.FarmOfCondition | analysis_engine.py:250-271 | an item is kept exactly when it reaches its category's floor; the opportunity takes its value, weighted score and table strategy |
| Farming.OilOpportunity | analysis_engine.py:452-469 | every oil worth at least 10 gets Blight farming in Blight maps and encounters, the one oil strategy, and 0.7 of its value as score; cheaper oils get nothing |
| Farming.FarmItem | analysis_engine.py:250-271 | the loop body builds exactly that opportunity |
| Farming.FarmEach | analysis_engine.py:250-271 | the loop emits each top item's opportunity in order |
| Farming.FarmCategory | analysis_engine.py:239-514 | a category analyser equals its specification: sort by value, take the top, filter |
| Farming.FarmCategoryProperties | analysis_engine.py:239-514 | at most top-count results, sorted by score; each from a top item above the floor that is no lower than any dropped one |
| Farming.FarmCategorySorted | analysis_engine.py:245-271 | a category's results are in descending score order |
| Farming.FarmCategoryMembers | analysis_engine.py:245-271 | each result is the opportunity of a considered item above the floor |
| Farming.AnalyzeFarmingOpportunities | analysis_engine.py:202-237 | the detector equals its specification |
| Farming.FarmingProperties | analysis_engine.py:202-237 | at most 35 candidates and 20 results, sorted, all farming ones from the candidates; ties keep order |
| Farming.DoctorExample | analysis_engine.py:477-591 | "The Doctor" at 80 chaos scores 48 with its table locations |
| Farming.CardBelowFloor | analysis_engine.py:492 | a card at 40 chaos is below the 50 floor and yields nothing |
| Crafting.Tagged | analysis_engine.py:693-695 | the tagging loop yields one opportunity per catalogue entry |
| Crafting.TaggedAt | analysis_engine.py:693-695 | entry i is catalogue entry i tagged with the primary league |
| Crafting.AnalyzeCraftingOpportunities | analysis_engine.py:593-704 | the detector equals its specification |
| Crafting.CraftingProperties | analysis_engine.py:693-700 | one opportunity per entry, a permutation of them, sorted by score, ties in catalogue order |
| Crafting.SortTen | analysis_engine.py:698 | the ten catalogue scores sort into the stated order |
| Crafting.Spelled | analysis_engine.py:698 | a ten-element list is its ten elements |
| Crafting.Unspelled | analysis_engine.py:698 | the nested form is the list display |
| Crafting.CatalogueEntries | analysis_engine.py:597-690 | the catalogue has the source's ten methods with their scores |
| Crafting.CraftingOrderOf | analysis_engine.py:698 | ten entries with those scores come out in that order, ties kept |
| Crafting.CraftingOrder | analysis_engine.py:593-700 | the catalogue comes out Fractured, Harvest, Awakener, Fossil, Meta-mod, Cluster, Recombinator, Eldritch, Essence, Veiled |
| Investment.WithHistoryMember | analysis_engine.py:721 | a record survives exactly when it has a price or receive change |
| Investment.ChangeOf | analysis_engine.py:728-729 | the trend is the receive change, else the price change, else 0 |
| Investment.CategoryOfPooled | analysis_engine.py:736-743 | a pooled record is labelled by the first list holding it, never "Other" |
| Investment.InvestAdvice | analysis_engine.py:753-758 | short-term advice above +10 %, long-term below −10 %, stable otherwise |
| Investment.InvestOfCondition | analysis_engine.py:724-770 | a record yields an opportunity exactly when its value is positive and its rating exceeds 60, with these fields |
| Investment.RateRecord | analysis_engine.py:724-770 | the loop body builds exactly that |
| Investment.AnalyzeInvestmentOpportunities | analysis_engine.py:706-779 | the detector equals its specification |
| Investment.InvestmentProperties | analysis_engine.py:721-775 | at most 20, sorted by rating, each rated above 60 from a pooled record with a trend; ties keep order |
| Investment.RisingCurrencyExample | analysis_engine.py:724-770 | a Divine Orb at 100 chaos rising 15 % rates 67.5 with short-term advice |
| Investment.CheapItemExample | analysis_engine.py:751 | an item at 3 chaos rising 1 % rates 55.5 and is not listed |
| Engine.AnalyzeAllProperties | analysis_engine.py:29-57 | a run stamps the record, each list is its detector's result, with at most 20 flips, farms and investments, and all crafts |
| Engine.Stamped | analysis_engine.py:76-82 | the handed-out record always has a timestamp and keeps its lists |
| Engine.StampedIdempotent | analysis_engine.py:78-80 | a second stamp changes nothing |
| Engine.AnalysisEngine.constructor | analysis_engine.py:18-27 | a new engine holds empty lists and no timestamp |
| Engine.AnalysisEngine.AnalyzeAllOpportunities | analysis_engine.py:29-67 | the field becomes the stamped results of the four detectors |
| Engine.AnalysisEngine.GetOpportunities | analysis_engine.py:76-82 | the field gains a missing timestamp and is returned |
| Integration.CardLocations | data_integration.py:259-271 | a reference card gives its locations (none listed: empty), any other card the placeholder |
| Integration.ByNameSpec | data_integration.py:143 | a name is indexed exactly when a record carries it, mapped to its last record |
| Integration.HistoricalChange | data_integration.py:163-166 | a positive past value gives the percent change, otherwise 0 |
| Integration.TrendOf | data_integration.py:172-177 | the trend is rising above +10 %, falling below −10 %, stable otherwise |
| Integration.Max | data_integration.py:186 | the larger volatility |
| Integration.JoinedFields | data_integration.py:159-186 | the join sets past value, change, trend and the larger volatility, and nothing else |
| Integration.IntegrateAligned | data_integration.py:146-188 | output i is what named primary record i becomes |
| Integration.UnmatchedCopied | data_integration.py:159-249 | a record without a historical match is copied, a card gaining its locations |
| Integration.IntegrateProperties | data_integration.py:146-190 | one output per named primary record, in order, with its name |
| Integration.IntegrateDataMissing | data_integration.py:73-118 | a missing category or league gives empty lists |
| Integration.DataIntegration.constructor | data_integration.py:17-19 | the integrator holds the given reference cards |
| Integration.DataIntegration.IntegrateRecord | data_integration.py:147-188 | one primary record's loop body |
| Integration.DataIntegration.IntegrateEach | data_integration.py:146-190 | the loop over the primary records |
| Integration.DataIntegration.IntegrateList | data_integration.py:137-194 | one list, integrated against the historical list |
| Integration.DataIntegration.IntegrateCurrencies | data_integration.py:137-194 | integrate_currencies equals its specification |
| Integration.DataIntegration.IntegrateItems | data_integration.py:196-257 | integrate_items equals its specification, cards gaining locations |
| Integration.DataIntegration.IntegrateData | data_integration.py:55-122 | integrate_data equals its specification over the seven categories |
| Collector.VolatilityOf | data_collector.py:147 | the volatility is |total change|/100, or 0 without history |
| Collector.CurrencyRecord | data_collector.py:141-152 | a currency record's keys, their defaults and its volatility, and no item-only key |
| Collector.ProcessCurrencyLines | data_collector.py:140-155 | the loop equals its specification |
| Collector.CurrencyRecordsAligned | data_collector.py:140-153 | one record per line, in order |
| Collector.DivinationCardLocations | data_collector.py:251-255 | always the placeholder |
| Collector.FirstText | data_collector.py:230-232 | a text found is the text of some dictionary modifier with a `text` key |
| Collector.ScarabEffect | data_collector.py:225-234 | the effect is "Unknown effect" or the text of one of the modifiers |
| Collector.ScarabEffectUnknown | data_collector.py:225-234 | with no textual modifier the effect is "Unknown effect" |
| Collector.ScarabEffectFirst | data_collector.py:230-232 | otherwise the first modifier's text |
| Collector.ExtractScarabEffect | data_collector.py:225-234 | the loop equals its specification |
| Collector.CollectorRatingIsEngineRating | data_collector.py:236-249 | the collector's rating formula equals the engine's |
| Collector.ItemRecord | data_collector.py:174-216 | an item record's keys: effect and rating only for scarabs (the engine's rating), locations only for cards (the placeholder), optional keys exactly when the line has them, defaults 0 |
| Collector.BuildItemRecord | data_collector.py:175-216 | the loop body equals its specification |
| Collector.ProcessItemLines | data_collector.py:173-220 | the loop equals its specification |
| Collector.ItemRecordsAligned | data_collector.py:173-219 | one record per line, in order |
| TradeApi.Min | poe_api.py:332 | `min` is an element bounding all others below |
| TradeApi.Max | poe_api.py:333 | `max` is an element bounding all others above |
| TradeApi.SumBounds | poe_api.py:260 | a sum of bounded values is bounded by n times the bounds |
| TradeApi.MeanBetween | poe_api.py:260 | a mean of bounded values is bounded |
| TradeApi.MeanBounds | poe_api.py:334 | the mean lies between the minimum and the maximum |
| TradeApi.SquaredDeviation | poe_api.py:261 | the squared deviation is non-negative |
| TradeApi.DeviationAbove | poe_api.py:261 | if every point deviates more than c, the total exceeds n·c |
| TradeApi.SomeWithinFourfold | poe_api.py:261-262 | some point is within two standard deviations of any centre |
| TradeApi.SomeWithinTwoSigma | poe_api.py:258-262 | some rate survives the outlier filter |
| TradeApi.OutlierFilterKeepsSome | poe_api.py:262-263 | the filter keeps exactly the rates within 2σ, and never none |
| TradeApi.RateOf | poe_api.py:238-253 | a listing gives a rate exactly when its price is complete and positive; the rate is the ratio |
| TradeApi.CollectRates | poe_api.py:237-254 | the loop equals its specification |
| TradeApi.ProcessExchangeResults | poe_api.py:220-267 | process_exchange_results equals its specification |
| TradeApi.AverageRateProperties | poe_api.py:257-267 | an average exists exactly when rates do, lies between them; plain up to 5, filtered beyond |
| TradeApi.RatesPositive | poe_api.py:249-254 | every accepted rate is positive |
| TradeApi.ExchangeRateProperties | poe_api.py:220-267 | no rate for missing or empty listings; otherwise a positive rate within range exactly when some listing gives one |
| TradeApi.EntryOf | poe_api.py:300-320 | a hit gives an entry exactly when its price is complete, and carries its amount and currency |
| TradeApi.CollectPrices | poe_api.py:299-320 | the loop equals its specification |
| TradeApi.GetItemPriceCheck | poe_api.py:269-366 | the price check equals its specification, the search being a parameter |
| TradeApi.AscendingProperties | poe_api.py:335 | `sorted` gives an ascending permutation |
| TradeApi.SummaryProperties | poe_api.py:330-337 | count, bounding min and max, mean and median between them, median an element |
| TradeApi.AmountsInMember | poe_api.py:325-326 | an amount is listed for a currency exactly when an entry in it carries it |
| TradeApi.SummaryPresent | poe_api.py:330-346 | a currency has a summary exactly when some entry uses it |
| TradeApi.PriceCheckProperties | poe_api.py:323-366 | empty results report nothing; otherwise the total, the first ten prices and one summary per currency |
| Display.OpportunityClass | static/js/main.js:459-463 | high at 80 and above, medium from 60, low below 60 |
| Display.OpportunityClassMonotone | static/js/main.js:459-463 | a higher score never gets a lower class |
| Display.NatText | static/js/main.js:473-477 | a number prints as at least one digit |
| Display.NatTextRoundTrip | static/js/main.js:473-477 | the printed digits read back to the number |
| Display.TimeRemaining | static/js/main.js:471-479 | under a minute stays seconds; otherwise whole minutes and a remainder under 60 that add back up |
| Display.FormatTimeRemaining | static/js/main.js:471-479 | under a minute the seconds and " seconds"; otherwise "Mm Ss" with whole minutes and a remainder under 60 that add back up |
| Display.TimeRemainingUnique | static/js/main.js:475-476 | that split is the only one with a remainder under 60 |
| Display.NinetySeconds | static/js/main.js:471-479 | 90 seconds print as "1m 30s" |
| Display.JoinLength | static/js/main.js:431 | a join is as long as its parts and the separators between them |
| Display.FormatCurrencyPath | static/js/main.js:427-434 | text as it is, steps arrow-joined, anything else "Unknown Path" |
| Display.PathStepsText | static/js/main.js:431 | one more step appends an arrow and the step |
| Display.Upper | static/js/main.js:441 | upper-casing keeps word characters and leaves `_` and `-` alone |
| Display.Spaced | static/js/main.js:441 | every `-` and `_` becomes a space, the rest stays |
| Display.Titled | static/js/main.js:441 | title-casing keeps the length |
| Display.FormatFarmingType | static/js/main.js:437-444 | a missing or empty type is "Unknown" |
| Display.FarmingTypeShape | static/js/main.js:437-444 | same length, no `-` or `_` left, only the first letter of each word upper-cased |
| Display.FarmingTypeIdempotent | static/js/main.js:437-444 | formatting a formatted type changes nothing |
| Display.DivinationCardTitle | static/js/main.js:437-444 | "divination_card" shows as "Divination Card" |
| Display.PriceChangeStyle | static/js/main.js:452-456 | positive class and "+" exactly when the change is not negative |

## Left out

- HTTP traffic is not modelled: poe.ninja fetches, trade API searches and `collect_all_data`'s
  loop over the category types. The price check takes the search response as a parameter, and
  the collector's functions take the response lines.
- File I/O is not modelled: loading reference data, writing the opportunities file, and the
  Flask routes in `app.py`.
- Logging, threads and the scheduler are not modelled.
- Clock reads are a `now` parameter. The collector uses one `now` for every line, where the code
  reads the clock once per line.
- Floats are modelled as exact reals. `round(x, 1)` is round-half-up, where Python rounds ties of
  binary floats to even.
- The standard deviation's square root is replaced by the equivalent comparison of squares.
- JSON `null` stored under a key is treated like a missing key. One consequence: the collector
  always writes a `name` key (data_collector.py:142 and 175), even when the line has no name. The
  integrator keeps such a record and joins it under the name `None` (data_integration.py:146-147,
  205-206), while `Integration.KeepNamed` drops it.
- In `TradeApi.RateOf`, `exchange` stands for `price['exchange']['amount']`. An `exchange` object
  without `amount` raises `KeyError` at poe_api.py:247, which nothing catches; it cannot be
  represented and is left out. So is a non-numeric amount, which raises `TypeError`.
- `except` branches that no modelled input reaches are not modelled: the integrator returning
  the primary list, the collector returning `[]`, and the detectors returning `[]`. The
  exception is the missing-name `KeyError` in the flipping detector, which is modelled.
- The strategy tables and the crafting catalogue are parameters or constant fields. Long free
  texts are identified by their table and key instead of their wording.
- `formatChaosValue` and `formatDateTime` are left out, because they are library number and
  date formatting. So are `toFixed` and the HTML around the values. `formatTimeRemaining` is
  modelled on whole seconds.
- Engine.AnalysisEngine.AnalyzeAllOpportunities: does not model the JSON file it writes, or its
  `except` branch that leaves the reset record in place.
- Integration.DataIntegration.IntegrateData: does not model reading the reference file; the
  reference cards are the constructor's parameter.
