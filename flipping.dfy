/**
 * The flip detector (analysis_engine.py, `analyze_flipping_opportunities` and
 * `find_multi_step_flips`): single-step flips on volatile currencies and fragments, and a
 * bounded search for three-leg conversion cycles.
 */
module Flipping {
  import opened Wrappers
  import opened Market
  import opened Seqs
  import opened Scoring

  function Abs(x: real): real { if x < 0.0 then -x else x }

  /**
   * The `currency_values` dictionary, name to chaos value. Building it reads the name of every
   * record that has a chaos value, so one such record without a name fails the whole flip
   * analysis (`None`).
   */
  function CurrencyValues(items: seq<Item>): (r: Option<map<string, real>>)
    ensures r.None? <==> exists i :: 0 <= i < |items| && items[i].chaosValue.Some? && items[i].name.None?
  {
    if items == [] then Some(map[])
    else
      var p := items[..|items| - 1];
      var x := items[|items| - 1];
      assert forall i :: 0 <= i < |p| ==> p[i] == items[i];
      match CurrencyValues(p)
      case None => None
      case Some(m) =>
        if x.chaosValue.None? then Some(m)
        else if x.name.None? then None
        else Some(m[x.name.value := x.chaosValue.value])
  }

  // ------------------------------------------------------------ single step

  /**
   * The single-step flip for one record, if it qualifies. A record reaching the name lookup
   * has a chaos value, so `CurrencyValues` has already failed when its name is missing.
   */
  function SingleStepOf(c: Item): Option<Opportunity> {
    if c.chaosValue.None? || c.receiveChange.None? then None
    else
      var cv := c.chaosValue.value;
      var volatility := Abs(c.receiveChange.value) / 100.0;
      var profit := volatility * cv * 0.1;
      if volatility > 0.05 && cv > 5.0 then
        Some(SingleStep(NameOf(c), cv, volatility, profit, FlipAdvice(NameOf(c), cv),
                        OpportunityScore(profit / cv, volatility, VolumeOf(c)), LeagueOf(c)))
      else None
  }

  /**
   * A record yields a single-step flip exactly when it has a chaos value and a receive change,
   * its volatility |change|/100 exceeds 0.05 and its value exceeds 5.
   */
  lemma SingleStepCondition(c: Item)
    ensures SingleStepOf(c).Some? <==>
      c.chaosValue.Some? && c.receiveChange.Some? &&
      Abs(c.receiveChange.value) / 100.0 > 0.05 && c.chaosValue.value > 5.0
  {
  }

  /**
   * The flip it yields names the record, carries its value, a volatility of |change|/100 and a
   * profit of 10 % of volatility times value, and scores profit ratio volatility/10; the score lies
   * in [0, 100] when the trade volume is not negative.
   */
  lemma SingleStepFields(c: Item)
    requires SingleStepOf(c).Some?
    ensures var o := SingleStepOf(c).value;
      && o.SingleStep?
      && o.currency == NameOf(c) && o.chaosValue == c.chaosValue.value
      && o.volatility == Abs(c.receiveChange.value) / 100.0
      && o.potentialProfit == o.volatility * o.chaosValue * 0.1
      && o.score == OpportunityScore(o.volatility * 0.1, o.volatility, VolumeOf(c))
      && (VolumeOf(c) >= 0.0 ==> 0.0 <= o.score <= 100.0)
  {
    var cv := c.chaosValue.value;
    var v := Abs(c.receiveChange.value) / 100.0;
    var profit := v * cv * 0.1;
    assert v >= 0.0;
    assert profit / cv == v * 0.1 by {
      assert (v * 0.1) * cv == profit;
    }
    assert SingleStepOf(c).value.potentialProfit == profit;
    assert SingleStepOf(c).value.score == OpportunityScore(profit / cv, v, VolumeOf(c));
  }

  /** The single-step detector's loop: one flip per qualifying record, in input order. */
  method SingleStepFlips(currencies: seq<Item>) returns (r: seq<Opportunity>)
    ensures r == Collect(currencies, SingleStepOf)
  {
    r := [];
    for i := 0 to |currencies|
      invariant r == Collect(currencies[..i], SingleStepOf)
    {
      var currency := currencies[i];
      assert currencies[..i + 1] == currencies[..i] + [currency];
      CollectSnoc(currencies[..i], currency, SingleStepOf);
      if currency.chaosValue.None? || currency.receiveChange.None? {
        continue;
      }
      var chaosValue := currency.chaosValue.value;
      var volatility := Abs(currency.receiveChange.value) / 100.0;
      var potentialProfit := volatility * chaosValue * 0.1;
      if volatility > 0.05 && chaosValue > 5.0 {
        var name := NameOf(currency);
        var opportunity := SingleStep(name, chaosValue, volatility, potentialProfit,
                                      FlipAdvice(name, chaosValue),
                                      OpportunityScore(potentialProfit / chaosValue, volatility, VolumeOf(currency)),
                                      LeagueOf(currency));
        assert SingleStepOf(currency).Some?;
        assert SingleStepOf(currency).value.potentialProfit == potentialProfit;
        assert SingleStepOf(currency).value.score == opportunity.score;
        r := r + [opportunity];
      }
    }
    assert currencies[..|currencies|] == currencies;
  }

  // -------------------------------------------------------------- multi step

  /** A candidate conversion cycle start -> mid -> end -> start. */
  datatype Cycle = Cycle(start: Item, mid: Item, end: Item)

  function HighVolumeOf(c: Item): Option<Item> {
    if VolumeOf(c) > 50.0 then Some(c) else None
  }

  /** `[c for c in currencies if c.get('trade_volume', 0) > 50]` */
  function HighVolume(currencies: seq<Item>): seq<Item> {
    Collect(currencies, HighVolumeOf)
  }

  /** The end legs tried for one start and mid, in the order of `ends`. */
  function EndsFor(start: Item, mid: Item, ends: seq<Item>): seq<Cycle> {
    if ends == [] then []
    else
      var e := ends[|ends| - 1];
      EndsFor(start, mid, ends[..|ends| - 1]) +
        (if e.name == start.name || e.name == mid.name || ChaosOf(e) < 5.0 then [] else [Cycle(start, mid, e)])
  }

  /** The cycles tried for one start, mid legs taken from `mids`, end legs from `hv`. */
  function MidsFor(start: Item, mids: seq<Item>, hv: seq<Item>): seq<Cycle> {
    if mids == [] then []
    else
      var m := mids[|mids| - 1];
      MidsFor(start, mids[..|mids| - 1], hv) +
        (if m.name == start.name || ChaosOf(m) < 5.0 then [] else EndsFor(start, m, hv))
  }

  /** The cycles tried for the starts in `starts`, in loop order. */
  function StartsFor(starts: seq<Item>, hv: seq<Item>): seq<Cycle> {
    if starts == [] then []
    else
      var s := starts[|starts| - 1];
      StartsFor(starts[..|starts| - 1], hv) + (if ChaosOf(s) < 5.0 then [] else MidsFor(s, hv, hv))
  }

  /** Every cycle the triple loop evaluates: starts from the first ten high-volume records. */
  function Evaluated(currencies: seq<Item>): seq<Cycle> {
    var hv := HighVolume(currencies);
    StartsFor(Take(hv, 10), hv)
  }

  /** The simulated cycle with a 1 % loss on each of the three conversions. */
  function CycleFinal(sv: real, mv: real, ev: real): real
    requires sv != 0.0 && mv != 0.0 && ev != 0.0
  {
    var step1 := sv * 0.99;
    var step2 := (step1 / mv) * mv * 0.99;
    var step3 := (step2 / ev) * ev * 0.99;
    (step3 / sv) * sv
  }

  function CyclePercent(sv: real, mv: real, ev: real): real
    requires sv != 0.0 && mv != 0.0 && ev != 0.0
  {
    ((CycleFinal(sv, mv, ev) - sv) / sv) * 100.0
  }

  /**
   * The multi-step opportunity for one evaluated cycle, if it clears 2 %. The value guards are
   * the loop's own skip conditions.
   */
  function CycleOpportunity(c: Cycle): Option<Opportunity> {
    var sv, mv, ev := ChaosOf(c.start), ChaosOf(c.mid), ChaosOf(c.end);
    if sv < 5.0 || mv < 5.0 || ev < 5.0 then None
    else
      var profit := CycleFinal(sv, mv, ev) - sv;
      var percent := (profit / sv) * 100.0;
      if percent > 2.0 then
        Some(MultiStep([c.start.name, c.mid.name, c.end.name, c.start.name], percent, profit,
                       CycleAdvice(c.start.name, c.mid.name, c.end.name, percent),
                       percent * 2.0, LeagueOf(c.start)))
      else None
  }

  /** `find_multi_step_flips(currencies, ...)` as a value: sorted by profit percent, at most 10. */
  function MultiStepFlipsSpec(currencies: seq<Item>): seq<Opportunity> {
    Take(SortDesc(Collect(Evaluated(currencies), CycleOpportunity), ProfitKey), 10)
  }

  lemma EndsForGuards(start: Item, mid: Item, ends: seq<Item>)
    ensures forall c :: c in EndsFor(start, mid, ends) ==>
      c.start == start && c.mid == mid && c.end in ends &&
      c.end.name != start.name && c.end.name != mid.name && ChaosOf(c.end) >= 5.0
  {
  }

  lemma {:induction false} MidsForGuards(start: Item, mids: seq<Item>, hv: seq<Item>)
    ensures forall c :: c in MidsFor(start, mids, hv) ==>
      c.start == start && c.mid in mids && c.end in hv &&
      c.mid.name != start.name && ChaosOf(c.mid) >= 5.0 &&
      c.end.name != start.name && c.end.name != c.mid.name && ChaosOf(c.end) >= 5.0
  {
    if mids != [] {
      var m := mids[|mids| - 1];
      MidsForGuards(start, mids[..|mids| - 1], hv);
      EndsForGuards(start, m, hv);
      forall c | c in MidsFor(start, mids[..|mids| - 1], hv) ensures c.mid in mids {
        assert c.mid in mids[..|mids| - 1];
      }
    }
  }

  lemma {:induction false} StartsForGuards(starts: seq<Item>, hv: seq<Item>)
    ensures forall c :: c in StartsFor(starts, hv) ==>
      c.start in starts && ChaosOf(c.start) >= 5.0 && c.mid in hv && c.end in hv &&
      c.mid.name != c.start.name && ChaosOf(c.mid) >= 5.0 &&
      c.end.name != c.start.name && c.end.name != c.mid.name && ChaosOf(c.end) >= 5.0
  {
    if starts != [] {
      var s := starts[|starts| - 1];
      StartsForGuards(starts[..|starts| - 1], hv);
      MidsForGuards(s, hv, hv);
      forall c | c in StartsFor(starts[..|starts| - 1], hv) ensures c.start in starts {
        assert c.start in starts[..|starts| - 1];
      }
    }
  }

  /**
   * Every evaluated cycle has three pairwise-distinct names and three values of at least 5;
   * its start is one of the first ten high-volume records, and its mid and end are
   * high-volume records (trade volume above 50).
   */
  lemma EvaluatedCycles(currencies: seq<Item>)
    ensures forall c :: c in Evaluated(currencies) ==>
      && c.start in Take(HighVolume(currencies), 10)
      && c.mid in HighVolume(currencies) && c.end in HighVolume(currencies)
      && VolumeOf(c.start) > 50.0 && VolumeOf(c.mid) > 50.0 && VolumeOf(c.end) > 50.0
      && c.start.name != c.mid.name && c.mid.name != c.end.name && c.start.name != c.end.name
      && ChaosOf(c.start) >= 5.0 && ChaosOf(c.mid) >= 5.0 && ChaosOf(c.end) >= 5.0
  {
    var hv := HighVolume(currencies);
    StartsForGuards(Take(hv, 10), hv);
    forall x | x in hv ensures VolumeOf(x) > 50.0 {
      CollectMember(currencies, HighVolumeOf, x);
    }
  }

  /**
   * The per-leg loss algebra collapses: whatever the three values, the cycle returns
   * `start · 0.99³`, a loss of 2.9701 %.
   */
  lemma CycleCollapses(sv: real, mv: real, ev: real)
    requires sv != 0.0 && mv != 0.0 && ev != 0.0
    ensures CycleFinal(sv, mv, ev) == sv * 0.99 * 0.99 * 0.99
    ensures CyclePercent(sv, mv, ev) == (0.99 * 0.99 * 0.99 - 1.0) * 100.0
    ensures CyclePercent(sv, mv, ev) == -2.9701
  {
    var step1 := sv * 0.99;
    assert (step1 / mv) * mv == step1;
    var step2 := step1 * 0.99;
    assert (step2 / ev) * ev == step2;
    var step3 := step2 * 0.99;
    assert (step3 / sv) * sv == step3;
    assert (step3 - sv) / sv == 0.99 * 0.99 * 0.99 - 1.0 by {
      assert step3 - sv == sv * (0.99 * 0.99 * 0.99 - 1.0);
    }
  }

  /** So no cycle ever clears the 2 % threshold: the multi-step detector always returns []. */
  lemma MultiStepNeverEmits(currencies: seq<Item>)
    ensures Collect(Evaluated(currencies), CycleOpportunity) == []
    ensures MultiStepFlipsSpec(currencies) == []
  {
    var cycles := Evaluated(currencies);
    var found := Collect(cycles, CycleOpportunity);
    if found != [] {
      var o := found[0];
      CollectMember(cycles, CycleOpportunity, o);
      var i :| 0 <= i < |cycles| && CycleOpportunity(cycles[i]) == Some(o);
      CycleNeverProfits(cycles[i]);
      assert false;
    }
  }

  /** No single cycle yields an opportunity: its percent is always -2.9701. */
  lemma CycleNeverProfits(c: Cycle)
    ensures CycleOpportunity(c).None?
  {
    var sv, mv, ev := ChaosOf(c.start), ChaosOf(c.mid), ChaosOf(c.end);
    if sv >= 5.0 && mv >= 5.0 && ev >= 5.0 {
      CycleCollapses(sv, mv, ev);
      assert ((CycleFinal(sv, mv, ev) - sv) / sv) * 100.0 == CyclePercent(sv, mv, ev);
    }
  }

  /** The innermost loop of `find_multi_step_flips`: every end leg for one start and mid. */
  method CycleEnds(startCurrency: Item, midCurrency: Item, highVolume: seq<Item>) returns (found: seq<Opportunity>)
    requires ChaosOf(startCurrency) >= 5.0 && ChaosOf(midCurrency) >= 5.0
    ensures found == Collect(EndsFor(startCurrency, midCurrency, highVolume), CycleOpportunity)
  {
    var startName, startValue := startCurrency.name, ChaosOf(startCurrency);
    var midName, midValue := midCurrency.name, ChaosOf(midCurrency);
    found := [];
    for k := 0 to |highVolume|
      invariant found == Collect(EndsFor(startCurrency, midCurrency, highVolume[..k]), CycleOpportunity)
    {
      var endCurrency := highVolume[k];
      assert highVolume[..k + 1][..k] == highVolume[..k];
      ghost var done := EndsFor(startCurrency, midCurrency, highVolume[..k]);
      var endName := endCurrency.name;
      var endValue := ChaosOf(endCurrency);
      if endName == startName || endName == midName || endValue < 5.0 {
        assert EndsFor(startCurrency, midCurrency, highVolume[..k + 1]) == done;
        continue;
      }
      assert EndsFor(startCurrency, midCurrency, highVolume[..k + 1]) ==
             done + [Cycle(startCurrency, midCurrency, endCurrency)];
      var step1Value := startValue * 0.99;
      var step2Value := (step1Value / midValue) * midValue * 0.99;
      var step3Value := (step2Value / endValue) * endValue * 0.99;
      var finalValue := (step3Value / startValue) * startValue;
      var profit := finalValue - startValue;
      var profitPercent := (profit / startValue) * 100.0;
      ghost var cycle := Cycle(startCurrency, midCurrency, endCurrency);
      assert finalValue == CycleFinal(startValue, midValue, endValue);
      CollectSnoc(done, cycle, CycleOpportunity);
      if profitPercent > 2.0 {
        var opportunity := MultiStep([startName, midName, endName, startName], profitPercent, profit,
                                     CycleAdvice(startName, midName, endName, profitPercent),
                                     profitPercent * 2.0, LeagueOf(startCurrency));
        found := found + [opportunity];
      } else {
        assert CycleOpportunity(cycle) == None;
      }
    }
    assert highVolume[..|highVolume|] == highVolume;
  }

  /** The middle loop: every mid leg (and its end legs) for one start. */
  method CycleMids(startCurrency: Item, highVolume: seq<Item>) returns (found: seq<Opportunity>)
    requires ChaosOf(startCurrency) >= 5.0
    ensures found == Collect(MidsFor(startCurrency, highVolume, highVolume), CycleOpportunity)
  {
    found := [];
    for j := 0 to |highVolume|
      invariant found == Collect(MidsFor(startCurrency, highVolume[..j], highVolume), CycleOpportunity)
    {
      var midCurrency := highVolume[j];
      assert highVolume[..j + 1][..j] == highVolume[..j];
      if midCurrency.name == startCurrency.name || ChaosOf(midCurrency) < 5.0 {
        assert MidsFor(startCurrency, highVolume[..j + 1], highVolume) ==
               MidsFor(startCurrency, highVolume[..j], highVolume);
        continue;
      }
      assert MidsFor(startCurrency, highVolume[..j + 1], highVolume) ==
             MidsFor(startCurrency, highVolume[..j], highVolume) + EndsFor(startCurrency, midCurrency, highVolume);
      var ends := CycleEnds(startCurrency, midCurrency, highVolume);
      CollectAppend(MidsFor(startCurrency, highVolume[..j], highVolume),
                    EndsFor(startCurrency, midCurrency, highVolume), CycleOpportunity);
      found := found + ends;
    }
    assert highVolume[..|highVolume|] == highVolume;
  }

  /**
   * `find_multi_step_flips`: the high-volume records, the first ten of them as starts, the
   * profitable cycles sorted by profit percent and cut to ten.
   */
  method FindMultiStepFlips(currencies: seq<Item>) returns (r: seq<Opportunity>)
    ensures r == MultiStepFlipsSpec(currencies)
  {
    var highVolume := HighVolume(currencies);
    var starts := Take(highVolume, 10);
    var found: seq<Opportunity> := [];
    for i := 0 to |starts|
      invariant found == Collect(StartsFor(starts[..i], highVolume), CycleOpportunity)
    {
      var startCurrency := starts[i];
      assert starts[..i + 1][..i] == starts[..i];
      if ChaosOf(startCurrency) < 5.0 {
        assert StartsFor(starts[..i + 1], highVolume) == StartsFor(starts[..i], highVolume);
        continue;
      }
      assert StartsFor(starts[..i + 1], highVolume) ==
             StartsFor(starts[..i], highVolume) + MidsFor(startCurrency, highVolume, highVolume);
      var mids := CycleMids(startCurrency, highVolume);
      CollectAppend(StartsFor(starts[..i], highVolume), MidsFor(startCurrency, highVolume, highVolume),
                    CycleOpportunity);
      found := found + mids;
    }
    assert starts[..|starts|] == starts;
    r := Take(SortDesc(found, ProfitKey), 10);
  }

  // ---------------------------------------------------------------- together

  /** The records the flip detector reads: currencies followed by fragments. */
  function FlipCandidates(marketData: Snapshot): seq<Item> {
    Category(marketData, "currencies") + Category(marketData, "fragments")
  }

  /**
   * `analyze_flipping_opportunities(market_data)` as a value: single-step and multi-step flips
   * sorted by score, at most 20; the empty list when the name lookup fails.
   */
  function FlippingSpec(marketData: Snapshot): seq<Opportunity> {
    var all := FlipCandidates(marketData);
    match CurrencyValues(all)
    case None => []
    case Some(_) => Take(SortDesc(Collect(all, SingleStepOf) + MultiStepFlipsSpec(all), ScoreKey), 20)
  }

  method AnalyzeFlippingOpportunities(marketData: Snapshot) returns (r: seq<Opportunity>)
    ensures r == FlippingSpec(marketData)
  {
    var all := FlipCandidates(marketData);
    var currencyValues := CurrencyValues(all);
    if currencyValues.None? {
      return [];
    }
    var flips := SingleStepFlips(all);
    var multi := FindMultiStepFlips(all);
    flips := flips + multi;
    r := Take(SortDesc(flips, ScoreKey), 20);
  }

  /** The flip list is empty whenever a priced currency or fragment lacks a name. */
  lemma FlippingFailsWithoutName(marketData: Snapshot, i: int)
    requires 0 <= i < |FlipCandidates(marketData)|
    requires FlipCandidates(marketData)[i].chaosValue.Some? && FlipCandidates(marketData)[i].name.None?
    ensures FlippingSpec(marketData) == []
  {
  }

  /**
   * Otherwise it is exactly the single-step flips of the currencies and fragments, in input
   * order, stably sorted by score and cut to 20: the multi-step search adds nothing.
   */
  lemma FlippingIsSingleSteps(marketData: Snapshot)
    requires CurrencyValues(FlipCandidates(marketData)).Some?
    ensures FlippingSpec(marketData) == Take(SortDesc(Collect(FlipCandidates(marketData), SingleStepOf), ScoreKey), 20)
  {
    var all := FlipCandidates(marketData);
    MultiStepNeverEmits(all);
    assert Collect(all, SingleStepOf) + [] == Collect(all, SingleStepOf);
  }

  /**
   * So the flip list is at most 20 long, sorted by score, keeps every single-step flip when
   * there are at most 20 of them, and among equal scores keeps a prefix of them in input order.
   */
  lemma FlippingProperties(marketData: Snapshot)
    ensures |FlippingSpec(marketData)| <= 20
    ensures SortedDesc(FlippingSpec(marketData), ScoreKey)
    ensures CurrencyValues(FlipCandidates(marketData)).Some? &&
            |Collect(FlipCandidates(marketData), SingleStepOf)| <= 20 ==>
      multiset(FlippingSpec(marketData)) == multiset(Collect(FlipCandidates(marketData), SingleStepOf))
    ensures forall k :: WithKey(FlippingSpec(marketData), ScoreKey, k) <=
                        WithKey(Collect(FlipCandidates(marketData), SingleStepOf), ScoreKey, k)
  {
    var all := FlipCandidates(marketData);
    if CurrencyValues(all).Some? {
      FlippingIsSingleSteps(marketData);
      TopN(Collect(all, SingleStepOf), 20, ScoreKey);
    }
  }

  /** Every listed flip is the single-step flip of one of the currencies or fragments. */
  lemma FlippingFromInputs(marketData: Snapshot)
    ensures forall o :: o in FlippingSpec(marketData) ==>
      o.SingleStep? && exists i :: 0 <= i < |FlipCandidates(marketData)| &&
                                  SingleStepOf(FlipCandidates(marketData)[i]) == Some(o)
  {
    var all := FlipCandidates(marketData);
    if CurrencyValues(all).Some? {
      FlippingIsSingleSteps(marketData);
      TopN(Collect(all, SingleStepOf), 20, ScoreKey);
      forall o | o in FlippingSpec(marketData)
        ensures o.SingleStep? && exists i :: 0 <= i < |all| && SingleStepOf(all[i]) == Some(o)
      {
        CollectMember(all, SingleStepOf, o);
        var i :| 0 <= i < |all| && SingleStepOf(all[i]) == Some(o);
        SingleStepFields(all[i]);
      }
    }
  }
}
