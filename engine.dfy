/**
 * The analysis engine object (analysis_engine.py, class `AnalysisEngine`): it keeps the latest
 * set of opportunities in a field, replaces it on every analysis run and hands it out with a
 * timestamp filled in.
 */
module Engine {
  import opened Wrappers
  import opened Market
  import Knowledge
  import Flipping
  import Farming
  import Crafting
  import Investment

  /** No analysis yet: four empty lists and no timestamp. */
  const Initial: Opportunities := Opportunities([], [], [], [], None)

  /**
   * One analysis run as a value: the four detectors on the snapshot, with the farming tables
   * and crafting catalogue given, stamped with `now`.
   */
  function AnalyzeAllSpec(tables: Knowledge.Tables, catalogue: seq<Knowledge.CraftingMethod>,
                          marketData: Snapshot, now: string): Opportunities {
    Opportunities(Flipping.FlippingSpec(marketData),
                  Farming.FarmingSpec(tables, marketData),
                  Crafting.CraftingSpec(catalogue),
                  Investment.InvestmentSpec(marketData),
                  Some(now))
  }

  /**
   * Every run yields a complete record: a timestamp, each list the result of its detector, at
   * most 20 flips, at most 20 farming and at most 20 investment opportunities, and one crafting
   * opportunity per catalogue entry (ten for the detector's own catalogue,
   * `Crafting.CatalogueEntries`).
   */
  lemma AnalyzeAllProperties(tables: Knowledge.Tables, catalogue: seq<Knowledge.CraftingMethod>,
                             marketData: Snapshot, now: string)
    ensures AnalyzeAllSpec(tables, catalogue, marketData, now).timestamp == Some(now)
    ensures AnalyzeAllSpec(tables, catalogue, marketData, now).flipping == Flipping.FlippingSpec(marketData)
    ensures AnalyzeAllSpec(tables, catalogue, marketData, now).farming == Farming.FarmingSpec(tables, marketData)
    ensures AnalyzeAllSpec(tables, catalogue, marketData, now).crafting == Crafting.CraftingSpec(catalogue)
    ensures AnalyzeAllSpec(tables, catalogue, marketData, now).investment == Investment.InvestmentSpec(marketData)
    ensures |AnalyzeAllSpec(tables, catalogue, marketData, now).flipping| <= 20
    ensures |AnalyzeAllSpec(tables, catalogue, marketData, now).farming| <= 20
    ensures |AnalyzeAllSpec(tables, catalogue, marketData, now).crafting| == |catalogue|
    ensures |AnalyzeAllSpec(tables, catalogue, marketData, now).investment| <= 20
  {
    Flipping.FlippingProperties(marketData);
    Farming.FarmingProperties(tables, marketData);
    Crafting.CraftingProperties(catalogue);
    Investment.InvestmentProperties(marketData);
  }

  /** What `get_opportunities` hands out: the record, with `now` as timestamp if it has none. */
  function Stamped(o: Opportunities, now: string): (r: Opportunities)
    ensures r.timestamp.Some?
    ensures o.timestamp.Some? ==> r == o
    ensures r.flipping == o.flipping && r.farming == o.farming
    ensures r.crafting == o.crafting && r.investment == o.investment
  {
    if o.timestamp.None? then o.(timestamp := Some(now)) else o
  }

  /** Stamping twice is stamping once: the first stamp stays. */
  lemma StampedIdempotent(o: Opportunities, now: string, later: string)
    ensures Stamped(Stamped(o, now), later) == Stamped(o, now)
  {
  }

  class AnalysisEngine {
    /** The farming tables and the crafting catalogue the detectors consult. */
    const tables: Knowledge.Tables
    const catalogue: seq<Knowledge.CraftingMethod>
    var opportunities: Opportunities
    var lastAnalysis: Option<string>

    constructor()
      ensures tables == Knowledge.Builtin && catalogue == Knowledge.CraftingCatalogue
      ensures opportunities == Initial && lastAnalysis == None
    {
      tables := Knowledge.Builtin;
      catalogue := Knowledge.CraftingCatalogue;
      opportunities := Initial;
      lastAnalysis := None;
    }

    /**
     * `analyze_all_opportunities(market_data)` without the file write, the clock read being
     * the parameter `now`. The record is reset, then filled one detector at a time.
     */
    method AnalyzeAllOpportunities(marketData: Snapshot, now: string) returns (r: Opportunities)
      modifies this
      ensures opportunities == AnalyzeAllSpec(tables, catalogue, marketData, now)
      ensures r == opportunities
      ensures lastAnalysis == old(lastAnalysis)
    {
      opportunities := Opportunities([], [], [], [], Some(now));
      var flipping := Flipping.AnalyzeFlippingOpportunities(marketData);
      opportunities := opportunities.(flipping := flipping);
      var farming := Farming.AnalyzeFarmingOpportunities(tables, marketData);
      opportunities := opportunities.(farming := farming);
      var crafting := Crafting.AnalyzeCraftingOpportunities(catalogue, marketData);
      opportunities := opportunities.(crafting := crafting);
      var investment := Investment.AnalyzeInvestmentOpportunities(marketData);
      opportunities := opportunities.(investment := investment);
      r := opportunities;
    }

    /** `get_opportunities()`: fills in a missing timestamp with `now`, then returns the record. */
    method GetOpportunities(now: string) returns (r: Opportunities)
      modifies this
      ensures opportunities == Stamped(old(opportunities), now)
      ensures r == opportunities && r.timestamp.Some?
      ensures lastAnalysis == old(lastAnalysis)
    {
      if opportunities.timestamp.None? {
        opportunities := opportunities.(timestamp := Some(now));
      }
      r := opportunities;
    }
  }
}
