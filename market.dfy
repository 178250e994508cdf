/**
 * The records that flow through the pipeline. A market record is a dictionary whose keys may
 * be missing; each key is an `Option` field here, `None` standing for an absent key.
 */
module Market {
  import opened Wrappers
  import Config

  /** The trend label the integrator attaches ('rising', 'falling', 'stable'). */
  datatype Trend = Rising | Falling | Stable

  /** An item record: a collector line, widened by the integrator. */
  datatype Item = Item(
    name: Option<string>,
    chaosValue: Option<real>,
    tradeVolume: Option<real>,
    receiveChange: Option<real>,
    payChange: Option<real>,
    priceChange: Option<real>,
    volatility: Option<real>,
    league: Option<string>,
    itemType: Option<string>,
    currencyType: Option<string>,
    baseType: Option<string>,
    exaltedValue: Option<real>,
    divineValue: Option<real>,
    detailsId: Option<string>,
    timestamp: Option<string>,
    historicalValue: Option<real>,
    historicalChange: Option<real>,
    priceTrend: Option<Trend>,
    farmingLocations: Option<seq<string>>,
    effect: Option<string>,
    investmentRating: Option<real>,
    stackSize: Option<int>,
    level: Option<int>,
    links: Option<int>,
    quality: Option<int>,
    corrupted: Option<bool>)

  /** The record with no keys at all. */
  const NoKeys: Item := Item(None, None, None, None, None, None, None, None, None, None, None,
                             None, None, None, None, None, None, None, None, None, None, None,
                             None, None, None, None)

  /** `item.get('chaos_value', 0)` */
  function ChaosOf(item: Item): real { item.chaosValue.GetOr(0.0) }

  /** `item.get('trade_volume', 0)` */
  function VolumeOf(item: Item): real { item.tradeVolume.GetOr(0.0) }

  /** `item.get('league', PRIMARY_LEAGUE)` */
  function LeagueOf(item: Item): string { item.league.GetOr(Config.PrimaryLeague) }

  /** `item.get('name', '')` */
  function NameOf(item: Item): string { item.name.GetOr("") }

  /** A market snapshot: category key to the list of its records (`market_data.get(cat, [])`). */
  type Snapshot = map<string, seq<Item>>

  function Category(m: Snapshot, key: string): seq<Item> {
    if key in m then m[key] else []
  }

  /** The farming sub-detectors, one per category that is farmed. */
  datatype FarmKind = ScarabFarm | FragmentFarm | OilFarm | DivinationCardFarm

  /** The item type label an investment record carries. */
  datatype ItemCategory = CurrencyItem | FragmentItem | ScarabItem | OilItem | OtherItem

  /**
   * A strategy text. The templates that embed values carry those values; the fixed texts of
   * the knowledge tables are named by their table and key.
   */
  datatype Advice =
    | FlipAdvice(item: string, price: real)
    | CycleAdvice(start: Option<string>, mid: Option<string>, end: Option<string>, percent: real)
    | ShortTermAdvice(item: string, change: real, price: real)
    | LongTermAdvice(item: string, change: real, price: real)
    | StableAdvice(item: string, price: real)
    | TableText(table: string, key: string)

  /** One recommendation; each detector builds one kind. */
  datatype Opportunity =
    | SingleStep(currency: string, chaosValue: real, volatility: real, potentialProfit: real,
                 advice: Advice, score: real, league: string)
    | MultiStep(path: seq<Option<string>>, profitPercent: real, potentialProfit: real,
                advice: Advice, score: real, league: string)
    | Farming(kind: FarmKind, item: string, chaosValue: real, farmingMethod: string,
              locations: seq<string>, advice: Advice, score: real, league: string)
    | Crafting(name: string, description: Advice, materials: seq<string>, advice: Advice,
               estimatedCost: real, estimatedReturn: real, score: real, league: string)
    | Investment(category: ItemCategory, item: string, chaosValue: real, priceChange: real,
                 rating: real, advice: Advice, league: string)

  /** `x.get('opportunity_score', 0)` */
  function ScoreKey(o: Opportunity): real {
    if o.Investment? then 0.0 else o.score
  }

  /** `x.get('profit_percent', 0)` */
  function ProfitKey(o: Opportunity): real {
    if o.MultiStep? then o.profitPercent else 0.0
  }

  /** `x.get('investment_rating', 0)` */
  function RatingKey(o: Opportunity): real {
    if o.Investment? then o.rating else 0.0
  }

  /** The result of one analysis run. `timestamp` is `None` only before the first run. */
  datatype Opportunities = Opportunities(
    flipping: seq<Opportunity>,
    farming: seq<Opportunity>,
    crafting: seq<Opportunity>,
    investment: seq<Opportunity>,
    timestamp: Option<string>)
}
