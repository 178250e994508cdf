/** The configuration constants the core reads (config.py). */
module Config {

  /** The current league, whose prices the opportunities are computed for. */
  const PrimaryLeague: string := "Phrecia"

  /** The reference league used for trend comparison. */
  const HistoricalLeague: string := "Settlers"

  const CurrentLeagues: seq<string> := [PrimaryLeague, HistoricalLeague]

  /** The seven item categories of a market snapshot, in the order the collector fills them. */
  const CategoryKeys: seq<string> :=
    ["currencies", "fragments", "oils", "incubators", "artifacts", "divination_cards", "scarabs"]

  /** The item type tags the collector attaches to item records. */
  const ScarabType: string := "Scarab"
  const DivinationCardType: string := "DivinationCard"
}
