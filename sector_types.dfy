/** The sector records the tables render: `SectorBase | SectorPro` and `TrendStatus`. */
module SectorTypes {
  import opened Wrappers

  /** The extended fields that only a `SectorPro` record carries. */
  datatype ProFields = ProFields(
    marketContext: string,
    phaseAndHealth: string,
    rationaleAndElliottWave: string,
    riskAndVolumeProfile: string,
    executionProtocol: string,
    top3Tickers: string,
    sectorPortfolioPercentage: real,
    weekTargets: string)

  /** A `SectorData` record: the base fields, plus the extended ones when it is a `SectorPro`. */
  datatype SectorData = SectorData(
    analysisDate: string,
    rank: int,
    sector: string,
    score: real,
    signal: string,
    pro: Option<ProFields>)
  {
    /** The discriminant `'market_context' in sector`. */
    predicate HasMarketContext() {
      pro.Some?
    }
  }

  datatype TrendStatus = Up | Down | Stable
}
