/** `GET /api/v1/dashboard`: the sector analysis, shaped by the caller's subscription tier. */
module DashboardApi {
  import opened Wrappers
  import opened SectorTypes
  import opened UserModels
  import opened HttpErrors

  /** A `sector_rotations` row; the analysis date is a day number. */
  datatype DbRow = DbRow(analysisDate: int, rank: int, sector: string, score: real, details: ProFields)

  const NoData: HttpError := HttpError(404, "No hay datos de análisis disponibles", false)

  /** The signal for a rank: exactly one of three labels. */
  function CalculateSignal(rank: int): (s: string)
    ensures s in {"Overweight", "Underweight", "Neutral"}
    ensures s == "Overweight" <==> rank <= 30
    ensures s == "Underweight" <==> rank >= 85
    ensures s == "Neutral" <==> 30 < rank < 85
  {
    if rank <= 30 then "Overweight"
    else if rank >= 85 then "Underweight"
    else "Neutral"
  }

  /** Lower ranks never get a weaker signal than higher ranks. */
  lemma SignalMonotone(a: int, b: int)
    requires a <= b
    ensures CalculateSignal(b) == "Overweight" ==> CalculateSignal(a) == "Overweight"
    ensures CalculateSignal(a) == "Underweight" ==> CalculateSignal(b) == "Underweight"
  {
  }

  /** The response record for one row; only a PRO caller sees the extended columns. */
  function Record(row: DbRow, tier: SubscriptionTier, isoformat: int -> string): (r: SectorData)
    ensures r.HasMarketContext() <==> tier == PRO
    ensures tier == PRO ==> r.pro == Some(row.details)
    ensures r.signal == CalculateSignal(row.rank) && r.rank == row.rank && r.sector == row.sector
  {
    SectorData(isoformat(row.analysisDate), row.rank, row.sector, row.score,
               CalculateSignal(row.rank), if tier == PRO then Some(row.details) else None)
  }

  /**
   * The endpoint, given the query's rows in the order the query returns them (analysis date
   * descending, then rank ascending). `isoformat` renders a day number as text.
   */
  function GetDashboardData(rows: seq<DbRow>, tier: SubscriptionTier, isoformat: int -> string)
    : (r: Result<seq<SectorData>, HttpError>)
    ensures rows == [] <==> r.Err?
    ensures r.Err? ==> r.error == NoData
    ensures r.Ok? ==> |r.value| == |rows|
    ensures r.Ok? ==> forall i :: 0 <= i < |rows| ==>
      r.value[i].analysisDate == isoformat(rows[i].analysisDate) &&
      r.value[i].rank == rows[i].rank && r.value[i].sector == rows[i].sector &&
      r.value[i].score == rows[i].score &&
      r.value[i].signal == CalculateSignal(rows[i].rank) &&
      (r.value[i].HasMarketContext() <==> tier == PRO) &&
      (tier == PRO ==> r.value[i].pro == Some(rows[i].details))
  {
    if rows == [] then Err(NoData)
    else Ok(seq(|rows|, i requires 0 <= i < |rows| => Record(rows[i], tier, isoformat)))
  }

  /**
   * The FREE response is not shortened: it has one record per PRO record, equal to it once
   * the extended columns are dropped.
   */
  lemma FreeIsProWithoutDetails(rows: seq<DbRow>, isoformat: int -> string)
    requires rows != []
    ensures var free := GetDashboardData(rows, FREE, isoformat).value;
            var pro := GetDashboardData(rows, PRO, isoformat).value;
            |free| == |pro| &&
            forall i :: 0 <= i < |free| ==> free[i] == pro[i].(pro := None)
  {
  }
}
