/** One row of the sector table: trend classification, signal badge and the expand toggle. */
module SectorRow {
  import opened Wrappers
  import opened SectorTypes
  import SectorDetails
  import DashboardApi

  /** The fixed absolute score threshold of the trend classification. */
  const Threshold: real := 0.3

  /** `calculateTrend(current?, previous?)` */
  function CalculateTrend(current: Option<real>, previous: Option<real>): (t: TrendStatus)
    ensures current.None? || previous.None? ==> t == Stable
    ensures t == Up <==>
      current.Some? && previous.Some? && current.value > previous.value + 0.3
    ensures t == Down <==>
      current.Some? && previous.Some? && current.value < previous.value - 0.3
  {
    if current.None? || previous.None? then Stable
    else if current.value > previous.value + Threshold then Up
    else if current.value < previous.value - Threshold then Down
    else Stable
  }

  /** The comparisons are strict: equal scores, or a difference of exactly 0.3, give Stable. */
  lemma StrictThreshold(x: real)
    ensures CalculateTrend(Some(x), Some(x)) == Stable
    ensures CalculateTrend(Some(x + 0.3), Some(x)) == Stable
    ensures CalculateTrend(Some(x - 0.3), Some(x)) == Stable
  {
  }

  function Opposite(t: TrendStatus): TrendStatus {
    match t
    case Up => Down
    case Down => Up
    case Stable => Stable
  }

  /** Swapping the current and previous scores swaps Up and Down. */
  lemma SwapScores(c: Option<real>, p: Option<real>)
    ensures CalculateTrend(p, c) == Opposite(CalculateTrend(c, p))
  {
  }

  /** The badge classes per signal; unknown signals fall back to the neutral style. */
  const SignalStyles: map<string, string> := map[
    "Overweight" := "bg-emerald-100 text-emerald-700",
    "Underweight" := "bg-red-100 text-red-700",
    "Consolidation" := "bg-slate-100 text-slate-700",
    "Bullish" := "bg-emerald-100 text-emerald-700",
    "Bearish" := "bg-red-100 text-red-700",
    "Neutral" := "bg-slate-100 text-slate-700"]

  const DefaultSignalStyle: string := "bg-slate-100 text-slate-700"

  /** `signalStyles[sector.signal] || 'bg-slate-100 text-slate-700'` */
  function SignalClasses(signal: string): (c: string)
    ensures signal in SignalStyles ==> c == SignalStyles[signal]
    ensures signal !in SignalStyles ==> c == DefaultSignalStyle
    ensures c != ""
  {
    if signal in SignalStyles && SignalStyles[signal] != "" then SignalStyles[signal]
    else DefaultSignalStyle
  }

  /** Every signal the back end computes is a key of the style table, so none falls back. */
  lemma BackendSignalsStyled(rank: int)
    ensures DashboardApi.CalculateSignal(rank) in SignalStyles
    ensures SignalClasses(DashboardApi.CalculateSignal(rank)) != DefaultSignalStyle <==> rank <= 30 || rank >= 85
  {
  }

  /** The text colour of the trend cell. */
  function TrendColor(t: TrendStatus): (c: string)
    ensures (c == "text-emerald-600") == (t == Up)
    ensures (c == "text-red-500") == (t == Down)
  {
    if t == Up then "text-emerald-600" else if t == Down then "text-red-500" else "text-slate-500"
  }

  /** What a row shows: its trend, its badge classes, and the details panel when open. */
  datatype RowView = RowView(
    trend: TrendStatus,
    signalClasses: string,
    details: Option<SectorDetails.DetailsView>)

  function View(sector: SectorData, previous: Option<SectorData>, open: bool,
                numberText: real -> string): (v: RowView)
    ensures v.trend == CalculateTrend(Some(sector.score),
                                      if previous.Some? then Some(previous.value.score) else None)
    ensures previous.None? ==> v.trend == Stable
    ensures v.details.Some? <==> open
    ensures open ==> v.details.value == SectorDetails.Render(sector, numberText)
  {
    var previousScore := if previous.Some? then Some(previous.value.score) else None;
    RowView(CalculateTrend(Some(sector.score), previousScore),
            SignalClasses(sector.signal),
            if open then Some(SectorDetails.Render(sector, numberText)) else None)
  }

  /** The row's `open` state starts closed; a click flips it. */
  const InitiallyOpen: bool := false

  function Click(open: bool): (r: bool)
    ensures r != open
  {
    !open
  }

  /** Two clicks restore the row's state. */
  lemma ClickTwice(open: bool)
    ensures Click(Click(open)) == open
  {
  }
}
