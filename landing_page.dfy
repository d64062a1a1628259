/** The public landing page: hero cards, the date banner and the public data fetch. */
module LandingPage {
  import opened Wrappers
  import opened SectorTypes
  import opened PortfolioTypes

  /** The colouring of a regime card. */
  datatype RegimeStyle = RegimeStyle(border: string, bg: string, text: string)

  const RegimeStyles: map<string, RegimeStyle> := map[
    "Leading" := RegimeStyle("border-emerald-500", "bg-emerald-500/10", "text-emerald-400"),
    "Improving" := RegimeStyle("border-emerald-400", "bg-emerald-400/10", "text-emerald-300"),
    "Weakening" := RegimeStyle("border-amber-500", "bg-amber-500/10", "text-amber-400"),
    "Lagging" := RegimeStyle("border-rose-500", "bg-rose-500/10", "text-rose-400")
  ]

  /** The regime shown on a hero card for a signal; it always names a style. */
  function GetRegime(signal: string): (r: string)
    ensures r in RegimeStyles
    ensures signal == "Neutral" <==> r == "Leading"
    ensures signal == "Bullish" <==> r == "Improving"
    ensures signal == "Bearish" <==> r == "Weakening"
    ensures signal !in {"Neutral", "Bullish", "Bearish"} <==> r == "Lagging"
  {
    if signal == "Neutral" then "Leading"
    else if signal == "Bullish" then "Improving"
    else if signal == "Bearish" then "Weakening"
    else "Lagging"
  }

  /** The backend's signals all land on a regime other than "Leading" except "Neutral". */
  lemma BackendSignalsRegimes()
    ensures GetRegime("Overweight") == "Lagging"
    ensures GetRegime("Underweight") == "Lagging"
    ensures GetRegime("Neutral") == "Leading"
  {
    assert "Overweight" != "Neutral" && "Overweight" != "Bullish" && "Overweight" != "Bearish";
    assert "Underweight" != "Neutral" && "Underweight" != "Bullish" && "Underweight" != "Bearish";
  }

  /**
   * `formatDate`: "N/A" for a missing or empty date, otherwise the long US form of the date,
   * which `format` stands for.
   */
  function FormatDate(isoDate: Option<string>, format: string -> string): (r: string)
    ensures !Truthy(isoDate) ==> r == "N/A"
    ensures Truthy(isoDate) ==> r == format(isoDate.value)
  {
    if !Truthy(isoDate) then "N/A" else format(isoDate.value)
  }

  /** The sample table takes the five-stock recommendations only. */
  function PreviewRows(portfolioData: seq<Recommendation>): (r: seq<Recommendation>)
    ensures forall x :: x in r <==> x in portfolioData && x.portfolioSize == 5
  {
    forall x ensures x in SizeBucket(portfolioData, 5) <==> x in portfolioData && x.portfolioSize == 5 {
      SizeBucketMembers(portfolioData, 5, x);
    }
    SizeBucket(portfolioData, 5)
  }

  /** The hero cards: the first four of a shuffled copy of the data. */
  function HeroSectors(shuffled: seq<SectorData>): (r: seq<SectorData>)
    ensures |r| <= 4 && |r| <= |shuffled|
    ensures r == shuffled[..|r|]
  {
    if |shuffled| <= 4 then shuffled else shuffled[..4]
  }

  /** Whatever order the shuffle produced, there are min(4, |data|) cards, all taken from the data. */
  lemma HeroSectorsFromData(shuffled: seq<SectorData>, data: seq<SectorData>)
    requires multiset(shuffled) == multiset(data)
    ensures |HeroSectors(shuffled)| == if |data| < 4 then |data| else 4
    ensures forall x :: x in HeroSectors(shuffled) ==> x in data
  {
    assert |shuffled| == |multiset(shuffled)| == |multiset(data)| == |data|;
    forall x | x in HeroSectors(shuffled) ensures x in data {
      assert x in shuffled;
      assert x in multiset(shuffled);
    }
  }

  /** The three public responses, as they arrive; missing lists are `None`. */
  datatype PublicResponses = PublicResponses(
    currentData: Option<seq<SectorData>>,
    previousData: Option<seq<SectorData>>,
    latestDate: Option<string>,
    latestData: Option<seq<Recommendation>>)

  const FetchFailed: string := "Failed to fetch data. Please try again later."

  class LandingState {
    var data: seq<SectorData>
    var previousData: seq<SectorData>
    var latestAnalysisDate: Option<string>
    var portfolioData: seq<Recommendation>
    var portfolioLatestDate: Option<string>
    var loading: bool
    var error: Option<string>

    constructor ()
      ensures data == [] && previousData == [] && portfolioData == []
      ensures latestAnalysisDate.None? && portfolioLatestDate.None?
      ensures loading && error.None?
    {
      data, previousData, portfolioData := [], [], [];
      latestAnalysisDate, portfolioLatestDate := None, None;
      loading, error := true, None;
    }

    /**
     * `fetchPublicData`. `responses` is `None` when any of the three requests fails;
     * a failure leaves the data as it was and sets the error.
     */
    method FetchPublicData(responses: Option<PublicResponses>)
      modifies this
      ensures !loading
      ensures responses.None? ==>
        error == Some(FetchFailed) && data == old(data) && previousData == old(previousData) &&
        latestAnalysisDate == old(latestAnalysisDate) && portfolioData == old(portfolioData) &&
        portfolioLatestDate == old(portfolioLatestDate)
      ensures responses.Some? ==>
        var resp := responses.value;
        error.None? &&
        data == resp.currentData.GetOr([]) &&
        previousData == resp.previousData.GetOr([]) &&
        latestAnalysisDate == resp.latestDate &&
        portfolioData == resp.latestData.GetOr([]) &&
        (portfolioData != [] ==> portfolioLatestDate == Some(portfolioData[0].analysisDate)) &&
        (portfolioData == [] ==> portfolioLatestDate == old(portfolioLatestDate))
    {
      loading := true;
      error := None;
      if responses.None? {
        error := Some(FetchFailed);
      } else {
        var resp := responses.value;
        data := resp.currentData.GetOr([]);
        previousData := resp.previousData.GetOr([]);
        latestAnalysisDate := resp.latestDate;
        var portData := resp.latestData.GetOr([]);
        portfolioData := portData;
        if |portData| > 0 {
          portfolioLatestDate := Some(portData[0].analysisDate);
        }
      }
      loading := false;
    }
  }
}
