/** `usePortfolioData(risk, horizon)`: the portfolio state and the effects that update it. */
module PortfolioData {
  import opened Wrappers
  import opened PortfolioTypes

  const DatesError: string := "Could not load available analysis dates for portfolios."
  const RecommendationsError: string := "An error occurred while fetching portfolio recommendations."

  /**
   * The hook's state. Each method is one step of an effect, with the API's answer as a
   * parameter; `risk` and `horizon` are the hook's arguments.
   */
  class PortfolioDataHook {
    var risk: Option<string>
    var horizon: Option<string>
    var grouped: Grouped
    var dates: seq<Date>
    var selectedDate: Option<Date>
    var loading: bool
    var error: Option<string>

    constructor (risk: Option<string>, horizon: Option<string>)
      ensures this.risk == risk && this.horizon == horizon
      ensures grouped == EmptyGroups && dates == [] && selectedDate.None?
      ensures loading && error.None?
    {
      this.risk, this.horizon := risk, horizon;
      grouped, dates, selectedDate := EmptyGroups, [], None;
      loading, error := true, None;
    }

    /**
     * The dates effect, run when the filters change. Valid filters reset the dates and the
     * selection and ask for the dates; missing or invalid ones clear everything.
     */
    method OnFiltersChanged(r: Option<string>, h: Option<string>) returns (fetchDates: bool)
      modifies this
      ensures risk == r && horizon == h
      ensures fetchDates == FiltersValid(r, h)
      ensures fetchDates ==>
        loading && error.None? && dates == [] && selectedDate.None? && grouped == old(grouped)
      ensures !fetchDates ==>
        grouped == EmptyGroups && dates == [] && selectedDate.None? && !loading && error.None?
    {
      risk, horizon := r, h;
      fetchDates := FiltersValid(r, h);
      if fetchDates {
        loading := true;
        error := None;
        dates := [];
        selectedDate := None;
      } else {
        grouped := EmptyGroups;
        dates := [];
        selectedDate := None;
        loading := false;
        error := None;
      }
    }

    /** The dates arrived: they are sorted newest first and the latest is selected. */
    method OnDatesLoaded(raw: seq<Date>)
      modifies this`dates, this`selectedDate, this`grouped, this`loading
      ensures dates == SortDescending(raw)
      ensures raw != [] ==>
        selectedDate == Some(dates[0]) && grouped == old(grouped) && loading == old(loading)
      ensures raw == [] ==>
        selectedDate == old(selectedDate) && grouped == EmptyGroups && !loading
    {
      var parsed := SortDescending(raw);
      dates := parsed;
      if |parsed| > 0 {
        selectedDate := Some(parsed[0]);
      } else {
        grouped := EmptyGroups;
        loading := false;
      }
    }

    method OnDatesFailed()
      modifies this`error, this`loading
      ensures error == Some(DatesError) && !loading
    {
      error := Some(DatesError);
      loading := false;
    }

    /** The date picker's `setSelectedDate`. */
    method SelectDate(d: Option<Date>)
      modifies this`selectedDate
      ensures selectedDate == d
    {
      selectedDate := d;
    }

    /**
     * The recommendations effect starts. Without a selected date, risk or horizon it
     * clears the buckets and stops loading; otherwise it starts a fetch.
     */
    method BeginRecommendationsFetch() returns (fetch: bool)
      modifies this`grouped, this`loading, this`error
      ensures fetch == (selectedDate.Some? && Truthy(risk) && Truthy(horizon))
      ensures !fetch ==> grouped == EmptyGroups && !loading && error == old(error)
      ensures fetch ==> loading && error.None? && grouped == old(grouped)
    {
      fetch := selectedDate.Some? && Truthy(risk) && Truthy(horizon);
      if !fetch {
        grouped := EmptyGroups;
        loading := false;
      } else {
        loading := true;
        error := None;
      }
    }

    /** The recommendations arrived: they are bucketed by size. */
    method OnRecommendationsLoaded(recs: seq<Recommendation>)
      modifies this`grouped, this`loading
      ensures grouped == GroupSpec(recs) && !loading
    {
      grouped := GroupBySize(recs);
      loading := false;
    }

    method OnRecommendationsFailed()
      modifies this`grouped, this`loading, this`error
      ensures error == Some(RecommendationsError) && grouped == EmptyGroups && !loading
    {
      error := Some(RecommendationsError);
      grouped := EmptyGroups;
      loading := false;
    }
  }
}
