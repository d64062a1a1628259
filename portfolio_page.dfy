/** The product portfolio page: query validation, its own copy of the portfolio state, and the header text. */
module PortfolioPage {
  import opened Wrappers
  import opened PortfolioTypes
  import SearchParams

  const DatesError: string := "Could not load available analysis dates for portfolios."
  const RecommendationsError: string := "An error occurred while fetching portfolio recommendations."

  /**
   * The redirect to `/dashboard`: the query string is not empty and risk or horizon is
   * missing or not one of its values.
   */
  function ShouldRedirect(params: seq<SearchParams.Param>): (redirect: bool)
    ensures params == [] ==> !redirect
    ensures params != [] ==>
      (redirect <==> !FiltersValid(SearchParams.Get(params, "risk"), SearchParams.Get(params, "horizon")))
  {
    var risk := SearchParams.Get(params, "risk");
    var horizon := SearchParams.Get(params, "horizon");
    params != [] && !FiltersValid(risk, horizon)
  }

  /** The dates are fetched exactly for valid parameters, so never when a redirect is due. */
  lemma FetchOnlyWithoutRedirect(params: seq<SearchParams.Param>)
    requires FiltersValid(SearchParams.Get(params, "risk"), SearchParams.Get(params, "horizon"))
    ensures params != [] && !ShouldRedirect(params)
  {
  }

  // ----- Header text -----

  datatype Content = Content(title: string, description: string)

  const WeekContent: Content := Content("Weekly Portfolio Recommendations",
    "Tactical portfolio recommendations for a 2-4 week horizon, focusing on short-term opportunities.")
  const MonthContent: Content := Content("Monthly Portfolio Recommendations",
    "Strategic portfolio recommendations for a 1-3 month horizon, balancing growth and stability.")
  const YearContent: Content := Content("Yearly Portfolio Recommendations",
    "Long-term portfolio recommendations for a 12+ month horizon, designed for sustained growth.")
  const DefaultContent: Content := Content("Portfolio Recommendations",
    "View curated investment portfolios based on your risk and time horizon.")

  /** `contentConfig`, keyed by horizon. */
  const ContentConfig: map<string, Content> :=
    map["week" := WeekContent, "month" := MonthContent, "year" := YearContent]

  /**
   * The property names every object literal inherits from `Object.prototype`. A bracket lookup
   * of one of them on `contentConfig` finds a function (or, for `__proto__`, the prototype
   * itself) rather than undefined.
   */
  const ObjectPrototypeNames: set<string> := {
    "constructor", "toString", "toLocaleString", "valueOf", "hasOwnProperty", "isPrototypeOf",
    "propertyIsEnumerable", "__proto__", "__defineGetter__", "__defineSetter__",
    "__lookupGetter__", "__lookupSetter__"}

  /** An inherited member has no `title` or `description`: both read undefined and render as nothing. */
  const UndefinedContent: Content := Content("", "")

  /** Looking up a key that `contentConfig` neither has nor inherits, and reading `.title` on the result, throws. */
  datatype RenderError = TypeErrorOnUndefined

  /**
   * The title and description as written: `horizon ? contentConfig[horizon].title : default`.
   * A non-empty horizon that is neither a config key nor an inherited name makes the render throw.
   */
  function ContentAsWritten(horizon: Option<string>): (r: Result<Content, RenderError>)
    ensures !Truthy(horizon) ==> r == Ok(DefaultContent)
    ensures Truthy(horizon) && horizon.value in ContentConfig ==> r == Ok(ContentConfig[horizon.value])
    ensures Truthy(horizon) && horizon.value in ObjectPrototypeNames ==> r == Ok(UndefinedContent)
    ensures Truthy(horizon) && horizon.value !in ContentConfig && horizon.value !in ObjectPrototypeNames ==>
      r.Err?
  {
    if !Truthy(horizon) then Ok(DefaultContent)
    else if horizon.value in ContentConfig then Ok(ContentConfig[horizon.value])
    else if horizon.value in ObjectPrototypeNames then Ok(UndefinedContent)
    else Err(TypeErrorOnUndefined)
  }

  /**
   * `?risk=medium&horizon=weekly` makes the page throw while rendering, although it is
   * exactly a query the redirect rule sends to `/dashboard`: the render runs first.
   */
  lemma InvalidHorizonThrows()
    ensures var params := [SearchParams.Param("risk", "medium"), SearchParams.Param("horizon", "weekly")];
      ShouldRedirect(params) &&
      ContentAsWritten(SearchParams.Get(params, "horizon")).Err?
  {
    var params := [SearchParams.Param("risk", "medium"), SearchParams.Param("horizon", "weekly")];
    assert SearchParams.Get(params, "horizon") == Some("weekly");
  }

  /** The header text, falling back to the default for any horizon outside the config. */
  function PageContent(horizon: Option<string>): (c: Content)
    ensures c in {WeekContent, MonthContent, YearContent, DefaultContent}
    ensures horizon.Some? && horizon.value in ContentConfig ==> c == ContentConfig[horizon.value]
    ensures horizon.None? || horizon.value !in ContentConfig ==> c == DefaultContent
  {
    if horizon.Some? && horizon.value in ContentConfig then ContentConfig[horizon.value]
    else DefaultContent
  }

  /**
   * The corrected text agrees with the page as written wherever the latter renders from an own
   * key or the default; for an inherited name the page as written shows an empty header
   * instead of the default.
   */
  lemma PageContentAgrees(horizon: Option<string>)
    ensures ContentAsWritten(horizon).Ok? && !(Truthy(horizon) && horizon.value in ObjectPrototypeNames) ==>
      ContentAsWritten(horizon).value == PageContent(horizon)
    ensures Truthy(horizon) && horizon.value in ObjectPrototypeNames ==>
      ContentAsWritten(horizon) == Ok(UndefinedContent) && PageContent(horizon) == DefaultContent
    ensures FiltersValid(Some("medium"), horizon) ==> ContentAsWritten(horizon).Ok?
  {
  }

  /** `?horizon=constructor` does not throw: the header renders empty and the redirect runs. */
  lemma InheritedHorizonRendersEmpty()
    ensures var params := [SearchParams.Param("risk", "medium"), SearchParams.Param("horizon", "constructor")];
      ShouldRedirect(params) &&
      ContentAsWritten(SearchParams.Get(params, "horizon")) == Ok(UndefinedContent)
  {
    var params := [SearchParams.Param("risk", "medium"), SearchParams.Param("horizon", "constructor")];
    assert SearchParams.Get(params, "horizon") == Some("constructor");
  }

  // ----- Page state -----

  datatype Table = Table(title: string, rows: seq<Recommendation>)

  /** The recommendations request: the selected date and the two filters. */
  datatype RecommendationsRequest = RecommendationsRequest(date: Date, risk: string, horizon: string)

  datatype PageView =
    | Loading
    | Error(message: string)
    | NoDates
    | Portfolios(content: Content, tables: seq<Table>)

  /** Whether a navigation changes the risk or the horizon, the two filters the effects depend on. */
  predicate FiltersChanged(before: seq<SearchParams.Param>, after: seq<SearchParams.Param>) {
    SearchParams.Get(before, "risk") != SearchParams.Get(after, "risk") ||
    SearchParams.Get(before, "horizon") != SearchParams.Get(after, "horizon")
  }

  /** The page's state; each method is one step of an effect, with the API's answer as a parameter. */
  class PortfolioPageState {
    var params: seq<SearchParams.Param>
    var grouped: Grouped
    var dates: seq<Date>
    var selectedDate: Option<Date>
    var loading: bool
    var error: Option<string>

    constructor (params: seq<SearchParams.Param>)
      ensures this.params == params
      ensures grouped == EmptyGroups && dates == [] && selectedDate.None?
      ensures loading && error.None?
    {
      this.params := params;
      grouped, dates, selectedDate := EmptyGroups, [], None;
      loading, error := true, None;
    }

    function Risk(): Option<string>
      reads this
    {
      SearchParams.Get(params, "risk")
    }

    function Horizon(): Option<string>
      reads this
    {
      SearchParams.Get(params, "horizon")
    }

    /**
     * The dates effect. Unlike the hook, it neither resets the selection nor clears
     * anything when the parameters are invalid.
     */
    method BeginDatesFetch() returns (fetchDates: bool)
      modifies this`loading, this`error, this`dates
      ensures fetchDates == FiltersValid(Risk(), Horizon())
      ensures fetchDates ==> loading && error.None? && dates == []
      ensures !fetchDates ==>
        loading == old(loading) && error == old(error) && dates == old(dates)
    {
      fetchDates := FiltersValid(Risk(), Horizon());
      if fetchDates {
        loading := true;
        error := None;
        dates := [];
      }
    }

    method OnDatesLoaded(raw: seq<Date>)
      modifies this`dates, this`selectedDate, this`grouped, this`loading
      ensures dates == SortDescending(raw)
      ensures raw != [] ==>
        selectedDate == Some(dates[0]) && grouped == old(grouped) && loading == old(loading)
      ensures raw == [] ==> selectedDate.None? && grouped == EmptyGroups && !loading
    {
      var parsed := SortDescending(raw);
      dates := parsed;
      if |parsed| > 0 {
        selectedDate := Some(parsed[0]);
      } else {
        selectedDate := None;
        grouped := EmptyGroups;
        loading := false;
      }
    }

    method OnDatesFailed()
      modifies this`error, this`loading
      ensures error == Some(DatesError) && !loading
    {
      error := Some(DatesError);
      loading := false;
    }

    method SelectDate(d: Option<Date>)
      modifies this`selectedDate
      ensures selectedDate == d
    {
      selectedDate := d;
    }

    /**
     * The recommendations effect starts a request for the selected date and the current
     * filters, or does nothing at all when a filter or the date is missing.
     */
    method BeginRecommendationsFetch() returns (request: Option<RecommendationsRequest>)
      modifies this`loading, this`error
      ensures request.Some? <==> selectedDate.Some? && Truthy(Risk()) && Truthy(Horizon())
      ensures request.Some? ==>
        request.value == RecommendationsRequest(selectedDate.value, Risk().value, Horizon().value)
      ensures request.None? ==> loading == old(loading) && error == old(error)
      ensures request.Some? ==> loading && error.None?
    {
      if selectedDate.Some? && Truthy(Risk()) && Truthy(Horizon()) {
        request := Some(RecommendationsRequest(selectedDate.value, Risk().value, Horizon().value));
        loading := true;
        error := None;
      } else {
        request := None;
      }
    }

    /**
     * A navigation to the same page with new query parameters, as the header's dropdowns make.
     * The redirect check runs on every navigation; the dates and recommendations effects run,
     * in that order, only when risk or horizon changed. The selection is not reset, so a
     * selected date is requested again with the new filters before the new dates arrive.
     */
    method OnParamsChanged(p: seq<SearchParams.Param>)
      returns (redirect: bool, fetchDates: bool, request: Option<RecommendationsRequest>)
      modifies this`params, this`loading, this`error, this`dates
      ensures params == p
      ensures redirect == ShouldRedirect(p)
      ensures selectedDate == old(selectedDate) && grouped == old(grouped)
      ensures fetchDates <==> FiltersChanged(old(params), p) && FiltersValid(Risk(), Horizon())
      ensures request.Some? <==>
        FiltersChanged(old(params), p) && selectedDate.Some? && Truthy(Risk()) && Truthy(Horizon())
      ensures request.Some? ==>
        request.value == RecommendationsRequest(old(selectedDate).value, Risk().value, Horizon().value)
      ensures fetchDates ==> dates == []
      ensures !fetchDates ==> dates == old(dates)
      ensures fetchDates || request.Some? ==> loading && error.None?
      ensures !fetchDates && request.None? ==> loading == old(loading) && error == old(error)
    {
      var changed := FiltersChanged(params, p);
      params := p;
      redirect := ShouldRedirect(p);
      fetchDates, request := false, None;
      if changed {
        fetchDates := BeginDatesFetch();
        request := BeginRecommendationsFetch();
      }
    }

    method OnRecommendationsLoaded(recs: seq<Recommendation>)
      modifies this`grouped, this`loading
      ensures grouped == GroupSpec(recs) && !loading
    {
      grouped := GroupBySize(recs);
      loading := false;
    }

    method OnRecommendationsFailed()
      modifies this`grouped, this`loading, this`error
      ensures error == Some(RecommendationsError) && grouped == EmptyGroups && !loading
    {
      error := Some(RecommendationsError);
      grouped := EmptyGroups;
      loading := false;
    }

    /**
     * What the page as written shows: the header lookup runs on every render, before the status
     * branches, so a horizon it cannot look up makes every render throw, even while loading.
     */
    function ViewAsWritten(): (v: Result<PageView, RenderError>)
      reads this
      ensures ContentAsWritten(Horizon()).Err? <==> v.Err?
      ensures v.Ok? && !View().Portfolios? ==> v.value == View()
      ensures v.Ok? && View().Portfolios? ==>
        v.value == Portfolios(ContentAsWritten(Horizon()).value, View().tables)
    {
      var content := ContentAsWritten(Horizon());
      if content.Err? then Err(content.error)
      else
        var v := View();
        if v.Portfolios? then Ok(Portfolios(content.value, v.tables)) else Ok(v)
    }

    /**
     * What the page shows, with the corrected header: loading, the error, no dates, or one
     * table per size in the order 3, 5, 8.
     */
    function View(): (v: PageView)
      reads this
      ensures v.Loading? <==> loading
      ensures v.Error? <==> !loading && error.Some?
      ensures v.NoDates? <==> !loading && error.None? && dates == []
      ensures v.Portfolios? ==>
        v.content == PageContent(Horizon()) &&
        |v.tables| == |ValidPortfolioSizes| &&
        forall i :: 0 <= i < |v.tables| ==>
          v.tables[i].rows == grouped.Bucket(ValidPortfolioSizes[i])
    {
      if loading then Loading
      else if error.Some? then Error(error.value)
      else if dates == [] then NoDates
      else Portfolios(PageContent(Horizon()), [
        Table("3-Ticker Portfolio", grouped.three),
        Table("5-Ticker Portfolio", grouped.five),
        Table("8-Ticker Portfolio", grouped.eight)])
    }
  }

  /**
   * Switching the horizon from month to year with a date selected asks for the recommendations
   * of the old date under the new horizon, while the new dates are still being fetched.
   */
  method HorizonSwitchKeepsSelectedDate() returns (request: Option<RecommendationsRequest>)
    ensures request == Some(RecommendationsRequest(20, "medium", "year"))
  {
    var page := new PortfolioPageState([SearchParams.Param("risk", "medium"), SearchParams.Param("horizon", "month")]);
    page.SelectDate(Some(20));
    var redirect, fetchDates;
    redirect, fetchDates, request :=
      page.OnParamsChanged([SearchParams.Param("risk", "medium"), SearchParams.Param("horizon", "year")]);
    assert fetchDates && !redirect;
  }
}
