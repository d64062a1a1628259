/** The sector-rotation page: default date selection and the previous-period date. */
module RotationsPage {
  import opened Wrappers
  import opened SectorTypes
  import SectorTable

  /** An analysis date, as its timestamp (`getTime()`). */
  type Date = int

  /** `dates.findIndex(d => d.getTime() === selected.getTime())`; -1 when absent. */
  function FindIndex(dates: seq<Date>, selected: Date): (i: int)
    ensures -1 <= i < |dates|
    ensures i == -1 <==> selected !in dates
    ensures i >= 0 ==> dates[i] == selected && forall j :: 0 <= j < i ==> dates[j] != selected
  {
    if dates == [] then -1
    else if dates[0] == selected then 0
    else
      var k := FindIndex(dates[1..], selected);
      if k == -1 then -1 else k + 1
  }

  /** The date whose data is compared against: the entry after the selection, if any. */
  function PreviousDate(dates: seq<Date>, selected: Date): (r: Option<Date>)
    ensures forall i ::
      (0 <= i < |dates| && dates[i] == selected && forall j :: 0 <= j < i ==> dates[j] != selected) ==>
        r == if i + 1 < |dates| then Some(dates[i + 1]) else None
    ensures selected !in dates ==> r == if dates == [] then None else Some(dates[0])
  {
    var i := FindIndex(dates, selected);
    if i + 1 < |dates| then Some(dates[i + 1]) else None
  }

  /** With a descending list of distinct dates, the previous date is the next older one. */
  lemma PreviousIsNextOlder(dates: seq<Date>, i: nat)
    requires i < |dates|
    requires forall a, b :: 0 <= a < b < |dates| ==> dates[a] > dates[b]
    ensures PreviousDate(dates, dates[i]) == if i + 1 < |dates| then Some(dates[i + 1]) else None
    ensures PreviousDate(dates, dates[i]).Some? ==> PreviousDate(dates, dates[i]).value < dates[i]
  {
  }

  /** The two requests of one fetch: the selected date and, when there is one, the previous date. */
  datatype FetchPlan = FetchPlan(current: Date, previous: Option<Date>)

  datatype PageView = Loading | Table(table: SectorTable.TableView)

  class RotationsPageState {
    var data: seq<SectorData>
    var previousData: seq<SectorData>
    var dates: seq<Date>
    var selectedDate: Option<Date>
    var loading: bool

    constructor ()
      ensures data == [] && previousData == [] && dates == []
      ensures selectedDate.None? && !loading
    {
      data, previousData, dates := [], [], [];
      selectedDate, loading := None, false;
    }

    /** The dates arrive: kept as returned, and the first one is selected (none if the list is empty). */
    method OnDatesLoaded(parsed: seq<Date>)
      modifies this
      ensures dates == parsed
      ensures selectedDate == if parsed == [] then None else Some(parsed[0])
      ensures data == old(data) && previousData == old(previousData) && loading == old(loading)
    {
      dates := parsed;
      selectedDate := if parsed == [] then None else Some(parsed[0]);
    }

    /** The date picker's `onChange`. */
    method SelectDate(d: Option<Date>)
      modifies this`selectedDate
      ensures selectedDate == d
    {
      selectedDate := d;
    }

    /** The fetch effect starts: nothing happens without a selection; otherwise `loading` is set. */
    method BeginFetch() returns (plan: Option<FetchPlan>)
      modifies this`loading
      ensures old(selectedDate).None? ==> plan.None? && loading == old(loading)
      ensures old(selectedDate).Some? ==>
        loading &&
        plan == Some(FetchPlan(selectedDate.value, PreviousDate(dates, selectedDate.value)))
    {
      if selectedDate.None? {
        return None;
      }
      loading := true;
      plan := Some(FetchPlan(selectedDate.value, PreviousDate(dates, selectedDate.value)));
    }

    /**
     * Both responses of `plan` arrived. When the plan has no previous date no second
     * request is made and `previousResponse` is ignored.
     */
    method CompleteFetch(plan: FetchPlan, currentResponse: seq<SectorData>,
                         previousResponse: seq<SectorData>)
      modifies this`data, this`previousData, this`loading
      ensures data == currentResponse
      ensures previousData == if plan.previous.Some? then previousResponse else []
      ensures !loading
    {
      data := currentResponse;
      if plan.previous.Some? {
        previousData := previousResponse;
      } else {
        previousData := [];
      }
      loading := false;
    }

    function View(): (v: PageView)
      reads this
      ensures v.Loading? <==> loading
      ensures !loading ==> v.table == SectorTable.Build(Some(data), Some(previousData))
    {
      if loading then Loading else Table(SectorTable.Build(Some(data), Some(previousData)))
    }
  }
}
