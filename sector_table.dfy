/** The sector table: one row per current record, paired with the previous period's record. */
module SectorTable {
  import opened Wrappers
  import opened SectorTypes
  import SectorRow

  datatype Row = Row(key: string, sector: SectorData, previous: Option<SectorData>)

  /** "No data available for this date", or the rows of the table. */
  datatype TableView = NoData | Table(rows: seq<Row>)

  /** `previousData.find(p => p.sector === name)`: the first record of that sector. */
  function FindPrevious(previousData: seq<SectorData>, name: string): (r: Option<SectorData>)
    ensures r.None? <==> forall i :: 0 <= i < |previousData| ==> previousData[i].sector != name
    ensures r.Some? ==>
      exists i :: 0 <= i < |previousData| && previousData[i] == r.value &&
        r.value.sector == name &&
        forall j :: 0 <= j < i ==> previousData[j].sector != name
  {
    if previousData == [] then None
    else if previousData[0].sector == name then Some(previousData[0])
    else
      var r := FindPrevious(previousData[1..], name);
      assert r.Some? ==> exists i :: 0 <= i < |previousData[1..]| && previousData[1..][i] == r.value;
      r
  }

  /** The React key of a row: `${analysis_date}-${sector}`. */
  function RowKey(s: SectorData): (k: string)
    ensures |k| == |s.analysisDate| + 1 + |s.sector|
    ensures k[..|s.analysisDate|] == s.analysisDate && k[|s.analysisDate|] == '-'
    ensures k[|s.analysisDate| + 1..] == s.sector
  {
    s.analysisDate + "-" + s.sector
  }

  /**
   * `SectorTable({ data, previousData = [] })`. `None` stands for a missing
   * `previousData` prop, and for a `data` value that is not an array.
   */
  function Build(data: Option<seq<SectorData>>, previousData: Option<seq<SectorData>>): (v: TableView)
    ensures v.NoData? <==> data.None? || data.value == []
    ensures v.Table? ==>
      |v.rows| == |data.value| &&
      forall i :: 0 <= i < |v.rows| ==>
        v.rows[i].sector == data.value[i] &&
        v.rows[i].key == RowKey(data.value[i]) &&
        v.rows[i].previous == FindPrevious(previousData.GetOr([]), data.value[i].sector)
  {
    if data.None? || data.value == [] then NoData
    else
      var current := data.value;
      var previous := previousData.GetOr([]);
      Table(seq(|current|, i requires 0 <= i < |current| =>
        Row(RowKey(current[i]), current[i], FindPrevious(previous, current[i].sector))))
  }

  /** The trend shown in a row. */
  function RowTrend(row: Row): TrendStatus {
    SectorRow.CalculateTrend(Some(row.sector.score),
                             if row.previous.Some? then Some(row.previous.value.score) else None)
  }

  /** Without `previousData`, no row has a previous record and every trend is Stable. */
  lemma OmittedPreviousGivesStable(data: seq<SectorData>)
    requires data != []
    ensures forall i :: 0 <= i < |Build(Some(data), None).rows| ==>
      Build(Some(data), None).rows[i].previous.None? &&
      RowTrend(Build(Some(data), None).rows[i]) == Stable
  {
  }

  /** At most one record per sector. */
  predicate UniqueSectors(s: seq<SectorData>) {
    forall i, j :: 0 <= i < |s| && 0 <= j < |s| && s[i].sector == s[j].sector ==> i == j
  }

  /** With at most one record per sector, the pairing does not depend on the order of `previousData`. */
  lemma {:induction false} PairingIgnoresOrder(a: seq<SectorData>, b: seq<SectorData>, name: string)
    requires UniqueSectors(a)
    requires multiset(a) == multiset(b)
    ensures FindPrevious(a, name) == FindPrevious(b, name)
  {
    var ra, rb := FindPrevious(a, name), FindPrevious(b, name);
    if ra.Some? {
      assert ra.value in multiset(b);
      var k :| 0 <= k < |b| && b[k] == ra.value;
      assert rb.Some?;
      assert rb.value in multiset(a);
      var i :| 0 <= i < |a| && a[i] == ra.value;
      var j :| 0 <= j < |a| && a[j] == rb.value;
      assert i == j;
    }
  }

  /** Keys are unique for distinct (date, sector) pairs when the dates have one length, as ISO dates do. */
  lemma KeyInjective(a: SectorData, b: SectorData)
    requires |a.analysisDate| == |b.analysisDate|
    requires RowKey(a) == RowKey(b)
    ensures a.analysisDate == b.analysisDate && a.sector == b.sector
  {
    var n := |a.analysisDate|;
    assert a.analysisDate == RowKey(a)[..n];
    assert b.analysisDate == RowKey(b)[..n];
    assert a.sector == RowKey(a)[n + 1..];
    assert b.sector == RowKey(b)[n + 1..];
  }

  /** Dates of different lengths can collide: ("2024-01-05", "X") and ("2024-01", "05-X") share a key. */
  lemma KeyCollisionForUnequalDates()
    ensures var a := SectorData("2024-01-05", 1, "X", 0.0, "", None);
            var b := SectorData("2024-01", 2, "05-X", 0.0, "", None);
            RowKey(a) == RowKey(b) && a.sector != b.sector
  {
  }

  /** All rows of a table get distinct keys when the records' (date, sector) pairs are distinct and the dates have one length. */
  lemma {:induction false} DistinctKeys(data: seq<SectorData>, previousData: Option<seq<SectorData>>, dateLength: nat)
    requires data != []
    requires forall i :: 0 <= i < |data| ==> |data[i].analysisDate| == dateLength
    requires forall i, j :: 0 <= i < j < |data| ==>
      (data[i].analysisDate, data[i].sector) != (data[j].analysisDate, data[j].sector)
    ensures var rows := Build(Some(data), previousData).rows;
      forall i, j :: 0 <= i < j < |rows| ==> rows[i].key != rows[j].key
  {
    var rows := Build(Some(data), previousData).rows;
    forall i, j | 0 <= i < j < |rows| ensures rows[i].key != rows[j].key {
      assert rows[i].key == RowKey(data[i]) && rows[j].key == RowKey(data[j]);
    }
  }
}
