/**
 * Portfolio filters and recommendations, with the two list operations the portfolio
 * views share: sorting the analysis dates newest first, and bucketing by portfolio size.
 */
module PortfolioTypes {
  import opened Wrappers

  const ValidRisks: seq<string> := ["low", "medium", "high"]
  const ValidHorizons: seq<string> := ["week", "month", "year"]
  const ValidPortfolioSizes: seq<int> := [3, 5, 8]

  datatype PositionDirection = Long | Short

  /**
   * A portfolio recommendation. `portfolioSize` is the integer the API sent, which the
   * views test against the valid sizes; the display-only columns are not modelled.
   */
  datatype Recommendation = Recommendation(
    id: int,
    portfolioSize: int,
    analysisDate: string,
    ticker: string,
    sector: Option<string>,
    suggestedPortfolioPercentage: real,
    direction: PositionDirection)

  /** A JavaScript string value is truthy when present and non-empty. */
  predicate Truthy(s: Option<string>) {
    s.Some? && s.value != ""
  }

  /** `risk && horizon && VALID_RISKS.includes(risk) && VALID_HORIZONS.includes(horizon)` */
  predicate FiltersValid(risk: Option<string>, horizon: Option<string>) {
    Truthy(risk) && Truthy(horizon) && risk.value in ValidRisks && horizon.value in ValidHorizons
  }

  /** The truthiness tests add nothing: no valid risk or horizon is empty. */
  lemma FiltersValidIsMembership(risk: Option<string>, horizon: Option<string>)
    ensures FiltersValid(risk, horizon) <==>
      risk.Some? && horizon.Some? && risk.value in ValidRisks && horizon.value in ValidHorizons
  {
  }

  // ----- Dates, newest first -----

  /** An analysis date, as its timestamp (`getTime()`). */
  type Date = int

  predicate SortedDescending(s: seq<Date>) {
    forall i, j :: 0 <= i < j < |s| ==> s[i] >= s[j]
  }

  /** A date no earlier than every element of a descending list can lead it. */
  lemma PrependSorted(h: Date, t: seq<Date>)
    requires SortedDescending(t)
    requires forall y :: y in t ==> y <= h
    ensures SortedDescending([h] + t)
  {
    var r := [h] + t;
    forall i, j | 0 <= i < j < |r| ensures r[i] >= r[j] {
      assert r[j] == t[j - 1] && t[j - 1] in t;
      if i > 0 {
        assert r[i] == t[i - 1];
      }
    }
  }

  /** Inserts `x` into a descending list before the first element smaller than it. */
  function InsertDescending(x: Date, s: seq<Date>): (r: seq<Date>)
    requires SortedDescending(s)
    ensures SortedDescending(r)
    ensures multiset(r) == multiset(s) + multiset{x}
  {
    if s == [] || x >= s[0] then
      forall y | y in s ensures y <= x {
        var k :| 0 <= k < |s| && s[k] == y;
        assert s[0] >= s[k];
      }
      PrependSorted(x, s);
      [x] + s
    else
      var rest := InsertDescending(x, s[1..]);
      assert s == [s[0]] + s[1..];
      forall y | y in rest ensures y <= s[0] {
        assert y in multiset(rest);
        if y != x {
          assert y in multiset(s[1..]);
          var k :| 0 <= k < |s[1..]| && s[1..][k] == y;
          assert s[0] >= s[k + 1];
        }
      }
      PrependSorted(s[0], rest);
      [s[0]] + rest
  }

  /** `dates.sort((a, b) => b.getTime() - a.getTime())` */
  function SortDescending(s: seq<Date>): (r: seq<Date>)
    ensures SortedDescending(r)
    ensures multiset(r) == multiset(s)
  {
    if s == [] then []
    else
      assert s == [s[0]] + s[1..];
      InsertDescending(s[0], SortDescending(s[1..]))
  }

  /** The first element of the sorted list is the latest date. */
  lemma FirstIsLatest(s: seq<Date>)
    requires s != []
    ensures SortDescending(s) != []
    ensures SortDescending(s)[0] in s
    ensures forall d :: d in s ==> d <= SortDescending(s)[0]
  {
    var r := SortDescending(s);
    assert |r| == |multiset(r)| == |multiset(s)| == |s|;
    assert r[0] in multiset(s);
    forall d | d in s ensures d <= r[0] {
      assert d in multiset(r);
      var k :| 0 <= k < |r| && r[k] == d;
    }
  }

  // ----- Bucketing by portfolio size -----

  /** `{ 3: [...], 5: [...], 8: [...] }` */
  datatype Grouped = Grouped(three: seq<Recommendation>, five: seq<Recommendation>,
                             eight: seq<Recommendation>)
  {
    /** `groupedPortfolioData[size]` */
    function Bucket(size: int): seq<Recommendation>
      requires size in ValidPortfolioSizes
    {
      if size == 3 then three else if size == 5 then five else eight
    }
  }

  const EmptyGroups: Grouped := Grouped([], [], [])

  /** The records of size `k`, in input order. */
  function SizeBucket(recs: seq<Recommendation>, k: int): (r: seq<Recommendation>)
    ensures |r| <= |recs|
    ensures forall i :: 0 <= i < |r| ==> r[i].portfolioSize == k
  {
    if recs == [] then []
    else if recs[0].portfolioSize == k then [recs[0]] + SizeBucket(recs[1..], k)
    else SizeBucket(recs[1..], k)
  }

  /** A record is in bucket `k` exactly when it is among the input and has size `k`. */
  lemma {:induction false} SizeBucketMembers(recs: seq<Recommendation>, k: int, x: Recommendation)
    ensures x in SizeBucket(recs, k) <==> x in recs && x.portfolioSize == k
  {
    if recs != [] {
      SizeBucketMembers(recs[1..], k, x);
      assert recs == [recs[0]] + recs[1..];
    }
  }

  /** Bucketing distributes over concatenation: relative order is kept. */
  lemma {:induction false} SizeBucketAppend(a: seq<Recommendation>, b: seq<Recommendation>, k: int)
    ensures SizeBucket(a + b, k) == SizeBucket(a, k) + SizeBucket(b, k)
  {
    if a == [] {
      assert a + b == b;
    } else {
      assert (a + b)[0] == a[0];
      assert (a + b)[1..] == a[1..] + b;
      SizeBucketAppend(a[1..], b, k);
    }
  }

  /** The bucketing the views specify: one bucket per valid size, order kept. */
  function GroupSpec(recs: seq<Recommendation>): Grouped {
    Grouped(SizeBucket(recs, 3), SizeBucket(recs, 5), SizeBucket(recs, 8))
  }

  /**
   * `recommendations.forEach(item => { if (VALID_PORTFOLIO_SIZES.includes(item.portfolio_size))
   * newGroupedData[item.portfolio_size].push(item) })`
   */
  method GroupBySize(recs: seq<Recommendation>) returns (g: Grouped)
    ensures g == GroupSpec(recs)
  {
    g := EmptyGroups;
    var i := 0;
    while i < |recs|
      invariant 0 <= i <= |recs|
      invariant g == GroupSpec(recs[..i])
    {
      var item := recs[i];
      assert recs[..i + 1] == recs[..i] + [item];
      SizeBucketAppend(recs[..i], [item], 3);
      SizeBucketAppend(recs[..i], [item], 5);
      SizeBucketAppend(recs[..i], [item], 8);
      assert [item][1..] == [];
      if item.portfolioSize in ValidPortfolioSizes {
        if item.portfolioSize == 3 {
          g := g.(three := g.three + [item]);
        } else if item.portfolioSize == 5 {
          g := g.(five := g.five + [item]);
        } else {
          g := g.(eight := g.eight + [item]);
        }
      }
      i := i + 1;
    }
    assert recs[..i] == recs;
  }

  /** The records whose size is valid, in input order. */
  function ValidSizeRecords(recs: seq<Recommendation>): (r: seq<Recommendation>)
    ensures |r| <= |recs|
    ensures forall i :: 0 <= i < |r| ==> r[i].portfolioSize in ValidPortfolioSizes
  {
    if recs == [] then []
    else if recs[0].portfolioSize in ValidPortfolioSizes then [recs[0]] + ValidSizeRecords(recs[1..])
    else ValidSizeRecords(recs[1..])
  }

  /** The buckets together hold exactly the valid-size records: their lengths sum to that count. */
  lemma {:induction false} BucketLengthsSum(recs: seq<Recommendation>)
    ensures |SizeBucket(recs, 3)| + |SizeBucket(recs, 5)| + |SizeBucket(recs, 8)|
         == |ValidSizeRecords(recs)|
  {
    if recs != [] {
      BucketLengthsSum(recs[1..]);
    }
  }
}
