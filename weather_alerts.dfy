/** The admin weather-alerts page: alerts sorted by severity on a copy of
    the dataset, filtered by region and severity, counted per severity for
    the bar chart, and the region choices of the filter. */
module WeatherAlerts {
  import opened Collections
  import opened Sorting

  datatype Severity = Low | Medium | High | Critical

  function SeverityName(s: Severity): string
  {
    match s
    case Low => "Low"
    case Medium => "Medium"
    case High => "High"
    case Critical => "Critical"
  }

  /** A weather alert; `region` is a district name or the value "All". */
  datatype Alert = Alert(id: string, title: string, severity: Severity, region: string)

  /** `severityOrder`: Critical 4, High 3, Medium 2, Low 1. */
  function Rank(s: Severity): (r: int)
    ensures 1 <= r <= 4
  {
    match s
    case Critical => 4
    case High => 3
    case Medium => 2
    case Low => 1
  }

  /** The ranks order the severities strictly: Critical > High > Medium > Low. */
  lemma RankIsStrict()
    ensures Rank(Critical) > Rank(High) > Rank(Medium) > Rank(Low)
    ensures forall a, b :: Rank(a) == Rank(b) ==> a == b
  {
  }

  /** Alerts with severity `s`. */
  function OfSeverity(s: Severity): Alert -> bool
  {
    (a: Alert) => a.severity == s
  }

  /** The alerts appear from the most to the least severe. */
  predicate SortedBySeverity(xs: seq<Alert>)
  {
    forall i, j :: 0 <= i < j < |xs| ==> Rank(xs[i].severity) >= Rank(xs[j].severity)
  }

  lemma SortedTail(ys: seq<Alert>)
    requires ys != [] && SortedBySeverity(ys)
    ensures SortedBySeverity(ys[1..])
    ensures forall z :: z in ys[1..] ==> Rank(ys[0].severity) >= Rank(z.severity)
  {
    forall z | z in ys[1..] ensures Rank(ys[0].severity) >= Rank(z.severity) {
      var k :| 0 <= k < |ys[1..]| && ys[1..][k] == z;
      assert ys[k + 1] == z;
    }
  }

  lemma SortedCons(y: Alert, ys: seq<Alert>)
    requires SortedBySeverity(ys)
    requires forall z :: z in ys ==> Rank(y.severity) >= Rank(z.severity)
    ensures SortedBySeverity([y] + ys)
  {
    var r := [y] + ys;
    forall i, j | 0 <= i < j < |r| ensures Rank(r[i].severity) >= Rank(r[j].severity) {
      assert r[j] == ys[j - 1];
      if i > 0 {
        assert r[i] == ys[i - 1];
      }
    }
  }

  /** The comparator of the sort, `severityOrder[b.severity] - severityOrder[a.severity]`:
      negative when `a` is the more severe, so the more severe goes first. */
  function BySeverity(a: Alert, b: Alert): int
  {
    Rank(b.severity) - Rank(a.severity)
  }

  /** `[...weatherAlertsData].sort(BySeverity)`, with the stable sort of the
      language. */
  function SortBySeverity(xs: seq<Alert>): (r: seq<Alert>)
    ensures multiset(r) == multiset(xs)
    ensures SortedBySeverity(r)
  {
    var r := InsertionSort(xs, BySeverity);
    assert SortedBySeverity(r) by {
      assert Antisymmetric(BySeverity) && Transitive(BySeverity);
      InsertionSortSorted(xs, BySeverity);
      forall i, j | 0 <= i < j < |r|
        ensures Rank(r[i].severity) >= Rank(r[j].severity)
      {
        SortedPairwise(r, BySeverity, i, j);
      }
    }
    r
  }

  /** Stability: for every severity, the alerts of that severity keep their
      relative order from the source list. */
  lemma SortIsStable(xs: seq<Alert>, s: Severity)
    ensures Filter(SortBySeverity(xs), OfSeverity(s)) == Filter(xs, OfSeverity(s))
  {
    InsertionSortIsStable(xs, BySeverity, OfSeverity(s));
  }

  /** The spread copy sorted in place: the dataset array is not in any frame,
      so it is left as it was, and the copy holds the sorted alerts. */
  method SortedCopy(data: array<Alert>) returns (sorted: array<Alert>)
    ensures fresh(sorted)
    ensures sorted[..] == SortBySeverity(data[..])
  {
    sorted := new Alert[data.Length](i reads data requires 0 <= i < data.Length => data[i]);
    assert sorted[..] == data[..];
    SortInPlace(sorted, BySeverity);
  }

  /** The page's filter test: "All" or an exact match, for region and for severity. */
  predicate Matches(a: Alert, regionFilter: string, severityFilter: string)
  {
    (regionFilter == "All" || a.region == regionFilter)
    && (severityFilter == "All" || SeverityName(a.severity) == severityFilter)
  }

  /** `filteredAlerts`. */
  function FilterAlerts(sorted: seq<Alert>, regionFilter: string, severityFilter: string): (r: seq<Alert>)
    ensures forall a :: a in r <==> a in sorted && Matches(a, regionFilter, severityFilter)
    ensures IsSubsequence(r, sorted)
    ensures SortedBySeverity(sorted) ==> SortedBySeverity(r)
  {
    var p := (a: Alert) => Matches(a, regionFilter, severityFilter);
    assert IsSubsequence(Filter(sorted, p), sorted) by {
      FilterIsSubsequence(sorted, p);
    }
    assert SortedBySeverity(sorted) ==> SortedBySeverity(Filter(sorted, p)) by {
      if SortedBySeverity(sorted) {
        FilterKeepsSorted(sorted, p);
      }
    }
    Filter(sorted, p)
  }

  /** Filtering a list sorted by severity leaves it sorted by severity. */
  lemma {:induction false} FilterKeepsSorted(xs: seq<Alert>, p: Alert -> bool)
    requires SortedBySeverity(xs)
    ensures SortedBySeverity(Filter(xs, p))
  {
    if xs != [] {
      SortedTail(xs);
      FilterKeepsSorted(xs[1..], p);
      if p(xs[0]) {
        SortedCons(xs[0], Filter(xs[1..], p));
      }
    }
  }

  /** With both filters at "All" every alert is shown, in sorted order. */
  lemma AllFiltersShowEverything(sorted: seq<Alert>)
    ensures FilterAlerts(sorted, "All", "All") == sorted
  {
    FilterAllTrue(sorted, (a: Alert) => Matches(a, "All", "All"));
  }

  /** Choosing a district hides the alerts whose region is "All". */
  lemma DistrictHidesRegionAll(sorted: seq<Alert>, district: string, severityFilter: string, a: Alert)
    requires district != "All" && a.region == "All"
    ensures a !in FilterAlerts(sorted, district, severityFilter)
  {
  }

  /** The alert list shown: the dataset sorted, then filtered. */
  function VisibleAlerts(data: seq<Alert>, regionFilter: string, severityFilter: string): (r: seq<Alert>)
    ensures SortedBySeverity(r)
    ensures forall a :: a in r <==> a in data && Matches(a, regionFilter, severityFilter)
  {
    var sorted := SortBySeverity(data);
    assert forall a :: a in sorted <==> a in data by {
      forall a ensures a in sorted <==> a in data {
        assert a in sorted <==> a in multiset(sorted);
      }
    }
    FilterAlerts(sorted, regionFilter, severityFilter)
  }

  /** A bar of the severity chart. */
  datatype ChartEntry = ChartEntry(name: string, value: nat)

  const ChartOrder: seq<Severity> := [Low, Medium, High, Critical]

  /** Each alert has exactly one severity, so the four counts add up to the length. */
  lemma {:induction false} CountsAddUp(xs: seq<Alert>)
    ensures Count(xs, OfSeverity(Low)) + Count(xs, OfSeverity(Medium))
          + Count(xs, OfSeverity(High)) + Count(xs, OfSeverity(Critical)) == |xs|
  {
    if xs != [] {
      CountsAddUp(xs[..|xs| - 1]);
    }
  }

  /** The `forEach` of `chartData`: a counter per severity, starting at zero
      and incremented once per filtered alert. */
  method CountBySeverity(filtered: seq<Alert>) returns (counts: map<Severity, nat>)
    ensures counts.Keys == {Low, Medium, High, Critical}
    ensures forall s :: s in counts ==> counts[s] == Count(filtered, OfSeverity(s))
  {
    counts := map[Low := 0, Medium := 0, High := 0, Critical := 0];
    var i := 0;
    assert filtered[..0] == [];
    while i < |filtered|
      invariant 0 <= i <= |filtered|
      invariant counts.Keys == {Low, Medium, High, Critical}
      invariant forall s :: s in counts ==> counts[s] == Count(filtered[..i], OfSeverity(s))
    {
      var s := filtered[i].severity;
      forall t
        ensures Count(filtered[..i + 1], OfSeverity(t)) == Count(filtered[..i], OfSeverity(t)) + (if t == s then 1 else 0)
      {
        CountPrefix(filtered, i, OfSeverity(t));
      }
      counts := counts[s := counts[s] + 1];
      i := i + 1;
    }
    assert filtered[..i] == filtered;
  }

  /** `chartData`: the four counters read out as bars in the order Low,
      Medium, High, Critical. */
  method ChartData(filtered: seq<Alert>) returns (data: seq<ChartEntry>)
    ensures |data| == 4
    ensures forall k :: 0 <= k < 4 ==>
      data[k].name == SeverityName(ChartOrder[k]) && data[k].value == Count(filtered, OfSeverity(ChartOrder[k]))
    ensures data[0].value + data[1].value + data[2].value + data[3].value == |filtered|
  {
    var counts := CountBySeverity(filtered);
    CountsAddUp(filtered);
    data := [ChartEntry("Low", counts[Low]), ChartEntry("Medium", counts[Medium]),
             ChartEntry("High", counts[High]), ChartEntry("Critical", counts[Critical])];
  }

  function AlertRegion(a: Alert): string { a.region }

  /** `uniqueRegions`: the value "All" put in front of the regions of the
      dataset, passed through a `Set`, then through the first-occurrence filter. */
  function UniqueRegions(alerts: seq<Alert>): seq<string>
  {
    KeepFirstOccurrences(Dedup(["All"] + Map(alerts, AlertRegion)))
  }

  /** The region choices start with "All", repeat nothing, offer every region of
      the dataset and nothing else, in the order the regions first appear. */
  lemma UniqueRegionsProperties(alerts: seq<Alert>)
    ensures |UniqueRegions(alerts)| > 0 && UniqueRegions(alerts)[0] == "All"
    ensures NoDuplicates(UniqueRegions(alerts))
    ensures forall x :: x in UniqueRegions(alerts) <==> x == "All" || exists a :: a in alerts && a.region == x
    ensures InFirstOccurrenceOrder(UniqueRegions(alerts), ["All"] + Map(alerts, AlertRegion))
  {
    var all := ["All"] + Map(alerts, AlertRegion);
    var d := Dedup(all);
    MapMembership(alerts, AlertRegion);
    DedupProperties(all);
    DedupHead(all);
    KeepFirstOccurrencesOfDistinct(d);
  }
}
