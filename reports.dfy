/** The admin reports page: the yield-by-crop chart, built by accumulating
    the forecast rows into a dictionary keyed by crop, and the
    recent-activity table, the first five farmers of the shared dataset. */
module Reports {
  import opened Collections
  import opened Domain
  import opened Strings
  import opened Sorting
  import opened Forecast
  import opened Farmers

  /** One bar of the yield chart: a crop with its summed yield and losses. */
  datatype CropTotals = CropTotals(crop: Crop, predictedYield: int, expectedLosses: int)

  function OfCrop(c: Crop): ForecastRow -> bool
  {
    (row: ForecastRow) => row.cropType == c
  }

  /** The entry for crop `c`, summed over the rows of that crop. */
  function TotalsFor(rows: seq<ForecastRow>, c: Crop): CropTotals
  {
    CropTotals(c, SumsFor(rows, c).predictedYield, SumsFor(rows, c).expectedLosses)
  }

  /** The entries for the crops `cs`, in that order. */
  function Totals(rows: seq<ForecastRow>, cs: seq<Crop>): (r: seq<CropTotals>)
    ensures |r| == |cs|
    ensures forall k :: 0 <= k < |cs| ==> r[k] == TotalsFor(rows, cs[k])
  {
    if cs == [] then [] else [TotalsFor(rows, cs[0])] + Totals(rows, cs[1..])
  }

  /** What the chart shows: one entry per crop of the rows, in the order the
      crops first appear, each with the sums over that crop's rows. */
  function GroupByCrop(rows: seq<ForecastRow>): seq<CropTotals>
  {
    Totals(rows, UniqueCrops(rows))
  }

  function EntryCrop(e: CropTotals): Crop { e.crop }

  /** The chart has one bar per distinct crop, each crop once, in
      first-occurrence order. */
  lemma GroupByCropKeys(rows: seq<ForecastRow>)
    ensures Map(GroupByCrop(rows), EntryCrop) == UniqueCrops(rows)
    ensures NoDuplicates(Map(GroupByCrop(rows), EntryCrop))
    ensures forall c :: c in Map(GroupByCrop(rows), EntryCrop) <==> exists row :: row in rows && row.cropType == c
  {
    assert Map(GroupByCrop(rows), EntryCrop) == UniqueCrops(rows);
  }

  /** Adding a row adds its value to the sum of its own crop only. */
  lemma CropSumStep(prefix: seq<ForecastRow>, item: ForecastRow, c: Crop, key: ForecastRow -> int)
    ensures SumBy(Filter(prefix + [item], OfCrop(c)), key)
         == SumBy(Filter(prefix, OfCrop(c)), key) + (if item.cropType == c then key(item) else 0)
  {
    FilterAppend(prefix, [item], OfCrop(c));
    assert Filter([item], OfCrop(c)) == Filter([], OfCrop(c)) + (if item.cropType == c then [item] else []) by {
      FilterCons(item, [], OfCrop(c));
    }
    SumByAppend(Filter(prefix, OfCrop(c)), Filter([item], OfCrop(c)), key);
  }

  /** A crop no row has sums to zero. */
  lemma {:induction false} AbsentCropSumsToZero(rows: seq<ForecastRow>, c: Crop)
    requires c !in Map(rows, CropOf)
    ensures SumsFor(rows, c) == Sums(0, 0)
  {
    if rows != [] {
      var init := rows[..|rows| - 1];
      MapSnoc(init, rows[|rows| - 1], CropOf);
      assert rows == init + [rows[|rows| - 1]];
      AbsentCropSumsToZero(init, c);
    }
  }

  /** The value the dictionary holds for a crop. */
  datatype Sums = Sums(predictedYield: int, expectedLosses: int)

  /** The sums over the rows of crop `c`, added up row by row. */
  function SumsFor(rows: seq<ForecastRow>, c: Crop): Sums
  {
    if rows == [] then Sums(0, 0)
    else
      var s := SumsFor(rows[..|rows| - 1], c);
      var last := rows[|rows| - 1];
      if last.cropType == c then Sums(s.predictedYield + last.predictedYield, s.expectedLosses + last.expectedLosses)
      else s
  }

  /** A row changes the sums of its own crop only, by its yield and losses. */
  lemma SumsStep(prefix: seq<ForecastRow>, item: ForecastRow, c: Crop)
    ensures SumsFor(prefix + [item], c)
         == if item.cropType == c
            then Sums(SumsFor(prefix, c).predictedYield + item.predictedYield,
                      SumsFor(prefix, c).expectedLosses + item.expectedLosses)
            else SumsFor(prefix, c)
  {
    assert (prefix + [item])[..|prefix|] == prefix;
  }

  /** Each crop's sums are the sums of yield and of losses over exactly the
      rows of that crop. */
  lemma {:induction false} SumsForMeaning(rows: seq<ForecastRow>, c: Crop)
    ensures SumsFor(rows, c) == Sums(SumBy(Filter(rows, OfCrop(c)), YieldOf), SumBy(Filter(rows, OfCrop(c)), LossOf))
  {
    if rows != [] {
      var init, last := rows[..|rows| - 1], rows[|rows| - 1];
      assert rows == init + [last];
      SumsForMeaning(init, c);
      CropSumStep(init, last, c, YieldOf);
      CropSumStep(init, last, c, LossOf);
    }
  }

  /** Each crop's entry holds the sums over the rows of that crop. */
  ghost predicate SummaryOf(summary: map<Crop, Sums>, rows: seq<ForecastRow>)
  {
    forall c :: c in summary ==> summary[c] == SumsFor(rows, c)
  }

  /** The dictionary and its key order after the `forEach` has visited `rows`. */
  ghost predicate Accumulated(summary: map<Crop, Sums>, order: seq<Crop>, rows: seq<ForecastRow>)
  {
    order == Dedup(Map(rows, CropOf))
    && (forall c :: c in summary <==> c in order)
    && SummaryOf(summary, rows)
  }

  /** A crop seen for the first time gets a zero entry, which is the sum over
      the (no) rows of that crop so far, and becomes the last key. */
  lemma FirstSight(summary: map<Crop, Sums>, order: seq<Crop>, prefix: seq<ForecastRow>, item: ForecastRow)
    requires Accumulated(summary, order, prefix) && item.cropType !in summary
    ensures var after := summary[item.cropType := Sums(0, 0)];
      (forall c :: c in after <==> c in order + [item.cropType])
      && SummaryOf(after, prefix)
      && order + [item.cropType] == Dedup(Map(prefix + [item], CropOf))
  {
    MapSnoc(prefix, item, CropOf);
    DedupSnoc(Map(prefix, CropOf), item.cropType);
    if item.cropType in Map(prefix, CropOf) {
      DedupCovers(Map(prefix, CropOf), item.cropType);
    }
    AbsentCropSumsToZero(prefix, item.cropType);
  }

  /** A crop seen before keeps the key order. */
  lemma SeenBefore(summary: map<Crop, Sums>, order: seq<Crop>, prefix: seq<ForecastRow>, item: ForecastRow)
    requires Accumulated(summary, order, prefix) && item.cropType in summary
    ensures order == Dedup(Map(prefix + [item], CropOf))
  {
    MapSnoc(prefix, item, CropOf);
    DedupSnoc(Map(prefix, CropOf), item.cropType);
  }

  /** Adding a row's yield and losses to its crop's entry keeps every entry
      the sum over its crop's rows. */
  lemma AddRow(summary: map<Crop, Sums>, order: seq<Crop>, prefix: seq<ForecastRow>, item: ForecastRow, s: Sums)
    requires item.cropType in summary && summary[item.cropType] == s && SummaryOf(summary, prefix)
    requires forall c :: c in summary <==> c in order
    requires order == Dedup(Map(prefix + [item], CropOf))
    ensures Accumulated(summary[item.cropType := Sums(s.predictedYield + item.predictedYield,
                                                      s.expectedLosses + item.expectedLosses)], order, prefix + [item])
  {
    var after := summary[item.cropType := Sums(s.predictedYield + item.predictedYield,
                                               s.expectedLosses + item.expectedLosses)];
    forall c | c in after
      ensures after[c] == SumsFor(prefix + [item], c)
    {
      SumsStep(prefix, item, c);
    }
    assert after.Keys == summary.Keys;
  }

  /** The `forEach` of `yieldSummary`: a zero entry is created the first
      time a crop is seen, and each row's yield and losses are added to its
      crop's entry. `order` is the dictionary's key-insertion order. */
  method Accumulate(forecastData: seq<ForecastRow>) returns (summary: map<Crop, Sums>, order: seq<Crop>)
    ensures Accumulated(summary, order, forecastData)
  {
    summary, order := map[], [];
    var i := 0;
    while i < |forecastData|
      invariant 0 <= i <= |forecastData|
      invariant Accumulated(summary, order, forecastData[..i])
    {
      var item := forecastData[i];
      ghost var prefix := forecastData[..i];
      if item.cropType !in summary {
        FirstSight(summary, order, prefix, item);
        summary := summary[item.cropType := Sums(0, 0)];
        order := order + [item.cropType];
      } else {
        SeenBefore(summary, order, prefix, item);
      }
      var s := summary[item.cropType];
      AddRow(summary, order, prefix, item, s);
      summary := summary[item.cropType := Sums(s.predictedYield + item.predictedYield,
                                               s.expectedLosses + item.expectedLosses)];
      TakeOneMore(forecastData, i);
      i := i + 1;
    }
    assert forecastData[..i] == forecastData;
  }

  /** `yieldSummary`: the accumulated dictionary's entries, in key-insertion
      order, as chart rows. */
  method YieldSummary(forecastData: seq<ForecastRow>) returns (entries: seq<CropTotals>)
    ensures entries == GroupByCrop(forecastData)
  {
    var summary, order := Accumulate(forecastData);
    entries := seq(|order|, k requires 0 <= k < |order| =>
      CropTotals(order[k], summary[order[k]].predictedYield, summary[order[k]].expectedLosses));
    forall k | 0 <= k < |order|
      ensures entries[k] == TotalsFor(forecastData, order[k])
    {
      assert summary[order[k]] == SumsFor(forecastData, order[k]);
    }
  }

  /** The sum of `key` over the rows of each crop in `cs`, added up. */
  function CropSum(rows: seq<ForecastRow>, cs: seq<Crop>, key: ForecastRow -> int): int
  {
    if cs == [] then 0 else SumBy(Filter(rows, OfCrop(cs[0])), key) + CropSum(rows, cs[1..], key)
  }

  lemma {:induction false} CropSumAppendRow(rows: seq<ForecastRow>, item: ForecastRow, cs: seq<Crop>,
                                            key: ForecastRow -> int)
    requires NoDuplicates(cs)
    ensures CropSum(rows + [item], cs, key) == CropSum(rows, cs, key) + (if item.cropType in cs then key(item) else 0)
  {
    if cs != [] {
      assert NoDuplicates(cs[1..]);
      CropSumAppendRow(rows, item, cs[1..], key);
      CropSumStep(rows, item, cs[0], key);
      assert item.cropType in cs <==> item.cropType == cs[0] || item.cropType in cs[1..];
      assert item.cropType == cs[0] ==> item.cropType !in cs[1..];
    }
  }

  /** Summing per crop over crops that cover every row, each once, gives the
      sum over all rows. */
  lemma {:induction false} CropSumCoversAll(rows: seq<ForecastRow>, cs: seq<Crop>, key: ForecastRow -> int)
    requires NoDuplicates(cs)
    requires forall c :: c in Map(rows, CropOf) ==> c in cs
    ensures CropSum(rows, cs, key) == SumBy(rows, key)
  {
    if rows == [] {
      assert CropSum([], cs, key) == 0 by {
        CropSumOfNothing(cs, key);
      }
    } else {
      var init, item := rows[..|rows| - 1], rows[|rows| - 1];
      assert rows == init + [item];
      MapSnoc(init, item, CropOf);
      CropSumCoversAll(init, cs, key);
      CropSumAppendRow(init, item, cs, key);
    }
  }

  lemma {:induction false} CropSumOfNothing(cs: seq<Crop>, key: ForecastRow -> int)
    ensures CropSum([], cs, key) == 0
  {
    if cs != [] {
      CropSumOfNothing(cs[1..], key);
    }
  }

  function YieldTotal(entries: seq<CropTotals>): int
  {
    if entries == [] then 0 else entries[0].predictedYield + YieldTotal(entries[1..])
  }

  function LossTotal(entries: seq<CropTotals>): int
  {
    if entries == [] then 0 else entries[0].expectedLosses + LossTotal(entries[1..])
  }

  lemma {:induction false} TotalsAreCropSums(rows: seq<ForecastRow>, cs: seq<Crop>)
    ensures YieldTotal(Totals(rows, cs)) == CropSum(rows, cs, YieldOf)
    ensures LossTotal(Totals(rows, cs)) == CropSum(rows, cs, LossOf)
  {
    if cs != [] {
      TotalsAreCropSums(rows, cs[1..]);
      SumsForMeaning(rows, cs[0]);
    }
  }

  /** The bars add up to the whole forecast: their yields sum to the total
      predicted yield, their losses to the total expected losses. */
  lemma GroupByCropAddsUp(rows: seq<ForecastRow>)
    ensures YieldTotal(GroupByCrop(rows)) == SumBy(rows, YieldOf)
    ensures LossTotal(GroupByCrop(rows)) == SumBy(rows, LossOf)
  {
    TotalsAreCropSums(rows, UniqueCrops(rows));
    CropSumCoversAll(rows, UniqueCrops(rows), YieldOf);
    CropSumCoversAll(rows, UniqueCrops(rows), LossOf);
  }

  /** `farmerData.slice(0, 5)`: the first five farmers, or all of them when
      there are fewer. */
  function TopFive<T>(xs: seq<T>): (r: seq<T>)
    ensures |r| == if |xs| < 5 then |xs| else 5
    ensures forall k :: 0 <= k < |r| ==> r[k] == xs[k]
  {
    if |xs| < 5 then xs else xs[..5]
  }

  /** Once the farmer page has sorted the shared dataset by name in place,
      the recent-activity table no longer starts with the dataset's first
      farmer whenever a later farmer's name sorts before it. */
  lemma RecentActivityLeadChanges(data: seq<Farmer>, k: nat)
    requires 0 < k < |data| && Less(data[k].name, data[0].name)
    ensures TopFive(InsertionSort(data, Comparator(ByName, Asc)))[0] != TopFive(data)[0]
  {
    var t := InsertionSort(data, Comparator(ByName, Asc));
    assert data[k] in multiset(t);
    var j :| 0 <= j < |t| && t[j] == data[k];
    SortedTable(data, ByName, Asc, 0, j);
    LessAsymmetric(data[k].name, data[0].name);
  }

  /** With the shipped dataset, whose first farmer is Juan Dela Cruz and
      fourth is Ana Garcia, visiting the farmer page changes who heads the
      recent-activity table. */
  lemma ShippedDataLeadChanges(data: seq<Farmer>)
    requires |data| >= 4 && data[0].name == "Juan Dela Cruz" && data[3].name == "Ana Garcia"
    ensures TopFive(InsertionSort(data, Comparator(ByName, Asc)))[0] != TopFive(data)[0]
  {
    assert "Ana Garcia"[0] < "Juan Dela Cruz"[0];
    RecentActivityLeadChanges(data, 3);
  }
}
