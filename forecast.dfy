/** The admin supply-and-forecast page: forecast rows filtered by crop and
    region, the summary cards (total yield, the barangays with the highest
    yield and the highest expected losses), the filter choices, and the table
    with its net-yield column and risk badge. */
module Forecast {
  import opened Collections
  import opened Domain

  /** A forecast record; yields and losses are whole tons. */
  datatype ForecastRow = ForecastRow(
    id: string,
    barangay: string,
    region: string,
    cropType: Crop,
    predictedYield: int,
    expectedLosses: int,
    riskLevel: RiskLevel)

  function YieldOf(row: ForecastRow): int { row.predictedYield }

  function LossOf(row: ForecastRow): int { row.expectedLosses }

  /** The page's filter test: "all" or an exact match, for crop and for region. */
  predicate RowMatches(row: ForecastRow, cropFilter: string, regionFilter: string)
  {
    (cropFilter == "all" || CropName(row.cropType) == cropFilter)
    && (regionFilter == "all" || row.region == regionFilter)
  }

  /** `filteredData`. */
  function FilterRows(rows: seq<ForecastRow>, cropFilter: string, regionFilter: string): (r: seq<ForecastRow>)
    ensures forall row :: row in r <==> row in rows && RowMatches(row, cropFilter, regionFilter)
    ensures IsSubsequence(r, rows)
  {
    var p := (row: ForecastRow) => RowMatches(row, cropFilter, regionFilter);
    assert IsSubsequence(Filter(rows, p), rows) by {
      FilterIsSubsequence(rows, p);
    }
    Filter(rows, p)
  }

  /** With both filters at "all" the table shows the whole dataset, in order. */
  lemma NoFilterKeepsAllRows(rows: seq<ForecastRow>)
    ensures FilterRows(rows, "all", "all") == rows
  {
    FilterAllTrue(rows, (row: ForecastRow) => RowMatches(row, "all", "all"));
  }

  function CropOf(row: ForecastRow): Crop { row.cropType }

  function RegionOf(row: ForecastRow): string { row.region }

  /** `uniqueCrops`: each crop some row has, once, in first-occurrence order. */
  function UniqueCrops(rows: seq<ForecastRow>): (r: seq<Crop>)
    ensures NoDuplicates(r)
    ensures forall c :: c in r <==> exists row :: row in rows && row.cropType == c
    ensures InFirstOccurrenceOrder(r, Map(rows, CropOf))
  {
    MapMembership(rows, CropOf);
    DedupProperties(Map(rows, CropOf));
    Dedup(Map(rows, CropOf))
  }

  /** `uniqueRegions`: each region some row has, once, in first-occurrence order. */
  function UniqueRegions(rows: seq<ForecastRow>): (r: seq<string>)
    ensures NoDuplicates(r)
    ensures forall x :: x in r <==> exists row :: row in rows && row.region == x
    ensures InFirstOccurrenceOrder(r, Map(rows, RegionOf))
  {
    MapMembership(rows, RegionOf);
    DedupProperties(Map(rows, RegionOf));
    Dedup(Map(rows, RegionOf))
  }

  /** `rows.reduce((acc, item) => acc + key(item), 0)`. */
  function SumBy(rows: seq<ForecastRow>, key: ForecastRow -> int): int
  {
    if rows == [] then 0 else SumBy(rows[..|rows| - 1], key) + key(rows[|rows| - 1])
  }

  lemma {:induction false} SumByAppend(a: seq<ForecastRow>, b: seq<ForecastRow>, key: ForecastRow -> int)
    ensures SumBy(a + b, key) == SumBy(a, key) + SumBy(b, key)
    decreases |b|
  {
    if b == [] {
      assert a + b == a;
    } else {
      var init := b[..|b| - 1];
      assert (a + b)[..|a + b| - 1] == a + init;
      SumByAppend(a, init, key);
    }
  }

  /** `k` is where the page's maximum-by-`key` reduction stops: no row beats
      it, and every row before it is strictly smaller. */
  predicate FirstMaximum(rows: seq<ForecastRow>, key: ForecastRow -> int, k: int)
  {
    0 <= k < |rows|
    && (forall i :: 0 <= i < |rows| ==> key(rows[i]) <= key(rows[k]))
    && (forall i :: 0 <= i < k ==> key(rows[i]) < key(rows[k]))
  }

  /** `rows.reduce((max, item) => key(item) > key(max) ? item : max, rows[0])`,
      as the index of the row it returns. */
  function MaxIndexBy(rows: seq<ForecastRow>, key: ForecastRow -> int): (k: nat)
    requires rows != []
    ensures FirstMaximum(rows, key, k)
  {
    if |rows| == 1 then 0
    else
      var init := rows[..|rows| - 1];
      var k := MaxIndexBy(init, key);
      assert forall i :: 0 <= i < |init| ==> rows[i] == init[i];
      if key(rows[|rows| - 1]) > key(rows[k]) then |rows| - 1 else k
  }

  /** Only one index can be the first maximum, so the reduction's answer is determined. */
  lemma FirstMaximumUnique(rows: seq<ForecastRow>, key: ForecastRow -> int, k1: int, k2: int)
    requires FirstMaximum(rows, key, k1) && FirstMaximum(rows, key, k2)
    ensures k1 == k2
  {
    assert key(rows[k1]) <= key(rows[k2]) && key(rows[k2]) <= key(rows[k1]);
  }

  /** A barangay named on a summary card, with its yield or its loss. */
  datatype Leader = Leader(name: string, amount: int)

  datatype Summary = Summary(totalYield: int, highestYield: Leader, highestRisk: Leader)

  const EmptySummary: Summary := Summary(0, Leader("N/A", 0), Leader("N/A", 0))

  /** `summary`. */
  function Summarize(rows: seq<ForecastRow>): (s: Summary)
    ensures rows == [] ==> s == EmptySummary
    ensures s.totalYield == SumBy(rows, YieldOf)
    ensures rows != [] ==>
      exists k :: FirstMaximum(rows, YieldOf, k) && s.highestYield == Leader(rows[k].barangay, rows[k].predictedYield)
    ensures rows != [] ==>
      exists k :: FirstMaximum(rows, LossOf, k) && s.highestRisk == Leader(rows[k].barangay, rows[k].expectedLosses)
  {
    if rows == [] then EmptySummary
    else
      var hy := MaxIndexBy(rows, YieldOf);
      var hr := MaxIndexBy(rows, LossOf);
      Summary(SumBy(rows, YieldOf),
              Leader(rows[hy].barangay, rows[hy].predictedYield),
              Leader(rows[hr].barangay, rows[hr].expectedLosses))
  }

  /** When two barangays tie for the highest yield, the card names the one
      listed first. */
  lemma TieGoesToFirstRow(rows: seq<ForecastRow>, i: nat, j: nat)
    requires i < j < |rows|
    requires rows[i].predictedYield == rows[j].predictedYield
    requires forall k :: 0 <= k < |rows| ==> rows[k].predictedYield <= rows[i].predictedYield
    requires forall k :: 0 <= k < i ==> rows[k].predictedYield < rows[i].predictedYield
    ensures Summarize(rows).highestYield == Leader(rows[i].barangay, rows[i].predictedYield)
  {
    var k :| FirstMaximum(rows, YieldOf, k)
      && Summarize(rows).highestYield == Leader(rows[k].barangay, rows[k].predictedYield);
    assert FirstMaximum(rows, YieldOf, i);
    FirstMaximumUnique(rows, YieldOf, i, k);
  }

  /** "Net Yield (t)": predicted yield less expected losses. */
  function NetYield(row: ForecastRow): int
  {
    row.predictedYield - row.expectedLosses
  }

  /** A row of the forecast table as displayed. */
  datatype TableRow = TableRow(barangay: string, crop: Crop, predictedYield: int,
                               expectedLosses: int, netYield: int, badge: BadgeVariant)

  function TableRows(rows: seq<ForecastRow>): (t: seq<TableRow>)
    ensures |t| == |rows|
    ensures forall i :: 0 <= i < |rows| ==>
      t[i].barangay == rows[i].barangay && t[i].crop == rows[i].cropType
      && t[i].predictedYield == rows[i].predictedYield && t[i].expectedLosses == rows[i].expectedLosses
      && t[i].netYield + t[i].expectedLosses == t[i].predictedYield
      && t[i].netYield == NetYield(rows[i])
      && t[i].badge == RiskVariant(rows[i].riskLevel)
  {
    if rows == [] then []
    else
      var row := rows[0];
      [TableRow(row.barangay, row.cropType, row.predictedYield, row.expectedLosses,
                NetYield(row), RiskVariant(row.riskLevel))] + TableRows(rows[1..])
  }

  /** Summed over the table, net yield is total yield less total losses. */
  lemma {:induction false} NetYieldAddsUp(rows: seq<ForecastRow>)
    ensures SumBy(rows, NetYield) == SumBy(rows, YieldOf) - SumBy(rows, LossOf)
  {
    if rows != [] {
      NetYieldAddsUp(rows[..|rows| - 1]);
    }
  }
}
