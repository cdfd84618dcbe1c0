/** The admin farmer-data page: the table state (sort column and direction,
    search term, crop and risk check boxes), the three filters, and the
    comparator sort, which runs in place on whatever array the filters left,
    the shared dataset itself when no filter is active. */
module Farmers {
  import opened Collections
  import opened Strings
  import opened Domain
  import opened Sorting

  /** A farmer record. `farmSize` is in tenths of a hectare (5.5 ha is 55). */
  datatype Farmer = Farmer(
    id: string,
    name: string,
    barangay: string,
    farmSize: nat,
    crops: seq<Crop>,
    lastActivity: string,
    riskLevel: RiskLevel,
    contact: string)

  /** The sortable columns; `NoKey` is the empty key, which turns sorting off. */
  datatype SortKey = NoKey | ByName | ByBarangay | ByFarmSize | ByRiskLevel

  datatype SortDirection = Asc | Desc

  // ---------------------------------------------------------------------
  // Sort state

  /** `handleSort`: the sort state after a click on the header of `clicked`. */
  function NextSort(key: SortKey, dir: SortDirection, clicked: SortKey): (r: (SortKey, SortDirection))
    ensures clicked == key ==> r.0 == key && r.1 != dir
    ensures clicked != key ==> r == (clicked, Asc)
  {
    if clicked == key then (key, if dir == Asc then Desc else Asc) else (clicked, Asc)
  }

  /** Two clicks on the current column give back the state before them. */
  lemma ClickTwiceRestores(key: SortKey, dir: SortDirection)
    ensures NextSort(NextSort(key, dir, key).0, NextSort(key, dir, key).1, key) == (key, dir)
  {
  }

  // ---------------------------------------------------------------------
  // Check boxes

  /** The update of a filter list when the box for `v` is checked or unchecked:
      `checked ? [...prev, v] : prev.filter(c => c !== v)`. */
  function Toggle<T(==,!new)>(prev: seq<T>, v: T, checked: bool): (r: seq<T>)
    ensures checked ==> r == prev + [v]
    ensures !checked ==> v !in r && IsSubsequence(r, prev)
    ensures !checked ==> forall x :: x != v ==> (x in r <==> x in prev)
  {
    if checked then prev + [v]
    else
      var p := (x: T) => x != v;
      FilterIsSubsequence(prev, p);
      Filter(prev, p)
  }

  /** Checking a box that was not checked and unchecking it again restores the list. */
  lemma CheckThenUncheckRestores<T(!new)>(prev: seq<T>, v: T)
    requires v !in prev
    ensures Toggle(Toggle(prev, v, true), v, false) == prev
  {
    var p := (x: T) => x != v;
    FilterAppend(prev, [v], p);
    FilterAllTrue(prev, p);
  }

  /** The table's state: the React state variables of the page. */
  class FarmerTable {
    var searchTerm: string
    var cropFilters: seq<Crop>
    var riskFilters: seq<RiskLevel>
    var sortKey: SortKey
    var sortDirection: SortDirection

    /** The initial state: no search, no check box ticked, sorted by name ascending. */
    constructor ()
      ensures searchTerm == "" && cropFilters == [] && riskFilters == []
      ensures sortKey == ByName && sortDirection == Asc
    {
      searchTerm := "";
      cropFilters := [];
      riskFilters := [];
      sortKey := ByName;
      sortDirection := Asc;
    }

    method HandleSort(key: SortKey)
      modifies this
      ensures (sortKey, sortDirection) == NextSort(old(sortKey), old(sortDirection), key)
      ensures searchTerm == old(searchTerm) && cropFilters == old(cropFilters) && riskFilters == old(riskFilters)
    {
      if sortKey == key {
        sortDirection := if sortDirection == Asc then Desc else Asc;
      } else {
        sortKey := key;
        sortDirection := Asc;
      }
    }

    method SetSearchTerm(term: string)
      modifies this
      ensures searchTerm == term
      ensures cropFilters == old(cropFilters) && riskFilters == old(riskFilters)
      ensures sortKey == old(sortKey) && sortDirection == old(sortDirection)
    {
      searchTerm := term;
    }

    method OnCropCheckedChange(crop: Crop, checked: bool)
      modifies this
      ensures cropFilters == Toggle(old(cropFilters), crop, checked)
      ensures searchTerm == old(searchTerm) && riskFilters == old(riskFilters)
      ensures sortKey == old(sortKey) && sortDirection == old(sortDirection)
    {
      cropFilters := Toggle(cropFilters, crop, checked);
    }

    method OnRiskCheckedChange(risk: RiskLevel, checked: bool)
      modifies this
      ensures riskFilters == Toggle(old(riskFilters), risk, checked)
      ensures searchTerm == old(searchTerm) && cropFilters == old(cropFilters)
      ensures sortKey == old(sortKey) && sortDirection == old(sortDirection)
    {
      riskFilters := Toggle(riskFilters, risk, checked);
    }

    /** Whether any of the three filters replaces the dataset array by a new one. */
    predicate FiltersActive()
      reads this
    {
      searchTerm != "" || |cropFilters| > 0 || |riskFilters| > 0
    }

    /** `filteredAndSortedData`. Filtering builds new arrays; when no filter is
        active `data` stays the dataset array itself, and the comparator sort
        then reorders that shared array in place. */
    method FilteredAndSorted(farmerData: array<Farmer>) returns (data: array<Farmer>)
      modifies farmerData
      ensures !FiltersActive() ==> data == farmerData
      ensures FiltersActive() ==> fresh(data) && farmerData[..] == old(farmerData[..])
      ensures var kept := FilterFarmers(old(farmerData[..]), searchTerm, cropFilters, riskFilters);
              data[..] == if sortKey == NoKey then kept else InsertionSort(kept, Comparator(sortKey, sortDirection))
    {
      var rows := FilterFarmers(farmerData[..], searchTerm, cropFilters, riskFilters);
      if FiltersActive() {
        data := new Farmer[|rows|](i requires 0 <= i < |rows| => rows[i]);
        assert data[..] == rows;
      } else {
        NoFilterKeepsAll(farmerData[..]);
        data := farmerData;
        assert data[..] == rows;
      }
      if sortKey != NoKey {
        SortInPlace(data, Comparator(sortKey, sortDirection));
      }
    }

    /** `filteredAndSortedData` as evidently intended: the kept rows are always
        copied into a new array, so the sort never reorders the dataset that
        other pages read. The rows shown are the same as above. */
    method FilteredAndSortedCopy(farmerData: array<Farmer>) returns (data: array<Farmer>)
      ensures fresh(data)
      ensures var kept := FilterFarmers(farmerData[..], searchTerm, cropFilters, riskFilters);
              data[..] == if sortKey == NoKey then kept else InsertionSort(kept, Comparator(sortKey, sortDirection))
    {
      var rows := FilterFarmers(farmerData[..], searchTerm, cropFilters, riskFilters);
      data := new Farmer[|rows|](i requires 0 <= i < |rows| => rows[i]);
      assert data[..] == rows;
      if sortKey != NoKey {
        SortInPlace(data, Comparator(sortKey, sortDirection));
      }
    }
  }

  /** `farmerData.flatMap(f => f.crops)`. */
  function FlatCrops(farmers: seq<Farmer>): (r: seq<Crop>)
    ensures forall c :: c in r <==> exists i :: 0 <= i < |farmers| && c in farmers[i].crops
  {
    if farmers == [] then []
    else
      var rest := FlatCrops(farmers[1..]);
      assert forall i :: 0 < i < |farmers| ==> farmers[i] == farmers[1..][i - 1];
      farmers[0].crops + rest
  }

  /** `allCrops`: the crop check boxes, each crop grown by some farmer once,
      in the order the dataset first names it. */
  function AllCrops(farmers: seq<Farmer>): (r: seq<Crop>)
    ensures NoDuplicates(r)
    ensures forall c :: c in r <==> exists i :: 0 <= i < |farmers| && c in farmers[i].crops
    ensures InFirstOccurrenceOrder(r, FlatCrops(farmers))
  {
    DedupProperties(FlatCrops(farmers));
    Dedup(FlatCrops(farmers))
  }

  // ---------------------------------------------------------------------
  // Filters

  /** A number of tenths as `String` prints it: "3" for 30, "5.5" for 55. */
  function TenthsToString(t: nat): string
  {
    NatToString(t / 10) + (if t % 10 == 0 then "" else "." + [DigitChar(t % 10)])
  }

  function DigitChar(d: nat): char
    requires d < 10
  {
    ('0' as int + d) as char
  }

  function NatToString(n: nat): string
    decreases n
  {
    if n < 10 then [DigitChar(n)] else NatToString(n / 10) + [DigitChar(n % 10)]
  }

  /** `String(crops)`: the crop names joined by commas. */
  function JoinCrops(crops: seq<Crop>): string
  {
    if crops == [] then ""
    else if |crops| == 1 then CropName(crops[0])
    else CropName(crops[0]) + "," + JoinCrops(crops[1..])
  }

  /** `Object.values(farmer).map(String)`, in the record's field order. */
  function FieldStrings(f: Farmer): seq<string>
  {
    [f.id, f.name, f.barangay, TenthsToString(f.farmSize), JoinCrops(f.crops),
     f.lastActivity, RiskName(f.riskLevel), f.contact]
  }

  /** Some field, lowercased, contains the lowercased term. */
  predicate SearchMatches(f: Farmer, term: string)
  {
    exists v :: v in FieldStrings(f) && Contains(ToLower(v), ToLower(term))
  }

  /** Every selected crop is among the farmer's crops. */
  predicate HasAllCrops(f: Farmer, cropFilters: seq<Crop>)
  {
    forall c :: c in cropFilters ==> c in f.crops
  }

  /** Whether a farmer survives all three filters; an empty term or an empty
      selection filters nothing. */
  predicate Kept(f: Farmer, term: string, cropFilters: seq<Crop>, riskFilters: seq<RiskLevel>)
  {
    (term == "" || SearchMatches(f, term))
    && HasAllCrops(f, cropFilters)
    && (riskFilters == [] || f.riskLevel in riskFilters)
  }

  function SearchStep(term: string): Farmer -> bool
  {
    (f: Farmer) => term == "" || SearchMatches(f, term)
  }

  function CropStep(cropFilters: seq<Crop>): Farmer -> bool
  {
    (f: Farmer) => HasAllCrops(f, cropFilters)
  }

  function RiskStep(riskFilters: seq<RiskLevel>): Farmer -> bool
  {
    (f: Farmer) => riskFilters == [] || f.riskLevel in riskFilters
  }

  function KeptBy(term: string, cropFilters: seq<Crop>, riskFilters: seq<RiskLevel>): Farmer -> bool
  {
    (f: Farmer) => Kept(f, term, cropFilters, riskFilters)
  }

  /** The three filters of `filteredAndSortedData`, each applied only when its
      input is non-empty. */
  function FilterFarmers(data: seq<Farmer>, term: string, cropFilters: seq<Crop>, riskFilters: seq<RiskLevel>)
    : seq<Farmer>
  {
    var s1 := if term != "" then Filter(data, SearchStep(term)) else data;
    var s2 := if |cropFilters| > 0 then Filter(s1, CropStep(cropFilters)) else s1;
    if |riskFilters| > 0 then Filter(s2, RiskStep(riskFilters)) else s2
  }

  /** Skipping a filter whose input is empty is the same as applying it. */
  lemma StageSkipIsFilter(xs: seq<Farmer>, p: Farmer -> bool, skip: bool)
    requires skip ==> forall f :: p(f)
    ensures (if skip then xs else Filter(xs, p)) == Filter(xs, p)
  {
    if skip {
      FilterAllTrue(xs, p);
    }
  }

  /** The three stages together are one filter by `Kept`. */
  lemma {:induction false} FilterFarmersIsOneFilter(data: seq<Farmer>, term: string, cropFilters: seq<Crop>,
                                                    riskFilters: seq<RiskLevel>)
    ensures FilterFarmers(data, term, cropFilters, riskFilters) == Filter(data, KeptBy(term, cropFilters, riskFilters))
  {
    var search, crop, risk := SearchStep(term), CropStep(cropFilters), RiskStep(riskFilters);
    StageSkipIsFilter(data, search, term == "");
    var s1 := Filter(data, search);
    StageSkipIsFilter(s1, crop, |cropFilters| == 0);
    var s2 := Filter(s1, crop);
    StageSkipIsFilter(s2, risk, |riskFilters| == 0);
    var searchAndCrop := (f: Farmer) => search(f) && crop(f);
    FilterFilter(data, search, crop, searchAndCrop);
    FilterFilter(data, searchAndCrop, risk, KeptBy(term, cropFilters, riskFilters));
  }

  /** The table keeps exactly the farmers that pass all three filters, in
      their dataset order. */
  lemma FilterFarmersMeaning(data: seq<Farmer>, term: string, cropFilters: seq<Crop>, riskFilters: seq<RiskLevel>)
    ensures forall f :: f in FilterFarmers(data, term, cropFilters, riskFilters) <==>
      f in data && Kept(f, term, cropFilters, riskFilters)
    ensures IsSubsequence(FilterFarmers(data, term, cropFilters, riskFilters), data)
  {
    FilterFarmersIsOneFilter(data, term, cropFilters, riskFilters);
    FilterIsSubsequence(data, KeptBy(term, cropFilters, riskFilters));
  }

  /** With no search term and nothing ticked, every farmer is kept, in order. */
  lemma NoFilterKeepsAll(data: seq<Farmer>)
    ensures FilterFarmers(data, "", [], []) == data
  {
  }

  /** A non-empty search term keeps exactly the farmers with a field that
      contains it, ignoring case. */
  lemma SearchFilterMeaning(data: seq<Farmer>, term: string, f: Farmer)
    requires f in data && term != ""
    ensures f in FilterFarmers(data, term, [], []) <==>
      exists v :: v in FieldStrings(f) && Contains(ToLower(v), ToLower(term))
  {
    FilterFarmersMeaning(data, term, [], []);
  }

  // ---------------------------------------------------------------------
  // Comparator sort

  /** The value a column compares by: a string or a number. */
  datatype SortValue = Str(s: string) | Num(n: int)

  function ValueOf(f: Farmer, key: SortKey): SortValue
    requires key != NoKey
  {
    match key
    case ByName => Str(f.name)
    case ByBarangay => Str(f.barangay)
    case ByFarmSize => Num(f.farmSize)
    case ByRiskLevel => Str(RiskName(f.riskLevel))
  }

  /** JavaScript `<` on two values of one column. */
  predicate ValueLess(a: SortValue, b: SortValue)
  {
    match (a, b)
    case (Str(x), Str(y)) => Less(x, y)
    case (Num(x), Num(y)) => x < y
    case _ => false
  }

  /** The comparator passed to `data.sort`: negative when `a` goes first,
      positive when `b` does, zero when neither value is below the other.
      Sorting is skipped when there is no key; the comparator then keeps
      everything in place. */
  function Compare(a: Farmer, b: Farmer, key: SortKey, dir: SortDirection): (c: int)
    ensures c == 0 || c == 1 || c == -1
  {
    if key == NoKey then 0
    else
      var va, vb := ValueOf(a, key), ValueOf(b, key);
      if ValueLess(va, vb) then (if dir == Asc then -1 else 1)
      else if ValueLess(vb, va) then (if dir == Asc then 1 else -1)
      else 0
  }

  function Comparator(key: SortKey, dir: SortDirection): (Farmer, Farmer) -> int
  {
    (a: Farmer, b: Farmer) => Compare(a, b, key, dir)
  }

  /** Risk levels sort by their names, so ascending order is High, Low, Medium. */
  lemma RiskLevelsSortByName(a: Farmer, b: Farmer, c: Farmer)
    requires a.riskLevel == High && b.riskLevel == Low && c.riskLevel == Medium
    ensures Compare(a, b, ByRiskLevel, Asc) < 0 && Compare(b, c, ByRiskLevel, Asc) < 0
  {
    assert "High"[0] < "Low"[0] < "Medium"[0];
  }

  /** Farm sizes sort as numbers, so 10 ha comes after 9.5 ha, not before. */
  lemma FarmSizeSortsNumerically(a: Farmer, b: Farmer)
    requires a.farmSize < b.farmSize
    ensures Compare(a, b, ByFarmSize, Asc) < 0 && Compare(a, b, ByFarmSize, Desc) > 0
  {
  }

  lemma ValueLessAsymmetric(a: SortValue, b: SortValue)
    requires ValueLess(a, b)
    ensures !ValueLess(b, a)
  {
    if a.Str? {
      LessAsymmetric(a.s, b.s);
    }
  }

  /** Swapping the farmers negates the comparison. */
  lemma CompareFlip(a: Farmer, b: Farmer, key: SortKey, dir: SortDirection)
    ensures Compare(b, a, key, dir) == -Compare(a, b, key, dir)
  {
    if key != NoKey {
      var va, vb := ValueOf(a, key), ValueOf(b, key);
      if ValueLess(va, vb) {
        ValueLessAsymmetric(va, vb);
      } else if ValueLess(vb, va) {
        ValueLessAsymmetric(vb, va);
      }
    }
  }

  /** "Goes no later than" is transitive. */
  lemma {:induction false} NotAfterTransitive(a: Farmer, b: Farmer, c: Farmer, key: SortKey, dir: SortDirection)
    requires Compare(a, b, key, dir) <= 0 && Compare(b, c, key, dir) <= 0
    ensures Compare(a, c, key, dir) <= 0
  {
    if key != NoKey && ValueOf(a, key).Str? {
      var x, y, z := ValueOf(a, key).s, ValueOf(b, key).s, ValueOf(c, key).s;
      if x != y { LessTotal(x, y); }
      if y != z { LessTotal(y, z); }
      if x != z { LessTotal(x, z); }
      if dir == Asc {
        if Less(z, x) {
          if x == y { LessAsymmetric(z, y); }
          else if y == z { LessAsymmetric(z, x); }
          else { LessTransitive(x, y, z); LessAsymmetric(z, x); }
        }
      } else {
        if Less(x, z) {
          if x == y { LessAsymmetric(y, z); }
          else if y == z { LessAsymmetric(x, z); }
          else { LessTransitive(z, y, x); LessAsymmetric(x, z); }
        }
      }
    }
  }

  /** The page's comparator is a consistent one, for every column and direction. */
  lemma ComparatorIsConsistent(key: SortKey, dir: SortDirection)
    ensures Antisymmetric(Comparator(key, dir)) && Transitive(Comparator(key, dir))
  {
    var cmp := Comparator(key, dir);
    forall a: Farmer, b: Farmer
      ensures cmp(a, b) > 0 ==> cmp(b, a) < 0
    {
      CompareFlip(a, b, key, dir);
    }
    forall a: Farmer, b: Farmer, c: Farmer
      ensures cmp(a, b) <= 0 && cmp(b, c) <= 0 ==> cmp(a, c) <= 0
    {
      if cmp(a, b) <= 0 && cmp(b, c) <= 0 {
        NotAfterTransitive(a, b, c, key, dir);
      }
    }
  }

  /** The sorted table is a reordering of its rows, and any farmer shown
      above another goes no later than it: ascending by the column, or
      descending. */
  lemma SortedTable(rows: seq<Farmer>, key: SortKey, dir: SortDirection, i: nat, j: nat)
    requires i <= j < |rows|
    ensures multiset(InsertionSort(rows, Comparator(key, dir))) == multiset(rows)
    ensures |InsertionSort(rows, Comparator(key, dir))| == |rows|
    ensures var t := InsertionSort(rows, Comparator(key, dir));
      Compare(t[i], t[j], key, dir) <= 0
  {
    var cmp := Comparator(key, dir);
    var t := InsertionSort(rows, cmp);
    assert |t| == |multiset(t)| == |multiset(rows)| == |rows|;
    ComparatorIsConsistent(key, dir);
    InsertionSortSorted(rows, cmp);
    SortedPairwise(t, cmp, i, j);
  }

  /** The farmers whose value in column `key` is `v`. */
  function WithValue(key: SortKey, v: SortValue): Farmer -> bool
  {
    (f: Farmer) => key != NoKey && ValueOf(f, key) == v
  }

  /** Farmers that tie in the sorted column, such as all farmers of one risk
      level when sorting by risk, keep their dataset order in the table. */
  lemma SortKeepsTiesInOrder(rows: seq<Farmer>, key: SortKey, dir: SortDirection, v: SortValue)
    ensures Filter(InsertionSort(rows, Comparator(key, dir)), WithValue(key, v)) == Filter(rows, WithValue(key, v))
  {
    var cmp, p := Comparator(key, dir), WithValue(key, v);
    forall a: Farmer, b: Farmer | p(a) && p(b)
      ensures cmp(a, b) == 0
    {
      if v.Str? {
        LessIrreflexive(v.s);
      }
    }
    InsertionSortIsStable(rows, cmp, p);
  }
}
