/** The admin disease map: hotspots filtered by crop, disease, severity and a
    picked date range, and the filter choices.

    Hotspot dates are calendar days, stored as `YYYY-MM-DD` and parsed by
    `new Date(...)` as midnight UTC. The picked range ends are local dates
    whose times the page sets to the start and to the end of their local
    day. Days are numbered from the epoch; instants are milliseconds since
    the epoch; `offset` is how far local time runs ahead of UTC, in
    milliseconds. */
module DiseaseMap {
  import opened Collections
  import opened Domain

  datatype Disease = PodRot | FusariumWilt | PatchCanker | Rust

  function DiseaseName(d: Disease): string
  {
    match d
    case PodRot => "Pod Rot"
    case FusariumWilt => "Fusarium Wilt"
    case PatchCanker => "Patch Canker"
    case Rust => "Rust"
  }

  lemma DiseaseNameInjective(a: Disease, b: Disease)
    requires DiseaseName(a) == DiseaseName(b)
    ensures a == b
  {
  }

  /** A hotspot record; `date` is a day number. */
  datatype Hotspot = Hotspot(
    id: string,
    crop: Crop,
    disease: Disease,
    severity: RiskLevel,
    date: int,
    area: string,
    farmsAffected: nat)

  /** The date picker's range, each end a local day; `undefined` is the range
      with neither end. */
  datatype DateRange = DateRange(from: Option<int>, to: Option<int>)

  const DayMs: int := 86400000

  /** `new Date(hotspot.date)`: midnight UTC of the hotspot's day. */
  function HotspotInstant(h: Hotspot): int
  {
    h.date * DayMs
  }

  /** `setHours(0, 0, 0, 0)`: local midnight at the start of `day`. */
  function StartOfLocalDay(day: int, offset: int): int
  {
    day * DayMs - offset
  }

  /** `setHours(23, 59, 59, 999)`: the last millisecond of local `day`. */
  function EndOfLocalDay(day: int, offset: int): int
  {
    day * DayMs + DayMs - 1 - offset
  }

  /** `dateMatch`: the window test applies only when both ends are picked. */
  predicate DateMatches(h: Hotspot, range: DateRange, offset: int)
  {
    if range.from.Some? && range.to.Some? then
      StartOfLocalDay(range.from.value, offset) <= HotspotInstant(h) <= EndOfLocalDay(range.to.value, offset)
    else
      true
  }

  /** The four tests of `filteredHotspots`. */
  predicate HotspotMatches(h: Hotspot, cropFilter: string, diseaseFilter: string, severityFilter: string,
                           range: DateRange, offset: int)
  {
    (cropFilter == "all" || CropName(h.crop) == cropFilter)
    && (diseaseFilter == "all" || DiseaseName(h.disease) == diseaseFilter)
    && (severityFilter == "all" || RiskName(h.severity) == severityFilter)
    && DateMatches(h, range, offset)
  }

  /** `filteredHotspots`. */
  function FilterHotspots(data: seq<Hotspot>, cropFilter: string, diseaseFilter: string, severityFilter: string,
                          range: DateRange, offset: int): (r: seq<Hotspot>)
    ensures forall h :: h in r <==>
      h in data && HotspotMatches(h, cropFilter, diseaseFilter, severityFilter, range, offset)
    ensures IsSubsequence(r, data)
  {
    var p := (h: Hotspot) => HotspotMatches(h, cropFilter, diseaseFilter, severityFilter, range, offset);
    FilterIsSubsequence(data, p);
    Filter(data, p)
  }

  /** With every select at "all" and no range, the map shows every hotspot, in order. */
  lemma NoFilterKeepsAllHotspots(data: seq<Hotspot>, offset: int)
    ensures FilterHotspots(data, "all", "all", "all", DateRange(None, None), offset) == data
  {
    FilterAllTrue(data, (h: Hotspot) => HotspotMatches(h, "all", "all", "all", DateRange(None, None), offset));
  }

  /** A range with an end missing lets every hotspot through the date test. */
  lemma OpenRangeMatchesAll(h: Hotspot, range: DateRange, offset: int)
    requires range.from.None? || range.to.None?
    ensures DateMatches(h, range, offset)
  {
  }

  /** Where local time is UTC or ahead of it (up to a day), as in the
      Philippines at UTC+8, the window is inclusive at both ends: a hotspot
      passes exactly when its day lies between the two picked days. */
  lemma DateWindowInclusive(h: Hotspot, from: int, to: int, offset: int)
    requires 0 <= offset < DayMs
    ensures DateMatches(h, DateRange(Some(from), Some(to)), offset) <==> from <= h.date <= to
  {
    if h.date < from {
      assert h.date * DayMs <= (from - 1) * DayMs;
    }
    if h.date > to {
      assert h.date * DayMs >= (to + 1) * DayMs;
    }
  }

  /** Where local time is behind UTC, the UTC-midnight parse puts each hotspot
      on the previous local day, so the window covers the days after the
      picked ones. */
  lemma DateWindowShiftedWestOfUtc(h: Hotspot, from: int, to: int, offset: int)
    requires -DayMs < offset < 0
    ensures DateMatches(h, DateRange(Some(from), Some(to)), offset) <==> from + 1 <= h.date <= to + 1
  {
    if h.date < from + 1 {
      assert h.date * DayMs <= from * DayMs;
    }
    if h.date > to + 1 {
      assert h.date * DayMs >= (to + 2) * DayMs;
    }
  }

  /** One day picked at UTC-5: a hotspot dated that very day is not shown. */
  lemma SameDayHotspotHiddenWestOfUtc(h: Hotspot)
    ensures !DateMatches(h, DateRange(Some(h.date), Some(h.date)), -5 * 3600000)
  {
    DateWindowShiftedWestOfUtc(h, h.date, h.date, -5 * 3600000);
  }

  /** The hotspot's day read as a local date, which is what the picked range
      compares against. */
  function LocalHotspotInstant(h: Hotspot, offset: int): int
  {
    h.date * DayMs - offset
  }

  /** The date test with the hotspot's day parsed as a local date. */
  predicate LocalDateMatches(h: Hotspot, range: DateRange, offset: int)
  {
    if range.from.Some? && range.to.Some? then
      StartOfLocalDay(range.from.value, offset) <= LocalHotspotInstant(h, offset) <= EndOfLocalDay(range.to.value, offset)
    else
      true
  }

  /** With local parsing, the window is inclusive of both picked days in every
      time zone. */
  lemma LocalDateWindowInclusive(h: Hotspot, from: int, to: int, offset: int)
    ensures LocalDateMatches(h, DateRange(Some(from), Some(to)), offset) <==> from <= h.date <= to
  {
    if h.date < from {
      assert h.date * DayMs <= (from - 1) * DayMs;
    }
    if h.date > to {
      assert h.date * DayMs >= (to + 1) * DayMs;
    }
  }

  /** The picker's initial range: thirty days ago through today. */
  function DefaultRange(today: int): (r: DateRange)
    ensures r.from.Some? && r.to.Some? && r.to.value - r.from.value == 30
  {
    DateRange(Some(today - 30), Some(today))
  }

  /** In the initial state, at UTC or east of it, the map shows the hotspots
      of the last thirty-one days, today included. */
  lemma DefaultRangeShowsLastMonth(h: Hotspot, today: int, offset: int)
    requires 0 <= offset < DayMs
    ensures DateMatches(h, DefaultRange(today), offset) <==> today - 30 <= h.date <= today
  {
    DateWindowInclusive(h, today - 30, today, offset);
  }

  function HotspotCrop(h: Hotspot): Crop { h.crop }

  function HotspotDisease(h: Hotspot): Disease { h.disease }

  /** `uniqueCrops`: each crop some hotspot has, once, in first-occurrence order. */
  function UniqueCrops(data: seq<Hotspot>): (r: seq<Crop>)
    ensures NoDuplicates(r)
    ensures forall c :: c in r <==> exists h :: h in data && h.crop == c
    ensures InFirstOccurrenceOrder(r, Map(data, HotspotCrop))
  {
    MapMembership(data, HotspotCrop);
    DedupProperties(Map(data, HotspotCrop));
    Dedup(Map(data, HotspotCrop))
  }

  /** `uniqueDiseases`: each disease some hotspot has, once, in first-occurrence order. */
  function UniqueDiseases(data: seq<Hotspot>): (r: seq<Disease>)
    ensures NoDuplicates(r)
    ensures forall d :: d in r <==> exists h :: h in data && h.disease == d
    ensures InFirstOccurrenceOrder(r, Map(data, HotspotDisease))
  {
    MapMembership(data, HotspotDisease);
    DedupProperties(Map(data, HotspotDisease));
    Dedup(Map(data, HotspotDisease))
  }
}
