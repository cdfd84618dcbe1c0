# AgriSense admin rules in Dafny

AgriSense is a farm dashboard. It has an admin side that shows weather
alerts, yield forecasts, a farmer registry, a disease-hotspot map, reports
and resource stock, plus a farmer-facing side. Underneath the React markup,
each admin page derives what it shows from in-memory record lists with a few
small rules. This project models those rules and proves what they guarantee:

- **Weather alerts.** A stable sort by severity rank on a copy of the
  dataset, the region and severity filter, the per-severity counts behind
  the bar chart, and the region choices.
- **Forecast.** The crop and region filter, and the summary cards: the
  total, plus the first-wins maximum yield and maximum loss. Also the net
  yield column, the risk badge and the filter choices.
- **Farmer table.**
  - The sort-state machine, the checkbox filter lists, and the search, crop
    and risk filters.
  - The comparator sort, which runs in place. When no filter is active it
    runs on the shared dataset array.
  - The crop choices.
- **Disease map.** The four-way hotspot filter with its date window, and the
  filter choices.
- **Reports.** The group-by-crop dictionary, filled row by row, and the
  first five farmers of the shared dataset.
- **Resources.** The status badge and the stock-bar colour.
- **Navigation.**
  - The admin sidebar's "active" rule.
  - The dashboard header's first-prefix title lookup.
  - The admin header's exact-path title lookup.
- **Login.** The credential decision, the password rule of the form schema,
  and the state changes of a submission.

Shared pieces:

- `Collections`: `filter`, `map`, de-duplication through a `Set` (which keeps
  first-insertion order), the `indexOf` first-occurrence filter, and counting.
- `Strings`: `startsWith`, `includes`, ASCII `toLowerCase`, and JavaScript's
  `<` on strings.
- `Sorting`: `Array.prototype.sort` with a comparator. It is modelled as a
  stable insertion sort, both as a function and as an in-place method on an
  array, and its stability is proved. The weather and farmer sorts both use
  it.

Stateful code is modelled as stateful code. The farmer table and the login
form are classes whose methods change their fields. The weather chart counts
and the reports dictionary are filled by loops over a `map`. The farmer sort
works in place on an `array`.

Dates on the disease map are day numbers. Instants are milliseconds since
the epoch. The local time zone is a parameter `offset`: how far local time
runs ahead of UTC. The farmer `farmSize` is held in tenths of a hectare.

## Model

| member | source | states |
|---|---|---|
| Domain.RiskVariant | src/app/admin/forecast/page.tsx:58-69 | High gives destructive, Medium gives secondary, Low gives default, each in both directions; the outline badge never appears |
| Domain.RiskVariantInjective | src/app/admin/farmers/page.tsx:52-63 | different risk levels get different badges |
| WeatherAlerts.Rank | src/app/admin/weather-alerts/page.tsx:77 | every severity ranks between 1 and 4 |
| WeatherAlerts.RankIsStrict | src/app/admin/weather-alerts/page.tsx:77 | Critical > High > Medium > Low, and equal ranks mean equal severities |
| WeatherAlerts.SortBySeverity | src/app/admin/weather-alerts/page.tsx:76-80 | sorting with the comparator `severityOrder[b] - severityOrder[a]` gives a permutation of the dataset, ordered by non-increasing rank |
| WeatherAlerts.SortIsStable | src/app/admin/weather-alerts/page.tsx:78-80 | for every severity, the alerts of that severity appear in the sorted list in their dataset order |
| WeatherAlerts.SortedCopy | src/app/admin/weather-alerts/page.tsx:78-80 | the spread copy is a fresh array, sorted in place to hold the sorted alerts; the dataset array is not in the frame, so it keeps its order |
| WeatherAlerts.FilterAlerts | src/app/admin/weather-alerts/page.tsx:83-91 | an alert is kept iff it is in the list and region and severity each are "All" or equal; the result is a subsequence, and sorted input gives sorted output |
| WeatherAlerts.FilterKeepsSorted | src/app/admin/weather-alerts/page.tsx:83-91 | filtering a list sorted by severity keeps it sorted |
| WeatherAlerts.AllFiltersShowEverything | src/app/admin/weather-alerts/page.tsx:84-90 | with both filters at "All" the sorted list is shown unchanged |
| WeatherAlerts.DistrictHidesRegionAll | src/app/admin/weather-alerts/page.tsx:85-86 | once a district is chosen, an alert whose region is "All" is hidden |
| WeatherAlerts.VisibleAlerts | src/app/admin/weather-alerts/page.tsx:76-91 | the alerts shown are sorted by severity and are exactly the dataset alerts that match both filters |
| WeatherAlerts.CountsAddUp | src/app/admin/weather-alerts/page.tsx:94-97 | the four per-severity counts add up to the number of alerts |
| WeatherAlerts.CountBySeverity | src/app/admin/weather-alerts/page.tsx:94-97 | the counter loop ends with exactly the four severity keys, each holding the number of filtered alerts of that severity |
| WeatherAlerts.ChartData | src/app/admin/weather-alerts/page.tsx:93-103 | four bars in the order Low, Medium, High, Critical, each valued at its severity's count, together summing to the number of filtered alerts |
| WeatherAlerts.UniqueRegionsProperties | src/app/admin/weather-alerts/page.tsx:105-108 | the choices start with "All", repeat nothing, and hold exactly "All" and the regions some alert has, in first-occurrence order |
| Forecast.FilterRows | src/app/admin/forecast/page.tsx:75-82 | a row is kept iff crop and region each are "all" or equal; the result is an order-preserving subsequence |
| Forecast.NoFilterKeepsAllRows | src/app/admin/forecast/page.tsx:75-82 | with both filters at "all" every row is kept, in order |
| Collections.Map | src/app/admin/forecast/page.tsx:85 | `map` gives one image per element, in order |
| Collections.MapMembership | src/app/admin/forecast/page.tsx:85 | a value is in the mapped list iff it is the image of some element |
| Collections.DedupProperties | src/app/admin/forecast/page.tsx:84-87 | the `Set` spread holds each input value once and nothing else, in first-occurrence order |
| Forecast.UniqueCrops | src/app/admin/forecast/page.tsx:84-87 | no duplicates; a crop is offered iff some row has it; first-occurrence order |
| Forecast.UniqueRegions | src/app/admin/forecast/page.tsx:88-91 | no duplicates; a region is offered iff some row has it; first-occurrence order |
| Forecast.SumByAppend | src/app/admin/forecast/page.tsx:102-105 | the running sum of a concatenation is the sum of the two parts' sums |
| Forecast.MaxIndexBy | src/app/admin/forecast/page.tsx:107-116 | the strict-`>` reduction seeded with row 0 stops at a row that no row beats and that every earlier row is strictly below |
| Forecast.FirstMaximumUnique | src/app/admin/forecast/page.tsx:107-116 | only one row can have that property, so the card's choice is determined |
| Forecast.Summarize | src/app/admin/forecast/page.tsx:93-129 | on no rows: total 0 and both cards "N/A" with 0. Otherwise: the total is the sum of yields, and each card names the first row with the maximal yield (or loss) and shows that value |
| Forecast.TieGoesToFirstRow | src/app/admin/forecast/page.tsx:107-111 | when two rows tie for the highest yield, the card names the earlier one |
| Forecast.TableRows | src/app/admin/forecast/page.tsx:300-316 | one table row per forecast row, showing that row's barangay, crop, predicted yield and expected losses; its net yield is the row's predicted yield less its expected losses; the badge is the row's risk variant |
| Forecast.NetYieldAddsUp | src/app/admin/forecast/page.tsx:310-312 | summed over the table, net yield is total yield less total losses |
| Farmers.NextSort | src/app/admin/farmers/page.tsx:74-81 | a click on the current column keeps it and flips the direction; a click on another column selects it ascending |
| Farmers.ClickTwiceRestores | src/app/admin/farmers/page.tsx:75-76 | two clicks on the current column restore the sort state |
| Farmers.Toggle | src/app/admin/farmers/page.tsx:174-176 | checking appends the value; unchecking removes every occurrence of it and keeps the other values, in order |
| Farmers.CheckThenUncheckRestores | src/app/admin/farmers/page.tsx:174-176 | checking an unchecked box and unchecking it again restores the list |
| Farmers.FarmerTable.constructor | src/app/admin/farmers/page.tsx:67-71 | no search, nothing ticked, sorted by name ascending |
| Farmers.FarmerTable.HandleSort | src/app/admin/farmers/page.tsx:74-81 | the sort fields become `NextSort` of their old values; the filters are unchanged |
| Farmers.FarmerTable.SetSearchTerm | src/app/admin/farmers/page.tsx:156 | only the search term changes |
| Farmers.FarmerTable.OnCropCheckedChange | src/app/admin/farmers/page.tsx:173-177 | the crop list becomes `Toggle` of the old one; nothing else changes |
| Farmers.FarmerTable.OnRiskCheckedChange | src/app/admin/farmers/page.tsx:189-193 | the risk list becomes `Toggle` of the old one; nothing else changes |
| Farmers.FarmerTable.FilteredAndSorted | src/app/admin/farmers/page.tsx:83-124 | with no filter active it returns the dataset array itself, which it sorts in place. Otherwise it returns a fresh array and leaves the dataset as it was. Either way the rows are the filtered rows, comparator-sorted when a sort key is set |
| Farmers.FarmerTable.FilteredAndSortedCopy | src/app/admin/farmers/page.tsx:83-124 | the same rows, always in a fresh array, with no right to modify the dataset |
| Farmers.FlatCrops | src/app/admin/farmers/page.tsx:65 | a crop is in the flattened list iff some farmer grows it |
| Farmers.AllCrops | src/app/admin/farmers/page.tsx:65 | each crop grown by some farmer, once, in first-occurrence order, and nothing else |
| Farmers.StageSkipIsFilter | src/app/admin/farmers/page.tsx:87-105 | skipping a stage whose input is empty is the same as applying it |
| Farmers.FilterFarmersIsOneFilter | src/app/admin/farmers/page.tsx:86-105 | the three guarded stages together are one filter by the conjunction of the three tests |
| Farmers.FilterFarmersMeaning | src/app/admin/farmers/page.tsx:86-105 | a farmer is shown iff it is in the data, matches the search (or it is empty), grows every ticked crop and has a ticked risk level (or none is ticked); the order is kept |
| Farmers.NoFilterKeepsAll | src/app/admin/farmers/page.tsx:84-105 | with no search and nothing ticked, every farmer is kept, in order |
| Farmers.SearchFilterMeaning | src/app/admin/farmers/page.tsx:87-93 | a non-empty term keeps a farmer iff some field's string form, lowercased, contains the lowercased term |
| Farmers.Compare | src/app/admin/farmers/page.tsx:109-120 | the comparator returns only -1, 0 or 1 |
| Farmers.RiskLevelsSortByName | src/app/admin/farmers/page.tsx:113-118 | risk levels compare as strings: ascending puts High before Low before Medium |
| Farmers.FarmSizeSortsNumerically | src/app/admin/farmers/page.tsx:113-118 | farm sizes compare as numbers |
| Farmers.CompareFlip | src/app/admin/farmers/page.tsx:109-120 | swapping the two farmers negates a non-zero comparison |
| Farmers.NotAfterTransitive | src/app/admin/farmers/page.tsx:109-120 | "goes no later than" is transitive for every column and direction |
| Farmers.ComparatorIsConsistent | src/app/admin/farmers/page.tsx:109-120 | the comparator is antisymmetric and transitive for every column and direction |
| Farmers.SortedTable | src/app/admin/farmers/page.tsx:108-121 | the sorted table is a permutation of the filtered rows, non-decreasing by the column ascending and non-increasing descending |
| Farmers.SortKeepsTiesInOrder | src/app/admin/farmers/page.tsx:108-121 | farmers with equal values in the sorted column, such as one risk level, keep their dataset order |
| Sorting.Insert | src/app/admin/farmers/page.tsx:109 | one insertion step keeps the elements (multiset) and adds one |
| Sorting.InsertKeepsSorted | src/app/admin/farmers/page.tsx:109 | for an antisymmetric comparator, insertion keeps a sorted sequence sorted |
| Sorting.InsertionSort | src/app/admin/farmers/page.tsx:109 | the sort is a permutation |
| Sorting.InsertionSortSorted | src/app/admin/farmers/page.tsx:109 | for an antisymmetric comparator, the result is sorted |
| Sorting.SortedPairwise | src/app/admin/farmers/page.tsx:109 | with a consistent comparator, sortedness between neighbours gives it between any two positions |
| Sorting.InsertIsStable | src/app/admin/farmers/page.tsx:109 | an insertion step keeps the elements the comparator ties in the order they have with the new element last |
| Sorting.InsertionSortIsStable | src/app/admin/farmers/page.tsx:109 | stability: elements the comparator ties keep their input order |
| Sorting.InsertLast | src/app/admin/farmers/page.tsx:109 | one in-place pass shifts the larger elements right and leaves the prefix equal to `Insert` of it; the rest of the array is unchanged |
| Sorting.SortInPlace | src/app/admin/farmers/page.tsx:109 | sorting the array in place leaves it holding `InsertionSort` of its old contents |
| DiseaseMap.FilterHotspots | src/app/admin/disease-map/page.tsx:81-97 | a hotspot is kept iff it is in the data, its crop, disease and severity each equal the filter (or the filter is "all"), and its date passes; the result is a subsequence |
| DiseaseMap.NoFilterKeepsAllHotspots | src/app/admin/disease-map/page.tsx:81-97 | with all filters "all" and no range, the whole dataset is shown, in order |
| DiseaseMap.OpenRangeMatchesAll | src/app/admin/disease-map/page.tsx:91-93 | with either end of the range missing the date test passes |
| DiseaseMap.DateWindowInclusive | src/app/admin/disease-map/page.tsx:87-92 | at UTC or east of it, a hotspot passes iff its day is between the picked days, both included |
| DiseaseMap.DateWindowShiftedWestOfUtc | src/app/admin/disease-map/page.tsx:87-92 | west of UTC, a hotspot passes iff its day is between the day after `from` and the day after `to` |
| DiseaseMap.SameDayHotspotHiddenWestOfUtc | src/app/admin/disease-map/page.tsx:87-92 | at UTC-5, picking a single day hides a hotspot dated that day |
| DiseaseMap.LocalDateWindowInclusive | src/app/admin/disease-map/page.tsx:87-92 | with the hotspot day read as a local date, the window includes both picked days in every time zone |
| DiseaseMap.DefaultRange | src/app/admin/disease-map/page.tsx:76-79 | the initial range has both ends, thirty days apart |
| DiseaseMap.DefaultRangeShowsLastMonth | src/app/admin/disease-map/page.tsx:76-92 | at UTC or east of it, the initial range shows the hotspots from thirty days ago through today |
| DiseaseMap.DiseaseNameInjective | src/app/admin/disease-map/page.tsx:84 | different diseases have different names, so the disease filter selects one disease |
| DiseaseMap.UniqueCrops | src/app/admin/disease-map/page.tsx:99 | no duplicates; a crop is offered iff some hotspot has it; first-occurrence order |
| DiseaseMap.UniqueDiseases | src/app/admin/disease-map/page.tsx:100 | no duplicates; a disease is offered iff some hotspot has it; first-occurrence order |
| Reports.Totals | src/app/admin/reports/page.tsx:132 | one entry per listed crop, each holding that crop's sums |
| Reports.GroupByCropKeys | src/app/admin/reports/page.tsx:124-132 | the entries' crops are the chart's distinct crops: no crop twice, a crop appears iff some row has it, in first-occurrence order |
| Reports.SumsForMeaning | src/app/admin/reports/page.tsx:129-130 | each entry's yield and losses are the sums over the rows of that crop |
| Reports.AbsentCropSumsToZero | src/app/admin/reports/page.tsx:127 | a crop with no rows sums to zero, which is the value a new entry starts at |
| Reports.FirstSight | src/app/admin/reports/page.tsx:126-128 | a crop seen for the first time gets a zero entry and becomes the last key |
| Reports.SeenBefore | src/app/admin/reports/page.tsx:126 | a crop seen before keeps the key order |
| Reports.AddRow | src/app/admin/reports/page.tsx:129-130 | adding the row's yield and losses keeps every entry equal to its crop's sums |
| Reports.Accumulate | src/app/admin/reports/page.tsx:124-131 | after the loop the dictionary's keys are the distinct crops in insertion order, each holding its crop's sums |
| Reports.YieldSummary | src/app/admin/reports/page.tsx:123-133 | the entries read out of the dictionary are `GroupByCrop` of the rows |
| Reports.CropSumAppendRow | src/app/admin/reports/page.tsx:129-130 | a new row adds its value to the total over the listed crops iff its crop is listed |
| Reports.CropSumCoversAll | src/app/admin/reports/page.tsx:125-131 | summed over crops that cover every row, the per-crop sums give the sum over all rows |
| Reports.TotalsAreCropSums | src/app/admin/reports/page.tsx:132 | the entries' totals are the per-crop sums added up |
| Reports.GroupByCropAddsUp | src/app/admin/reports/page.tsx:125-131 | the entries' yields add up to the total yield of all rows, and their losses to the total losses |
| Reports.TopFive | src/app/admin/reports/page.tsx:288 | the first min(5, n) farmers, in order |
| Reports.RecentActivityLeadChanges | src/app/admin/reports/page.tsx:288 | once the farmer page has sorted the shared dataset by name, the report's first row is no longer the dataset's first farmer whenever a later farmer's name sorts first |
| Reports.ShippedDataLeadChanges | src/app/admin/reports/page.tsx:288 | with "Juan Dela Cruz" first and "Ana Garcia" fourth, the name sort changes the report's first row |
| Resources.StatusVariant | src/app/admin/resources/page.tsx:70-81 | Optimal gives default, Low gives secondary, Depleted gives destructive, each in both directions; every other status gives outline |
| Resources.ProgressClass | src/app/admin/resources/page.tsx:83-87 | bg-destructive iff stock < 20, bg-accent iff 20 <= stock < 50, bg-primary iff stock >= 50 |
| Resources.MoreStockIsNoMoreAlarming | src/app/admin/resources/page.tsx:83-87 | a larger stock never gives a more alarming bar |
| AdminSidebar.ActiveHrefIsPrefix | src/components/admin/sidebar.tsx:61-79 | an item is only highlighted on a path its href starts |
| AdminSidebar.HrefCode | src/components/admin/sidebar.tsx:27-37 | each href has the expected two characters right after "/admin/" |
| AdminSidebar.NoHrefIsPrefixOfAnother | src/components/admin/sidebar.tsx:27-37 | no href is a prefix of another |
| AdminSidebar.AtMostOneActive | src/components/admin/sidebar.tsx:27-79 | at most one item is highlighted for any path |
| AdminSidebar.DashboardActiveOnlyOnItsPath | src/components/admin/sidebar.tsx:61 | the Dashboard item is highlighted iff the path is exactly "/admin/dashboard" |
| AdminSidebar.OtherItemsActiveOnSubPaths | src/components/admin/sidebar.tsx:61-79 | every other item, Settings included, is highlighted iff the path starts with its href |
| AdminSidebar.DashboardSubPathHighlightsNothing | src/components/admin/sidebar.tsx:61-79 | "/admin/dashboard/x" highlights no item at all |
| DashboardHeader.FindByPrefix | src/components/dashboard/header.tsx:29 | the index found is the first entry whose path is a prefix of the pathname; nothing is found iff no path is |
| DashboardHeader.Title | src/components/dashboard/header.tsx:29 | the title is never empty |
| DashboardHeader.DashboardIsPrefixOfEveryPath | src/components/dashboard/header.tsx:18-25 | "/dashboard" is a prefix of every key |
| DashboardHeader.TitleIsOverviewIff | src/components/dashboard/header.tsx:18-29 | the title is "Dashboard Overview" iff the path starts with "/dashboard", and "AgriSense" otherwise |
| DashboardHeader.TitleIsOneOfTwo | src/components/dashboard/header.tsx:18-29 | the title is always "Dashboard Overview" or "AgriSense" |
| DashboardHeader.ScanPageShowsOverview | src/components/dashboard/header.tsx:18-29 | "/dashboard/scan" is titled "Dashboard Overview" |
| DashboardHeader.UnrelatedPathShowsOverview | src/components/dashboard/header.tsx:29 | "/dashboardX" is titled "Dashboard Overview" |
| AdminHeader.TableTitlesAreProper | src/components/admin/header.tsx:18-27 | no listed path maps to "Admin" or to the empty string |
| AdminHeader.Title | src/components/admin/header.tsx:31 | a listed path gets its mapped title; the title is "Admin" iff the path is not a key |
| AdminHeader.TitlesAreDistinct | src/components/admin/header.tsx:18-27 | different listed paths get different titles |
| AdminHeader.SubPathShowsFallback | src/components/admin/header.tsx:31 | "/admin/farmers/1" is titled "Admin" |
| AdminHeader.ListedPagesShowTheirTitles | src/components/admin/header.tsx:18-31 | each of the eight listed paths gets its own title |
| LoginForm.Decide | src/components/auth/login-form.tsx:47-54 | the admin pair goes to "/admin/dashboard" and the user pair to "/dashboard", each in both directions; every other pair is rejected |
| LoginForm.EmptyPasswordRejected | src/components/auth/login-form.tsx:25 | an empty password fails the schema |
| LoginForm.AccountsPassSchema | src/components/auth/login-form.tsx:23-26 | both accepted pairs pass the password rule |
| LoginForm.Form.constructor | src/components/auth/login-form.tsx:30-39 | empty inputs, no error, not loading |
| LoginForm.Form.Enter | src/components/auth/login-form.tsx:35-38 | typing changes only the two inputs |
| LoginForm.Form.Begin | src/components/auth/login-form.tsx:42-43 | loading on and the previous error cleared, before the wait |
| LoginForm.Form.Complete | src/components/auth/login-form.tsx:47-55 | an accepted pair navigates to its route; any other pair sets the error message, resets both inputs and does not navigate; loading ends off either way |
| LoginForm.Form.OnSubmit | src/components/auth/login-form.tsx:41-56 | the whole submission: loading ends off; an accepted pair navigates with no error shown; a rejected pair shows the message and resets the form |
| LoginForm.Form.HandleSubmit | src/components/auth/login-form.tsx:23-26 | a missing password stops the submission with the state unchanged; otherwise it is `OnSubmit` of the entered values |
| Strings.Contains | src/app/admin/farmers/page.tsx:90 | `includes` holds iff the term occurs at some position |
| Strings.LessTotal | src/app/admin/farmers/page.tsx:113-116 | of two different strings, one is `<` the other |
| Strings.LessTransitive | src/app/admin/farmers/page.tsx:113-116 | string `<` is transitive |
| Strings.PrefixesAreComparable | src/components/admin/sidebar.tsx:61-79 | two prefixes of one path are prefixes of each other, one way or the other |

## Left out

- The AI flows and the Firebase glue. They forward prompts to an external
  service or wrap a remote listener, and have no local algorithm.
- Presentational pages, chart configurations, CSS class tables and
  `toLocaleString` or `date-fns` formatting.
- The clock. The disease map's initial range reads today's date; here
  `today` is a parameter of `DiseaseMap.DefaultRange`. The time zone is the
  parameter `offset`.
- The reports page's date-picker effect (src/app/admin/reports/page.tsx:102-111).
  It only sets a displayed range.
- DiseaseMap.FilterHotspots: the `setHours` calls mutate the picked Date
  objects in place. That mutation is not modelled, because it is idempotent
  for the same range and the filter result does not depend on it.
- DiseaseMap.Hotspot and Forecast.ForecastRow: neither the hotspot records
  nor the forecast records (src/lib/forecast-data.ts:5) have Rice as a crop
  type. The model reuses the five-crop `Crop` type, so it admits a Rice
  hotspot or forecast row the datasets' types would refuse.
- Farmers.SearchMatches: Unicode case folding is not modelled. Lowercasing is
  ASCII only, and `String(farmSize)` is rendered from tenths of a hectare
  rather than from a floating-point number.
- Strings.Less: characters are compared as Unicode scalar values, while
  JavaScript compares UTF-16 code units. The two orders differ only when a
  character above U+FFFF meets one in U+E000-U+FFFF.
- Farmers.Compare: only the four sortable columns (name, barangay, farm
  size, risk level) are modelled. `sortKey` can hold no other column in the
  page.
- Sorting.SortInPlace: the engine's own sort algorithm is replaced by a
  stable insertion sort. `Array.prototype.sort` is required to be stable,
  and for a consistent comparator every stable sort gives the same order.
- AdminHeader.Title: keys inherited from `Object.prototype`, such as
  "constructor", are not modelled. Such a lookup would find a function.
- LoginForm.Form.HandleSubmit: zod's email-format check is not modelled
  (it is a library rule). The model applies only the password rule.
- LoginForm.Form.OnSubmit: the one-second `setTimeout` is not modelled. The
  model splits the submission into `Begin` and `Complete` at the wait.
  `router.push` becomes the field `navigatedTo`.
- Yields, losses and stock are whole numbers here. The datasets hold only
  whole numbers, and floating-point arithmetic is not modelled.

## Findings

| source | as written | input that shows it | evidently intended | confidence | as-written member | corrected member |
|---|---|---|---|---|---|---|
| src/app/admin/farmers/page.tsx:84-109 | with no filter active, `data` is the shared `farmerData` array, and `data.sort` reorders it in place, so the reports page's first five (src/app/admin/reports/page.tsx:288) then shows the name-sorted farmers | the shipped dataset (Juan Dela Cruz first, Ana Garcia fourth), after the farmer page has rendered with its default name sort | sort a copy, leaving the shared dataset in its original order | not executed | Farmers.FarmerTable.FilteredAndSorted, Reports.ShippedDataLeadChanges | Farmers.FarmerTable.FilteredAndSortedCopy |
| src/app/admin/disease-map/page.tsx:87-92 | `new Date('YYYY-MM-DD')` is midnight UTC, while the range ends are set to local midnight and local end of day | time zone UTC-5, a range of one day D, a hotspot dated D: the hotspot is hidden | both sides read as local dates, so the window includes both picked days | not executed | DiseaseMap.SameDayHotspotHiddenWestOfUtc | DiseaseMap.LocalDateWindowInclusive |
