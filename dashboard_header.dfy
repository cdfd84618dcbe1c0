/** The farmer dashboard's header: the page title is the title of the first
    table entry whose path the current path starts with. */
module DashboardHeader {
  import opened Strings
  import opened Domain

  datatype Entry = Entry(path: string, title: string)

  /** `pathToTitle`, in insertion order, which is the order `Object.entries`
      lists string keys in. */
  const PathToTitle: seq<Entry> := [
    Entry("/dashboard", "Dashboard Overview"),
    Entry("/dashboard/alerts", "Weather & Risk Alerts"),
    Entry("/dashboard/scan", "Crop Scan & Diagnosis"),
    Entry("/dashboard/log", "Farm Activity Log"),
    Entry("/dashboard/forecast", "Yield Forecast"),
    Entry("/dashboard/settings", "Settings")
  ]

  const Fallback: string := "AgriSense"

  /** `entries.find(([path]) => pathname.startsWith(path))`: the first entry
      whose path is a prefix of `pathname`. */
  function FindByPrefix(entries: seq<Entry>, pathname: string): (r: Option<nat>)
    ensures r.Some? ==> r.value < |entries| && IsPrefix(entries[r.value].path, pathname)
    ensures r.Some? ==> forall j :: 0 <= j < r.value ==> !IsPrefix(entries[j].path, pathname)
    ensures r.None? <==> forall j :: 0 <= j < |entries| ==> !IsPrefix(entries[j].path, pathname)
  {
    if entries == [] then None
    else if IsPrefix(entries[0].path, pathname) then Some(0)
    else
      match FindByPrefix(entries[1..], pathname)
      case None => None
      case Some(k) => Some(k + 1)
  }

  /** `?.[1] || 'AgriSense'`: the found title, unless there is none or it is empty. */
  function Title(pathname: string): (r: string)
    ensures r != ""
  {
    match FindByPrefix(PathToTitle, pathname)
    case None => Fallback
    case Some(k) => if PathToTitle[k].title == "" then Fallback else PathToTitle[k].title
  }

  /** Every key of the table extends `/dashboard`. */
  lemma DashboardIsPrefixOfEveryPath(j: nat)
    requires j < |PathToTitle|
    ensures IsPrefix(PathToTitle[0].path, PathToTitle[j].path)
  {
  }

  /** The title is "Dashboard Overview" exactly on the paths that start with
      `/dashboard`; the first key shadows all the others. */
  lemma {:induction false} TitleIsOverviewIff(pathname: string)
    ensures Title(pathname) == "Dashboard Overview" <==> IsPrefix("/dashboard", pathname)
    ensures !IsPrefix("/dashboard", pathname) ==> Title(pathname) == Fallback
  {
    if !IsPrefix("/dashboard", pathname) {
      forall j | 0 <= j < |PathToTitle|
        ensures !IsPrefix(PathToTitle[j].path, pathname)
      {
        if IsPrefix(PathToTitle[j].path, pathname) {
          DashboardIsPrefixOfEveryPath(j);
          PrefixTransitive(PathToTitle[0].path, PathToTitle[j].path, pathname);
        }
      }
    }
  }

  /** So the header can only ever show one of two titles. */
  lemma TitleIsOneOfTwo(pathname: string)
    ensures Title(pathname) == "Dashboard Overview" || Title(pathname) == Fallback
  {
    TitleIsOverviewIff(pathname);
  }

  /** The scan page is titled "Dashboard Overview", not "Crop Scan & Diagnosis". */
  lemma ScanPageShowsOverview()
    ensures Title("/dashboard/scan") == "Dashboard Overview"
  {
    TitleIsOverviewIff("/dashboard/scan");
  }

  /** Matching is a raw prefix test, so `/dashboardX` is titled too. */
  lemma UnrelatedPathShowsOverview()
    ensures Title("/dashboardX") == "Dashboard Overview"
  {
    TitleIsOverviewIff("/dashboardX");
  }
}
