/** The admin header: the page title is looked up by the exact path. */
module AdminHeader {

  /** `pathToTitle`. */
  const PathToTitle: map<string, string> := map[
    "/admin/dashboard" := "Admin Dashboard",
    "/admin/disease-map" := "Disease Map",
    "/admin/forecast" := "Supply & Yield Forecast",
    "/admin/farmers" := "Farmer Data Management",
    "/admin/weather-alerts" := "Weather & Risk Alerts",
    "/admin/outbreak-heatmap" := "Colony Outbreak Heatmap",
    "/admin/reports" := "Reports & Analytics",
    "/admin/settings" := "Settings"
  ]

  const Fallback: string := "Admin"

  /** No path of the table is titled with the fallback, and none with the empty string. */
  lemma TableTitlesAreProper()
    ensures forall p :: p in PathToTitle ==> PathToTitle[p] != Fallback && PathToTitle[p] != ""
  {
  }

  /** `pathToTitle[pathname] || 'Admin'`: the table's title for a path that is
      a key, and "Admin" for every other path. */
  function Title(pathname: string): (r: string)
    ensures pathname in PathToTitle ==> r == PathToTitle[pathname]
    ensures r == Fallback <==> pathname !in PathToTitle
  {
    TableTitlesAreProper();
    if pathname in PathToTitle && PathToTitle[pathname] != "" then PathToTitle[pathname] else Fallback
  }

  /** Different pages of the table get different titles. */
  lemma TitlesAreDistinct(p: string, q: string)
    requires p in PathToTitle && q in PathToTitle && p != q
    ensures Title(p) != Title(q)
  {
  }

  /** A page below a listed one, such as a farmer's own page, gets the fallback. */
  lemma SubPathShowsFallback()
    ensures Title("/admin/farmers/1") == Fallback
  {
  }

  /** Each listed admin page shows its own title. */
  lemma ListedPagesShowTheirTitles()
    ensures Title("/admin/dashboard") == "Admin Dashboard"
    ensures Title("/admin/disease-map") == "Disease Map"
    ensures Title("/admin/forecast") == "Supply & Yield Forecast"
    ensures Title("/admin/farmers") == "Farmer Data Management"
    ensures Title("/admin/weather-alerts") == "Weather & Risk Alerts"
    ensures Title("/admin/outbreak-heatmap") == "Colony Outbreak Heatmap"
    ensures Title("/admin/reports") == "Reports & Analytics"
    ensures Title("/admin/settings") == "Settings"
  {
  }
}
