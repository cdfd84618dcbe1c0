/** The admin sidebar: seven main menu items and a settings item, each
    highlighted when the current path belongs to it. */
module AdminSidebar {
  import opened Strings

  datatype MenuItem = MenuItem(href: string, caption: string)

  /** `mainMenuItems`, in display order. */
  const MainMenuItems: seq<MenuItem> := [
    MenuItem("/admin/dashboard", "Dashboard"),
    MenuItem("/admin/disease-map", "Disease Map"),
    MenuItem("/admin/forecast", "Supply & Forecast"),
    MenuItem("/admin/farmers", "Farmer Data"),
    MenuItem("/admin/weather-alerts", "Weather Alerts"),
    MenuItem("/admin/outbreak-heatmap", "Outbreak Heatmap"),
    MenuItem("/admin/reports", "Reports & Analytics")
  ]

  /** `settingsMenuItem`, shown apart at the bottom. */
  const SettingsMenuItem: MenuItem := MenuItem("/admin/settings", "Settings")

  /** Every item of the sidebar: the main items, then settings. */
  const AllItems: seq<MenuItem> := MainMenuItems + [SettingsMenuItem]

  const DashboardHref: string := "/admin/dashboard"

  /** The `isActive` rule of a main item: the dashboard only on its own path,
      every other item on any path that starts with its href. */
  predicate MainItemActive(item: MenuItem, pathname: string)
  {
    if item.href == DashboardHref then pathname == item.href else IsPrefix(item.href, pathname)
  }

  /** The `isActive` rule of the settings item. */
  predicate SettingsActive(pathname: string)
  {
    IsPrefix(SettingsMenuItem.href, pathname)
  }

  /** Whether the `i`th item of `AllItems` is highlighted. */
  predicate ItemActive(i: nat, pathname: string)
    requires i < |AllItems|
  {
    if i < |MainMenuItems| then MainItemActive(MainMenuItems[i], pathname) else SettingsActive(pathname)
  }

  /** An item is only highlighted on a path its href is a prefix of. */
  lemma ActiveHrefIsPrefix(i: nat, pathname: string)
    requires i < |AllItems| && ItemActive(i, pathname)
    ensures IsPrefix(AllItems[i].href, pathname)
  {
    if i < |MainMenuItems| {
      assert AllItems[i] == MainMenuItems[i];
      if MainMenuItems[i].href == DashboardHref {
        assert pathname[..|DashboardHref|] == pathname;
      }
    }
  }

  /** Two hrefs that differ at a position both reach are not prefixes of each other. */
  lemma DifferAt(a: string, b: string, k: nat)
    requires k < |a| && k < |b| && a[k] != b[k]
    ensures !IsPrefix(a, b) && !IsPrefix(b, a)
  {
    assert |a| <= |b| ==> b[..|a|][k] == b[k];
    assert |b| <= |a| ==> a[..|b|][k] == a[k];
  }

  /** The two characters right after "/admin/" in each href, item by item. */
  const Codes: seq<string> := ["da", "di", "fo", "fa", "we", "ou", "re", "se"]

  lemma HrefCode(i: nat)
    requires i < |AllItems|
    ensures |Codes| == |AllItems| && |AllItems[i].href| > 8 && AllItems[i].href[7..9] == Codes[i]
  {
  }

  lemma CodesDistinct(i: nat, j: nat)
    requires i < |Codes| && j < |Codes| && i != j
    ensures Codes[i] != Codes[j]
  {
  }

  /** No href of the sidebar is a prefix of another one. */
  lemma {:induction false} NoHrefIsPrefixOfAnother(i: nat, j: nat)
    requires i < |AllItems| && j < |AllItems| && i != j
    ensures !IsPrefix(AllItems[i].href, AllItems[j].href)
  {
    HrefCode(i);
    HrefCode(j);
    CodesDistinct(i, j);
    DifferentCodes(AllItems[i].href, AllItems[j].href);
  }

  /** Hrefs with different codes are not prefixes of each other. */
  lemma DifferentCodes(a: string, b: string)
    requires |a| > 8 && |b| > 8 && a[7..9] != b[7..9]
    ensures !IsPrefix(a, b)
  {
    assert a[7..9] == [a[7], a[8]] && b[7..9] == [b[7], b[8]];
    DifferAt(a, b, if a[7] != b[7] then 7 else 8);
  }

  /** At most one item of the sidebar is highlighted, whatever the path. */
  lemma AtMostOneActive(i: nat, j: nat, pathname: string)
    requires i < |AllItems| && j < |AllItems|
    requires ItemActive(i, pathname) && ItemActive(j, pathname)
    ensures i == j
  {
    if i != j {
      ActiveHrefIsPrefix(i, pathname);
      ActiveHrefIsPrefix(j, pathname);
      PrefixesAreComparable(AllItems[i].href, AllItems[j].href, pathname);
      NoHrefIsPrefixOfAnother(i, j);
      NoHrefIsPrefixOfAnother(j, i);
    }
  }

  /** The dashboard item is highlighted exactly on `/admin/dashboard`. */
  lemma DashboardActiveOnlyOnItsPath(pathname: string)
    ensures ItemActive(0, pathname) <==> pathname == DashboardHref
  {
  }

  /** Every other item is highlighted exactly on the paths starting with its href. */
  lemma OtherItemsActiveOnSubPaths(i: nat, pathname: string)
    requires 0 < i < |AllItems|
    ensures ItemActive(i, pathname) <==> IsPrefix(AllItems[i].href, pathname)
  {
    assert i < |MainMenuItems| ==> AllItems[i] == MainMenuItems[i];
    assert AllItems[i].href != DashboardHref by {
      NoHrefIsPrefixOfAnother(0, i);
    }
  }

  /** A page below the dashboard, such as `/admin/dashboard/x`, highlights no item at all. */
  lemma DashboardSubPathHighlightsNothing(i: nat)
    requires i < |AllItems|
    ensures !ItemActive(i, "/admin/dashboard/x")
  {
    var p := "/admin/dashboard/x";
    if 0 < i && ItemActive(i, p) {
      OtherItemsActiveOnSubPaths(i, p);
      assert IsPrefix(DashboardHref, p);
      PrefixesAreComparable(AllItems[i].href, DashboardHref, p);
      NoHrefIsPrefixOfAnother(i, 0);
      NoHrefIsPrefixOfAnother(0, i);
    }
  }
}
