// The navigation sidebar: the menu built for an access level, the expanded
// sections and the active/expanded rules of each entry.
module Sidebar {
  import opened Wrappers
  import opened AuthContext

  /** A menu entry; `children` is empty when the entry has none. */
  datatype MenuItem = MenuItem(href: string, text: string, badge: Option<string>, children: seq<MenuItem>)

  function Leaf(href: string, text: string): MenuItem {
    MenuItem(href, text, None, [])
  }

  const TenantsItem := MenuItem("/tenants", "Tenants", None, [
    Leaf("/tenants", "Todos os Tenants"),
    Leaf("/tenants/brands", "Marcas"),
    Leaf("/tenants/segments", "Segmentos")])

  function Hrefs(items: seq<MenuItem>): (hs: seq<string>)
    ensures |hs| == |items|
    ensures forall k :: 0 <= k < |items| ==> hs[k] == items[k].href
  {
    if items == [] then [] else [items[0].href] + Hrefs(items[1..])
  }

  predicate IsAdministrative(level: AccessLevel) {
    level in {CrownLevel, FranchisorLevel, FranchiseLevel}
  }

  const DashboardItem := MenuItem("/dashboard", "Dashboard", None, [])
  const TicketsItem := MenuItem("/tickets", "Chamados", Some("12"), [])
  const UsersItem := Leaf("/users", "Usuários")
  const CategoriesItem := Leaf("/categories", "Categorias")
  const NotificationsItem := MenuItem("/notifications", "Notificações", Some("3"), [])
  const SettingsItem := Leaf("/settings", "Configurações")
  const HelpItem := Leaf("/help", "Ajuda")

  /** The menu of each access level, written out entry by entry. */
  function MenuFor(level: AccessLevel): seq<MenuItem> {
    match level
    case CrownLevel =>
      [DashboardItem, TicketsItem, TenantsItem, Leaf("/reports", "Relatórios Globais"), UsersItem,
       CategoriesItem, NotificationsItem, SettingsItem, HelpItem]
    case FranchisorLevel =>
      [DashboardItem, TicketsItem, Leaf("/franchises", "Franquias"), Leaf("/reports", "Relatórios da Marca"), UsersItem,
       CategoriesItem, NotificationsItem, SettingsItem, HelpItem]
    case FranchiseLevel =>
      [DashboardItem, TicketsItem, Leaf("/reports", "Relatórios da Loja"), UsersItem,
       CategoriesItem, NotificationsItem, SettingsItem, HelpItem]
    case UserLevel =>
      [DashboardItem, TicketsItem, HelpItem]
  }

  /** How many top-level entries each level gets. */
  function MenuLength(level: AccessLevel): nat {
    match level
    case CrownLevel => 9
    case FranchisorLevel => 9
    case FranchiseLevel => 8
    case UserLevel => 3
  }

  /** `getMenuItems`: the base entries, then the level's own entries, then the
      administrative entries, then help, appended in that order. */
  method GetMenuItems(user: Option<User>) returns (items: seq<MenuItem>)
    ensures items == MenuFor(GetAccessLevel(user))
  {
    var accessLevel := GetAccessLevel(user);
    items := [DashboardItem, TicketsItem];
    if accessLevel == CrownLevel {
      items := items + [TenantsItem, Leaf("/reports", "Relatórios Globais"), UsersItem];
    }
    if accessLevel == FranchisorLevel {
      items := items + [Leaf("/franchises", "Franquias"), Leaf("/reports", "Relatórios da Marca"), UsersItem];
    }
    if accessLevel == FranchiseLevel {
      items := items + [Leaf("/reports", "Relatórios da Loja"), UsersItem];
    }
    if IsAdministrative(accessLevel) {
      items := items + [CategoriesItem, NotificationsItem, SettingsItem];
    }
    items := items + [HelpItem];
  }

  /** Every menu begins with the dashboard and the tickets and ends with help;
      an administrative menu has categories, notifications and settings just
      before help, and the USER level gets nothing else. */
  lemma MenuFrame(level: AccessLevel)
    ensures var items := MenuFor(level);
      |items| == MenuLength(level) &&
      items[0] == DashboardItem && items[1] == TicketsItem && items[|items| - 1] == HelpItem
    ensures level == UserLevel ==> Hrefs(MenuFor(level)) == ["/dashboard", "/tickets", "/help"]
    ensures IsAdministrative(level) ==>
      var items := MenuFor(level);
      Hrefs(items[|items| - 4..|items| - 1]) == ["/categories", "/notifications", "/settings"] &&
      items[|items| - 3].badge == Some("3")
  {
  }

  /** The entries each level adds after the base two. */
  lemma MenuLevelEntries(level: AccessLevel)
    ensures level == CrownLevel ==>
      var items := MenuFor(level);
      items[2] == TenantsItem && Hrefs(items[3..5]) == ["/reports", "/users"] && items[3].text == "Relatórios Globais"
    ensures level == FranchisorLevel ==>
      var items := MenuFor(level);
      Hrefs(items[2..5]) == ["/franchises", "/reports", "/users"] && items[3].text == "Relatórios da Marca"
    ensures level == FranchiseLevel ==>
      var items := MenuFor(level);
      Hrefs(items[2..4]) == ["/reports", "/users"] && items[2].text == "Relatórios da Loja"
    ensures Hrefs(TenantsItem.children) == ["/tenants", "/tenants/brands", "/tenants/segments"]
  {
    var items := MenuFor(level);
    match level
    case CrownLevel =>
      assert items[3..5] == [items[3], items[4]];
    case FranchisorLevel =>
      assert items[2..5] == [items[2], items[3], items[4]];
    case FranchiseLevel =>
      assert items[2..4] == [items[2], items[3]];
    case UserLevel =>
  }

  /** Only the crown's tenants entry has children. */
  lemma MenuChildren(level: AccessLevel)
    ensures var items := MenuFor(level);
      forall k :: 0 <= k < |items| ==> (items[k].children != [] <==> level == CrownLevel && k == 2)
  {
  }

  /** `prev.filter(s => s !== section)`. */
  function RemoveAll(prev: seq<string>, section: string): (r: seq<string>)
    ensures |r| <= |prev|
    ensures forall t :: t in r <==> t in prev && t != section
  {
    if prev == [] then []
    else if prev[0] == section then RemoveAll(prev[1..], section)
    else [prev[0]] + RemoveAll(prev[1..], section)
  }

  /** The update `toggleSection` applies to `expandedSections`. */
  function Toggled(prev: seq<string>, section: string): seq<string> {
    if section in prev then RemoveAll(prev, section) else prev + [section]
  }

  /** Toggling flips the membership of the section and of nothing else. */
  lemma ToggleFlips(prev: seq<string>, section: string, t: string)
    ensures t == section ==> (t in Toggled(prev, section) <==> t !in prev)
    ensures t != section ==> (t in Toggled(prev, section) <==> t in prev)
  {
  }

  /** Toggling the same section twice restores which sections are expanded. */
  lemma ToggleTwice(prev: seq<string>, section: string, t: string)
    ensures t in Toggled(Toggled(prev, section), section) <==> t in prev
  {
    ToggleFlips(prev, section, t);
    ToggleFlips(Toggled(prev, section), section, t);
    ToggleFlips(prev, section, section);
  }

  predicate Distinct(s: seq<string>) {
    forall i, j :: 0 <= i < j < |s| ==> s[i] != s[j]
  }

  /** Removing a section never introduces a repeated one. */
  lemma {:induction false} RemoveAllKeepsDistinct(prev: seq<string>, section: string)
    requires Distinct(prev)
    ensures Distinct(RemoveAll(prev, section))
  {
    if prev != [] {
      RemoveAllKeepsDistinct(prev[1..], section);
      var rest := RemoveAll(prev[1..], section);
      assert prev[0] !in prev[1..];
      if prev[0] != section {
        var r := [prev[0]] + rest;
        forall i, j | 0 <= i < j < |r| ensures r[i] != r[j] {
          if i == 0 {
            assert r[j] == rest[j - 1] && r[j] in rest;
          } else {
            assert r[i] == rest[i - 1] && r[j] == rest[j - 1];
          }
        }
      }
    }
  }

  /** Toggling keeps the expanded sections free of repeats. */
  lemma ToggleKeepsDistinct(prev: seq<string>, section: string)
    requires Distinct(prev)
    ensures Distinct(Toggled(prev, section))
  {
    if section in prev {
      RemoveAllKeepsDistinct(prev, section);
    } else {
      var r := prev + [section];
      forall i, j | 0 <= i < j < |r| ensures r[i] != r[j] {
        assert r[i] == prev[i];
        if j == |prev| {
          assert r[j] == section && r[i] in prev;
        } else {
          assert r[j] == prev[j];
        }
      }
    }
  }

  /** One rendered entry: what `renderMenuItem` draws for an item. */
  datatype Entry = Entry(href: string, text: string, badge: Option<string>, depth: nat,
                         active: bool, expandable: bool, expanded: bool)

  /** `renderMenuItem`: the entry itself, followed by its children one level
      deeper when it has children and its href is among the expanded sections. */
  function RenderItem(pathname: string, expanded: seq<string>, item: MenuItem, depth: nat): (es: seq<Entry>)
    ensures |es| >= 1 && es[0].href == item.href && es[0].depth == depth
    decreases item, 1
  {
    var hasChildren := item.children != [];
    var isExpanded := item.href in expanded;
    [Entry(item.href, item.text, item.badge, depth, pathname == item.href, hasChildren, isExpanded)] +
    (if hasChildren && isExpanded then RenderItems(pathname, expanded, item.children, depth + 1) else [])
  }

  function RenderItems(pathname: string, expanded: seq<string>, items: seq<MenuItem>, depth: nat): seq<Entry>
    decreases items, 0
  {
    if items == [] then []
    else RenderItem(pathname, expanded, items[0], depth) + RenderItems(pathname, expanded, items[1..], depth)
  }

  predicate ActiveRuleHolds(pathname: string, es: seq<Entry>) {
    forall e :: e in es ==> (e.active <==> e.href == pathname)
  }

  /** An entry is highlighted exactly when the pathname is its href. */
  lemma {:induction false} ActiveIffPathname(pathname: string, expanded: seq<string>, items: seq<MenuItem>, depth: nat)
    ensures ActiveRuleHolds(pathname, RenderItems(pathname, expanded, items, depth))
    decreases items, 0
  {
    if items != [] {
      ActiveItem(pathname, expanded, items[0], depth);
      ActiveIffPathname(pathname, expanded, items[1..], depth);
    }
  }

  lemma {:induction false} ActiveItem(pathname: string, expanded: seq<string>, item: MenuItem, depth: nat)
    ensures ActiveRuleHolds(pathname, RenderItem(pathname, expanded, item, depth))
    decreases item, 1
  {
    if item.children != [] && item.href in expanded {
      ActiveIffPathname(pathname, expanded, item.children, depth + 1);
    }
  }

  /** With no expanded parent, exactly the top-level items are drawn, in order. */
  lemma {:induction false} CollapsedShowsTopLevel(pathname: string, expanded: seq<string>, items: seq<MenuItem>, depth: nat)
    requires forall k :: 0 <= k < |items| && items[k].children != [] ==> items[k].href !in expanded
    ensures var es := RenderItems(pathname, expanded, items, depth);
      |es| == |items| && forall k :: 0 <= k < |items| ==> es[k].href == items[k].href && es[k].depth == depth
  {
    if items != [] {
      CollapsedShowsTopLevel(pathname, expanded, items[1..], depth);
      var first := RenderItem(pathname, expanded, items[0], depth);
      var rest := RenderItems(pathname, expanded, items[1..], depth);
      assert |first| == 1;
      var es := first + rest;
      forall k | 0 <= k < |items| ensures es[k].href == items[k].href && es[k].depth == depth {
        if k > 0 {
          assert es[k] == rest[k - 1] && items[k] == items[1..][k - 1];
        }
      }
    }
  }

  /** Expanding the tenants entry shows its three children, one level deeper, below it. */
  lemma TenantsExpanded(pathname: string, expanded: seq<string>)
    requires "/tenants" in expanded
    ensures var es := RenderItem(pathname, expanded, TenantsItem, 0);
      |es| == 4 && es[0].href == "/tenants" && es[0].expanded &&
      es[1].href == "/tenants" && es[2].href == "/tenants/brands" && es[3].href == "/tenants/segments" &&
      es[1].depth == es[2].depth == es[3].depth == 1
  {
    var cs := TenantsItem.children;
    var r2 := RenderItems(pathname, expanded, cs[2..], 1);
    assert cs[2..][0] == cs[2] && cs[2..][1..] == [];
    assert RenderItems(pathname, expanded, [], 1) == [];
    assert r2 == RenderItem(pathname, expanded, cs[2], 1);
    var r1 := RenderItems(pathname, expanded, cs[1..], 1);
    assert cs[1..][0] == cs[1] && cs[1..][1..] == cs[2..];
    assert r1 == RenderItem(pathname, expanded, cs[1], 1) + r2;
  }

  /** The tenants entry starts collapsed: only the entry itself is drawn. */
  lemma TenantsCollapsed(pathname: string)
    ensures RenderItem(pathname, ["main"], TenantsItem, 0) ==
      [Entry("/tenants", "Tenants", None, 0, pathname == "/tenants", true, false)]
  {
  }

  /** `getAccessLevelColor`. */
  function AccessLevelColor(level: AccessLevel): string {
    match level
    case CrownLevel => "bg-yellow-100 text-yellow-800 border-yellow-200"
    case FranchisorLevel => "bg-blue-100 text-blue-800 border-blue-200"
    case FranchiseLevel => "bg-green-100 text-green-800 border-green-200"
    case UserLevel => "bg-gray-100 text-gray-800 border-gray-200"
  }

  /** Each level has its own colour. */
  lemma ColorsDistinct(a: AccessLevel, b: AccessLevel)
    ensures AccessLevelColor(a) == AccessLevelColor(b) <==> a == b
  {
  }

  /** The sidebar's state: the expanded sections. */
  class SidebarState {
    var expandedSections: seq<string>

    /** Only 'main' starts expanded, so the tenants entry starts collapsed. */
    constructor ()
      ensures expandedSections == ["main"]
      ensures "/tenants" !in expandedSections
    {
      expandedSections := ["main"];
    }

    /** `toggleSection`. */
    method ToggleSection(section: string)
      modifies this
      ensures expandedSections == Toggled(old(expandedSections), section)
      ensures section in expandedSections <==> section !in old(expandedSections)
    {
      if section in expandedSections {
        expandedSections := RemoveAll(expandedSections, section);
      } else {
        expandedSections := expandedSections + [section];
      }
      ToggleFlips(old(expandedSections), section, section);
    }

    /** The rendered sidebar: nothing without a user and a tenant, otherwise the
        entries of the level's menu. */
    method Render(user: Option<User>, tenant: Option<Tenant>, pathname: string)
      returns (view: Option<seq<Entry>>)
      ensures view.None? <==> user.None? || tenant.None?
      ensures view.Some? ==> view.value == RenderItems(pathname, expandedSections, MenuFor(GetAccessLevel(user)), 0)
      ensures view.Some? ==> ActiveRuleHolds(pathname, view.value)
      ensures view.Some? && "/tenants" !in expandedSections ==>
        |view.value| == MenuLength(GetAccessLevel(user)) && view.value[0].href == "/dashboard"
    {
      if user.None? || tenant.None? {
        return None;
      }
      var items := GetMenuItems(user);
      var es := RenderItems(pathname, expandedSections, items, 0);
      ActiveIffPathname(pathname, expandedSections, items, 0);
      if "/tenants" !in expandedSections {
        CollapsedShowsTopLevel(pathname, expandedSections, items, 0);
      }
      view := Some(es);
    }
  }
}
