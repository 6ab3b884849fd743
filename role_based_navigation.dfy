/**
 * The navigation menu of src/components/RoleBasedNavigation.tsx: a fixed
 * master list of items, each naming the roles that may see it, filtered by
 * the bound role; and the per-role list of feature descriptions.
 */
module RoleBasedNavigation {
  import opened UsePermissions
  import P = Permissions

  /** A menu entry (`label` in the source); the icon is presentation and is left out. */
  datatype NavItem = NavItem(title: string, path: string, roles: seq<string>)

  const AllItems: seq<NavItem> := [
    NavItem("Dashboard", "/", ["admin", "team", "client"]),
    NavItem("Documents", "/repository", ["admin", "team", "client"]),
    NavItem("Tasks", "/tasks", ["admin", "team", "client"]),
    NavItem("Templates", "/templates", ["admin", "team"]),
    NavItem("Analytics", "/insights", ["admin", "team"]),
    NavItem("Team Management", "/user-management", ["admin"]),
    NavItem("Security", "/security", ["admin"]),
    NavItem("Billing", "/billing", ["admin"]),
    NavItem("Audit Logs", "/audit-logs", ["admin"]),
    NavItem("Knowledge Hub", "/knowledge", ["admin", "team", "client"]),
    NavItem("Settings", "/settings", ["admin", "team", "client"])
  ]

  /** The items from position `k` on whose role list includes `role`, in order. */
  function FilterFrom(items: seq<NavItem>, role: string, k: nat): (kept: seq<NavItem>)
    requires k <= |items|
    ensures |kept| <= |items| - k
    decreases |items| - k
  {
    if k == |items| then []
    else if role in items[k].roles then [items[k]] + FilterFrom(items, role, k + 1)
    else FilterFrom(items, role, k + 1)
  }

  /** `items.filter(item => item.roles.includes(role))`. */
  function FilterByRole(items: seq<NavItem>, role: string): (kept: seq<NavItem>)
    ensures |kept| <= |items|
  {
    FilterFrom(items, role, 0)
  }

  /** The menu `useNavigationItems` returns for the bound role. */
  function NavigationItems(acc: Accessor): (menu: seq<NavItem>)
    ensures |menu| <= |AllItems|
  {
    FilterByRole(AllItems, acc.role)
  }

  /** The titles of `items`, in order. */
  function Labels(items: seq<NavItem>): (labels: seq<string>)
    ensures |labels| == |items|
    ensures forall i :: 0 <= i < |items| ==> labels[i] == items[i].title
  {
    seq(|items|, i requires 0 <= i < |items| => items[i].title)
  }

  /** `a` is `b` with some elements dropped and the rest in their original order. */
  predicate Subsequence<T(==)>(a: seq<T>, b: seq<T>)
    decreases |b|
  {
    if |a| == 0 then true
    else if |b| == 0 then false
    else if a[0] == b[0] then Subsequence(a[1..], b[1..])
    else Subsequence(a, b[1..])
  }

  /** `getRoleBasedFeatures`: the descriptions for a known role, nothing for any other. */
  function RoleBasedFeatures(role: string): (features: seq<string>)
    ensures role !in {"admin", "team", "client"} ==> features == []
  {
    if role == "admin" then [
      "Full system administration", "User and team management", "Billing and subscription management",
      "Advanced analytics and reporting", "Security and audit controls", "API and integration management",
      "Workflow automation", "Data export and backup"]
    else if role == "team" then [
      "Document creation and management", "Task assignment and tracking", "Template creation and usage",
      "Team collaboration tools", "Basic analytics and reporting", "File sharing and organization",
      "Workflow participation"]
    else if role == "client" then [
      "View assigned documents", "Download approved files", "Update task status", "Use available templates",
      "Basic collaboration features", "Track project status"]
    else []
  }

  // ---------------------------------------------------------------------------

  /** The filter keeps exactly the items that list the role. */
  lemma {:induction false} FilterFromMembership(items: seq<NavItem>, role: string, k: nat, x: NavItem)
    requires k <= |items|
    ensures x in FilterFrom(items, role, k) <==> x in items[k..] && role in x.roles
    decreases |items| - k
  {
    if k < |items| {
      FilterFromMembership(items, role, k + 1, x);
      assert items[k..] == [items[k]] + items[k + 1..];
    }
  }

  lemma FilterMembership(items: seq<NavItem>, role: string, x: NavItem)
    ensures x in FilterByRole(items, role) <==> x in items && role in x.roles
  {
    FilterFromMembership(items, role, 0, x);
    assert items[0..] == items;
  }

  lemma {:induction false} FilterFromIsSubsequence(items: seq<NavItem>, role: string, k: nat)
    requires k <= |items|
    ensures Subsequence(FilterFrom(items, role, k), items[k..])
    decreases |items| - k
  {
    if k < |items| {
      FilterFromIsSubsequence(items, role, k + 1);
      var rest := FilterFrom(items, role, k + 1);
      assert items[k..][0] == items[k];
      assert items[k..][1..] == items[k + 1..];
      if role in items[k].roles {
        assert ([items[k]] + rest)[1..] == rest;
      } else {
        SubsequenceSkipsHead(rest, items[k..]);
      }
    }
  }

  /** The filter keeps the original order. */
  lemma FilterIsSubsequence(items: seq<NavItem>, role: string)
    ensures Subsequence(FilterByRole(items, role), items)
  {
    FilterFromIsSubsequence(items, role, 0);
    assert items[0..] == items;
  }

  lemma SubsequenceSkipsHead<T>(a: seq<T>, b: seq<T>)
    requires |b| > 0 && Subsequence(a, b[1..])
    ensures Subsequence(a, b)
    decreases |a| + |b|
  {
    if |a| > 0 && a[0] == b[0] {
      SubsequenceDropHead(a, b[1..]);
    }
  }

  lemma SubsequenceDropHead<T>(a: seq<T>, b: seq<T>)
    requires |a| > 0 && Subsequence(a, b)
    ensures Subsequence(a[1..], b)
    decreases |a| + |b|
  {
    if |b| > 0 {
      if a[0] == b[0] {
        SubsequenceSkipsHead(a[1..], b);
      } else {
        SubsequenceDropHead(a, b[1..]);
        SubsequenceSkipsHead(a[1..], b);
      }
    }
  }

  lemma {:induction false} FilterFromKeepsAll(items: seq<NavItem>, role: string, k: nat)
    requires k <= |items|
    requires forall i :: k <= i < |items| ==> role in items[i].roles
    ensures FilterFrom(items, role, k) == items[k..]
    decreases |items| - k
  {
    if k < |items| {
      FilterFromKeepsAll(items, role, k + 1);
      assert items[k..] == [items[k]] + items[k + 1..];
    }
  }

  /** Every item lists the admin, who sees all eleven. */
  lemma AdminSeesAll()
    ensures NavigationItems(Accessor("admin")) == AllItems && |AllItems| == 11
  {
    FilterFromKeepsAll(AllItems, "admin", 0);
    assert AllItems[0..] == AllItems;
  }

  /** The client sees Dashboard, Documents, Tasks, Knowledge Hub and Settings, in that order. */
  lemma ClientMenu()
    ensures NavigationItems(Accessor("client")) == [AllItems[0], AllItems[1], AllItems[2], AllItems[9], AllItems[10]]
    ensures Labels(NavigationItems(Accessor("client"))) ==
      ["Dashboard", "Documents", "Tasks", "Knowledge Hub", "Settings"]
  {
    var a, r := AllItems, "client";
    assert FilterFrom(a, r, 10) == [a[10]];
    assert FilterFrom(a, r, 9) == [a[9], a[10]];
    assert FilterFrom(a, r, 8) == [a[9], a[10]];
    assert FilterFrom(a, r, 7) == [a[9], a[10]];
    assert FilterFrom(a, r, 6) == [a[9], a[10]];
    assert FilterFrom(a, r, 5) == [a[9], a[10]];
    assert FilterFrom(a, r, 4) == [a[9], a[10]];
    assert FilterFrom(a, r, 3) == [a[9], a[10]];
    assert FilterFrom(a, r, 2) == [a[2], a[9], a[10]];
    assert FilterFrom(a, r, 1) == [a[1], a[2], a[9], a[10]];
  }

  /** The team sees everything but Team Management, Security, Billing and Audit Logs. */
  lemma TeamMenu()
    ensures NavigationItems(Accessor("team")) == [AllItems[0], AllItems[1], AllItems[2], AllItems[3], AllItems[4], AllItems[9], AllItems[10]]
  {
    var a, r := AllItems, "team";
    assert FilterFrom(a, r, 10) == [a[10]];
    assert FilterFrom(a, r, 9) == [a[9], a[10]];
    assert FilterFrom(a, r, 8) == [a[9], a[10]];
    assert FilterFrom(a, r, 7) == [a[9], a[10]];
    assert FilterFrom(a, r, 6) == [a[9], a[10]];
    assert FilterFrom(a, r, 5) == [a[9], a[10]];
    assert FilterFrom(a, r, 4) == [a[4], a[9], a[10]];
    assert FilterFrom(a, r, 3) == [a[3], a[4], a[9], a[10]];
    assert FilterFrom(a, r, 2) == [a[2], a[3], a[4], a[9], a[10]];
    assert FilterFrom(a, r, 1) == [a[1], a[2], a[3], a[4], a[9], a[10]];
  }

  /** A role outside the three gets an empty menu. */
  lemma ForeignRoleEmptyMenu(role: string)
    requires role !in {"admin", "team", "client"}
    ensures NavigationItems(Accessor(role)) == []
  {
    if NavigationItems(Accessor(role)) != [] {
      var x := NavigationItems(Accessor(role))[0];
      FilterMembership(AllItems, role, x);
    }
  }

  /** The team holds the two permissions its menu's mapped routes ask for. */
  lemma TeamReadsInsightsAndSettings()
    ensures P.CanAccessRoute("team", "/insights") && P.CanAccessRoute("team", "/settings")
  {
    P.RoleEntry("team", 6);
    P.RoleEntry("team", 5);
  }

  /** Every path the admin's menu shows is a route the admin may open. */
  lemma AdminMenuRoutesOpen(x: NavItem)
    requires x in NavigationItems(Accessor("admin"))
    ensures P.CanAccessRoute("admin", x.path)
  {
    P.RouteAccessNests(x.path);
  }

  /** The team may open each of the paths on its menu. */
  lemma TeamPathsOpen(path: string)
    requires path in ["/", "/repository", "/tasks", "/templates", "/insights", "/knowledge", "/settings"]
    ensures P.CanAccessRoute("team", path)
  {
    if path == "/insights" || path == "/settings" {
      TeamReadsInsightsAndSettings();
    } else {
      P.UnmappedRouteOpen("team", path);
    }
  }

  /** Every path the team's menu shows is a route the team may open. */
  lemma TeamMenuRoutesOpen(x: NavItem)
    requires x in NavigationItems(Accessor("team"))
    ensures P.CanAccessRoute("team", x.path)
  {
    TeamMenu();
    var a := AllItems;
    assert x in [a[0], a[1], a[2], a[3], a[4], a[9], a[10]];
    TeamPathsOpen(x.path);
  }

  /**
   * The menu follows its own role lists, not the route table: the client is
   * shown Settings, whose route needs settings/read, which the client lacks.
   */
  lemma ClientShownDeniedSettings()
    ensures AllItems[10] in NavigationItems(Accessor("client")) && AllItems[10].path == "/settings"
    ensures !P.CanAccessRoute("client", "/settings")
  {
    ClientMenu();
    P.ClientDeniedResources("settings", "read");
  }
}
