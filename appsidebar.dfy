/** The navigation sidebar (`src/components/layout/AppSidebar.tsx`): two
    constant menu tables, each filtered by the signed-in role, and the
    highlighting of the entry for the current path. */
module AppSidebar {
  import opened Seqs
  import opened Wrappers

  /** A menu entry; the icon is display only and left out. */
  datatype MenuItem = MenuItem(title: string, url: string, roles: seq<string>)

  const MenuItems: seq<MenuItem> := [
    MenuItem("Dashboard", "/dashboard", ["admin", "manager", "agent"]),
    MenuItem("Accounts", "/accounts", ["admin", "manager", "agent"]),
    MenuItem("Call Center", "/calls", ["admin", "manager", "agent"]),
    MenuItem("Dispositions", "/dispositions", ["admin", "manager"]),
    MenuItem("Upload Data", "/upload", ["admin", "manager"]),
    MenuItem("Reports", "/reports", ["admin", "manager"]),
    MenuItem("User Management", "/users", ["admin"]),
    MenuItem("System Settings", "/settings", ["admin"])
  ]

  const IntegrationItems: seq<MenuItem> := [
    MenuItem("3CX Status", "/integrations/3cx", ["admin", "manager"]),
    MenuItem("Database", "/integrations/database", ["admin"])
  ]

  /** `userRole = "agent"`: the role used when the prop is not passed. */
  function EffectiveRole(userRole: Option<string>): (r: string)
    ensures userRole.Some? ==> r == userRole.value
    ensures userRole.None? ==> r == "agent"
  {
    userRole.GetOr("agent")
  }

  /** `item.roles.includes(userRole)` */
  predicate VisibleTo(item: MenuItem, role: string)
  {
    role in item.roles
  }

  /** `items.filter(item => item.roles.includes(userRole))`, used for both tables. */
  function VisibleItems(items: seq<MenuItem>, role: string): (r: seq<MenuItem>)
    ensures |r| <= |items|
    ensures forall item :: item in r <==> item in items && role in item.roles
  {
    FilterMembershipAll(items, item => VisibleTo(item, role));
    Filter(items, item => VisibleTo(item, role))
  }

  /** The visible entries keep the table's order. */
  lemma VisibleItemsIsSubsequence(items: seq<MenuItem>, role: string)
    ensures exists idx :: EmbedsBy(VisibleItems(items, role), items, idx)
  {
    var p := item => VisibleTo(item, role);
    FilterIsSubsequence(items, p);
    assert EmbedsBy(VisibleItems(items, role), items, KeptIndices(items, p));
  }

  function Titles(items: seq<MenuItem>): (r: seq<string>)
    ensures |r| == |items|
    ensures forall k :: 0 <= k < |items| ==> r[k] == items[k].title
  {
    seq(|items|, k requires 0 <= k < |items| => items[k].title)
  }

  /** When the entries a role sees form a prefix of the table, the menu is that prefix. */
  lemma VisiblePrefix(items: seq<MenuItem>, role: string, n: int)
    requires 0 <= n <= |items|
    requires forall k :: 0 <= k < n ==> role in items[k].roles
    requires forall k :: n <= k < |items| ==> role !in items[k].roles
    ensures VisibleItems(items, role) == items[..n]
  {
    var p := item => VisibleTo(item, role);
    assert items == items[..n] + items[n..];
    FilterAppend(items[..n], items[n..], p);
    FilterAllPass(items[..n], p);
    FilterNonePass(items[n..], p);
  }

  /** Exactly the three baseline entries are shown to an agent. */
  lemma AgentMenu(role: string)
    requires role == "agent"
    ensures VisibleItems(MenuItems, role) == MenuItems[..3]
  {
    assert role in MenuItems[0].roles && role in MenuItems[1].roles && role in MenuItems[2].roles;
    assert forall k :: 3 <= k < |MenuItems| ==> MenuItems[k].roles[0] == "admin" && |MenuItems[k].roles| <= 2;
    VisiblePrefix(MenuItems, role, 3);
  }

  /** A manager sees everything but the two administration entries. */
  lemma ManagerMenu(role: string)
    requires role == "manager"
    ensures VisibleItems(MenuItems, role) == MenuItems[..6]
  {
    assert forall k :: 0 <= k < 6 ==> MenuItems[k].roles[1] == role;
    assert forall k :: 6 <= k < |MenuItems| ==> MenuItems[k].roles == ["admin"];
    VisiblePrefix(MenuItems, role, 6);
  }

  /** An admin sees the whole table. */
  lemma AdminMenu(role: string)
    requires role == "admin"
    ensures VisibleItems(MenuItems, role) == MenuItems
  {
    VisiblePrefix(MenuItems, role, 8);
  }

  /** The integration group per role: nothing for an agent, the 3CX status for
      a manager, both entries for an admin. */
  lemma IntegrationMenus()
    ensures VisibleItems(IntegrationItems, "agent") == []
    ensures Titles(VisibleItems(IntegrationItems, "manager")) == ["3CX Status"]
    ensures VisibleItems(IntegrationItems, "admin") == IntegrationItems
  {
    VisiblePrefix(IntegrationItems, "agent", 0);
    VisiblePrefix(IntegrationItems, "manager", 1);
    VisiblePrefix(IntegrationItems, "admin", 2);
  }

  /** Every entry of both tables names only the three known roles. */
  lemma TablesNameKnownRoles()
    ensures forall k :: 0 <= k < |MenuItems| ==> forall r :: r in MenuItems[k].roles ==> r in {"admin", "manager", "agent"}
    ensures forall k :: 0 <= k < |IntegrationItems| ==> forall r :: r in IntegrationItems[k].roles ==> r in {"admin", "manager", "agent"}
  {
  }

  /** A role other than the three sees two empty menus. */
  lemma UnknownRoleSeesNothing(role: string)
    requires role !in {"admin", "manager", "agent"}
    ensures VisibleItems(MenuItems, role) == []
    ensures VisibleItems(IntegrationItems, role) == []
  {
    TablesNameKnownRoles();
    FilterNonePass(MenuItems, item => VisibleTo(item, role));
    FilterNonePass(IntegrationItems, item => VisibleTo(item, role));
  }

  /** Roles are nested: whatever an agent sees a manager sees, and whatever a
      manager sees an admin sees. */
  lemma RolesAreNested(item: MenuItem)
    requires item in MenuItems || item in IntegrationItems
    ensures VisibleTo(item, "agent") ==> VisibleTo(item, "manager")
    ensures VisibleTo(item, "manager") ==> VisibleTo(item, "admin")
  {
  }

  /** User Management and System Settings are shown to an admin and to no
      other role. */
  lemma AdministrationIsAdminOnly(role: string, item: MenuItem)
    requires item in MenuItems && item.title in {"User Management", "System Settings"}
    ensures item in VisibleItems(MenuItems, role) <==> role == "admin"
  {
    var k :| 0 <= k < |MenuItems| && MenuItems[k] == item;
    assert k == 6 || k == 7;
  }

  /** An entry shown to a role other than admin is neither administration entry. */
  lemma AdministrationHidden(role: string, item: MenuItem)
    requires item in MenuItems && role in item.roles && role != "admin"
    ensures item.title != "User Management" && item.title != "System Settings"
  {
  }

  /** The Integrations heading is rendered when its filtered list is non-empty. */
  predicate ShowsIntegrations(role: string)
  {
    |VisibleItems(IntegrationItems, role)| > 0
  }

  /** The heading is shown to managers and admins only. */
  lemma ShowsIntegrationsIff(role: string)
    ensures ShowsIntegrations(role) <==> role == "admin" || role == "manager"
  {
    if role !in {"admin", "manager", "agent"} {
      UnknownRoleSeesNothing(role);
    } else {
      IntegrationMenus();
    }
  }

  /** With no role passed, the sidebar is the agent's. */
  lemma DefaultRoleMenu()
    ensures VisibleItems(MenuItems, EffectiveRole(None)) == MenuItems[..3]
    ensures !ShowsIntegrations(EffectiveRole(None))
  {
    AgentMenu(EffectiveRole(None));
    IntegrationMenus();
  }

  /** `isActive(path)`: exact comparison with the current path, so a deeper
      path (a sub-page of the entry, or its url with a trailing slash) does
      not highlight the entry. */
  predicate IsActive(currentPath: string, url: string): (r: bool)
    ensures r ==> forall sub :: sub != [] ==> currentPath != url + sub
  {
    currentPath == url
  }

  /** No two entries of either table share a url, so at most one entry is
      highlighted for any path. */
  lemma AtMostOneActive(currentPath: string)
    ensures forall i, j :: 0 <= i < j < |MenuItems + IntegrationItems| ==>
      !(IsActive(currentPath, (MenuItems + IntegrationItems)[i].url) && IsActive(currentPath, (MenuItems + IntegrationItems)[j].url))
  {
  }
}
