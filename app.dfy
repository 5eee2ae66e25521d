/** The application shell (`src/App.tsx`): the signed-in user held in
    state, set by the sign-in form and cleared by sign-out, and the route
    table, which differs for a signed-out and a signed-in visitor. */
module App {
  import opened Wrappers
  import Auth
  import Dashboard
  import AppSidebar

  /** The session's user; the password given at sign-in is not kept. */
  datatype User = User(email: string, role: string)

  /** What a path renders to. `ComingSoon` carries the name its placeholder shows. */
  datatype Element =
    | LoginPage
    | RedirectTo(target: string)
    | DashboardPage(userRole: string)
    | AccountsPage
    | ComingSoon(pageName: string)
    | NotFoundPage

  /** The placeholder routes of the signed-in table, path to page name. */
  const Placeholders: map<string, string> := map[
    "/calls" := "Call Center",
    "/dispositions" := "Dispositions",
    "/upload" := "Upload Data",
    "/reports" := "Reports",
    "/users" := "User Management",
    "/settings" := "Settings",
    "/integrations/3cx" := "3CX Integration",
    "/integrations/database" := "Database Integration"
  ]

  /** The route tables: signed out, "/login" shows the form and every other
      path redirects there; signed in, "/" redirects to the dashboard, the
      listed paths show their pages and anything else, "/login" included, is
      not found. Paths are compared exactly. */
  function Resolve(user: Option<User>, path: string): (r: Element)
    ensures user.None? ==> r in {LoginPage, RedirectTo("/login")}
    ensures r.RedirectTo? ==> r.target == (if user.None? then "/login" else "/dashboard")
    ensures r.DashboardPage? ==> user.Some? && r.userRole == user.value.role
  {
    if user.None? then
      if path == "/login" then LoginPage else RedirectTo("/login")
    else if path == "/" then RedirectTo("/dashboard")
    else if path == "/dashboard" then DashboardPage(user.value.role)
    else if path == "/accounts" then AccountsPage
    else if path in Placeholders then ComingSoon(Placeholders[path])
    else NotFoundPage
  }

  /** What the visitor ends up seeing: a redirect is followed once. */
  function Render(user: Option<User>, path: string): (r: Element)
    ensures !r.RedirectTo?
    ensures user.None? ==> r == LoginPage
  {
    match Resolve(user, path)
    case RedirectTo(target) => Resolve(user, target)
    case e => e
  }

  /** Signed out, only "/login" resolves to the form; everything else redirects to it. */
  lemma SignedOutRoutes(path: string)
    ensures Resolve(None, path) == LoginPage <==> path == "/login"
    ensures path != "/login" ==> Resolve(None, path) == RedirectTo("/login")
  {
  }

  /** Signed out, every path ends at the sign-in form. */
  lemma SignedOutAlwaysSeesLogin(path: string)
    ensures Render(None, path) == LoginPage
  {
  }

  /** Following one redirect always reaches a page: no route redirects twice. */
  lemma RenderNeverRedirects(user: Option<User>, path: string)
    ensures !Render(user, path).RedirectTo?
  {
  }

  /** Signed in, the root lands on the dashboard for the user's role. */
  lemma RootShowsDashboard(u: User)
    ensures Resolve(Some(u), "/") == RedirectTo("/dashboard")
    ensures Render(Some(u), "/") == DashboardPage(u.role)
  {
  }

  /** The signed-in paths that are not "not found". */
  const KnownPaths: set<string> := {"/", "/dashboard", "/accounts"} + Placeholders.Keys

  /** Signed in, a path is found iff it is one of the listed ones; "/login"
      is not among them. */
  lemma SignedInFoundIff(u: User, path: string)
    ensures Resolve(Some(u), path) != NotFoundPage <==> path in KnownPaths
    ensures "/login" !in KnownPaths
  {
  }

  /** The route table does not look at the role: apart from the dashboard,
      which is handed the role, two users reach the same element on every
      path, so an agent typing "/users" gets the user-management route. */
  lemma RoutesIgnoreRole(u1: User, u2: User, path: string)
    ensures path != "/dashboard" ==> Resolve(Some(u1), path) == Resolve(Some(u2), path)
    ensures Resolve(Some(User(u1.email, "agent")), "/users") == ComingSoon("User Management")
  {
  }

  /** Every entry of the sidebar, for any role, leads to a page of the
      signed-in table rather than to "not found". */
  lemma SidebarLinksResolve(u: User)
    ensures forall k :: 0 <= k < |AppSidebar.MenuItems| ==>
      Resolve(Some(u), AppSidebar.MenuItems[k].url) !in {NotFoundPage, LoginPage}
    ensures forall k :: 0 <= k < |AppSidebar.IntegrationItems| ==>
      Resolve(Some(u), AppSidebar.IntegrationItems[k].url) !in {NotFoundPage, LoginPage}
  {
  }

  /** The `user` state of `App`. */
  class Session {
    var user: Option<User>

    constructor()
      ensures user.None?
    {
      user := None;
    }

    /** `handleLogin(email, password, role)`: keeps email and role only. */
    method HandleLogin(email: string, password: string, role: string)
      modifies this
      ensures user == Some(User(email, role))
    {
      user := Some(User(email, role));
    }

    /** `handleLogout` */
    method HandleLogout()
      modifies this
      ensures user.None?
    {
      user := None;
    }

    /** What `path` shows in the current session. */
    function CurrentElement(path: string): (e: Element)
      reads this
      ensures user.None? ==> e == LoginPage
      ensures user.Some? && path in {"/", "/dashboard"} ==> e == DashboardPage(user.value.role)
    {
      Render(user, path)
    }
  }

  /** The sidebar `AppLayout` shows for a signed-in user: the titles of the
      main menu and whether the Integrations group appears. */
  function SidebarFor(u: User): (seq<string>, bool)
  {
    (AppSidebar.Titles(AppSidebar.VisibleItems(AppSidebar.MenuItems, u.role)), AppSidebar.ShowsIntegrations(u.role))
  }

  /** An admin's sidebar offers both administration entries and the integrations. */
  lemma AdminSidebar(u: User)
    requires u.role == "admin"
    ensures "User Management" in SidebarFor(u).0 && "System Settings" in SidebarFor(u).0
    ensures SidebarFor(u).1
  {
    AppSidebar.AdminMenu(u.role);
    assert SidebarFor(u).0[6] == "User Management" && SidebarFor(u).0[7] == "System Settings";
    AppSidebar.ShowsIntegrationsIff(u.role);
  }

  /** Any user who is not an admin is offered neither administration entry. */
  lemma NonAdminSidebar(u: User)
    requires u.role != "admin"
    ensures "User Management" !in SidebarFor(u).0 && "System Settings" !in SidebarFor(u).0
  {
    var shown := AppSidebar.VisibleItems(AppSidebar.MenuItems, u.role);
    forall k | 0 <= k < |shown|
      ensures SidebarFor(u).0[k] != "User Management" && SidebarFor(u).0[k] != "System Settings"
    {
      assert shown[k] in shown;
      AppSidebar.AdministrationHidden(u.role, shown[k]);
    }
  }

  /** An agent's sidebar offers neither administration entry nor the integrations. */
  lemma AgentSidebar(u: User)
    requires u.role == "agent"
    ensures "User Management" !in SidebarFor(u).0 && "System Settings" !in SidebarFor(u).0
    ensures !SidebarFor(u).1
  {
    NonAdminSidebar(u);
    AppSidebar.ShowsIntegrationsIff(u.role);
  }

  /** Signing in as the admin demo account from the form: the root shows the
      manager dashboard, the sidebar offers User Management and the
      integrations, and signing out sends every path back to the form. */
  method AdminSession() returns (landing: Element, view: Dashboard.DashboardView, menu: seq<string>, integrations: bool, afterLogout: Element)
    ensures landing == DashboardPage("admin")
    ensures view == Dashboard.ManagerDashboard
    ensures "User Management" in menu && "System Settings" in menu && integrations
    ensures afterLogout == LoginPage
  {
    var form := new Auth.LoginForm();
    form.SetEmail("admin@bank.com");
    form.SetPassword("secret");
    var started := form.BeginSubmit();
    Auth.AdminDemoRole(started.value.email);
    var call := form.FinishSubmit(started.value);
    var app := new Session();
    app.HandleLogin(call.email, call.password, call.role);
    landing := app.CurrentElement("/");
    view := Dashboard.Dispatch(Some(landing.userRole));
    AdminSidebar(app.user.value);
    menu, integrations := SidebarFor(app.user.value).0, SidebarFor(app.user.value).1;
    app.HandleLogout();
    afterLogout := app.CurrentElement("/dashboard");
  }

  /** The agent demo account lands on the agent dashboard and is offered
      neither administration entry nor the integrations group. */
  method AgentSession() returns (landing: Element, view: Dashboard.DashboardView, menu: seq<string>, integrations: bool)
    ensures landing == DashboardPage("agent")
    ensures view == Dashboard.AgentDashboard
    ensures "User Management" !in menu && "System Settings" !in menu && !integrations
  {
    var form := new Auth.LoginForm();
    form.SetEmail("agent@bank.com");
    form.SetPassword("secret");
    var started := form.BeginSubmit();
    Auth.AgentDemoRole(started.value.email);
    var call := form.FinishSubmit(started.value);
    var app := new Session();
    app.HandleLogin(call.email, call.password, call.role);
    landing := app.CurrentElement("/");
    view := Dashboard.Dispatch(Some(landing.userRole));
    AgentSidebar(app.user.value);
    menu, integrations := SidebarFor(app.user.value).0, SidebarFor(app.user.value).1;
  }
}
