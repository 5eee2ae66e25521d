/** The dashboard entry page (`src/pages/Dashboard.tsx`): which dashboard a
    role gets, the role badge of the generic dashboard, and the colour of a
    KPI card's change figure. */
module Dashboard {
  import opened Text
  import opened Wrappers

  /** What the page renders: the agent or manager dashboard, or the generic
      welcome dashboard with the text of its role badge. */
  datatype DashboardView = AgentDashboard | ManagerDashboard | GenericDashboard(roleBadge: string)

  /** `userRole.charAt(0).toUpperCase() + userRole.slice(1)` with ASCII case
      mapping: keeps the length and every character but the first, and
      upper-cases the first. */
  function Capitalize(s: string): (r: string)
    ensures |r| == |s|
    ensures s != [] ==> r[0] == UpperChar(s[0])
    ensures forall i :: 1 <= i < |s| ==> r[i] == s[i]
  {
    if s == [] then [] else [UpperChar(s[0])] + s[1..]
  }

  /** Capitalising twice is capitalising once. */
  lemma CapitalizeIdempotent(s: string)
    ensures Capitalize(Capitalize(s)) == Capitalize(s)
  {
  }

  /** The badge differs from the role only in case. */
  lemma CapitalizeKeepsFolding(s: string)
    ensures Lower(Capitalize(s)) == Lower(s)
  {
    if s != [] {
      LowerOfUpper(s[0]);
      assert Lower(Capitalize(s))[0] == Lower(s)[0];
    }
  }

  /** `Dashboard({ userRole = "agent" })`: "agent" gets the agent dashboard,
      "manager" and "admin" the manager dashboard, any other string the
      generic one with a capitalised badge. */
  function Dispatch(userRole: Option<string>): (r: DashboardView)
    ensures r.GenericDashboard? ==> userRole.Some? && Lower(r.roleBadge) == Lower(userRole.value)
  {
    var role := userRole.GetOr("agent");
    if role == "agent" then AgentDashboard
    else if role == "manager" || role == "admin" then ManagerDashboard
    else
      CapitalizeKeepsFolding(role);
      GenericDashboard(Capitalize(role))
  }

  /** Each dashboard as an if-and-only-if on the role; a missing role counts as
      "agent", and an unrecognised role is never shown the agent dashboard. */
  lemma DispatchCases(userRole: Option<string>)
    ensures Dispatch(userRole) == AgentDashboard <==> userRole.None? || userRole.value == "agent"
    ensures Dispatch(userRole) == ManagerDashboard <==> userRole.Some? && userRole.value in {"manager", "admin"}
    ensures Dispatch(userRole).GenericDashboard? <==> userRole.Some? && userRole.value !in {"agent", "manager", "admin"}
    ensures Dispatch(userRole).GenericDashboard? ==> Lower(Dispatch(userRole).roleBadge) == Lower(userRole.value)
  {
    if userRole.Some? {
      CapitalizeKeepsFolding(userRole.value);
    }
  }

  /** Role strings are compared exactly: a capitalised "Admin" is not an
      admin here and sees the generic dashboard badged "Admin". */
  lemma CapitalisedRoleIsGeneric(role: string)
    requires role == "Admin"
    ensures Dispatch(Some(role)) == GenericDashboard("Admin")
  {
  }

  /** An unknown lower-case role gets the generic dashboard, its badge capitalised. */
  lemma UnknownRoleBadge(role: string)
    requires role == "supervisor"
    ensures Dispatch(Some(role)) == GenericDashboard("Supervisor")
  {
  }

  /** `changeColor`: positive is green, negative red, anything else muted. */
  function ChangeColor(changeType: string): (r: string)
    ensures r in {"text-success", "text-destructive", "text-muted-foreground"}
  {
    if changeType == "positive" then "text-success"
    else if changeType == "negative" then "text-destructive"
    else "text-muted-foreground"
  }

  /** The three colours are distinct and only "positive" and "negative" leave
      the muted colour. */
  lemma ChangeColorCases(changeType: string)
    ensures ChangeColor(changeType) == "text-success" <==> changeType == "positive"
    ensures ChangeColor(changeType) == "text-destructive" <==> changeType == "negative"
    ensures ChangeColor(changeType) == "text-muted-foreground" <==> changeType !in {"positive", "negative"}
  {
  }
}
