/** The route table (`routes`): which view each path shows, which views the
    guard protects and with which roles, and the wildcard redirect. */
module AppRoutes {
  import opened Common
  import Guards

  datatype Route =
    | View(path: string, component: string, guarded: bool, roles: Option<seq<string>>)
    | Redirect(path: string, redirectTo: string)

  const Wildcard := "**"

  const Landing := View("", "LandingComponent", false, None)

  const Routes: seq<Route> := [
    Landing,
    View("register", "RegisterComponent", false, None),
    View("login", "LoginComponent", false, None),
    View("verify", "VerifyComponent", false, None),
    View("manager-dashboard", "ManagerDashboardComponent", true, Some(["Manager"])),
    View("employee-dashboard", "EmployeeDashboardComponent", true, Some(["Employee"])),
    View("admin-dashboard", "AdminDashboardComponent", true, Some(["Admin"])),
    Redirect(Wildcard, "")
  ]

  /** The paths the table names explicitly (all but the wildcard). */
  const NamedPaths: set<string> :=
    {"", "register", "login", "verify", "manager-dashboard", "employee-dashboard", "admin-dashboard"}

  predicate Matches(route: Route, path: string) {
    route.path == Wildcard || route.path == path
  }

  /** The index of the first route of `table` that matches `path`. */
  function FirstMatch(table: seq<Route>, path: string): (i: Option<nat>)
    ensures i.Some? ==> i.value < |table| && Matches(table[i.value], path)
    ensures i.Some? ==> forall j :: 0 <= j < i.value ==> !Matches(table[j], path)
    ensures i.None? <==> forall j :: 0 <= j < |table| ==> !Matches(table[j], path)
  {
    if table == [] then None
    else if Matches(table[0], path) then Some(0)
    else match FirstMatch(table[1..], path)
      case None => None
      case Some(k) => Some(k + 1)
  }

  /** The path the router matches for a url: the url without its leading `/`. */
  function PathOf(url: string): string {
    if |url| > 0 && url[0] == '/' then url[1..] else url
  }

  /** The view a path lands on: the first matching route, after following its
      redirect if it has one. */
  function Resolve(path: string): (v: Route)
    ensures v.View? && v in Routes
  {
    match FirstMatch(Routes, path)
    case None => Landing
    case Some(i) =>
      match Routes[i]
      case View(_, _, _, _) => Routes[i]
      case Redirect(_, target) =>
        match FirstMatch(Routes, target)
        case Some(j) => if Routes[j].View? then Routes[j] else Landing
        case None => Landing
  }

  /** Navigating to a url: the guard runs when the view it lands on has one. */
  function Visit(loggedIn: bool, userRole: Option<string>, url: string): (r: Guards.GuardResult)
    ensures r.allowed <==> r.navigation.None?
    ensures Resolve(PathOf(url)).guarded ==>
              r == Guards.Decide(loggedIn, userRole, Resolve(PathOf(url)).roles, url)
    ensures !Resolve(PathOf(url)).guarded ==> r.allowed
  {
    var view := Resolve(PathOf(url));
    if view.guarded then Guards.Decide(loggedIn, userRole, view.roles, url)
    else Guards.GuardResult(true, None)
  }

  /** Each route before the wildcard is the one its own path lands on. */
  lemma ResolveNamed(k: nat)
    requires k < |Routes| - 1
    ensures Resolve(Routes[k].path) == Routes[k]
  {
    var path := Routes[k].path;
    assert forall j :: 0 <= j < |Routes| - 1 && j != k ==> Routes[j].path != path;
    var i := FirstMatch(Routes, path);
    assert Matches(Routes[k], path);
    assert i.Some? && i.value <= k;
  }

  /** What the table says of each named path. */
  lemma NamedRoutes()
    ensures Resolve("") == Landing
    ensures Resolve("register") == View("register", "RegisterComponent", false, None)
    ensures Resolve("login") == View("login", "LoginComponent", false, None)
    ensures Resolve("verify") == View("verify", "VerifyComponent", false, None)
    ensures Resolve("manager-dashboard") ==
              View("manager-dashboard", "ManagerDashboardComponent", true, Some(["Manager"]))
    ensures Resolve("employee-dashboard") ==
              View("employee-dashboard", "EmployeeDashboardComponent", true, Some(["Employee"]))
    ensures Resolve("admin-dashboard") ==
              View("admin-dashboard", "AdminDashboardComponent", true, Some(["Admin"]))
  {
    ResolveNamed(0);
    ResolveNamed(1);
    ResolveNamed(2);
    ResolveNamed(3);
    ResolveNamed(4);
    ResolveNamed(5);
    ResolveNamed(6);
  }

  /** Any path the table does not name lands, through the wildcard, on the
      unguarded landing view. */
  lemma UnnamedPathsLand(path: string)
    requires path !in NamedPaths
    ensures Resolve(path) == Landing
  {
    var last := |Routes| - 1;
    assert Matches(Routes[last], path);
    assert forall j :: 0 <= j < last ==> Routes[j].path in NamedPaths && Routes[j].path != Wildcard;
    var i := FirstMatch(Routes, path);
    assert i == Some(last);
    ResolveNamed(0);
  }

  /** Each dashboard url gets the guard's decision on that dashboard's role. */
  lemma DashboardsGuarded(loggedIn: bool, userRole: Option<string>)
    ensures Visit(loggedIn, userRole, "/manager-dashboard")
            == Guards.Decide(loggedIn, userRole, Some(["Manager"]), "/manager-dashboard")
    ensures Visit(loggedIn, userRole, "/employee-dashboard")
            == Guards.Decide(loggedIn, userRole, Some(["Employee"]), "/employee-dashboard")
    ensures Visit(loggedIn, userRole, "/admin-dashboard")
            == Guards.Decide(loggedIn, userRole, Some(["Admin"]), "/admin-dashboard")
  {
    assert PathOf("/manager-dashboard") == Routes[4].path;
    ResolveNamed(4);
    assert PathOf("/employee-dashboard") == Routes[5].path;
    ResolveNamed(5);
    assert PathOf("/admin-dashboard") == Routes[6].path;
    ResolveNamed(6);
  }

  /** Every url outside the three dashboards is entered by every user. */
  lemma PublicPathsAllowed(loggedIn: bool, userRole: Option<string>, url: string)
    requires PathOf(url) !in {"manager-dashboard", "employee-dashboard", "admin-dashboard"}
    ensures Visit(loggedIn, userRole, url).allowed
  {
    var path := PathOf(url);
    if path == "" {
      ResolveNamed(0);
    } else if path == "register" {
      ResolveNamed(1);
    } else if path == "login" {
      ResolveNamed(2);
    } else if path == "verify" {
      ResolveNamed(3);
    } else {
      UnnamedPathsLand(path);
    }
  }

  /** The login view is unguarded: every user may visit it. */
  lemma LoginAlwaysAllowed(loggedIn: bool, userRole: Option<string>)
    ensures Visit(loggedIn, userRole, Guards.LoginPath).allowed
  {
    assert PathOf(Guards.LoginPath) == "login";
    NamedRoutes();
  }

  /** The home view the guard picks for a role lets that role in. */
  lemma HomeAlwaysAllowed(userRole: Option<string>)
    ensures Visit(true, userRole, Guards.HomeOf(userRole)).allowed
  {
    var home := Guards.HomeOf(userRole);
    if userRole == Some("Manager") {
      assert PathOf(home) == Routes[4].path;
      ResolveNamed(4);
      assert Guards.Admits(true, userRole, Routes[4].roles);
    } else if userRole == Some("Employee") {
      assert PathOf(home) == Routes[5].path;
      ResolveNamed(5);
      assert Guards.Admits(true, userRole, Routes[5].roles);
    } else {
      assert home == Guards.LandingPath;
      assert PathOf(home) == Routes[0].path;
      ResolveNamed(0);
    }
  }

  /** No redirect loop: wherever the guard sends a user, the guard lets the
      same user in there. */
  lemma NoRedirectLoop(loggedIn: bool, userRole: Option<string>, url: string)
    requires Visit(loggedIn, userRole, url).navigation.Some?
    ensures Visit(loggedIn, userRole, Visit(loggedIn, userRole, url).navigation.value.path).allowed
  {
    var view := Resolve(PathOf(url));
    assert view.guarded;
    var decision := Guards.Decide(loggedIn, userRole, view.roles, url);
    assert Visit(loggedIn, userRole, url) == decision;
    if loggedIn {
      HomeAlwaysAllowed(userRole);
    } else {
      LoginAlwaysAllowed(loggedIn, userRole);
    }
  }
}
