/** The route guard (`authGuard`): a decision of whether a navigation may
    proceed, and where the router is sent when it may not. */
module Guards {
  import opened Common
  import Session

  const LoginPath := "/login"
  const LandingPath := "/"
  const ManagerHome := "/manager-dashboard"
  const EmployeeHome := "/employee-dashboard"

  /** The home view of each role that has one; every other role, and no role
      at all, is sent to the landing view. */
  const RoleHomes: map<string, string> := map["Manager" := ManagerHome, "Employee" := EmployeeHome]

  /** A call of `router.navigate([path], { queryParams: { returnUrl } })`. */
  datatype Navigation = Navigation(path: string, returnUrl: Option<string>)

  /** The guard's boolean result together with the navigation it issued. */
  datatype GuardResult = GuardResult(allowed: bool, navigation: Option<Navigation>)

  /** The access rule of a route: an authenticated user whose role is listed,
      or any authenticated user when the route lists no roles. */
  predicate Admits(loggedIn: bool, userRole: Option<string>, allowedRoles: Option<seq<string>>) {
    && loggedIn
    && (|| allowedRoles.None?
        || allowedRoles.value == []
        || (Truthy(userRole) && userRole.value in allowedRoles.value))
  }

  function HomeOf(userRole: Option<string>): string {
    if userRole.Some? && userRole.value in RoleHomes then RoleHomes[userRole.value] else LandingPath
  }

  /** The guard's decision from what it asks the session (logged in? which
      role?), the route's `data.roles` and the requested url. */
  function Decide(loggedIn: bool, userRole: Option<string>, allowedRoles: Option<seq<string>>, url: string): (r: GuardResult)
    ensures r.allowed <==> r.navigation.None?
    ensures r.allowed <==> Admits(loggedIn, userRole, allowedRoles)
    ensures !loggedIn ==> r.navigation == Some(Navigation(LoginPath, Some(url)))
    ensures loggedIn && !r.allowed ==> r.navigation == Some(Navigation(HomeOf(userRole), None))
  {
    if !loggedIn then
      GuardResult(false, Some(Navigation(LoginPath, Some(url))))
    else if allowedRoles.None? || |allowedRoles.value| == 0 then
      GuardResult(true, None)
    else if Truthy(userRole) && userRole.value in allowedRoles.value then
      GuardResult(true, None)
    else if userRole == Some("Manager") then
      GuardResult(false, Some(Navigation(ManagerHome, None)))
    else if userRole == Some("Employee") then
      GuardResult(false, Some(Navigation(EmployeeHome, None)))
    else
      GuardResult(false, Some(Navigation(LandingPath, None)))
  }

  /** `authGuard` run against a session: it only reads the service (a
      function cannot change the store) and asks it exactly two questions. */
  function AuthGuard(auth: Session.AuthService, allowedRoles: Option<seq<string>>, url: string): (r: GuardResult)
    reads auth
    ensures r.allowed <==> r.navigation.None?
    ensures r.allowed <==>
              && auth.IsLoggedIn()
              && (|| allowedRoles.None?
                  || allowedRoles.value == []
                  || (auth.GetRole().Some? && auth.GetRole().value in allowedRoles.value))
    ensures !auth.IsLoggedIn() ==> r.navigation == Some(Navigation(LoginPath, Some(url)))
    ensures auth.IsLoggedIn() && !r.allowed ==> r.navigation == Some(Navigation(HomeOf(auth.GetRole()), None))
  {
    Decide(auth.IsLoggedIn(), auth.GetRole(), allowedRoles, url)
  }
}
