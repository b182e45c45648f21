/** Route gating of `expense_mgmt_frontend_starter.jsx`: `AppRoutes` chooses the
    route table from whether anybody is signed in, and `HomeRouter` picks the
    dashboard shown at "/" from the role string. */
module Routing {

  import opened Wrappers
  import SessionV1
  import SessionV2

  /** The screens the router can render. */
  datatype Page =
    | LoginPage
    | AdminDashboard
    | ManagerDashboard
    | EmployeeDashboard
    | ExpenseForm
    | ApprovalList

  /** What a route produces: a rendered page, or a replacing redirect (`Navigate`). */
  datatype View = Render(page: Page) | Navigate(to: string)

  const LoginPath: string := "/login"
  const HomePath: string := "/"
  const SubmitPath: string := "/submit"
  const ApprovalsPath: string := "/approvals"

  /** `HomeRouter`: exact, case-sensitive comparison with 'admin' and 'manager';
      every other role string falls through to the employee dashboard. */
  function HomeRouter(role: string): (p: Page)
    ensures p == AdminDashboard || p == ManagerDashboard || p == EmployeeDashboard
    ensures p == AdminDashboard <==> role == "admin"
    ensures p == ManagerDashboard <==> role == "manager"
  {
    if role == "admin" then AdminDashboard
    else if role == "manager" then ManagerDashboard
    else EmployeeDashboard
  }

  /** `AppRoutes`: the view for `path` given the current user. */
  function AppRoutes(user: Option<SessionV2.User>, path: string): (v: View)
    ensures user.None? ==> (v.Render? <==> path == LoginPath)
    ensures user.None? && path != LoginPath ==> v == Navigate(LoginPath)
    ensures user.Some? ==> (v.Render? <==> path == HomePath || path == SubmitPath || path == ApprovalsPath)
    ensures user.Some? && v.Navigate? ==> v.to == HomePath
    ensures user.Some? && path == HomePath ==> v == Render(HomeRouter(user.value.role))
    ensures user.Some? && path == SubmitPath ==> v == Render(ExpenseForm)
    ensures user.Some? && path == ApprovalsPath ==> v == Render(ApprovalList)
    ensures v == Render(LoginPage) <==> user.None? && path == LoginPath
  {
    if user.None? then
      if path == LoginPath then Render(LoginPage) else Navigate(LoginPath)
    else if path == HomePath then Render(HomeRouter(user.value.role))
    else if path == SubmitPath then Render(ExpenseForm)
    else if path == ApprovalsPath then Render(ApprovalList)
    else Navigate(HomePath)
  }

  /** No redirect loop: following a redirect once always reaches a rendered page. */
  lemma RedirectSettles(user: Option<SessionV2.User>, path: string)
    ensures AppRoutes(user, path).Navigate? ==> AppRoutes(user, AppRoutes(user, path).to).Render?
  {
  }

  /** What a signed-in user may reach does not depend on the role: there is no
      per-role restriction on "/submit" or "/approvals". Only the page at "/" differs. */
  lemma AccessIgnoresRole(u1: SessionV2.User, u2: SessionV2.User, path: string)
    ensures AppRoutes(Some(u1), path).Render? == AppRoutes(Some(u2), path).Render?
    ensures path != HomePath ==> AppRoutes(Some(u1), path) == AppRoutes(Some(u2), path)
  {
  }

  /** Every entry of the mock table lands on the dashboard its role names. */
  lemma MockUsersReachTheirDashboards()
    ensures AppRoutes(Some(SessionV2.MockUsers[0]), HomePath) == Render(AdminDashboard)
    ensures AppRoutes(Some(SessionV2.MockUsers[1]), HomePath) == Render(ManagerDashboard)
    ensures AppRoutes(Some(SessionV2.MockUsers[2]), HomePath) == Render(EmployeeDashboard)
  {
  }

  /** Across the two variants: the role that `signup` of `src/contexts/AuthContext.jsx`
      assigns, "Admin", does not equal 'admin', so `HomeRouter` would show such an
      identity the employee dashboard. */
  lemma SignupRoleIsNotAdminRole()
    ensures HomeRouter(SessionV1.SignupRole) == EmployeeDashboard
  {
  }

  /** Start-up over any stored record whose role is 'manager' signs that user in
      with no login call, and "/" then shows the manager dashboard. */
  method RestoreStoredManager(storage: map<string, SessionV2.Stored>)
    returns (role: Option<string>, home: View)
    requires SessionV2.StorageKey in storage && storage[SessionV2.StorageKey].Record?
    requires storage[SessionV2.StorageKey].user.role == "manager"
    ensures role == Some("manager")
    ensures home == Render(ManagerDashboard)
  {
    var p := new SessionV2.AuthProvider(storage);
    var outcome := p.Restore();
    role := if p.user.Some? then Some(p.user.value.role) else None;
    home := AppRoutes(p.user, HomePath);
  }

  /** Signing in through the store is what opens the gate: before login only the
      login page renders, after a successful login "/" renders the user's dashboard. */
  method LoginOpensHome(storage: map<string, SessionV2.Stored>, email: string)
    returns (before: View, after: View)
    ensures before == Navigate(LoginPath)
    ensures after.Render? <==> email in {"admin@example.com", "manager@example.com", "employee@example.com"}
    ensures after.Render? ==> after.page == HomeRouter(SessionV2.LookUp(email).value.role)
  {
    var auth := new SessionV2.AuthProvider(storage);
    before := AppRoutes(auth.user, HomePath);
    var ok := auth.Login(email);
    after := AppRoutes(auth.user, HomePath);
  }
}
