/** The client's routes and their `PrivateRoute` guard, which decides by the
    account's global role, not by the role in the current organization. */
module App {
  import opened Common
  import opened AuthContext
  import opened Layout

  /** What a guarded route renders. */
  datatype Outcome = Spinner | ToLogin | ToDashboard | Render

  /** `PrivateRoute`: a spinner while the session loads, the login page
      without a user, the dashboard when roles are asked for and the user's
      global role is not one of them, and the page otherwise. */
  function PrivateRoute(loading: bool, user: Option<SessionUser>, roles: Option<seq<Role>>): (o: Outcome)
    ensures loading <==> o == Spinner
    ensures !loading && user.None? ==> o == ToLogin
    ensures !loading && user.Some? ==>
      (o == Render <==> roles.None? || user.value.role in roles.value) &&
      (o != Render ==> o == ToDashboard)
  {
    if loading then Spinner
    else if user.None? then ToLogin
    else if roles.Some? && user.value.role !in roles.value then ToDashboard
    else Render
  }

  /** How a page is routed: not at all, for any user, or for some roles. */
  datatype Guard = NoRoute | AnyUser | RolesOnly(roles: seq<Role>)

  /** The route table. */
  function RouteGuard(p: Page): Guard {
    match p
    case Dashboard => AnyUser
    case Inventory => AnyUser
    case Accounting => AnyUser
    case Sales => AnyUser
    case Reports => RolesOnly([Admin, Owner, Superuser])
    case Settings => RolesOnly([Admin, Owner, Superuser])
    case Users => RolesOnly([Owner, Superuser])
    case CashClose => RolesOnly([Admin, Owner, Superuser])
    case Organizations => NoRoute
  }

  /** What visiting a page gives; `None` when no route matches it. */
  function Visit(p: Page, loading: bool, user: Option<SessionUser>): Option<Outcome> {
    match RouteGuard(p)
    case NoRoute => None
    case AnyUser => Some(PrivateRoute(loading, user, None))
    case RolesOnly(roles) => Some(PrivateRoute(loading, user, Some(roles)))
  }

  /** Only the global role decides: the flag of a superuser and the list of
      memberships make no difference, so an owner of the current
      organization whose account is an employee is sent away from Usuarios. */
  lemma GlobalRoleDecides(loading: bool, u: SessionUser, v: SessionUser, roles: Option<seq<Role>>)
    requires u.role == v.role
    ensures PrivateRoute(loading, Some(u), roles) == PrivateRoute(loading, Some(v), roles)
    ensures !loading && u.role == Employee ==> Visit(Users, loading, Some(u)) == Some(ToDashboard)
  {
  }

  /** Where a route asks for roles, they are those of its navigation entry. */
  lemma RoutesMatchNavigation(k: nat)
    requires k < |NavItems|
    ensures RouteGuard(NavItems[k].page).RolesOnly? ==> RouteGuard(NavItems[k].page).roles == NavItems[k].roles
  {
  }

  /** The navigation bar hides Inventario and Contabilidad from an employee,
      but their routes render for any logged-in user; and the
      Organizaciones entry leads to no route at all. */
  lemma HiddenButReachable(u: SessionUser)
    ensures NavItems[1] !in FilteredNavItems(false, Some(Employee))
    ensures NavItems[4] !in FilteredNavItems(false, Some(Employee))
    ensures Visit(NavItems[1].page, false, Some(u)) == Some(Render)
    ensures Visit(NavItems[4].page, false, Some(u)) == Some(Render)
    ensures Visit(NavItems[8].page, false, Some(u)) == None
  {
    EmployeeEntries();
    var n0, n1, n2, n4, n8 := NavItems[0], NavItems[1], NavItems[2], NavItems[4], NavItems[8];
    assert n0.page == Dashboard && n1.page == Inventory && n2.page == Sales;
    assert n4.page == Accounting && n8.page == Organizations;
    assert RouteGuard(n1.page) == AnyUser && RouteGuard(n4.page) == AnyUser && RouteGuard(n8.page) == NoRoute;
  }
}
