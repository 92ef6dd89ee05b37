/** The route guards `useProtectedRoute`, `useProtectedRouteByRole` and
    `useProtectedRouteByRoles`. The effect each runs (`router.push`) is
    returned as the redirect it would issue. */
module ProtectedRoute {
  import opened Js
  import opened Auth

  datatype Redirect = Stay | ToLogin | ToHome

  datatype RouteGuard = RouteGuard(user: Option<SessionUser>, isLoading: bool, isAuthenticated: bool, redirect: Redirect)

  datatype RoleGuard = RoleGuard(
    user: Option<SessionUser>, isLoading: bool, isAuthenticated: bool, hasRole: bool, redirect: Redirect)

  datatype RolesGuard = RolesGuard(
    user: Option<SessionUser>, isLoading: bool, isAuthenticated: bool, hasAnyRole: bool, redirect: Redirect)

  /** `useProtectedRoute`: send a finished, unauthenticated session to `/login`. */
  function ProtectedRoute(a: AuthState): (g: RouteGuard)
    ensures g.redirect == ToLogin <==> !a.isLoading && !a.isAuthenticated
    ensures g.redirect != ToHome
    ensures a.isLoading ==> g.redirect == Stay
    ensures g.user == a.user && g.isLoading == a.isLoading && g.isAuthenticated == a.isAuthenticated
  {
    var redirect := if !a.isLoading && !a.isAuthenticated then ToLogin else Stay;
    RouteGuard(a.user, a.isLoading, a.isAuthenticated, redirect)
  }

  /** `useProtectedRouteByRole(requiredRole)`. */
  function ProtectedRouteByRole(a: AuthState, requiredRole: string): (g: RoleGuard)
    ensures a.isLoading ==> g.redirect == Stay
    ensures g.redirect == ToLogin <==> !a.isLoading && !a.isAuthenticated
    ensures g.redirect == ToHome <==> !a.isLoading && a.isAuthenticated && !g.hasRole
    ensures g.hasRole <==> a.user.Some? && a.user.value.role == Some(requiredRole)
    ensures g.hasRole && !a.isLoading && a.isAuthenticated ==> g.redirect == Stay
    ensures g.user == a.user && g.isLoading == a.isLoading && g.isAuthenticated == a.isAuthenticated
  {
    var hasRole := UserHasRole(a.user, requiredRole);
    var redirect :=
      if a.isLoading then Stay
      else if !a.isAuthenticated then ToLogin
      else if !hasRole then ToHome
      else Stay;
    RoleGuard(a.user, a.isLoading, a.isAuthenticated, hasRole, redirect)
  }

  /** `useProtectedRouteByRoles(requiredRoles)`: an authenticated user without
      a role stays, although `hasAnyRole` is false. */
  function ProtectedRouteByRoles(a: AuthState, requiredRoles: seq<string>): (g: RolesGuard)
    ensures a.isLoading ==> g.redirect == Stay
    ensures g.redirect == ToLogin <==> !a.isLoading && !a.isAuthenticated
    ensures g.redirect == ToHome <==>
      && !a.isLoading && a.isAuthenticated
      && a.user.Some? && a.user.value.role.Some? && a.user.value.role.value != ""
      && a.user.value.role.value !in requiredRoles
    ensures g.hasAnyRole <==>
      a.user.Some? && a.user.value.role.Some? && a.user.value.role.value != ""
      && a.user.value.role.value in requiredRoles
    ensures g.user == a.user && g.isLoading == a.isLoading && g.isAuthenticated == a.isAuthenticated
  {
    var roleGiven := a.user.Some? && a.user.value.role.Some? && a.user.value.role.value != "";
    var redirect :=
      if a.isLoading then Stay
      else if !a.isAuthenticated then ToLogin
      else if roleGiven && a.user.value.role.value !in requiredRoles then ToHome
      else Stay;
    RolesGuard(a.user, a.isLoading, a.isAuthenticated, UserHasAnyRole(a.user, requiredRoles), redirect)
  }

  /** An authenticated user without a role passes the multi-role guard,
      although `hasAnyRole` is false. */
  lemma RolelessUserStays(a: AuthState, requiredRoles: seq<string>)
    requires !a.isLoading && a.isAuthenticated
    requires a.user.None? || a.user.value.role.None? || a.user.value.role == Some("")
    ensures var g := ProtectedRouteByRoles(a, requiredRoles);
      g.redirect == Stay && !g.hasAnyRole
  {
  }

  /** Composed with `useAuth`: while the session is loading no guard redirects. */
  lemma {:induction false} NoRedirectWhileSessionLoads(
    sessionUser: Option<SessionUser>, query: UserQuery, role: string, roles: seq<string>)
    ensures var a := UseAuth(sessionUser, Loading, query);
      && ProtectedRoute(a).redirect == Stay
      && ProtectedRouteByRole(a, role).redirect == Stay
      && ProtectedRouteByRoles(a, roles).redirect == Stay
  {
  }

  /** Composed with `useAuth`: once loading is over, a session with no user is
      sent to `/login` by every guard, and never to `/home`. */
  lemma SignedOutGoesToLogin(status: SessionStatus, query: UserQuery, role: string, roles: seq<string>)
    requires status != Loading && !query.isLoading
    ensures var a := UseAuth(None, status, query);
      && ProtectedRoute(a).redirect == ToLogin
      && ProtectedRouteByRole(a, role).redirect == ToLogin
      && ProtectedRouteByRoles(a, roles).redirect == ToLogin
  {
  }

  /** A user the query still caches after the session lost its user keeps
      `hasRole` true, yet the guard sends them to `/login`: `hasRole` alone
      does not mean the page stays. */
  lemma StaleUserHasRoleButGoesToLogin(u: SessionUser, role: string)
    requires u.role == Some(role)
    ensures var g := ProtectedRouteByRole(UseAuth(None, Unauthenticated, UserQuery(Some(u), false)), role);
      g.hasRole && !g.isLoading && g.redirect == ToLogin
  {
  }

  /** The admin page's guard for an agent: sent to `/home`, `hasRole` false. */
  lemma AgentOnAdminPage(email: Option<string>)
    ensures var u := Some(SessionUser(email, Some("agent")));
      var g := ProtectedRouteByRole(UseAuth(u, Authenticated, UserQuery(u, false)), "admin");
      g.redirect == ToHome && !g.hasRole
  {
  }
}
