/** `useAuth` and the role predicates built on it: how the client derives the
    signed-in user, the loading flag and the authenticated flag from the
    session and from the cached user query. */
module Auth {
  import opened Js

  /** The user object of a session; `role` and `email` may be missing. */
  datatype SessionUser = SessionUser(email: Option<string>, role: Option<string>)

  /** `status` of `useSession`. */
  datatype SessionStatus = Loading | Authenticated | Unauthenticated

  /** What the `["auth", "user"]` query reports: its cached data (which the
      query keeps after it is disabled) and its loading flag. */
  datatype UserQuery = UserQuery(data: Option<SessionUser>, isLoading: bool)

  datatype AuthState = AuthState(user: Option<SessionUser>, isLoading: bool, isAuthenticated: bool)

  /** The query runs only while the session holds a user. */
  predicate QueryEnabled(sessionUser: Option<SessionUser>) {
    sessionUser.Some?
  }

  /** The query function: the session's user, or null when there is none. */
  function QueryUser(sessionUser: Option<SessionUser>): (r: Option<SessionUser>)
    ensures r.None? <==> !QueryEnabled(sessionUser)
    ensures r.Some? ==> r == sessionUser
  {
    match sessionUser
    case None => None
    case Some(u) => Some(u)
  }

  /** `useAuth`: `sessionUser` is `session?.user`. */
  function UseAuth(sessionUser: Option<SessionUser>, status: SessionStatus, query: UserQuery): (a: AuthState)
    ensures a.isAuthenticated <==> sessionUser.Some?
    ensures status == Loading ==> a.isLoading
    ensures a.isLoading <==> query.isLoading || status == Loading
    ensures query.data.Some? ==> a.user == query.data
    ensures query.data.None? ==> a.user == sessionUser
    ensures a.user.None? <==> query.data.None? && sessionUser.None?
  {
    AuthState(
      if query.data.Some? then query.data else if sessionUser.Some? then sessionUser else None,
      query.isLoading || status == Loading,
      sessionUser.Some?)
  }

  /** `user?.role === role` */
  predicate UserHasRole(user: Option<SessionUser>, role: string): (has: bool)
    ensures has ==> user.Some? && user.value.role.Some? && user.value.role.value == role
    ensures user.Some? && user.value.role == Some(role) ==> has
  {
    match user
    case None => false
    case Some(u) => u.role == Some(role)
  }

  /** `user?.role ? roles.includes(user.role) : false` */
  predicate UserHasAnyRole(user: Option<SessionUser>, roles: seq<string>): (has: bool)
    ensures has <==> exists i :: 0 <= i < |roles| && roles[i] != "" && UserHasRole(user, roles[i])
  {
    match user
    case None => false
    case Some(u) => u.role.Some? && u.role.value != "" && u.role.value in roles
  }

  datatype RoleCheck = RoleCheck(hasRole: bool, isLoading: bool, user: Option<SessionUser>)

  /** `useRole(role)` over the state `useAuth` returned. */
  function UseRole(a: AuthState, role: string): (r: RoleCheck)
    ensures r.hasRole <==> a.user.Some? && a.user.value.role == Some(role)
    ensures r.isLoading == a.isLoading && r.user == a.user
  {
    RoleCheck(UserHasRole(a.user, role), a.isLoading, a.user)
  }

  datatype RolesCheck = RolesCheck(hasAnyRole: bool, isLoading: bool, user: Option<SessionUser>)

  /** `useRoles(roles)` over the state `useAuth` returned. */
  function UseRoles(a: AuthState, roles: seq<string>): (r: RolesCheck)
    ensures a.user.None? || a.user.value.role.None? || a.user.value.role == Some("") ==> !r.hasAnyRole
    ensures a.user.Some? && a.user.value.role.Some? && a.user.value.role.value != "" ==>
      (r.hasAnyRole <==> a.user.value.role.value in roles)
    ensures r.isLoading == a.isLoading && r.user == a.user
  {
    RolesCheck(UserHasAnyRole(a.user, roles), a.isLoading, a.user)
  }

  /** `useIsAdmin` */
  function UseIsAdmin(a: AuthState): (r: RoleCheck)
    ensures r.hasRole <==> a.user.Some? && a.user.value.role == Some("admin")
    ensures r.isLoading == a.isLoading && r.user == a.user
  {
    UseRole(a, "admin")
  }

  /** `useIsAgent` */
  function UseIsAgent(a: AuthState): (r: RoleCheck)
    ensures r.hasRole <==> a.user.Some? && a.user.value.role == Some("agent")
    ensures r.isLoading == a.isLoading && r.user == a.user
  {
    UseRole(a, "agent")
  }

  /** With a single role, `useRoles` agrees with `useRole` except for the
      empty role, which `useRoles` never accepts. */
  lemma UseRolesOfOne(a: AuthState, role: string)
    ensures UseRoles(a, [role]).hasAnyRole <==> UseRole(a, role).hasRole && role != ""
  {
  }

  /** The query's cached data is not tied to the current session: it may
      still hold the user of an earlier one. Once the query has run for the
      current session, `useAuth`'s user is the session's user, and there is a
      user exactly when the session is authenticated. */
  lemma QueryAgreesWithSession(sessionUser: Option<SessionUser>, status: SessionStatus, isLoading: bool)
    ensures var a := UseAuth(sessionUser, status, UserQuery(QueryUser(sessionUser), isLoading));
      a.user == sessionUser && (a.isAuthenticated <==> a.user.Some?)
  {
  }

  /** No user at all is ever admin or agent. */
  lemma NoUserHasNoRole(status: SessionStatus, query: UserQuery)
    requires query.data.None?
    ensures !UseIsAdmin(UseAuth(None, status, query)).hasRole
    ensures !UseIsAgent(UseAuth(None, status, query)).hasRole
  {
  }
}
