/**
 * The two route guards: the one that checks the authentication flag and a
 * list of accepted roles, and the one that checks the session token and a
 * single role.
 */
module Routes {
  import opened JsValues

  /** What a guard renders: the protected page, or a redirect. */
  datatype Decision = Render | Redirect(to: string)

  // ---------------------------------------------------------------------------
  // ProtectedRoute

  /** The `requiredRole` prop: absent, one role, or a list of roles. */
  datatype RequiredRole = NoRole | OneRole(role: string) | RoleList(roles: seq<string>)

  /** The roles a `requiredRole` accepts, `None` when it requires nothing (absent or the empty string). */
  function RequiredList(required: RequiredRole): (r: Option<seq<string>>)
    ensures r.None? <==> required.NoRole? || required == OneRole("")
    ensures required.OneRole? && required.role != "" ==> r == Some([required.role])
    ensures required.RoleList? ==> r == Some(required.roles)
  {
    match required
    case NoRole => None
    case OneRole(role) => if role != "" then Some([role]) else None
    case RoleList(roles) => Some(roles)
  }

  /** A role is present when it is neither missing nor the empty string. */
  predicate HasRole(userRole: Option<string>)
  {
    userRole.Some? && userRole.value != ""
  }

  /**
   * `ProtectedRoute`: unauthenticated callers go to the login page; when a
   * role is required, a caller without a role or with one not in the list goes
   * to their scores; everyone else sees the page.
   */
  function Protected(isAuthenticated: bool, userRole: Option<string>, required: RequiredRole): (d: Decision)
    ensures !isAuthenticated ==> d == Redirect("/login")
    ensures d == Render <==>
      isAuthenticated && (RequiredList(required).None? ||
        (HasRole(userRole) && userRole.value in RequiredList(required).value))
    ensures d != Render ==> d == Redirect("/login") || d == Redirect("/my-scores")
    ensures isAuthenticated && d != Render ==> d == Redirect("/my-scores")
  {
    if !isAuthenticated then Redirect("/login")
    else match RequiredList(required)
      case None => Render
      case Some(list) =>
        if !HasRole(userRole) || userRole.value !in list then Redirect("/my-scores") else Render
  }

  /** A single role is guarded exactly like a list holding only that role. */
  lemma OneRoleIsOneElementList(isAuthenticated: bool, userRole: Option<string>, role: string)
    requires role != ""
    ensures Protected(isAuthenticated, userRole, OneRole(role)) == Protected(isAuthenticated, userRole, RoleList([role]))
  {
  }

  /** Without a required role, every authenticated caller gets in, whatever their role. */
  lemma NoRoleAdmitsAll(userRole: Option<string>)
    ensures Protected(true, userRole, NoRole) == Render
  {
  }

  // ---------------------------------------------------------------------------
  // PrivateRoute

  /**
   * `PrivateRoute`: without a token the caller goes to the login page; with a
   * token but a required role different from theirs, to the unauthorised page;
   * otherwise the page renders. An empty `role` requires nothing.
   */
  function Private(authToken: string, userRole: Option<string>, role: string): (d: Decision)
    ensures authToken == "" ==> d == Redirect("/login")
    ensures d == Render <==> authToken != "" && (role == "" || userRole == Some(role))
    ensures authToken != "" && role != "" && userRole != Some(role) ==> d == Redirect("/unauthorized")
  {
    if authToken == "" then Redirect("/login")
    else if role != "" && Some(role) != userRole then Redirect("/unauthorized")
    else Render
  }

  /** The token is checked first: a missing token sends to login even when the role would not match either. */
  lemma TokenBeforeRole(userRole: Option<string>, role: string)
    requires role != "" && userRole != Some(role)
    ensures Private("", userRole, role) == Redirect("/login")
    ensures Private("t", userRole, role) == Redirect("/unauthorized")
  {
  }
}
