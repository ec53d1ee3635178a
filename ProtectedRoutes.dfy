/**
 * The route guard: what a guarded page shows for a given authentication state, and the
 * three presets the router wraps pages in.
 */
module ProtectedRoutes {
  import opened Wrappers
  import opened AuthContext

  /** What the guard renders: a spinner, a redirect, the "Unauthorized" page, or the page itself. */
  datatype Outcome = LoadingScreen | RedirectTo(path: string) | UnauthorizedPage | Render

  const LoginPath: string := "/auth/login"
  const UserDashboard: string := "/user/dashboard"
  const AdminDashboard: string := "/admin/dashboard"

  /** `allowedRoles.includes(user?.role)`: without a user the role is undefined and never listed. */
  predicate RoleAllowed(allowedRoles: seq<string>, user: Option<SessionUser>) {
    user.Some? && user.value.role in allowedRoles
  }

  /** Everything the guard demands of the session before it renders the page. */
  predicate Admitted(requireAuth: bool, requireAdmin: bool, allowedRoles: seq<string>, user: Option<SessionUser>) {
    && (requireAuth ==> IsAuthenticated(user))
    && (requireAdmin ==> IsAdmin(user))
    && (|allowedRoles| > 0 ==> RoleAllowed(allowedRoles, user))
    && (!requireAuth ==> !IsAuthenticated(user))
  }

  /**
   * `ProtectedRoute`: the checks in order — loading, authentication, admin rights, role
   * list, and finally the bounce of a signed-in user off a public page.
   */
  function Guard(loading: bool, requireAuth: bool, requireAdmin: bool, allowedRoles: seq<string>,
                 user: Option<SessionUser>): (r: Outcome)
    ensures loading <==> r == LoadingScreen
    ensures r == Render <==> !loading && Admitted(requireAuth, requireAdmin, allowedRoles, user)
    ensures r.RedirectTo? ==> r.path in {LoginPath, UserDashboard, AdminDashboard}
    ensures r == RedirectTo(LoginPath) <==> !loading && requireAuth && !IsAuthenticated(user)
    ensures r == RedirectTo(AdminDashboard) ==> IsAdmin(user) && !requireAuth
    ensures r == UnauthorizedPage ==> IsAuthenticated(user) || !requireAuth
    // the outcome of each check, once every earlier check has passed
    ensures !loading && (requireAuth ==> IsAuthenticated(user)) && requireAdmin && !IsAdmin(user) ==>
      r == RedirectTo(UserDashboard)
    ensures (&& !loading && (requireAuth ==> IsAuthenticated(user)) && (requireAdmin ==> IsAdmin(user))
             && |allowedRoles| > 0 && !RoleAllowed(allowedRoles, user)) ==>
      r == UnauthorizedPage
    ensures (&& !loading && (requireAdmin ==> IsAdmin(user)) && (|allowedRoles| > 0 ==> RoleAllowed(allowedRoles, user))
             && !requireAuth && IsAuthenticated(user)) ==>
      r == RedirectTo(if IsAdmin(user) then AdminDashboard else UserDashboard)
  {
    if loading then LoadingScreen
    else if requireAuth && !IsAuthenticated(user) then RedirectTo(LoginPath)
    else if requireAdmin && !IsAdmin(user) then RedirectTo(UserDashboard)
    else if |allowedRoles| > 0 && !RoleAllowed(allowedRoles, user) then UnauthorizedPage
    else if !requireAuth && IsAuthenticated(user) then
      RedirectTo(if IsAdmin(user) then AdminDashboard else UserDashboard)
    else Render
  }

  /** `AdminRoute`: signed in, admin, role listed as "admin"; a signed-in non-admin goes to the user dashboard. */
  function AdminRoute(loading: bool, user: Option<SessionUser>): (r: Outcome)
    ensures r == Render <==> !loading && user.Some? && user.value.role == "admin"
    ensures !loading && user.None? ==> r == RedirectTo(LoginPath)
    ensures !loading && user.Some? && user.value.role != "admin" ==> r == RedirectTo(UserDashboard)
    ensures r != UnauthorizedPage
  {
    Guard(loading, true, true, ["admin"], user)
  }

  /** `UserRoute`: signed in with role "admin" or "user"; any other role sees the Unauthorized page. */
  function UserRoute(loading: bool, user: Option<SessionUser>): (r: Outcome)
    ensures r == Render <==> !loading && IsUser(user)
    ensures !loading && user.None? ==> r == RedirectTo(LoginPath)
    ensures !loading && user.Some? && !IsUser(user) ==> r == UnauthorizedPage
  {
    Guard(loading, true, false, ["admin", "user"], user)
  }

  /** `PublicRoute`: shown only to visitors; a signed-in user is sent to the dashboard of their role. */
  function PublicRoute(loading: bool, user: Option<SessionUser>): (r: Outcome)
    ensures r == Render <==> !loading && user.None?
    ensures !loading && IsAdmin(user) ==> r == RedirectTo(AdminDashboard)
    ensures !loading && user.Some? && !IsAdmin(user) ==> r == RedirectTo(UserDashboard)
  {
    Guard(loading, false, false, [], user)
  }

  /** No session state renders both a public page and a page that requires sign-in. */
  lemma PublicAndPrivateExclusive(loading: bool, requireAdmin: bool, allowedRoles: seq<string>, user: Option<SessionUser>)
    ensures !(PublicRoute(loading, user) == Render && Guard(loading, true, requireAdmin, allowedRoles, user) == Render)
  {
  }

  /** Whoever may open an admin page may open every user page. */
  lemma AdminPagesAreUserPages(loading: bool, user: Option<SessionUser>)
    ensures AdminRoute(loading, user) == Render ==> UserRoute(loading, user) == Render
  {
  }
}
