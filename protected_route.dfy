/**
 * The route guards (src/components/ProtectedRoute.tsx): from the session's
 * loading and authentication flags, the current path and the guard's own
 * options, each guard decides whether to show the spinner, redirect, or
 * render the protected children.
 */
module ProtectedRoute {
  import opened Wrappers
  import opened Types
  import AuthStore

  /** What a guard renders. `Redirect` is a replacing navigation to `to`. */
  datatype Outcome = Spinner | Redirect(to: string) | Children

  /** The pages a signed-in user is sent away from when the route does not require a session. */
  predicate IsAuthPage(pathname: string) {
    pathname == "/login" || pathname == "/register"
  }

  /**
   * `ProtectedRoute` with its defaults `requireAuth = true` and
   * `redirectTo = '/login'`: the spinner while the session is loading,
   * whatever else holds; then a redirect to `redirectTo` for a missing
   * session on a protected route; then a redirect of a signed-in user away
   * from the sign-in and registration pages of a public route; otherwise the
   * children.
   */
  function Guard(isLoading: bool, isAuthenticated: bool, pathname: string,
                 requireAuth: bool := true, redirectTo: string := "/login"): (r: Outcome)
    ensures r.Spinner? <==> isLoading
    ensures r.Redirect? ==> r.to == redirectTo || r.to == "/dashboard"
    ensures !isLoading && requireAuth && !isAuthenticated ==> r == Redirect(redirectTo)
    ensures !isLoading && !requireAuth && isAuthenticated && IsAuthPage(pathname) ==> r == Redirect("/dashboard")
    ensures r.Children? ==> !isLoading && (requireAuth ==> isAuthenticated)
  {
    if isLoading then Spinner
    else if requireAuth && !isAuthenticated then Redirect(redirectTo)
    else if !requireAuth && isAuthenticated && IsAuthPage(pathname) then Redirect("/dashboard")
    else Children
  }

  /**
   * The children are rendered exactly when the session has loaded, a
   * protected route has a session, and a signed-in user is not on a public
   * sign-in or registration page.
   */
  lemma GuardRendersChildren(isLoading: bool, isAuthenticated: bool, pathname: string, requireAuth: bool, redirectTo: string)
    ensures Guard(isLoading, isAuthenticated, pathname, requireAuth, redirectTo) == Children <==>
      !isLoading && (requireAuth ==> isAuthenticated) && !(!requireAuth && isAuthenticated && IsAuthPage(pathname))
  {
  }

  /** With the defaults, a loaded session without authentication is sent to `/login`. */
  lemma GuardDefaults(pathname: string)
    ensures Guard(false, false, pathname) == Redirect("/login")
    ensures Guard(false, true, pathname) == Children
    ensures Guard(true, false, pathname) == Spinner
  {
  }

  /** A public route never sends a visitor without a session anywhere. */
  lemma PublicRouteAdmitsVisitors(pathname: string, redirectTo: string)
    ensures Guard(false, false, pathname, false, redirectTo) == Children
  {
  }

  /** The roles `RoleProtectedRoute` admits when it is given none. */
  const AllRoles: seq<Role> := [Attendee, Organizer]

  /**
   * `RoleProtectedRoute`: a signed-in user with a role outside
   * `allowedRoles` goes to `/dashboard`; otherwise (no session, no user, or
   * an admitted role) the inner `ProtectedRoute` decides with the remaining
   * options. The role check comes first, so it is not delayed by the
   * loading spinner.
   */
  function RoleGuard(user: Option<User>, isAuthenticated: bool, isLoading: bool, pathname: string,
                     allowedRoles: seq<Role> := AllRoles, requireAuth: bool := true,
                     redirectTo: string := "/login"): (r: Outcome)
    ensures isAuthenticated && user.Some? && user.value.role !in allowedRoles ==> r == Redirect("/dashboard")
    ensures !(isAuthenticated && user.Some? && user.value.role !in allowedRoles) ==>
      r == Guard(isLoading, isAuthenticated, pathname, requireAuth, redirectTo)
  {
    if !isAuthenticated || user.None? then Guard(isLoading, isAuthenticated, pathname, requireAuth, redirectTo)
    else if user.value.role !in allowedRoles then Redirect("/dashboard")
    else Guard(isLoading, isAuthenticated, pathname, requireAuth, redirectTo)
  }

  /**
   * When the role guard renders the children of a protected route, there is
   * a session, and a known user has one of the admitted roles.
   */
  lemma RoleGuardAdmits(user: Option<User>, isAuthenticated: bool, isLoading: bool, pathname: string,
                        allowedRoles: seq<Role>, redirectTo: string)
    requires RoleGuard(user, isAuthenticated, isLoading, pathname, allowedRoles, true, redirectTo) == Children
    ensures isAuthenticated && !isLoading
    ensures user.Some? ==> user.value.role in allowedRoles
  {
  }

  /** With the default roles the role guard is exactly the plain guard. */
  lemma DefaultRolesAdmitAll(user: Option<User>, isAuthenticated: bool, isLoading: bool, pathname: string,
                             requireAuth: bool, redirectTo: string)
    ensures RoleGuard(user, isAuthenticated, isLoading, pathname, AllRoles, requireAuth, redirectTo) ==
            Guard(isLoading, isAuthenticated, pathname, requireAuth, redirectTo)
  {
    if user.Some? {
      assert user.value.role in AllRoles by {
        match user.value.role
        case Organizer => assert AllRoles[1] == Organizer;
        case Attendee => assert AllRoles[0] == Attendee;
      }
    }
  }

  /**
   * The mount effect runs `initializeAuth` after the first render. For a
   * session rehydrated with a user and a token but not yet marked
   * authenticated, the first render of a protected route redirects to
   * `/login`; after the effect the children render when the token is
   * non-empty.
   */
  method MountOverRehydratedSession(u: User, t: string, pathname: string) returns (first: Outcome, second: Outcome)
    ensures first == Redirect("/login")
    ensures second == (if t != "" then Children else Redirect("/login"))
  {
    var store := new AuthStore.Store.Rehydrate(Some(u), Some(t), false);
    first := Guard(store.isLoading, store.isAuthenticated, pathname);
    store.InitializeAuth();
    second := Guard(store.isLoading, store.isAuthenticated, pathname);
  }
}
