/** The front end's routing decisions: what a protected route shows, and
    what the root route shows, given the state of the signed-in user. */
module App {
  import opened Wrappers
  import opened Schema

  /** The signed-in user query: loading, failed, and the user if any. */
  datatype AuthState = AuthState(isLoading: bool, failed: bool, user: Option<User>)

  /** What a protected route renders. */
  datatype Outcome = Spinner | ConnectionError | RedirectTo(path: string) | Render

  /** JavaScript truthiness of an optional string field. */
  predicate Present(s: Option<string>) {
    s.Some? && s.value != ""
  }

  /** The profile rule: college and department are both filled in. */
  predicate ProfileComplete(u: User) {
    Present(u.college) && Present(u.department)
  }

  /** `ProtectedRoute` at `pathname`: loading first, then the error, then the
      user; a non-admin with an incomplete profile is sent to `/profile`
      unless already there; an admin-only route sends non-admins to `/`. */
  function ProtectedRoute(auth: AuthState, pathname: string, adminOnly: bool): (o: Outcome)
    ensures auth.isLoading <==> o == Spinner
    ensures o == ConnectionError <==> !auth.isLoading && auth.failed
    ensures o == RedirectTo("/profile") <==>
              !auth.isLoading && !auth.failed && auth.user.Some? && !auth.user.value.isAdmin &&
              !ProfileComplete(auth.user.value) && pathname != "/profile"
    ensures o == Render <==>
              && !auth.isLoading && !auth.failed && auth.user.Some?
              && (auth.user.value.isAdmin || ProfileComplete(auth.user.value) || pathname == "/profile")
              && (!adminOnly || auth.user.value.isAdmin)
    ensures o.RedirectTo? ==> o.path == "/" || o.path == "/profile"
  {
    if auth.isLoading then Spinner
    else if auth.failed then ConnectionError
    else match auth.user
      case None => RedirectTo("/")
      case Some(u) =>
        if !u.isAdmin && !ProfileComplete(u) && pathname != "/profile" then RedirectTo("/profile")
        else if adminOnly && !u.isAdmin then RedirectTo("/")
        else Render
  }

  /** Admins are never sent to complete a profile. */
  lemma AdminsSkipProfile(auth: AuthState, pathname: string, adminOnly: bool)
    requires auth.user.Some? && auth.user.value.isAdmin
    ensures ProtectedRoute(auth, pathname, adminOnly) != RedirectTo("/profile")
  {
  }

  /** The profile check comes first: a non-admin with an incomplete profile
      who opens an admin-only page elsewhere is sent to `/profile`, not `/`. */
  lemma ProfileCheckBeforeAdminCheck(u: User, pathname: string)
    requires !u.isAdmin && !ProfileComplete(u) && pathname != "/profile"
    ensures ProtectedRoute(AuthState(false, false, Some(u)), pathname, true) == RedirectTo("/profile")
  {
  }

  /** What the root route `/` renders. */
  datatype RootOutcome = Blank | RootConnectionError | Landing | RedirectToAdmin | Home

  /** `Router` at `/`. */
  function RootRoute(auth: AuthState): (o: RootOutcome)
    ensures auth.isLoading <==> o == Blank
    ensures !auth.isLoading && auth.failed <==> o == RootConnectionError
    ensures o == Landing <==> !auth.isLoading && !auth.failed && auth.user.None?
    ensures o == RedirectToAdmin <==> !auth.isLoading && !auth.failed && auth.user.Some? && auth.user.value.isAdmin
    ensures o == Home <==> !auth.isLoading && !auth.failed && auth.user.Some? && !auth.user.value.isAdmin
  {
    if auth.isLoading then Blank
    else if auth.failed then RootConnectionError
    else match auth.user
      case None => Landing
      case Some(u) => if u.isAdmin then RedirectToAdmin else Home
  }
}
