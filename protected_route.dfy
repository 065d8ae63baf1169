/** The route guard of the router demo (`ProtectedRoute`) and the route table
    that decides which paths it wraps. The guard checks, in this order, that
    the session has finished loading, that a user is logged in, and, on routes
    that ask for it, that the user is an admin. */
module ProtectedRoute {
  import opened Text
  import opened AuthContext

  /** What the guard renders. */
  datatype Outcome =
    | Pending                     // "Checking authentication..."
    | RedirectToLogin(from: string)  // go to the login page, remembering the requested path
    | AccessDenied                // "Access Denied" plus a redirect home
    | Render                      // the protected children, unchanged

  /** A `<Navigate>` element: target path, the `from` state it carries, and
      whether it replaces the current history entry. */
  datatype Navigate = Navigate(to: string, from: Option<string>, replace: bool)

  const LoginPath := "/login"
  const HomePath := "/"

  /** The guard's decision from the session flags and the current path. */
  function Guard(loading: bool, isAuthenticated: bool, isAdmin: bool, requireAdmin: bool, pathname: string): (o: Outcome)
    ensures loading ==> o == Pending
    ensures !loading && !isAuthenticated ==> o == RedirectToLogin(pathname)
    ensures o == AccessDenied <==> !loading && isAuthenticated && requireAdmin && !isAdmin
    ensures o == Render <==> !loading && isAuthenticated && (!requireAdmin || isAdmin)
  {
    if loading then Pending
    else if !isAuthenticated then RedirectToLogin(pathname)
    else if requireAdmin && !isAdmin then AccessDenied
    else Render
  }

  /** The navigation an outcome performs: the login redirect records `from`
      and replaces the entry; access denied goes home, replacing the entry,
      and records nothing. */
  function NavigationOf(o: Outcome): (n: Option<Navigate>)
    ensures n.Some? <==> o.RedirectToLogin? || o.AccessDenied?
    ensures o.RedirectToLogin? ==> n == Some(Navigate(LoginPath, Some(o.from), true))
    ensures o.AccessDenied? ==> n.value.from.None? && n.value.to == HomePath && n.value.replace
  {
    match o
    case RedirectToLogin(from) => Some(Navigate(LoginPath, Some(from), true))
    case AccessDenied => Some(Navigate(HomePath, None, true))
    case _ => None
  }

  /** The guard applied to a session of `AuthProvider`. */
  function GuardSession(user: Option<Record>, loading: bool, requireAdmin: bool, pathname: string): Outcome {
    Guard(loading, IsAuthenticated(user), IsAdmin(user), requireAdmin, pathname)
  }

  /** Loading wins over everything; an unauthenticated visitor to an admin
      route is sent to log in, not denied; an authenticated non-admin is let
      through wherever admin is not asked for (the default). */
  lemma GuardOrder(user: Option<Record>, pathname: string)
    ensures forall requireAdmin :: GuardSession(user, true, requireAdmin, pathname) == Pending
    ensures user.None? ==> GuardSession(user, false, true, pathname) == RedirectToLogin(pathname)
    ensures user.Some? ==> GuardSession(user, false, false, pathname) == Render
    ensures user.Some? && !IsAdmin(user) ==> GuardSession(user, false, true, pathname) == AccessDenied
  {
  }

  /** A declared route: its pattern, whether it is wrapped in the guard, and
      whether the guard asks for admin. */
  datatype RouteDecl = RouteDecl(pattern: string, guarded: bool, requireAdmin: bool)

  /** The route table of the router demo, in declaration order. */
  const Routes: seq<RouteDecl> := [
    RouteDecl("/", false, false),
    RouteDecl("/about", false, false),
    RouteDecl("/posts", false, false),
    RouteDecl("/posts/:id", false, false),
    RouteDecl("/login", false, false),
    RouteDecl("/profile/*", true, false),
    RouteDecl("/dashboard", true, false),
    RouteDecl("/user/:userId", true, false),
    RouteDecl("/admin/*", true, true),
    RouteDecl("*", false, false)
  ]

  /** What a declared route shows for a session: public routes always render,
      guarded ones go through the guard. */
  function RouteOutcome(r: RouteDecl, user: Option<Record>, loading: bool, pathname: string): (o: Outcome)
    ensures !r.guarded ==> o == Render
    ensures r.guarded ==> o == GuardSession(user, loading, r.requireAdmin, pathname)
  {
    if r.guarded then GuardSession(user, loading, r.requireAdmin, pathname) else Render
  }

  /** Only the admin section asks for admin rights, and it is guarded. */
  lemma OnlyAdminRouteRequiresAdmin()
    ensures forall i :: 0 <= i < |Routes| && Routes[i].requireAdmin ==> Routes[i].pattern == "/admin/*" && Routes[i].guarded
  {
  }
}
