/** The route guards of the application shell and the page each route shows. */
module AppRoutes {
  import opened Optional
  import opened Types

  /** What the authentication context reports. */
  datatype Auth = Auth(user: Option<User>, isLoading: bool)

  /** What a guarded route renders: the loading spinner, its child, or a redirect. */
  datatype RouteView = Spinner | ShowPage | RedirectTo(path: string)

  datatype Route = RootRoute | LoginRoute | SignUpRoute | HomeRoute | CreateRoute | ClaimsRoute
                 | NotificationsRoute | MyPostsRoute | AdminRoute | ClaimPostRoute(postId: string)

  predicate IsAdmin(a: Auth) {
    a.user.Some? && a.user.value.accountType == AdminAccount
  }

  /** `ProtectedRoute`: the spinner while loading, the child for a signed-in
      user, a redirect to "/" otherwise. */
  function Protected(a: Auth, child: RouteView): (r: RouteView)
    ensures a.isLoading ==> r == Spinner
    ensures !a.isLoading && a.user.None? ==> r == RedirectTo("/")
    ensures !a.isLoading && a.user.Some? ==> r == child
  {
    if a.isLoading then Spinner else if a.user.Some? then child else RedirectTo("/")
  }

  /** `AdminRoute`: the child only for an admin; everyone else goes to "/home". */
  function AdminOnly(a: Auth, child: RouteView): (r: RouteView)
    ensures IsAdmin(a) ==> r == child
    ensures !IsAdmin(a) ==> r == RedirectTo("/home")
  {
    if a.user.Some? && a.user.value.accountType == AdminAccount then child else RedirectTo("/home")
  }

  /** `PublicRoute`: the spinner while loading, "/home" for a signed-in user,
      the child otherwise. */
  function Public(a: Auth, child: RouteView): (r: RouteView)
    ensures a.isLoading ==> r == Spinner
    ensures !a.isLoading && a.user.Some? ==> r == RedirectTo("/home")
    ensures !a.isLoading && a.user.None? ==> r == child
  {
    if a.isLoading then Spinner else if a.user.Some? then RedirectTo("/home") else child
  }

  function IsPublicRoute(route: Route): bool {
    route.RootRoute? || route.LoginRoute? || route.SignUpRoute?
  }

  /** The route table: the three sign-in pages are public, "/admin" nests the
      admin guard in the protected one, every other page is protected. Once
      loading has finished, each page is shown to every member of its
      audience: a public page to every signed-out visitor, a protected page to
      every signed-in user, the admin page to every admin. */
  function View(route: Route, a: Auth): (r: RouteView)
    ensures !a.isLoading && a.user.None? && IsPublicRoute(route) ==> r == ShowPage
    ensures !a.isLoading && a.user.Some? && !IsPublicRoute(route) && !route.AdminRoute? ==> r == ShowPage
    ensures !a.isLoading && IsAdmin(a) && route.AdminRoute? ==> r == ShowPage
    ensures a.isLoading ==> r == Spinner
  {
    match route
    case RootRoute => Public(a, ShowPage)
    case LoginRoute => Public(a, ShowPage)
    case SignUpRoute => Public(a, ShowPage)
    case AdminRoute => Protected(a, AdminOnly(a, ShowPage))
    case _ => Protected(a, ShowPage)
  }

  /** "/admin": the spinner while loading, "/" when signed out, "/home" for a
      signed-in user who is not an admin, and the dashboard for an admin. */
  lemma AdminRouteDecisions(a: Auth)
    ensures a.isLoading ==> View(AdminRoute, a) == Spinner
    ensures !a.isLoading && a.user.None? ==> View(AdminRoute, a) == RedirectTo("/")
    ensures !a.isLoading && a.user.Some? && !IsAdmin(a) ==> View(AdminRoute, a) == RedirectTo("/home")
    ensures !a.isLoading && IsAdmin(a) ==> View(AdminRoute, a) == ShowPage
  {
  }

  /** A page is shown only to the audience its guard admits: a public page to
      a signed-out visitor, a protected page to a signed-in user, the admin
      page to an admin; and never while loading. */
  lemma PagesShownOnlyToTheirAudience(route: Route, a: Auth)
    ensures View(route, a) == ShowPage ==> !a.isLoading
    ensures View(route, a) == ShowPage && (route.RootRoute? || route.LoginRoute? || route.SignUpRoute?) ==> a.user.None?
    ensures View(route, a) == ShowPage && !(route.RootRoute? || route.LoginRoute? || route.SignUpRoute?) ==> a.user.Some?
    ensures View(route, a) == ShowPage && route.AdminRoute? ==> IsAdmin(a)
  {
  }
}
