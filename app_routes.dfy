/** The route table of src/App.tsx and what each path shows for a given
    session: the table maps a path to a view, wrapped or not in the guard; an
    unmatched path redirects to `/404`. */
module AppRoutes {
  import opened Wrappers
  import opened AuthContext
  import opened Navigation
  import ProtectedRoute
  import AuthRedirect
  import LoginPage
  import opened Text

  datatype View =
    | LandingPage | LoginView | RegisterView | CatalogView | NotFoundView
    | DashboardDispatcher | UserDashboardComplete | AdminDashboardNew

  /** A route element: a bare view, or a view inside `<ProtectedRoute>` with
      its `requireAdmin` flag. */
  datatype Element = Public(view: View) | Protected(requireAdmin: bool, view: View)

  /** The `<Route>` table: the element registered for `path`, if any. Paths
      are compared exactly. */
  function RouteFor(path: string): (r: Option<Element>)
    ensures r.Some? && r.value.Public? ==> path in {"/", "/login", "/register", "/catalog", "/404"}
    ensures r.Some? && r.value.Protected? ==>
              path in {"/dashboard", "/user-dashboard", "/user", "/admin", "/admin/dashboard"}
    ensures path in {"/", "/login", "/register", "/catalog", "/404"} ==> r.Some? && r.value.Public?
    ensures path in {"/dashboard", "/user-dashboard", "/user", "/admin", "/admin/dashboard"} ==>
              r.Some? && r.value.Protected?
    ensures r.None? <==> path !in {"/", "/login", "/register", "/catalog", "/404",
                                   "/dashboard", "/user-dashboard", "/user", "/admin", "/admin/dashboard"}
  {
    if path == "/" then Some(Public(LandingPage))
    else if path == "/login" then Some(Public(LoginView))
    else if path == "/register" then Some(Public(RegisterView))
    else if path == "/catalog" then Some(Public(CatalogView))
    else if path == "/dashboard" then Some(Protected(false, DashboardDispatcher))
    else if path == "/user-dashboard" then Some(Protected(false, UserDashboardComplete))
    else if path == "/user" then Some(Protected(false, UserDashboardComplete))
    else if path == "/admin" then Some(Protected(true, AdminDashboardNew))
    else if path == "/admin/dashboard" then Some(Protected(true, AdminDashboardNew))
    else if path == "/404" then Some(Public(NotFoundView))
    else None
  }

  /** What the browser ends up showing for one path: a view, the loading
      view, or a redirect. */
  datatype Screen = Shows(view: View) | LoadingScreen | Navigates(to: string, replace: bool, from: Option<string>)

  function FromDecision(d: Decision, child: Screen): Screen {
    match d
    case ShowLoading => LoadingScreen
    case Redirect(to, replace, from) => Navigates(to, replace, from)
    case RenderChild => child
  }

  /** The screen for `path` under the current session. The dispatcher is a
      child of the guard at `/dashboard`; the guard's location is the path. */
  function Render(path: string, loading: bool, user: Option<AuthUser>): (s: Screen)
    ensures RouteFor(path).None? ==> s == Navigates("/404", true, None)
    ensures s != Shows(DashboardDispatcher)
  {
    match RouteFor(path)
    case None => Navigates("/404", true, None)
    case Some(Public(v)) => Shows(v)
    case Some(Protected(flag, v)) =>
      var child := if v == DashboardDispatcher then FromDecision(AuthRedirect.Dispatch(loading, user), Shows(v))
                   else Shows(v);
      FromDecision(ProtectedRoute.Guard(loading, user, flag, path), child)
  }

  /** Follows at most `hops` redirects from `path`. */
  function Follow(path: string, loading: bool, user: Option<AuthUser>, hops: nat): (r: Screen)
    ensures !Render(path, loading, user).Navigates? ==> r == Render(path, loading, user)
    ensures !r.Navigates? ==> exists p :: Render(p, loading, user) == r
    decreases hops
  {
    var s := Render(path, loading, user);
    if hops == 0 || !s.Navigates? then s else Follow(s.to, loading, user, hops - 1)
  }

  // ---------------------------------------------------------------------------
  // Properties of the route table

  /** `/`, `/login`, `/register` and `/catalog` show their view for every session. */
  lemma PublicPaths(loading: bool, user: Option<AuthUser>)
    ensures Render("/", loading, user) == Shows(LandingPage)
    ensures Render("/login", loading, user) == Shows(LoginView)
    ensures Render("/register", loading, user) == Shows(RegisterView)
    ensures Render("/catalog", loading, user) == Shows(CatalogView)
  {
  }

  /** An unauthenticated visit to any guarded path, once restore is over, is
      sent to `/login` carrying the requested path. */
  lemma GuardedPathsNeedUser(path: string)
    requires path in {"/dashboard", "/user-dashboard", "/user", "/admin", "/admin/dashboard"}
    ensures Render(path, false, None) == Navigates("/login", true, Some(path))
  {
  }

  /** `/user-dashboard` and `/user` admit every signed-in user; `/admin` and
      `/admin/dashboard` admit exactly the types the guard's check accepts. */
  lemma GuardedPathsAdmission(u: AuthUser)
    ensures Render("/user-dashboard", false, Some(u)) == Shows(UserDashboardComplete)
    ensures Render("/user", false, Some(u)) == Shows(UserDashboardComplete)
    ensures Render("/admin", false, Some(u)) ==
            (if ProtectedRoute.GuardAdmits(u.tipo) then Shows(AdminDashboardNew)
             else Navigates("/user-dashboard", true, None))
    ensures Render("/admin/dashboard", false, Some(u)) == Render("/admin", false, Some(u))
  {
  }

  /** While restore is running every guarded path shows the loading view. */
  lemma LoadingOnGuardedPaths(path: string, user: Option<AuthUser>)
    requires RouteFor(path).Some? && RouteFor(path).value.Protected?
    ensures Render(path, true, user) == LoadingScreen
  {
  }

  /** `/dashboard` for a signed-in user redirects by the dispatcher's test. */
  lemma DashboardDispatches(u: AuthUser)
    ensures Render("/dashboard", false, Some(u)) ==
            Navigates(if AuthRedirect.DispatchesToAdmin(u) then "/admin" else "/user-dashboard", true, None)
  {
  }

  /** The override address with a type the guard rejects (such as
      'estudiante') is dispatched to `/admin`, bounced by the guard to
      `/user-dashboard`, and shown the user dashboard. */
  lemma OverrideBounce(u: AuthUser)
    requires u.email == Some(AdminOverrideEmail) && !ProtectedRoute.GuardAdmits(u.tipo)
    ensures Render("/dashboard", false, Some(u)) == Navigates("/admin", true, None)
    ensures Render("/admin", false, Some(u)) == Navigates("/user-dashboard", true, None)
    ensures Render("/user-dashboard", false, Some(u)) == Shows(UserDashboardComplete)
  {
  }

  /** Once restore is over there is no redirect loop: from any path, at most
      three redirects lead to a view. */
  lemma RedirectsSettle(path: string, user: Option<AuthUser>)
    ensures Follow(path, false, user, 3).Shows?
  {
    var s := Render(path, false, user);
    if s.Navigates? {
      var t := Render(s.to, false, user);
      assert s.to in {"/404", "/login", "/admin", "/user-dashboard"};
      if t.Navigates? {
        assert t.to in {"/login", "/user-dashboard"};
      }
    }
  }

  /** The login form does not sign the user in: after it navigates, the
      session store still has no user, so the destination sends the browser
      back to `/login`. */
  lemma FormLoginBounces(token: Option<string>, t: string, role: Option<string>)
    requires t != ""
    ensures var out := LoginPage.Submit(token, LoginPage.LoginReturned(Some(LoginPage.LoginRes(Some(t)))),
                                        LoginPage.ProfileReturned(role));
            && out.navigateTo.Some?
            && Render(out.navigateTo.value, false, None) == Navigates("/login", true, Some(out.navigateTo.value))
  {
  }

  /** After the form stored a token, a reload restores the session when the
      profile reply is accepted; the user then reaches the form's
      destination whenever the guard admits the profile type. */
  lemma FormLoginThenReload(t: string, p: Profile, rest: Option<AuthUser>)
    requires t != ""
    requires Truthy(p.role) && p.role.value in {"admin", "administrador", "bibliotecario"}
    ensures var out := LoginPage.Submit(None, LoginPage.LoginReturned(Some(LoginPage.LoginRes(Some(t)))),
                                        LoginPage.ProfileReturned(p.role));
            var s := RestoreStep(Session(None, true, Persisted(out.token, rest)),
                                 Answered(true, Body(true, Some(p), None, p)));
            && out.navigateTo == Some("/admin/dashboard")
            && s.user.Some?
            && Render("/admin/dashboard", s.loading, s.user) == Shows(AdminDashboardNew)
  {
  }
}
