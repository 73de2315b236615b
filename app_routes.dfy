/** The route table and the `ProtectedRoute` guard: which page a path shows, given the
    session's `loading` flag and user. */
module AppRoutes {
  import opened JsValues
  import AuthContext

  const LoginPath := "/login"

  datatype Page = Dashboard | Profile | Login | Register | NotFound

  /** What the router renders for a path. */
  datatype Screen = LoadingPlaceholder | Redirect(to: string) | Show(page: Page)

  /** A child route of the layout route, and whether `ProtectedRoute` wraps it. */
  datatype Route = Route(path: string, page: Page, guarded: bool)

  /** The layout's children, in declaration order; the catch-all `*` comes last. */
  const Routes: seq<Route> := [
    Route("/", Dashboard, true),
    Route("/profile", Profile, true),
    Route("/login", Login, false),
    Route("/register", Register, false)
  ]
  const CatchAll := Route("*", NotFound, false)

  /** `ProtectedRoute`: the placeholder while loading, whatever the user; once loaded, a
      redirect to the sign-in page without a user, and the wrapped page with one. */
  function Guard(loading: bool, user: Option<Record>, page: Page): (screen: Screen)
    ensures screen == LoadingPlaceholder <==> loading
    ensures screen == Redirect(LoginPath) <==> !loading && user.None?
    ensures screen == Show(page) <==> !loading && user.Some?
  {
    if loading then LoadingPlaceholder
    else if user.None? then Redirect(LoginPath)
    else Show(page)
  }

  /** The first route of `table` whose path is `path`, or the catch-all when none is. */
  function Match(table: seq<Route>, path: string): (r: Route)
    ensures r == CatchAll || (r in table && r.path == path)
    ensures (exists i :: 0 <= i < |table| && table[i].path == path) ==> r in table && r.path == path
    ensures forall i :: (0 <= i < |table| && table[i].path == path
                         && (forall j :: 0 <= j < i ==> table[j].path != path)) ==> r == table[i]
    decreases |table|
  {
    if table == [] then CatchAll
    else if table[0].path == path then table[0]
    else Match(table[1..], path)
  }

  /** A guard that waits only while the session is still unknown: a held user keeps the
      wrapped page mounted while one of the user's requests is outstanding. */
  function SettledGuard(loading: bool, user: Option<Record>, page: Page): (screen: Screen)
    ensures screen == LoadingPlaceholder <==> loading && user.None?
    ensures screen == Redirect(LoginPath) <==> !loading && user.None?
    ensures screen == Show(page) <==> user.Some?
  {
    if user.Some? then Show(page)
    else if loading then LoadingPlaceholder
    else Redirect(LoginPath)
  }

  /** The screen for `path`. */
  function Resolve(path: string, loading: bool, user: Option<Record>): Screen
  {
    var r := Match(Routes, path);
    if r.guarded then Guard(loading, user, r.page) else Show(r.page)
  }

  // ---- Properties of the route table ----

  /** Only the index route and `profile` are guarded. */
  lemma OnlyIndexAndProfileGuarded(path: string)
    ensures Match(Routes, path).guarded <==> path == "/" || path == "/profile"
  {
  }

  /** The sign-in and registration pages, and any unknown path, render without a
      session and without waiting for the session to load. */
  lemma PublicPagesNeedNoSession(loading: bool, user: Option<Record>)
    ensures Resolve("/login", loading, user) == Show(Login)
    ensures Resolve("/register", loading, user) == Show(Register)
    ensures forall path :: path !in {"/", "/profile", "/login", "/register"} ==>
              Resolve(path, loading, user) == Show(NotFound)
  {
  }

  /** The dashboard and the profile page show only to a loaded session with a user. */
  lemma GuardedPagesNeedSession(loading: bool, user: Option<Record>)
    ensures Resolve("/", loading, user) == Show(Dashboard) <==> !loading && user.Some?
    ensures Resolve("/profile", loading, user) == Show(Profile) <==> !loading && user.Some?
  {
  }

  /** A redirect never loops: its target is the sign-in page, which always renders. */
  lemma RedirectLandsOnLogin(path: string, loading: bool, user: Option<Record>)
    requires Resolve(path, loading, user).Redirect?
    ensures Resolve(Resolve(path, loading, user).to, loading, user) == Show(Login)
  {
  }

  /** Before the start-up effect every guarded page waits; after it, a guarded page
      shows exactly when the storage slot held a user, and nothing asks the server. */
  lemma StartupDecidesFromStorage(stored: Option<Record>)
    ensures var s := AuthContext.Initial(stored);
      Resolve("/profile", s.loading, s.user) == LoadingPlaceholder
    ensures var s := AuthContext.Rehydrated(AuthContext.Initial(stored));
      Resolve("/profile", s.loading, s.user) == (if stored.Some? then Show(Profile) else Redirect(LoginPath))
  {
  }

  /** After `logout` from a settled store, the guarded pages redirect to sign-in. */
  lemma LogoutClosesGuardedPages(s: AuthContext.Session)
    requires !s.loading
    ensures var t := AuthContext.Step(s, AuthContext.Logout).next;
      && Resolve("/", t.loading, t.user) == Redirect(LoginPath)
      && Resolve("/profile", t.loading, t.user) == Redirect(LoginPath)
  {
  }

  /** While a request is outstanding, the guarded pages give way to the placeholder, which
      unmounts the page they wrap; the public pages stay mounted. */
  lemma RequestUnmountsGuardedPages(s: AuthContext.Session, a: AuthContext.Action)
    requires AuthContext.InFlight(s, a).Some?
    ensures var p := AuthContext.InFlight(s, a).value;
      && Resolve("/", p.loading, p.user) == LoadingPlaceholder
      && Resolve("/profile", p.loading, p.user) == LoadingPlaceholder
      && Resolve("/login", p.loading, p.user) == Show(Login)
      && Resolve("/register", p.loading, p.user) == Show(Register)
  {
  }

  /** `SettledGuard` differs from `ProtectedRoute` only while a request of a held user is
      outstanding: they agree on every settled store and on every store without a user,
      start-up included. */
  lemma SettledGuardDiffersOnlyInFlight(loading: bool, user: Option<Record>, page: Page)
    ensures SettledGuard(loading, user, page) != Guard(loading, user, page) <==> loading && user.Some?
    ensures loading && user.Some? ==>
              Guard(loading, user, page) == LoadingPlaceholder && SettledGuard(loading, user, page) == Show(page)
  {
  }
}
