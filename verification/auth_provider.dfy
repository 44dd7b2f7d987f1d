/** The authentication provider: the session state, the two redirect effects,
    the profile query and the loading flag it exposes. The session itself and
    the profile lookup come from the authentication service and the database,
    so they are parameters. */
module AuthProvider {
  import opened Wrappers
  import opened Records
  import opened Text

  /** The provider's own state: the signed-in user and whether the initial session check is pending. */
  datatype Session = Session(user: Option<AuthUser>, loading: bool)

  const Initial: Session := Session(None, true)

  /** The initial `getSession` and every `onAuthStateChange` callback: take the
      session's user (or none) and end the initial loading. */
  function OnSession(st: Session, user: Option<AuthUser>): (r: Session)
    ensures r.user == user
    ensures !r.loading
  {
    Session(user, false)
  }

  /** The state after a sequence of session reports, starting from the initial state. */
  function AfterReports(reports: seq<Option<AuthUser>>): Session {
    if |reports| == 0 then Initial
    else OnSession(AfterReports(reports[..|reports| - 1]), reports[|reports| - 1])
  }

  /** Loading lasts exactly until the first report; the user is the latest report's. */
  lemma ReportsSettleSession(reports: seq<Option<AuthUser>>)
    ensures AfterReports(reports).loading <==> reports == []
    ensures reports == [] ==> AfterReports(reports).user == None
    ensures reports != [] ==> AfterReports(reports).user == reports[|reports| - 1]
  {
  }

  // ---------------------------------------------------------------------------
  // Redirects

  /** The first effect: no user, loading finished, and not on the login page or an `/auth/` page. */
  predicate SendsToLogin(st: Session, pathname: string) {
    !st.loading && st.user.None? && pathname != "/login" && !StartsWith(pathname, "/auth/")
  }

  /** The second effect: a user, loading finished, and exactly on the login page. */
  predicate SendsHome(st: Session, pathname: string) {
    !st.loading && st.user.Some? && pathname == "/login"
  }

  /** Where the provider navigates, if anywhere. */
  datatype Redirect = Stay | ToLogin | ToHome

  function RedirectFor(st: Session, pathname: string): (r: Redirect)
    ensures st.loading ==> r == Stay
    ensures r == ToLogin <==> SendsToLogin(st, pathname)
    ensures r == ToHome <==> SendsHome(st, pathname)
  {
    if SendsToLogin(st, pathname) then ToLogin
    else if SendsHome(st, pathname) then ToHome
    else Stay
  }

  /** No state fires both effects. */
  lemma RedirectsExclusive(st: Session, pathname: string)
    ensures !(SendsToLogin(st, pathname) && SendsHome(st, pathname))
  {
  }

  /** The path a redirect leads to. */
  function Target(r: Redirect, pathname: string): string {
    match r
    case Stay => pathname
    case ToLogin => "/login"
    case ToHome => "/"
  }

  /** Following a redirect lands where no further redirect fires. */
  lemma RedirectSettles(st: Session, pathname: string)
    ensures RedirectFor(st, Target(RedirectFor(st, pathname), pathname)) == Stay
  {
  }

  // ---------------------------------------------------------------------------
  // Profile and exposed value

  /** The profile query runs only with a user. */
  function ProfileQueryEnabled(user: Option<AuthUser>): (r: bool)
    ensures r <==> user.Some?
  {
    user.Some?
  }

  /** The profile the provider exposes: nothing without a user or with an empty
      id, otherwise whatever the lookup returns. */
  function ProfileOf(user: Option<AuthUser>, lookup: string -> Option<UserProfile>): (r: Option<UserProfile>)
    ensures !ProfileQueryEnabled(user) ==> r == None
    ensures user.Some? && user.value.id == "" ==> r == None
    ensures user.Some? && user.value.id != "" ==> r == lookup(user.value.id)
  {
    if !ProfileQueryEnabled(user) || user.value.id == "" then None else lookup(user.value.id)
  }

  /** What `useAuth()` returns. */
  datatype Context = Context(user: Option<AuthUser>, profile: Option<UserProfile>, loading: bool)

  function ContextValue(st: Session, profile: Option<UserProfile>, profileLoading: bool): (c: Context)
    ensures c.loading <==> st.loading || profileLoading
    ensures c.user == st.user && c.profile == profile
  {
    Context(st.user, profile, st.loading || profileLoading)
  }

  /** The redirects look at the session's loading only: while the profile is still
      loading the exposed flag is set, yet a signed-in user on the login page is
      already sent home. */
  lemma RedirectIgnoresProfileLoading(u: AuthUser, profile: Option<UserProfile>)
    ensures var st := OnSession(Initial, Some(u));
      ContextValue(st, profile, true).loading && RedirectFor(st, "/login") == ToHome
  {
  }
}
