/**
 * Access control: the route guard, a total decision between rendering the
 * protected page and redirecting, and the application's route table built
 * on it, with the redirect chains a session follows.
 */
module Routing {
  import opened Wrappers
  import opened Auth
  import Text

  /** The user type a protected route asks for. */
  datatype Role = AdvisorRole | ClientRole

  function TypeOf(r: Role): UserType {
    match r
    case AdvisorRole => Advisor
    case ClientRole => Client
  }

  datatype Decision = Render | Redirect(to: string)

  const LoginPath: string := "/login"
  const ClientPath: string := "/client"
  const DashboardPath: string := "/dashboard"

  /** Where a user of a given type is sent when the route is not theirs. */
  function HomeOf(t: UserType): string {
    match t
    case Client => ClientPath
    case Advisor => DashboardPath
    case Untyped => LoginPath
  }

  /**
   * `ProtectedRoute`: the unauthenticated go to `redirectTo` whatever their
   * type; a user of the wrong type goes to their own home; everyone else
   * sees the page.
   */
  function Guard(isAuthenticated: bool, required: Option<Role>, userType: UserType, redirectTo: string): (d: Decision)
    ensures !isAuthenticated ==> d == Redirect(redirectTo)
    ensures d == Render <==> isAuthenticated && (required.None? || userType == TypeOf(required.value))
    ensures isAuthenticated && required.Some? && userType != TypeOf(required.value) ==>
              d == Redirect(HomeOf(userType))
  {
    if !isAuthenticated then Redirect(redirectTo)
    else if required.Some? && userType != TypeOf(required.value) then
      if userType == Client then Redirect(ClientPath)
      else if userType == Advisor then Redirect(DashboardPath)
      else Redirect(LoginPath)
    else Render
  }

  /** A user of the wrong type is never sent to the page they were refused, unless they have no type. */
  lemma MismatchLeavesRoute(required: Role, userType: UserType)
    requires userType != TypeOf(required) && userType != Untyped
    ensures Guard(true, Some(required), userType, LoginPath) == Redirect(HomeOf(userType))
    ensures HomeOf(userType) == (if required == AdvisorRole then ClientPath else DashboardPath)
  {
  }

  // ---------------------------------------------------------------------------
  // The route table
  // ---------------------------------------------------------------------------

  datatype Page = HomePage | LoginPage | DashboardPage | CasesPage | NewCasePage | AuditPage | ClientPage

  datatype Outcome = Show(page: Page) | Go(to: string)

  /** A protected route of the table. */
  function Protected(isAuthenticated: bool, userType: UserType, role: Role, page: Page): (o: Outcome)
    ensures o == Show(page) <==> isAuthenticated && userType == TypeOf(role)
    ensures o.Show? ==> o.page == page
  {
    match Guard(isAuthenticated, Some(role), userType, LoginPath)
    case Render => Show(page)
    case Redirect(to) => Go(to)
  }

  /** `s` with every trailing `/` removed. */
  function TrimSlashes(s: string): (t: string)
    ensures t <= s
    ensures t == [] || t[|t| - 1] != '/'
    ensures forall i :: |t| <= i < |s| ==> s[i] == '/'
  {
    if |s| > 0 && s[|s| - 1] == '/' then TrimSlashes(s[..|s| - 1]) else s
  }

  /**
   * The form in which the router compares a path with a route's pattern:
   * patterns match whatever the case and however many slashes follow, so
   * both are folded away; the root pattern `/` becomes the empty key.
   */
  function RouteKey(path: string): string {
    TrimSlashes(Text.ToLower(path))
  }

  /** The keys of the route table's patterns; every other key falls to the catch-all. */
  const KnownKeys: set<string> := {"", LoginPath, DashboardPath, "/cases", "/new-case", "/audit", ClientPath}

  /** What the router does with a path for a session. */
  function Route(path: string, isAuthenticated: bool, userType: UserType): (o: Outcome)
    ensures RouteKey(path) !in KnownKeys ==> o == Go("/")
    ensures RouteKey(path) == "" ==> o == Show(HomePage)
    ensures o.Show? && o.page == HomePage ==> RouteKey(path) == ""
    ensures RouteKey(path) == LoginPath ==> o == (if !isAuthenticated then Show(LoginPage) else if userType == Client then Go(ClientPath) else Go(DashboardPath))
  {
    var key := RouteKey(path);
    if key == "" then Show(HomePage)
    else if key == LoginPath then
      if isAuthenticated then (if userType == Client then Go(ClientPath) else Go(DashboardPath))
      else Show(LoginPage)
    else if key == DashboardPath then Protected(isAuthenticated, userType, AdvisorRole, DashboardPage)
    else if key == "/cases" then Protected(isAuthenticated, userType, AdvisorRole, CasesPage)
    else if key == "/new-case" then Protected(isAuthenticated, userType, AdvisorRole, NewCasePage)
    else if key == "/audit" then Protected(isAuthenticated, userType, AdvisorRole, AuditPage)
    else if key == ClientPath then Protected(isAuthenticated, userType, ClientRole, ClientPage)
    else Go("/")
  }

  /** Every path the application itself navigates to is its own key. */
  lemma NavigationTargetsAreKeys()
    ensures RouteKey("/") == ""
    ensures RouteKey(LoginPath) == LoginPath && RouteKey(DashboardPath) == DashboardPath
    ensures RouteKey(ClientPath) == ClientPath
  {
    assert Text.ToLower("/") == "/";
    assert Text.ToLower(LoginPath) == LoginPath;
    assert Text.ToLower(DashboardPath) == DashboardPath;
    assert Text.ToLower(ClientPath) == ClientPath;
  }

  /** Case does not matter to the router. */
  lemma RouteIgnoresCase(path: string, isAuthenticated: bool, userType: UserType)
    ensures Route(Text.ToLower(path), isAuthenticated, userType) == Route(path, isAuthenticated, userType)
  {
    Text.ToLowerIdempotent(path);
  }

  /** Neither do trailing slashes. */
  lemma RouteIgnoresTrailingSlash(path: string, isAuthenticated: bool, userType: UserType)
    ensures Route(path + "/", isAuthenticated, userType) == Route(path, isAuthenticated, userType)
  {
    var l := Text.ToLower(path + "/");
    assert l == Text.ToLower(path) + "/";
    assert l[..|l| - 1] == Text.ToLower(path);
  }

  predicate AdvisorPage(p: Page) {
    p == DashboardPage || p == CasesPage || p == NewCasePage || p == AuditPage
  }

  /**
   * Who sees which page: the advisor pages only an authenticated advisor,
   * the client page only an authenticated client, the login form only the
   * unauthenticated; the home page is public.
   */
  lemma RouteAccess(path: string, isAuthenticated: bool, userType: UserType)
    ensures var o := Route(path, isAuthenticated, userType);
            (o.Show? && AdvisorPage(o.page) ==> isAuthenticated && userType == Advisor)
            && (o == Show(ClientPage) ==> isAuthenticated && userType == Client)
            && (o == Show(LoginPage) ==> !isAuthenticated)
            && (path == "/" ==> o == Show(HomePage))
  {
  }

  /** A client session can never render the new-case wizard, by any path. */
  lemma ClientNeverOpensWizard(path: string)
    ensures Route(path, true, Client) != Show(NewCasePage)
  {
    RouteAccess(path, true, Client);
  }

  /** The page a session settles on after following at most `fuel` redirects; `None` when it has not settled. */
  function Settle(path: string, isAuthenticated: bool, userType: UserType, fuel: nat): Option<Page>
    decreases fuel
  {
    if fuel == 0 then None
    else match Route(path, isAuthenticated, userType)
      case Show(p) => Some(p)
      case Go(to) => Settle(to, isAuthenticated, userType, fuel - 1)
  }

  /** The router only ever redirects to the home page, the login form or a home of a user type. */
  lemma RedirectTargets(path: string, isAuthenticated: bool, userType: UserType)
    ensures var o := Route(path, isAuthenticated, userType);
            o.Go? ==> o.to == "/" || o.to == LoginPath || o.to == ClientPath || o.to == DashboardPath
  {
  }

  /** The property a session that settled at page `p` must have. */
  predicate SettledWell(isAuthenticated: bool, userType: UserType, p: Page) {
    (!isAuthenticated ==> p == HomePage || p == LoginPage)
    && (isAuthenticated && userType == Client ==> p == HomePage || p == ClientPage)
    && (isAuthenticated && userType == Advisor ==> p == HomePage || AdvisorPage(p))
  }

  /** From any redirect target a typed or unauthenticated session settles within two steps. */
  lemma TargetSettles(to: string, isAuthenticated: bool, userType: UserType)
    requires !isAuthenticated || userType != Untyped
    requires to == "/" || to == LoginPath || to == ClientPath || to == DashboardPath
    ensures var s := Settle(to, isAuthenticated, userType, 2);
            s.Some? && SettledWell(isAuthenticated, userType, s.value)
  {
    NavigationTargetsAreKeys();
    var o := Route(to, isAuthenticated, userType);
    if o.Go? {
      RedirectTargets(to, isAuthenticated, userType);
      assert Route(o.to, isAuthenticated, userType).Show?;
    }
  }

  /**
   * Every path settles within three steps for an advisor, a client or an
   * unauthenticated visitor: an advisor and a client at their own page or a
   * public one, a visitor at the home page or the login form.
   */
  lemma SessionsSettle(path: string, isAuthenticated: bool, userType: UserType)
    requires !isAuthenticated || userType != Untyped
    ensures var s := Settle(path, isAuthenticated, userType, 3);
            s.Some? && SettledWell(isAuthenticated, userType, s.value)
  {
    var o := Route(path, isAuthenticated, userType);
    if o.Go? {
      RedirectTargets(path, isAuthenticated, userType);
      TargetSettles(o.to, isAuthenticated, userType);
    } else {
      RouteAccess(path, isAuthenticated, userType);
    }
  }

  /**
   * An authenticated session with no user type (from a stored entry that
   * names neither type) never settles: the login form sends it to the
   * dashboard and the dashboard's guard sends it back.
   */
  lemma {:induction false} UntypedSessionLoops(fuel: nat)
    decreases fuel
    ensures Settle(LoginPath, true, Untyped, fuel) == None
    ensures Settle(DashboardPath, true, Untyped, fuel) == None
  {
    if fuel > 0 {
      UntypedSessionLoops(fuel - 1);
      assert Route(LoginPath, true, Untyped) == Go(DashboardPath);
      assert Route(DashboardPath, true, Untyped) == Go(LoginPath);
    }
  }

  /** After a login as advisor, the login page leads straight to the dashboard, also after a reload. */
  lemma AdvisorLoginLandsOnDashboard(d: UserData, storage: Storage)
    ensures var s := InitialState(Persist(LoggedIn(Advisor, d), storage));
            Settle(LoginPath, s.isAuthenticated, s.userType, 2) == Some(DashboardPage)
  {
    LoginLogoutRoundTrip(Advisor, d, storage);
  }
}
