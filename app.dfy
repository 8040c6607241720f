/**
 * The application shell: the session state read from storage on start-up
 * and the route table with its authentication and role guards.
 */
module App {
  import opened Tickets
  import TicketBoard

  /** The start-up value of `isAuthenticated`: the stored string must be
      exactly "true". */
  function StoredAuth(storage: Storage): (r: bool)
    ensures r <==> "isAuthenticated" in storage && storage["isAuthenticated"] == "true"
  {
    "isAuthenticated" in storage && storage["isAuthenticated"] == "true"
  }

  /** The start-up value of `role`: `getItem('role') || ''`. An absent key
      reads as `null` and an empty string is falsy; both give "". */
  function StoredRole(storage: Storage): (r: string)
    ensures "role" in storage ==> r == storage["role"]
    ensures "role" !in storage ==> r == ""
  {
    if "role" in storage && storage["role"] != "" then storage["role"] else ""
  }

  /** The two session cells the shell owns and passes down as setters. */
  class Session {
    var isAuthenticated: bool
    var role: string

    constructor (storage: Storage)
      ensures isAuthenticated == StoredAuth(storage) && role == StoredRole(storage)
    {
      isAuthenticated := StoredAuth(storage);
      role := StoredRole(storage);
    }
  }

  /** What a path renders: a screen, a `<Navigate replace>` or nothing. */
  datatype Page =
    | LoginPage
    | TicketBoardPage
    | AdminPanelPage
    | DashboardPage
    | ChangePasswordPage
    | Redirect(to: string)
    | NoMatch

  /** Who may see a guarded screen. */
  predicate MayView(page: Page, isAuthenticated: bool, role: string)
    ensures !isAuthenticated || role !in {"admin", "user", "manager"} ==>
      (MayView(page, isAuthenticated, role) <==> !(page.TicketBoardPage? || page.AdminPanelPage? || page.DashboardPage?))
    ensures isAuthenticated && role == "manager" ==> (MayView(page, isAuthenticated, role) <==> !page.DashboardPage?)
    ensures isAuthenticated && role == "admin" ==> (MayView(page, isAuthenticated, role) <==> !page.TicketBoardPage?)
    ensures isAuthenticated && role == "user" ==>
      (MayView(page, isAuthenticated, role) <==> !(page.AdminPanelPage? || page.DashboardPage?))
  {
    match page
    case TicketBoardPage => isAuthenticated && (role == "user" || role == "manager")
    case AdminPanelPage => isAuthenticated && (role == "admin" || role == "manager")
    case DashboardPage => isAuthenticated && role == "admin"
    case _ => true
  }

  /** A path with every trailing "/" removed. */
  function StripTrailingSlashes(path: string): (r: string)
    ensures |r| <= |path| && r == path[..|r|]
    ensures forall i :: |r| <= i < |path| ==> path[i] == '/'
    ensures r == [] || r[|r| - 1] != '/'
  {
    if path != [] && path[|path| - 1] == '/' then StripTrailingSlashes(path[..|path| - 1]) else path
  }

  /** What the router compares: a `<Route path>` without `caseSensitive`
      matches ignoring ASCII case and any number of trailing slashes, so
      "/" itself has the key "". */
  function RouteKey(path: string): (k: string)
    ensures |k| <= |path|
    ensures k == [] || k[|k| - 1] != '/'
  {
    Lower(StripTrailingSlashes(path))
  }

  /** The keys of the five route patterns. */
  lemma PatternKeys()
    ensures RouteKey("/login") == "/login"
    ensures RouteKey("/") == ""
    ensures RouteKey("/admin") == "/admin"
    ensures RouteKey("/change-password") == "/change-password"
    ensures RouteKey("/dashboard") == "/dashboard"
  {
    assert "/"[..0] == [];
    assert Lower("/login") == "/login";
    assert Lower("/admin") == "/admin";
    assert Lower("/change-password") == "/change-password";
    assert Lower("/dashboard") == "/dashboard";
  }

  /** The route table, matched on `RouteKey`. */
  function Route(path: string, isAuthenticated: bool, role: string): (p: Page)
    ensures p.Redirect? ==> p.to == "/login" || p.to == "/"
    ensures !p.Redirect? ==> MayView(p, isAuthenticated, role)
    ensures RouteKey(path) == "/login" ==> p == LoginPage
    ensures RouteKey(path) == "/change-password" ==> p == ChangePasswordPage
    ensures RouteKey(path) == "" ==> if MayView(TicketBoardPage, isAuthenticated, role) then p == TicketBoardPage else p == Redirect("/login")
    ensures RouteKey(path) == "/admin" ==> if MayView(AdminPanelPage, isAuthenticated, role) then p == AdminPanelPage else p == Redirect("/")
    ensures RouteKey(path) == "/dashboard" ==> if MayView(DashboardPage, isAuthenticated, role) then p == DashboardPage else p == Redirect("/login")
    ensures RouteKey(path) !in {"/login", "", "/admin", "/change-password", "/dashboard"} ==> p == NoMatch
  {
    var key := RouteKey(path);
    if key == "/login" then LoginPage
    else if key == "" then
      if isAuthenticated && (role == "user" || role == "manager") then TicketBoardPage else Redirect("/login")
    else if key == "/admin" then
      if isAuthenticated && (role == "admin" || role == "manager") then AdminPanelPage else Redirect("/")
    else if key == "/change-password" then ChangePasswordPage
    else if key == "/dashboard" then
      if isAuthenticated && role == "admin" then DashboardPage else Redirect("/login")
    else NoMatch
  }

  lemma {:induction false} LowerIdempotent(s: string)
    ensures Lower(Lower(s)) == Lower(s)
  {
    assert forall i :: 0 <= i < |s| ==> LowerChar(LowerChar(s[i])) == LowerChar(s[i]);
  }

  lemma {:induction false} StripLowerCommute(s: string)
    ensures StripTrailingSlashes(Lower(s)) == Lower(StripTrailingSlashes(s))
    decreases |s|
  {
    if s != [] && s[|s| - 1] == '/' {
      assert Lower(s)[..|s| - 1] == Lower(s[..|s| - 1]);
      StripLowerCommute(s[..|s| - 1]);
    } else if s != [] {
      assert Lower(s)[|s| - 1] == LowerChar(s[|s| - 1]) != '/';
    }
  }

  /** Changing the case of a path or adding a trailing slash does not change
      what it renders: "/Admin" and "/admin/" go through the /admin guard. */
  lemma RouteIgnoresCaseAndTrailingSlash(path: string, isAuthenticated: bool, role: string)
    ensures Route(path + "/", isAuthenticated, role) == Route(path, isAuthenticated, role)
    ensures Route(Lower(path), isAuthenticated, role) == Route(path, isAuthenticated, role)
  {
    RouteKeyIgnoresCaseAndTrailingSlash(path);
  }

  lemma RouteKeyIgnoresCaseAndTrailingSlash(path: string)
    ensures RouteKey(path + "/") == RouteKey(path)
    ensures RouteKey(Lower(path)) == RouteKey(path)
  {
    assert (path + "/")[..|path|] == path;
    StripLowerCommute(path);
    LowerIdempotent(StripTrailingSlashes(path));
  }

  /** Two paths the router treats as "/admin". */
  lemma AdminPathVariants(isAuthenticated: bool, role: string)
    ensures Route("/Admin", isAuthenticated, role) == Route("/admin", isAuthenticated, role)
    ensures Route("/admin//", isAuthenticated, role) == Route("/admin", isAuthenticated, role)
  {
    PatternKeys();
    var upper, slashed := "/Admin", "/admin//";
    assert StripTrailingSlashes(upper) == upper;
    assert Lower(upper) == "/admin";
    assert slashed[..|slashed| - 1] == "/admin/" && "/admin/"[..6] == "/admin";
    assert StripTrailingSlashes(slashed) == "/admin";
  }

  /** Follow at most `hops` redirects from `path`. */
  function Resolve(path: string, isAuthenticated: bool, role: string, hops: nat): (p: Page)
    ensures p.Redirect? ==> p.to == "/login" || p.to == "/"
    ensures !p.Redirect? ==> MayView(p, isAuthenticated, role)
    decreases hops
  {
    var p := Route(path, isAuthenticated, role);
    if p.Redirect? && hops > 0 then Resolve(p.to, isAuthenticated, role, hops - 1) else p
  }

  /** Redirects never loop: two hops from any path reach a screen (or no
      match), and that screen is one the session may see. */
  lemma RedirectsSettle(path: string, isAuthenticated: bool, role: string)
    ensures !Resolve(path, isAuthenticated, role, 2).Redirect?
    ensures MayView(Resolve(path, isAuthenticated, role, 2), isAuthenticated, role)
  {
    PatternKeys();
    var p := Route(path, isAuthenticated, role);
    if p.Redirect? {
      var q := Route(p.to, isAuthenticated, role);
      if q.Redirect? {
        assert q.to == "/login";
      }
    }
  }

  /** Without a session every guarded path, in any spelling the router
      accepts, ends on the login screen. */
  lemma SignedOutEndsAtLogin(path: string, role: string)
    requires RouteKey(path) in {"", "/admin", "/dashboard"}
    ensures Resolve(path, false, role, 2) == LoginPage
  {
    PatternKeys();
  }

  /** An authenticated admin sent to "/" is bounced to the login screen;
      a user sent to "/admin" lands on the board. */
  lemma CrossRoleRedirects()
    ensures Resolve("/", true, "admin", 2) == LoginPage
    ensures Resolve("/admin", true, "user", 2) == TicketBoardPage
  {
    PatternKeys();
  }

  /** After the board's logout the page reloads from storage: the new session
      is signed out with no role. */
  lemma ReloadAfterBoardLogout(storage: Storage)
    ensures var load := TicketBoard.BoardLogout(storage);
            !StoredAuth(load.storage) && StoredRole(load.storage) == ""
    ensures var load := TicketBoard.BoardLogout(storage);
            Resolve(load.href, StoredAuth(load.storage), StoredRole(load.storage), 0) == LoginPage
  {
    PatternKeys();
  }
}
