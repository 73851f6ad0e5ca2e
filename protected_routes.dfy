/** The router behind the login: which element each path shows with and
    without a session, where auth events send the browser, and which page
    errors raise the navigation-error toast. */
module ProtectedRoutes {
  import opened Common
  import opened AuthSession

  const Home: string := "/"
  const LoginPath: string := "/login"

  datatype Page = IndexPage | LoginPage

  /** A route element: a page, or `<Navigate to=… replace />`. */
  datatype Element = Render(page: Page) | Redirect(to: string)

  /** The path without its trailing slashes. */
  function StripTrailingSlashes(s: string): (r: string)
    ensures r <= s
    ensures r == [] || r[|r| - 1] != '/'
    ensures forall i :: |r| <= i < |s| ==> s[i] == '/'
    decreases |s|
  {
    if s != [] && s[|s| - 1] == '/' then StripTrailingSlashes(s[..|s| - 1]) else s
  }

  /** A `<Route path=…>` without `caseSensitive` matches a location whose
      path names it up to ASCII case and trailing slashes. The route paths
      here are lower-case ASCII, and the case-insensitive comparison of a
      regular expression never maps another character onto an ASCII one. */
  predicate RouteMatches(path: string, routePath: string) {
    path != [] && path[0] == '/' && Lower(StripTrailingSlashes(path)) == StripTrailingSlashes(routePath)
  }

  /** The two route paths match themselves and not each other. */
  lemma RoutePathsMatchThemselves()
    ensures RouteMatches(Home, Home) && !RouteMatches(Home, LoginPath)
    ensures RouteMatches(LoginPath, LoginPath) && !RouteMatches(LoginPath, Home)
  {
    assert StripTrailingSlashes(Home) == [];
    assert StripTrailingSlashes(LoginPath) == LoginPath;
    assert Lower(LoginPath) == LoginPath by {
      forall i | 0 <= i < |LoginPath|
        ensures Lower(LoginPath)[i] == LoginPath[i]
      {
        assert !('A' <= LoginPath[i] <= 'Z');
      }
    }
  }

  /** The route table: "/", "/login" and the catch-all "*". */
  function Route(path: string, hasSession: bool): (e: Element)
    ensures RouteMatches(path, Home) ==> e == (if hasSession then Render(IndexPage) else Redirect(LoginPath))
    ensures RouteMatches(path, LoginPath) ==> e == (if hasSession then Redirect(Home) else Render(LoginPage))
    ensures !RouteMatches(path, Home) && !RouteMatches(path, LoginPath) ==>
              e == Redirect(if hasSession then Home else LoginPath)
  {
    if RouteMatches(path, Home) then (if hasSession then Render(IndexPage) else Redirect(LoginPath))
    else if RouteMatches(path, LoginPath) then (if hasSession then Redirect(Home) else Render(LoginPage))
    else Redirect(if hasSession then Home else LoginPath)
  }

  /** Capitals and a trailing slash still reach the login page. */
  lemma LoginPathVariants()
    ensures Route("/LOGIN", false) == Render(LoginPage)
    ensures Route("/login/", false) == Render(LoginPage)
    ensures Route("/Login//", true) == Redirect(Home)
  {
    assert StripTrailingSlashes(LoginPath) == LoginPath;
    assert StripTrailingSlashes("/LOGIN") == "/LOGIN";
    assert StripTrailingSlashes("/login/") == LoginPath by {
      assert "/login/"[..6] == LoginPath;
    }
    assert StripTrailingSlashes("/Login//") == "/Login" by {
      assert "/Login//"[..7] == "/Login/";
      assert "/Login/"[..6] == "/Login";
    }
    assert Lower("/LOGIN") == LoginPath;
    assert Lower(LoginPath) == LoginPath;
    assert Lower("/Login") == LoginPath;
  }

  /** The page shown after following redirects from `path`, at most `fuel`
      of them. */
  function Settle(path: string, hasSession: bool, fuel: nat): Option<Page>
    decreases fuel
  {
    match Route(path, hasSession)
    case Render(p) => Some(p)
    case Redirect(to) => if fuel == 0 then None else Settle(to, hasSession, fuel - 1)
  }

  /** From any path one redirect at most is followed, and it lands on Index
      exactly when there is a session and on Login exactly when there is
      none. */
  lemma AtMostOneRedirect(path: string, hasSession: bool)
    ensures Settle(path, hasSession, 1) == Some(if hasSession then IndexPage else LoginPage)
    ensures Route(path, hasSession).Redirect? ==>
              Route(Route(path, hasSession).to, hasSession) == Render(if hasSession then IndexPage else LoginPage)
  {
  }

  /** Where the router's auth listener sends the browser: to "/login" on
      SIGNED_OUT or on TOKEN_REFRESHED without a session, to "/" on
      SIGNED_IN with a session, nowhere otherwise. */
  function AuthRedirect(d: Delivery): (r: Option<string>)
    ensures r == Some(LoginPath) <==> d.event.SignedOut? || (d.event.TokenRefreshed? && d.session.None?)
    ensures r == Some(Home) <==> d.event.SignedIn? && d.session.Some?
    ensures r.None? <==> !(d.event.SignedOut? || (d.event.TokenRefreshed? && d.session.None?)
                           || (d.event.SignedIn? && d.session.Some?))
  {
    if d.event.SignedOut? || (d.event.TokenRefreshed? && d.session.None?) then Some(LoginPath)
    else if d.event.SignedIn? && d.session.Some? then Some(Home)
    else None
  }

  /** After a redirect the route table shows the page that fits the session
      the event carried: Login after a sign-out, Index after a sign-in. */
  lemma RedirectLandsOnMatchingPage(d: Delivery)
    requires AuthRedirect(d).Some?
    ensures Route(AuthRedirect(d).value, d.session.Some? && !d.event.SignedOut?)
            == Render(if d.event.SignedIn? then IndexPage else LoginPage)
  {
  }

  /** A window error event: the name of its error, if it has one, and its
      message, if it has one. */
  datatype ErrorEvent = ErrorEvent(errorName: Option<string>, message: Option<string>)

  /** The navigation-error toast is shown for a ChunkLoadError or a message
      mentioning "Failed to fetch", and for nothing else. */
  function ShowsNavigationToast(e: ErrorEvent): (show: bool)
    ensures show <==> e.errorName == Some("ChunkLoadError")
                      || (e.message.Some? && Contains(e.message.value, "Failed to fetch"))
  {
    (e.errorName.Some? && e.errorName.value == "ChunkLoadError")
    || (e.message.Some? && Contains(e.message.value, "Failed to fetch"))
  }
}
