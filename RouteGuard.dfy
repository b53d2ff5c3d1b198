/** The route guard of `middleware.ts`: the inner `middleware(req)` decision and
    the `callbacks.authorized` predicate, as two separate pure functions.
    How `withAuth` composes them is the session library's business and is not modelled. */
module RouteGuard {
  import opened Wrappers
  import opened Text

  const SessionCookieName := "next-auth.session-token"
  const SecureSessionCookieName := "__Secure-next-auth.session-token"
  const DashboardPath := "/dashboard"
  const LoginPath := "/login"

  /** A request cookie; only its name is ever looked at. */
  datatype Cookie = Cookie(name: string, value: string)

  /** `req.nextUrl`, split into the parts the guard reads. `search` is the query string
      with its leading `?` (or empty). */
  datatype NextUrl = NextUrl(origin: string, pathname: string, search: string)

  datatype Request = Request(nextUrl: NextUrl, cookies: seq<Cookie>)

  /** `req.url`: the full request URL as a string. */
  function Href(u: NextUrl): string {
    u.origin + u.pathname + u.search
  }

  /** Some cookie of the request has this name. */
  predicate HasCookieNamed(cookies: seq<Cookie>, name: string) {
    exists i :: 0 <= i < |cookies| && cookies[i].name == name
  }

  /** `req.cookies.get(name)`: a cookie of that name, if any. */
  function GetCookie(cookies: seq<Cookie>, name: string): (r: Option<Cookie>)
    ensures r.Some? <==> HasCookieNamed(cookies, name)
    ensures r.Some? ==> r.value in cookies && r.value.name == name
  {
    if cookies == [] then None
    else if cookies[0].name == name then Some(cookies[0])
    else GetCookie(cookies[1..], name)
  }

  /** `isLoggedIn = !!token`, where `token` is the first present session cookie
      (a cookie object is truthy whatever its value). */
  function IsLoggedIn(req: Request): (b: bool)
    ensures b <==> HasCookieNamed(req.cookies, SessionCookieName)
                   || HasCookieNamed(req.cookies, SecureSessionCookieName)
  {
    var plain := GetCookie(req.cookies, SessionCookieName);
    var token := if plain.Some? then plain else GetCookie(req.cookies, SecureSessionCookieName);
    token.Some?
  }

  /** `isOnDashboard = url.pathname.startsWith("/dashboard")`. */
  predicate IsOnDashboard(req: Request) {
    StartsWith(req.nextUrl.pathname, DashboardPath)
  }

  /** The three things the guard can do. */
  datatype Action = Allow | RedirectLogin | RedirectDashboard

  /** The guard's state table over (isOnDashboard, isLoggedIn). */
  function Decide(isOnDashboard: bool, isLoggedIn: bool): (a: Action)
    ensures a == RedirectLogin <==> isOnDashboard && !isLoggedIn
    ensures a == RedirectDashboard <==> !isOnDashboard && isLoggedIn
    ensures a == Allow <==> isOnDashboard == isLoggedIn
  {
    if isOnDashboard && !isLoggedIn then RedirectLogin
    else if !isOnDashboard && isLoggedIn then RedirectDashboard
    else Allow
  }

  /** A redirect target: origin, path and the optional `callbackUrl` query parameter
      (kept structured rather than serialised). */
  datatype Location = Location(origin: string, pathname: string, callbackUrl: Option<string>)

  /** `NextResponse.next()` or `NextResponse.redirect(url)`. */
  datatype Response = Next | Redirect(location: Location)

  /** The inner `middleware(req)`. */
  function Middleware(req: Request): (res: Response)
    ensures res.Redirect? ==> res.location.origin == req.nextUrl.origin
    ensures res == Redirect(Location(req.nextUrl.origin, LoginPath, Some(req.nextUrl.pathname)))
            <==> IsOnDashboard(req) && !IsLoggedIn(req)
    ensures res == Redirect(Location(req.nextUrl.origin, DashboardPath, None))
            <==> !IsOnDashboard(req) && IsLoggedIn(req)
    ensures res == Next <==> IsOnDashboard(req) == IsLoggedIn(req)
  {
    var url := req.nextUrl;
    match Decide(IsOnDashboard(req), IsLoggedIn(req))
    case RedirectLogin => Redirect(Location(url.origin, LoginPath, Some(url.pathname)))
    case RedirectDashboard => Redirect(Location(url.origin, DashboardPath, None))
    case Allow => Next
  }

  /** Following a redirect with the login state held fixed (same cookies, same origin,
      any query string) is allowed: the guard never redirects twice in a row. */
  lemma NoRedirectLoop(req: Request, search: string)
    requires Middleware(req).Redirect?
    ensures var loc := Middleware(req).location;
            Middleware(Request(NextUrl(loc.origin, loc.pathname, search), req.cookies)) == Next
  {
    var loc := Middleware(req).location;
    var next := Request(NextUrl(loc.origin, loc.pathname, search), req.cookies);
    if IsLoggedIn(req) {
      assert loc.pathname == DashboardPath;
      assert IsOnDashboard(next);
    } else {
      assert loc.pathname == LoginPath;
      assert !IsOnDashboard(next) by { assert |LoginPath| < |DashboardPath|; }
    }
  }

  /** The decision looks at the pathname and the cookie names only: neither the query
      string nor any cookie's value changes it. */
  lemma {:induction false} DecisionIgnoresSearchAndCookieValues(
    origin: string, pathname: string, search1: string, search2: string,
    cookies1: seq<Cookie>, cookies2: seq<Cookie>)
    requires |cookies1| == |cookies2|
    requires forall i :: 0 <= i < |cookies1| ==> cookies1[i].name == cookies2[i].name
    ensures Middleware(Request(NextUrl(origin, pathname, search1), cookies1))
         == Middleware(Request(NextUrl(origin, pathname, search2), cookies2))
  {
    var r1 := Request(NextUrl(origin, pathname, search1), cookies1);
    var r2 := Request(NextUrl(origin, pathname, search2), cookies2);
    assert HasCookieNamed(cookies1, SessionCookieName) <==> HasCookieNamed(cookies2, SessionCookieName);
    assert HasCookieNamed(cookies1, SecureSessionCookieName) <==> HasCookieNamed(cookies2, SecureSessionCookieName);
    assert IsLoggedIn(r1) == IsLoggedIn(r2);
  }

  /** The protected-area test is a plain prefix test: `/dashboardx` counts,
      `/foo/dashboard` and `/login` do not. */
  lemma DashboardPrefixExamples(origin: string, search: string, cookies: seq<Cookie>)
    ensures IsOnDashboard(Request(NextUrl(origin, "/dashboard", search), cookies))
    ensures IsOnDashboard(Request(NextUrl(origin, "/dashboard/invoices", search), cookies))
    ensures IsOnDashboard(Request(NextUrl(origin, "/dashboardx", search), cookies))
    ensures !IsOnDashboard(Request(NextUrl(origin, "/foo/dashboard", search), cookies))
    ensures !IsOnDashboard(Request(NextUrl(origin, "/login", search), cookies))
  {
    assert "/dashboard/invoices"[..10] == DashboardPath;
    assert "/dashboardx"[..10] == DashboardPath;
    assert "/foo/dashboard"[..10][1] != DashboardPath[1];
  }

  /** A logged-in request for the login page itself is sent to `/dashboard`. */
  lemma LoginPageRedirectsWhenLoggedIn(req: Request)
    requires req.nextUrl.pathname == LoginPath
    requires IsLoggedIn(req)
    ensures Middleware(req) == Redirect(Location(req.nextUrl.origin, DashboardPath, None))
  {
    assert !IsOnDashboard(req) by { assert |LoginPath| < |DashboardPath|; }
  }

  /** The user record carried by the session token. */
  datatype User = User(email: string, password: string)

  /** The decoded JWT; its `user` may be missing at run time although the type declares it. */
  datatype Jwt = Jwt(user: Option<User>)

  /** `callbacks.authorized({ req, token })`, given `req.url` and the (possibly absent) token. */
  function Authorized(url: string, token: Option<Jwt>): (ok: bool)
    ensures !ok <==> Includes(url, DashboardPath) && (token.None? || token.value.user.None?)
  {
    if Includes(url, DashboardPath) then
      if token.None? || token.value.user.None? then false else true
    else
      true
  }

  /** `authorized` tests the whole URL for the substring `/dashboard`, which is coarser
      than the middleware's prefix test on the pathname: every request the middleware
      treats as protected is also protected for `authorized`. */
  lemma {:induction false} AuthorizedCoversDashboard(req: Request, token: Option<Jwt>)
    requires IsOnDashboard(req)
    ensures Includes(Href(req.nextUrl), DashboardPath)
    ensures token.None? || token.value.user.None? ==> !Authorized(Href(req.nextUrl), token)
  {
    PrefixIncludedInConcat(req.nextUrl.origin, req.nextUrl.pathname, req.nextUrl.search, DashboardPath);
  }

  /** The converse fails: `/foo/dashboard` is public for the middleware but
      protected for `authorized`. */
  lemma AuthorizedStricterOffDashboard()
    ensures var req := Request(NextUrl("https://example.com", "/foo/dashboard", ""), []);
            !IsOnDashboard(req) && Middleware(req) == Next && !Authorized(Href(req.nextUrl), None)
  {
    var req := Request(NextUrl("https://example.com", "/foo/dashboard", ""), []);
    assert "/foo/dashboard"[..10][1] != DashboardPath[1];
    var s := Href(req.nextUrl);
    assert s[23..33] == DashboardPath;
    assert OccursAt(s, DashboardPath, 23);
  }

  /** With a session cookie but a token that lacks `user`, the middleware allows
      `/dashboard/invoices` while `authorized` denies it. */
  lemma CookieWithoutUserDiverges(origin: string, value: string)
    ensures var req := Request(NextUrl(origin, "/dashboard/invoices", ""), [Cookie(SessionCookieName, value)]);
            Middleware(req) == Next && !Authorized(Href(req.nextUrl), Some(Jwt(None)))
  {
    var req := Request(NextUrl(origin, "/dashboard/invoices", ""), [Cookie(SessionCookieName, value)]);
    assert HasCookieNamed(req.cookies, SessionCookieName) by { assert req.cookies[0].name == SessionCookieName; }
    assert "/dashboard/invoices"[..10] == DashboardPath;
    AuthorizedCoversDashboard(req, Some(Jwt(None)));
  }
}
