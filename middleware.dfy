/** The route gate: a per-request decision between continuing to the page
    and redirecting to `/login`, taken from the request's pathname and its
    `auth_token` cookie, plus the matcher that decides which requests reach
    the gate at all. */
module Middleware {
  import opened Wrappers

  /** The parts of the request URL the gate reads or rewrites. */
  datatype Url = Url(origin: string, pathname: string, search: string)

  /** An incoming request: its URL and its cookies by name. */
  datatype Request = Request(url: Url, cookies: map<string, string>)

  /** `NextResponse.next()` or `NextResponse.redirect(location)`.
      Neither carries a cookie write: the gate never sets or deletes one. */
  datatype Decision = Next | Redirect(location: Url)

  /** What happens to a request: the matcher lets it bypass the gate, or the
      gate decides it. */
  datatype RouteOutcome = Bypassed | Gated(decision: Decision)

  const LoginPath: string := "/login"
  const SignUpPath: string := "/sign-up"
  const PublicRoutes: seq<string> := [LoginPath, SignUpPath]
  const TokenCookie: string := "auth_token"

  /** `routes.find(route => pathname === route.path)`: the first route equal
      to the pathname, if any. */
  function FindRoute(routes: seq<string>, pathname: string): (r: Option<string>)
    ensures r.Some? <==> pathname in routes
    ensures r.Some? ==> r.value == pathname
  {
    if routes == [] then None
    else if routes[0] == pathname then Some(routes[0])
    else FindRoute(routes[1..], pathname)
  }

  predicate IsPublic(pathname: string) {
    FindRoute(PublicRoutes, pathname).Some?
  }

  /** `request.cookies.get("auth_token")?.value` */
  function TokenOf(cookies: map<string, string>): Option<string> {
    if TokenCookie in cookies then Some(cookies[TokenCookie]) else None
  }

  /** The `middleware` function. */
  function Decide(req: Request): (d: Decision)
    ensures d.Next? <==> req.url.pathname in PublicRoutes || Truthy(TokenOf(req.cookies))
    ensures d.Redirect? ==> d.location == req.url.(pathname := LoginPath)
  {
    if IsPublic(req.url.pathname) then Next
    else
      var token := TokenOf(req.cookies);
      if !Truthy(token) then
        var url := req.url.(pathname := LoginPath);
        Redirect(url)
      else Next
  }

  /** A public pathname continues whatever cookies come with it. */
  lemma PublicRouteContinues(url: Url, cookies: map<string, string>)
    requires url.pathname == LoginPath || url.pathname == SignUpPath
    ensures Decide(Request(url, cookies)) == Next
  {
  }

  /** For a public pathname the cookies are never consulted: any two cookie
      jars give the same decision. */
  lemma PublicIgnoresCookies(url: Url, c1: map<string, string>, c2: map<string, string>)
    requires url.pathname in PublicRoutes
    ensures Decide(Request(url, c1)) == Decide(Request(url, c2))
  {
  }

  /** Public matching is exact: `/login/` and `/login/x` are protected, so
      without a token they are redirected. */
  lemma PublicMatchIsExact(origin: string, search: string)
    ensures Decide(Request(Url(origin, "/login/", search), map[])).Redirect?
    ensures Decide(Request(Url(origin, "/login/x", search), map[])).Redirect?
  {
  }

  /** A protected request whose `auth_token` is absent or empty is redirected
      to the same URL with only the pathname replaced by `/login`. */
  lemma MissingTokenRedirects(req: Request)
    requires req.url.pathname !in PublicRoutes
    requires TokenCookie !in req.cookies || req.cookies[TokenCookie] == ""
    ensures Decide(req) == Redirect(Url(req.url.origin, LoginPath, req.url.search))
  {
  }

  /** Token contents are never inspected: any non-empty token lets any
      request continue. */
  lemma AnyTokenContinues(url: Url, cookies: map<string, string>)
    requires TokenCookie in cookies && cookies[TokenCookie] != ""
    ensures Decide(Request(url, cookies)) == Next
  {
  }

  /** The redirect target is public, so following a redirect, with any
      cookies, continues: the gate never loops. */
  lemma NoRedirectLoop(req: Request, cookies: map<string, string>)
    requires Decide(req).Redirect?
    ensures Decide(Request(Decide(req).location, cookies)) == Next
  {
  }

  // ---------------------------------------------------------------------
  // The matcher `/((?!api|_next/static|_next/image|favicon.ico|sitemap.xml|robots.txt).*)`

  /** The alternatives of the negative lookahead, as regex text: an unescaped
      `.` in them matches any character. */
  const ExcludedPatterns: seq<string> :=
    ["api", "_next/static", "_next/image", "favicon.ico", "sitemap.xml", "robots.txt"]

  /** `s` begins with text matched by the regex literal `pat`, where `.`
      matches any one character and every other character itself. */
  predicate PatternPrefix(pat: string, s: string) {
    |pat| <= |s| && forall i :: 0 <= i < |pat| ==> pat[i] == '.' || pat[i] == s[i]
  }

  /** The matcher accepts the pathname: a leading `/` not followed by any of
      the excluded alternatives. */
  predicate Matched(pathname: string) {
    |pathname| >= 1 && pathname[0] == '/' &&
    forall k :: 0 <= k < |ExcludedPatterns| ==> !PatternPrefix(ExcludedPatterns[k], pathname[1..])
  }

  /** The routing layer runs the gate only on matched requests. */
  function Handle(req: Request): (o: RouteOutcome)
    ensures o.Bypassed? <==> !Matched(req.url.pathname)
    ensures o.Gated? ==> o.decision == Decide(req)
  {
    if Matched(req.url.pathname) then Gated(Decide(req)) else Bypassed
  }

  /** Every regex literal matches its own text followed by anything. */
  lemma PatternMatchesItself(pat: string, rest: string)
    ensures PatternPrefix(pat, pat + rest)
  {
    forall i | 0 <= i < |pat| ensures pat[i] == '.' || pat[i] == (pat + rest)[i] {
      assert (pat + rest)[i] == pat[i];
    }
  }

  /** A path whose text after the leading `/` begins with an excluded name
      never reaches the gate, whatever its cookies. */
  lemma ExcludedPathBypasses(k: nat, rest: string, url: Url, cookies: map<string, string>)
    requires k < |ExcludedPatterns|
    requires url.pathname == "/" + ExcludedPatterns[k] + rest
    ensures Handle(Request(url, cookies)) == Bypassed
  {
    var p := ExcludedPatterns[k];
    PatternMatchesItself(p, rest);
    assert url.pathname[1..] == p + rest;
  }

  /** The lookahead is a prefix test, not a segment test, and its dots are
      wildcards: `/apiary` and `/faviconXico` bypass the gate too. */
  lemma LookaheadIsTextual(origin: string, search: string)
    ensures Handle(Request(Url(origin, "/apiary", search), map[])) == Bypassed
    ensures Handle(Request(Url(origin, "/faviconXico", search), map[])) == Bypassed
  {
    PatternMatchesItself("api", "ary");
    assert "/apiary"[1..] == "api" + "ary";
    assert PatternPrefix(ExcludedPatterns[0], "/apiary"[1..]);
    assert PatternPrefix(ExcludedPatterns[3], "/faviconXico"[1..]);
  }

  /** A pathname whose first character after the `/` starts none of the
      excluded alternatives is matched. */
  lemma FirstCharMatched(pathname: string)
    requires |pathname| >= 2 && pathname[0] == '/'
    requires pathname[1] !in {'a', '_', 'f', 's', 'r'}
    ensures Matched(pathname)
  {
    forall k | 0 <= k < |ExcludedPatterns|
      ensures !PatternPrefix(ExcludedPatterns[k], pathname[1..])
    {
      var p := ExcludedPatterns[k];
      assert p[0] in {'a', '_', 'f', 's', 'r'};
      assert p[0] != pathname[1..][0];
    }
  }

  /** The public pages themselves are gated (and continue); a protected page
      without a token is gated and redirected. */
  lemma PagesAreGated(origin: string, search: string)
    ensures Handle(Request(Url(origin, LoginPath, search), map[])) == Gated(Next)
    ensures Handle(Request(Url(origin, "/home", search), map[])) == Gated(Redirect(Url(origin, LoginPath, search)))
  {
    FirstCharMatched(LoginPath);
    FirstCharMatched("/home");
  }

  /** Following a gate redirect, the login page is matched and continues. */
  lemma RedirectTargetContinues(req: Request, cookies: map<string, string>)
    requires Handle(req) == Gated(Decide(req)) && Decide(req).Redirect?
    ensures Handle(Request(Decide(req).location, cookies)) == Gated(Next)
  {
    FirstCharMatched(LoginPath);
  }
}
