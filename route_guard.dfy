/** The route guard (middleware.ts): a pure decision on every navigation
    request, from the request's pathname and its cookies, to "let it through"
    or "redirect to the sign-in page". */
module RouteGuard {
  import opened Text

  /** The routes anyone may visit (middleware.ts, `publicRoutes`). */
  const PublicRoutes: seq<string> := ["/signin", "/signup", "/", "/forgot-password"]

  const AuthTokenCookie: string := "auth-token"
  const SignInRoute: string := "/signin"

  /** `NextResponse.next()` or a redirect to `target` whose `callbackUrl`
      query parameter is `callbackUrl` (kept unencoded here). */
  datatype Response = Next | Redirect(target: string, callbackUrl: string)

  /** `pathname === route || pathname.startsWith(route + '/')` */
  predicate MatchesRoute(path: string, route: string)
  {
    path == route || StartsWith(path, route + "/")
  }

  /** `routes.some(route => MatchesRoute(path, route))` */
  predicate SomeRouteMatches(routes: seq<string>, path: string)
  {
    routes != [] && (MatchesRoute(path, routes[0]) || SomeRouteMatches(routes[1..], path))
  }

  predicate IsPublicRoute(path: string)
  {
    SomeRouteMatches(PublicRoutes, path)
  }

  /** The `auth-token` cookie is present and not the empty string (`!token` fails). */
  predicate HasToken(cookies: map<string, string>)
  {
    AuthTokenCookie in cookies && cookies[AuthTokenCookie] != ""
  }

  /** The `middleware` function. */
  function Middleware(path: string, cookies: map<string, string>): (r: Response)
    ensures IsPublicRoute(path) ==> r == Next
    ensures !IsPublicRoute(path) && !HasToken(cookies) ==> r == Redirect(SignInRoute, path)
    ensures !IsPublicRoute(path) && HasToken(cookies) ==> r == Next
  {
    if IsPublicRoute(path) then Next
    else
      var token := if AuthTokenCookie in cookies then cookies[AuthTokenCookie] else "";
      if token == "" then Redirect(SignInRoute, path) else Next
  }

  /** `some` holds exactly when one of the routes matches. */
  lemma {:induction false} SomeRouteMatchesIff(routes: seq<string>, path: string)
    ensures SomeRouteMatches(routes, path) <==> exists i :: 0 <= i < |routes| && MatchesRoute(path, routes[i])
  {
    if routes != [] {
      SomeRouteMatchesIff(routes[1..], path);
      if exists i :: 0 <= i < |routes| && MatchesRoute(path, routes[i]) {
        var i :| 0 <= i < |routes| && MatchesRoute(path, routes[i]);
        if i > 0 {
          assert routes[1..][i - 1] == routes[i];
        }
      }
    }
  }

  /** The public-route test spelled out: a path is public exactly when it is
      one of the four routes or continues one of them with "/". */
  lemma PublicRouteIff(path: string)
    ensures IsPublicRoute(path) <==>
      || path == "/signin" || StartsWith(path, "/signin/")
      || path == "/signup" || StartsWith(path, "/signup/")
      || path == "/" || StartsWith(path, "//")
      || path == "/forgot-password" || StartsWith(path, "/forgot-password/")
  {
    SomeRouteMatchesIff(PublicRoutes, path);
    assert PublicRoutes[0] + "/" == "/signin/" && PublicRoutes[1] + "/" == "/signup/";
    assert PublicRoutes[2] + "/" == "//" && PublicRoutes[3] + "/" == "/forgot-password/";
  }

  /** Consequences of the prefix rule: a longer name is not a sub-path, the
      company pages are protected, and since "/" is listed every path that
      starts with "//" is public. */
  lemma PublicRouteExamples(rest: string)
    ensures !IsPublicRoute("/signinx")
    ensures !IsPublicRoute("/empresas")
    ensures IsPublicRoute("/signin/reset")
    ensures IsPublicRoute("//" + rest)
  {
    PublicRouteIff("/signinx");
    assert "/signinx"[..8] != "/signin/" by { assert "/signinx"[7] != "/signin/"[7]; }
    assert "/signinx"[..8] != "/signup/" by { assert "/signinx"[5] != "/signup/"[5]; }
    assert "/signinx"[..2] != "//" by { assert "/signinx"[1] != '/'; }
    PublicRouteIff("/empresas");
    PublicRouteIff("/signin/reset");
    PublicRouteIff("//" + rest);
    assert ("//" + rest)[..2] == "//";
  }

  /** The guard reads no cookie but `auth-token`: in particular there is no
      role check, so admin pages are allowed for any signed-in user. */
  lemma OnlyTokenCookieMatters(path: string, c1: map<string, string>, c2: map<string, string>)
    requires (AuthTokenCookie in c1) == (AuthTokenCookie in c2)
    requires AuthTokenCookie in c1 ==> c1[AuthTokenCookie] == c2[AuthTokenCookie]
    ensures Middleware(path, c1) == Middleware(path, c2)
  {
  }

  lemma AdminPagesNeedOnlyAToken(rest: string, cookies: map<string, string>)
    requires HasToken(cookies)
    ensures Middleware("/admin/" + rest, cookies) == Next
  {
  }

  /** A redirect always leads to a page the guard lets through whatever the
      cookies are, so the guard cannot send a browser round in circles. */
  lemma NoRedirectLoop(path: string, cookies: map<string, string>, next: map<string, string>)
    ensures Middleware(path, cookies).Redirect? ==>
      Middleware(Middleware(path, cookies).target, next) == Next
  {
    PublicRouteIff(SignInRoute);
  }

  /** `config.matcher`: '/((?!api|_next/static|_next/image|favicon.ico).*)'.
      After the leading "/", the rest must not begin with one of the excluded
      words. The '.' of "favicon.ico" is a regular-expression wildcard, so any
      character may stand between "favicon" and "ico". Pathnames are
      URL-encoded, so they hold no line terminators for '.' to refuse. */
  predicate ExcludedPrefix(rest: string)
  {
    || StartsWith(rest, "api")
    || StartsWith(rest, "_next/static")
    || StartsWith(rest, "_next/image")
    || (|rest| >= 11 && rest[..7] == "favicon" && rest[8..11] == "ico")
  }

  predicate MatcherApplies(path: string)
  {
    path != [] && path[0] == '/' && !ExcludedPrefix(path[1..])
  }

  /** What a request meets: the middleware when the matcher selects the path,
      otherwise nothing at all. */
  function Guard(path: string, cookies: map<string, string>): (r: Response)
    ensures !MatcherApplies(path) ==> r == Next
    ensures MatcherApplies(path) ==> r == Middleware(path, cookies)
  {
    if MatcherApplies(path) then Middleware(path, cookies) else Next
  }

  /** The matcher works on prefixes, not on path segments: "/apiary" skips the
      guard like "/api/users" does, and so does "/faviconXico". */
  lemma MatcherExemptions(cookies: map<string, string>)
    ensures !MatcherApplies("/apiary") && !MatcherApplies("/api/users")
    ensures !MatcherApplies("/_next/static/chunk.js") && !MatcherApplies("/faviconXico")
    ensures Guard("/apiary", cookies) == Next
  {
    assert "/apiary"[1..][..3] == "api";
    assert "/api/users"[1..][..3] == "api";
    assert "/_next/static/chunk.js"[1..][..12] == "_next/static";
    assert "/faviconXico"[1..][..7] == "favicon" && "/faviconXico"[1..][8..11] == "ico";
  }

  /** The company pages are guarded: without a token the browser is sent to sign in. */
  lemma CompanyPagesGuarded(cookies: map<string, string>)
    requires !HasToken(cookies)
    ensures Guard("/empresas", cookies) == Redirect(SignInRoute, "/empresas")
  {
    PublicRouteIff("/empresas");
    assert "/empresas"[..2] != "//" by { assert "/empresas"[1] != '/'; }
    EmpresasMatched();
  }

  /** The matcher selects "/empresas". */
  lemma EmpresasMatched()
    ensures MatcherApplies("/empresas")
  {
    var rest := "/empresas"[1..];
    assert rest == "empresas";
    assert rest[0] == 'e';
    assert !ExcludedPrefix(rest) by {
      assert rest[..3] != "api" by { assert rest[..3][0] == 'e'; }
      assert rest[..7] != "favicon" by { assert rest[..7][0] == 'e'; }
    }
  }
}
