/** The route guard: which paths are public, when a request is sent to the
    login page, and which paths the guard runs on at all. */
module Middleware {
  import opened Text

  /** The public-route test: raw prefix tests, plus one exact path. */
  predicate IsPublicRoute(path: string)
    ensures IsPublicRoute(path) ==> |path| > 0 && path[0] == '/'
  {
    || StartsWith(path, "/login")
    || StartsWith(path, "/register")
    || StartsWith(path, "/api/auth")
    || StartsWith(path, "/_next")
    || path == "/favicon.ico"
  }

  /** For all paths: whatever follows a public path is public too, except
      after "/favicon.ico", the one exact match. */
  lemma PublicRouteExtends(path: string, suffix: string)
    requires IsPublicRoute(path) && path != "/favicon.ico"
    ensures IsPublicRoute(path + suffix)
  {
    var s := path + suffix;
    assert forall n :: 0 <= n <= |path| ==> s[..n] == path[..n];
  }

  /** Examples, not a property of all paths: the prefix tests do not look
      at a segment boundary, so "/loginfoo" and "/registered" are public,
      while "/favicon.ico/x" is not. */
  lemma PublicRouteIsRawPrefix()
    ensures IsPublicRoute("/loginfoo")
    ensures IsPublicRoute("/registered")
    ensures IsPublicRoute("/_nextanything")
    ensures !IsPublicRoute("/favicon.ico/x")
    ensures !IsPublicRoute("/")
  {
    assert "/loginfoo"[..6] == "/login";
    assert "/registered"[..9] == "/register";
    assert "/_nextanything"[..6] == "/_next";
    var f := "/favicon.ico/x";
    assert f[1] == 'f' && f != "/favicon.ico";
    assert f[..6][1] != "/login"[1] && f[..9][1] != "/register"[1];
    assert f[..9][1] != "/api/auth"[1] && f[..6][1] != "/_next"[1];
  }

  datatype Decision = Next | RedirectToLogin

  /** `!isLoggedIn && !isPublicRoute` redirects to "/login"; everything else
      passes through. */
  function Guard(loggedIn: bool, path: string): (d: Decision)
    ensures d == RedirectToLogin <==> !loggedIn && !IsPublicRoute(path)
    ensures loggedIn ==> d == Next
    ensures IsPublicRoute(path) ==> d == Next
  {
    if !loggedIn && !IsPublicRoute(path) then RedirectToLogin else Next
  }

  /** `favicon.ico` as a regular-expression prefix: the dot matches any one
      character. */
  predicate StartsWithFaviconPattern(s: string) {
    |s| >= 11 && s[..7] == "favicon" && s[8..11] == "ico"
  }

  /** The matcher `/((?!api|_next/static|_next/image|favicon.ico).*)`: the path
      starts with "/" and what follows does not begin with one of the excluded
      patterns. */
  predicate MatcherApplies(path: string)
    ensures MatcherApplies(path) ==> |path| > 0 && path[0] == '/' && !StartsWith(path, "/api")
  {
    && StartsWith(path, "/")
    && var rest := path[1..];
    && !StartsWith(rest, "api")
    && !StartsWith(rest, "_next/static")
    && !StartsWith(rest, "_next/image")
    && !StartsWithFaviconPattern(rest)
  }

  /** The whole middleware: paths the matcher excludes never reach the guard. */
  function Middleware(loggedIn: bool, path: string): (d: Decision)
    ensures !MatcherApplies(path) ==> d == Next
    ensures MatcherApplies(path) ==> d == Guard(loggedIn, path)
  {
    if MatcherApplies(path) then Guard(loggedIn, path) else Next
  }

  /** A logged-out request is redirected exactly on a path the matcher covers
      that is not public; a logged-in request always passes. */
  lemma RedirectExactly(loggedIn: bool, path: string)
    ensures Middleware(loggedIn, path) == RedirectToLogin <==>
      !loggedIn && MatcherApplies(path) && !IsPublicRoute(path)
  {
  }

  /** For all paths, whoever asks: every path under "/api" skips the guard,
      not only "/api/auth", and so does any path "/favicon" + one character +
      "ico", because the pattern's dot matches any character. */
  lemma MatcherSkips(loggedIn: bool, path: string)
    ensures StartsWith(path, "/api") ==> Middleware(loggedIn, path) == Next
    ensures |path| >= 12 && path[..8] == "/favicon" && path[9..12] == "ico" ==>
      Middleware(loggedIn, path) == Next
  {
    if |path| >= 12 && path[..8] == "/favicon" && path[9..12] == "ico" {
      assert path[1..][..7] == path[1..8];
      assert path[1..][8..11] == path[9..12];
    }
  }

  /** Examples, not a property of all paths (that is `RedirectExactly`):
      the matcher and the public list overlap differently than they look:
      every "/api/..." path, including ones outside "/api/auth", skips the
      guard, and the regular-expression dot also lets "/faviconXico" skip it,
      while "/_next/data" is guarded but public. */
  lemma MatcherExamples()
    ensures !MatcherApplies("/api/graphql")
    ensures !MatcherApplies("/faviconXico")
    ensures MatcherApplies("/_next/data") && IsPublicRoute("/_next/data")
    ensures MatcherApplies("/journal") && !IsPublicRoute("/journal")
    ensures Middleware(false, "/journal") == RedirectToLogin
    ensures Middleware(false, "/api/graphql") == Next
  {
    assert "/api/graphql"[1..][..3] == "api";
    assert "/faviconXico"[1..][..7] == "favicon";
    assert "/faviconXico"[1..][8..11] == "ico";
    assert "/_next/data"[..6] == "/_next";
    assert "/journal"[..1] == "/";
    var j := "/journal"[1..];
    assert j[0] == 'j';
    assert j[..3][0] != "api"[0] && j[..7][0] != "favicon"[0];
  }
}
