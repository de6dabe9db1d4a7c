/** Router locations, the two fixed paths the guard knows, and the login
    redirect URL it builds (src/permission.js lines 24, 26, 67, 80). */
module Locations {

  /** A resolved navigation target: its path and its raw query string (the
      text after the first `?`, empty when there is none). */
  datatype Location = Location(path: string, query: string)

  const LoginPath: string := "/login"
  const HomePath: string := "/"

  /** The string handed to `next` when a navigation must go through the login
      page: the intended path is appended verbatim, with no URL encoding. */
  function LoginRedirect(path: string): (url: string)
    ensures |url| == |LoginPath| + 10 + |path|
    ensures url[..|LoginPath|] == LoginPath && url[|url| - |path|..] == path
  {
    "/login?redirect=" + path
  }

  /** The path part of a URL as the router resolves it: everything before the first `?`. */
  function UrlPath(url: string): (p: string)
    ensures '?' !in p
    ensures p <= url
    ensures |p| < |url| ==> url[|p|] == '?'
  {
    if url == [] then []
    else if url[0] == '?' then []
    else [url[0]] + UrlPath(url[1..])
  }

  /** The query part of a URL: everything after the first `?`, or empty when there is none. */
  function UrlQuery(url: string): (q: string)
    ensures |UrlPath(url)| + |q| < |url| || (q == [] && UrlPath(url) == url)
  {
    var p := UrlPath(url);
    if |p| < |url| then url[|p| + 1..] else []
  }

  /** The location the router navigates to when `next` receives a URL string. */
  function Resolve(url: string): (loc: Location)
    ensures '?' !in loc.path
    ensures '?' !in url ==> loc == Location(url, "")
  {
    Location(UrlPath(url), UrlQuery(url))
  }

  /** A path free of `?` followed by `?` and anything splits back into that path and that query. */
  lemma {:induction false} UrlSplitsAtFirstMark(p: string, rest: string)
    requires '?' !in p
    ensures UrlPath(p + "?" + rest) == p
    ensures UrlQuery(p + "?" + rest) == rest
  {
    if p == [] {
      assert p + "?" + rest == "?" + rest;
    } else {
      assert (p + "?" + rest)[1..] == p[1..] + "?" + rest;
      UrlSplitsAtFirstMark(p[1..], rest);
    }
  }

  /** Round trip of the login redirect: the router lands on the login path, and
      the query it carries holds the originally intended path verbatim. */
  lemma LoginRedirectResolves(path: string)
    ensures Resolve(LoginRedirect(path)) == Location(LoginPath, "redirect=" + path)
  {
    assert LoginRedirect(path) == LoginPath + "?" + ("redirect=" + path);
    UrlSplitsAtFirstMark(LoginPath, "redirect=" + path);
  }
}
