/** Route resolution for the middleware (middleware/auth.go): the static
    file test, the Referer and loose-prefix route finders, the fallback
    chain and the prefix stripping of skip-auth routes. */
module Routing {
  import opened Wrappers
  import opened Strings
  import opened Http
  import opened Models

  /** The route table and the proxy manager's lookups. `direct` is the
      manager's `GetRoute(path)` lookup, given as a finite map because its
      matching rule is not part of this model; `proxies` holds the route
      paths for which `GetProxy(path)` succeeds. */
  datatype ProxyManager = ProxyManager(routes: seq<RouteConfig>, direct: map<string, RouteConfig>, proxies: set<string>)
  {
    /** A direct lookup only ever answers with a member of the table. */
    predicate Valid() {
      forall p :: p in direct ==> direct[p] in routes
    }
  }

  /** The extensions of `staticFileRegex`, in the order of its alternation. */
  const StaticExtensions: seq<string> :=
    ["ico", "jpg", "jpeg", "png", "gif", "svg", "js", "css", "swf", "eot", "ttf", "otf", "woff", "woff2"]

  /** What `\.(ico|jpg|...|woff2)$` matches: the path ends with a dot and
      one of the extensions, case-sensitively. */
  ghost predicate MatchesStaticPattern(path: string) {
    exists k :: 0 <= k < |StaticExtensions| && HasSuffix(path, "." + StaticExtensions[k])
  }

  /** `isStaticFile`, computed from the text after the last dot. */
  function IsStaticFile(path: string): (b: bool)
    ensures b <==> MatchesStaticPattern(path)
  {
    StaticFileByLastDot(path);
    match LastIndexOf(path, '.')
    case None => false
    case Some(i) => path[i + 1..] in StaticExtensions
  }

  predicate NoDot(e: string) {
    forall j :: 0 <= j < |e| ==> e[j] != '.'
  }

  lemma StaticExtensionsHaveNoDot()
    ensures forall k :: 0 <= k < |StaticExtensions| ==> NoDot(StaticExtensions[k])
  {
  }

  /** A dot with no dot after it is the last dot. */
  lemma LastDotAt(path: string, d: nat)
    requires d < |path| && path[d] == '.'
    requires forall j :: d < j < |path| ==> path[j] != '.'
    ensures LastIndexOf(path, '.') == Some(d)
  {
  }

  /** The suffix after the last dot is an extension exactly when the path
      ends with "." followed by that extension, since no extension contains
      a dot. */
  lemma StaticFileByLastDot(path: string)
    ensures MatchesStaticPattern(path) <==>
              (LastIndexOf(path, '.').Some? && path[LastIndexOf(path, '.').value + 1..] in StaticExtensions)
  {
    var li := LastIndexOf(path, '.');
    if li.Some? && path[li.value + 1..] in StaticExtensions {
      var i := li.value;
      var k :| 0 <= k < |StaticExtensions| && StaticExtensions[k] == path[i + 1..];
      assert path[i..] == "." + path[i + 1..];
      assert HasSuffix(path, "." + StaticExtensions[k]);
    }
    if MatchesStaticPattern(path) {
      var k :| 0 <= k < |StaticExtensions| && HasSuffix(path, "." + StaticExtensions[k]);
      DotBeforeExtension(path, StaticExtensions[k]);
    }
  }

  /** A path ending in "." + e, with e free of dots, has its last dot just
      before e. */
  lemma DotBeforeExtension(path: string, e: string)
    requires HasSuffix(path, "." + e)
    requires NoDot(e) || e in StaticExtensions
    ensures LastIndexOf(path, '.') == Some(|path| - |e| - 1)
    ensures path[|path| - |e|..] == e
  {
    StaticExtensionsHaveNoDot();
    var d := |path| - |e| - 1;
    assert path[d..] == "." + e;
    assert path[d] == '.';
    forall j | d < j < |path| ensures path[j] != '.' {
      assert path[j] == path[d..][j - d] == e[j - d - 1];
    }
    LastDotAt(path, d);
    assert path[d + 1..] == path[d..][1..];
  }

  /** Static files are recognised by their lower-case extension. */
  lemma StaticFileExamples()
    ensures IsStaticFile("/app/logo.png")
    ensures IsStaticFile("/static/font.woff2")
  {
    assert HasSuffix("/app/logo.png", "." + StaticExtensions[3]);
    assert HasSuffix("/static/font.woff2", "." + StaticExtensions[13]);
  }

  /** The match is case-sensitive: an upper-case extension is not static. */
  lemma UpperCaseIsNotStatic()
    ensures !IsStaticFile("/app/logo.PNG")
  {
    LastDotAt("/app/logo.PNG", 9);
    assert "PNG" !in StaticExtensions;
    assert "/app/logo.PNG"[10..] == "PNG";
  }

  /** A page is not a static file. */
  lemma PageIsNotStatic()
    ensures !IsStaticFile("/app/page.html")
  {
    LastDotAt("/app/page.html", 9);
    assert "html" !in StaticExtensions;
    assert "/app/page.html"[10..] == "html";
  }

  /** `findRouteByReferer`'s test: equal to the route path, or below it. */
  predicate RefererMatches(routePath: string, refererPath: string) {
    (routePath + "/") <= refererPath || refererPath == routePath
  }

  /** The loop of `findRouteByReferer` from index `from` on. */
  function FirstRefererMatch(routes: seq<RouteConfig>, refererPath: string, from: nat): (r: Option<nat>)
    requires from <= |routes|
    ensures r.Some? ==> from <= r.value < |routes| && RefererMatches(routes[r.value].path, refererPath)
    ensures r.Some? ==> forall j :: from <= j < r.value ==> !RefererMatches(routes[j].path, refererPath)
    ensures r.None? ==> forall j :: from <= j < |routes| ==> !RefererMatches(routes[j].path, refererPath)
    decreases |routes| - from
  {
    if from == |routes| then None
    else if RefererMatches(routes[from].path, refererPath) then Some(from)
    else FirstRefererMatch(routes, refererPath, from + 1)
  }

  /** `findRouteByReferer`: the index of the FIRST route in table order that
      the Referer's path falls under; none when the header is empty or does
      not parse. */
  function FindRouteByReferer(routes: seq<RouteConfig>, referer: string, parse: UrlParser): (r: Option<nat>)
    ensures referer == "" || parse(referer).None? ==> r.None?
    ensures r.Some? ==> r.value < |routes| && RefererMatches(routes[r.value].path, parse(referer).value.path)
    ensures r.Some? ==> forall j :: 0 <= j < r.value ==> !RefererMatches(routes[j].path, parse(referer).value.path)
    ensures r.None? && referer != "" && parse(referer).Some? ==>
              forall j :: 0 <= j < |routes| ==> !RefererMatches(routes[j].path, parse(referer).value.path)
  {
    if referer == "" then None
    else
      match parse(referer)
      case None => None
      case Some(u) => FirstRefererMatch(routes, u.path, 0)
  }

  /** A route path that `findRouteByPathPrefix` can pick for `path`. */
  predicate LooseMatch(routePath: string, path: string) {
    routePath <= path && |routePath| > 0
  }

  /** The state of `findRouteByPathPrefix`'s loop after the routes before
      index `i`: the best match so far and what it beats. */
  ghost predicate PrefixScanState(routes: seq<RouteConfig>, path: string, i: nat, best: Option<nat>) {
    && i <= |routes|
    && (best.None? ==> forall j :: 0 <= j < i ==> !LooseMatch(routes[j].path, path))
    && (best.Some? ==>
          && best.value < i
          && LooseMatch(routes[best.value].path, path)
          && (forall j :: 0 <= j < i && routes[j].path <= path ==> |routes[j].path| <= |routes[best.value].path|)
          && (forall j :: 0 <= j < best.value && routes[j].path <= path ==>
                |routes[j].path| < |routes[best.value].path|))
  }

  /** The loop of `findRouteByPathPrefix`, one route per step: a route
      replaces the current best only when it is strictly longer than
      `maxLen`, the length of the best so far. */
  function PrefixScan(routes: seq<RouteConfig>, path: string, i: nat, best: Option<nat>, maxLen: nat): (r: Option<nat>)
    requires PrefixScanState(routes, path, i, best)
    requires maxLen == if best.Some? then |routes[best.value].path| else 0
    ensures PrefixScanState(routes, path, |routes|, r)
    decreases |routes| - i
  {
    if i == |routes| then best
    else if routes[i].path <= path && |routes[i].path| > maxLen then
      PrefixScan(routes, path, i + 1, Some(i), |routes[i].path|)
    else
      PrefixScan(routes, path, i + 1, best, maxLen)
  }

  /** `findRouteByPathPrefix`: the longest route path that is a plain string
      prefix of `path` (no "/" boundary); ties go to the earliest route, and
      a route with an empty path is never chosen. */
  function FindRouteByPathPrefix(routes: seq<RouteConfig>, path: string): (r: Option<nat>)
    ensures r.Some? ==> r.value < |routes| && routes[r.value].path <= path && routes[r.value].path != ""
    ensures r.Some? ==> forall j :: 0 <= j < |routes| && routes[j].path <= path ==>
                          |routes[j].path| <= |routes[r.value].path|
    ensures r.Some? ==> forall j :: 0 <= j < r.value && routes[j].path <= path ==>
                          |routes[j].path| < |routes[r.value].path|
    ensures r.None? <==> forall j :: 0 <= j < |routes| && routes[j].path <= path ==> routes[j].path == ""
  {
    PrefixScan(routes, path, 0, None, 0)
  }

  /** How the middleware found the route that governs a request. */
  datatype Resolution =
    | Direct(route: RouteConfig)
    | ByReferer(route: RouteConfig)
    | ByPathPrefix(route: RouteConfig)
    | FirstRoute(route: RouteConfig)
    | NoRoute

  /** The fallback chain of the handler: direct lookup, then Referer, then
      loose prefix, then the first configured route. */
  function Resolve(pm: ProxyManager, r: Request, parse: UrlParser): (res: Resolution)
    requires pm.Valid()
    ensures res.Direct? <==> r.url.path in pm.direct
    ensures res.Direct? ==> res.route == pm.direct[r.url.path]
    ensures res.ByReferer? <==>
              r.url.path !in pm.direct && FindRouteByReferer(pm.routes, Header(r.headers, "Referer"), parse).Some?
    ensures res.ByReferer? ==>
              res.route == pm.routes[FindRouteByReferer(pm.routes, Header(r.headers, "Referer"), parse).value]
    ensures res.ByPathPrefix? <==>
              && r.url.path !in pm.direct
              && FindRouteByReferer(pm.routes, Header(r.headers, "Referer"), parse).None?
              && FindRouteByPathPrefix(pm.routes, r.url.path).Some?
    ensures res.ByPathPrefix? ==> res.route == pm.routes[FindRouteByPathPrefix(pm.routes, r.url.path).value]
    ensures res.FirstRoute? <==>
              && r.url.path !in pm.direct
              && FindRouteByReferer(pm.routes, Header(r.headers, "Referer"), parse).None?
              && FindRouteByPathPrefix(pm.routes, r.url.path).None?
              && |pm.routes| > 0
    ensures res.FirstRoute? ==> res.route == pm.routes[0]
    ensures res.NoRoute? <==> r.url.path !in pm.direct && |pm.routes| == 0
    ensures !res.NoRoute? ==> res.route in pm.routes
  {
    if r.url.path in pm.direct then Direct(pm.direct[r.url.path])
    else
      match FindRouteByReferer(pm.routes, Header(r.headers, "Referer"), parse)
      case Some(i) => ByReferer(pm.routes[i])
      case None =>
        match FindRouteByPathPrefix(pm.routes, r.url.path)
        case Some(i) => ByPathPrefix(pm.routes[i])
        case None =>
          if |pm.routes| > 0 then FirstRoute(pm.routes[0]) else NoRoute
  }

  /** The path a skip-auth route forwards: the route prefix is removed only
      when the path continues below it with "/", so the result then starts
      with "/"; a path equal to the route path, or not under it, is kept. */
  function StripRoutePrefix(path: string, routePath: string): (p: string)
    ensures (routePath + "/") <= path ==> routePath + p == path && |p| > 0 && p[0] == '/'
    ensures !((routePath + "/") <= path) ==> p == path
  {
    if (routePath + "/") <= path then
      var trimmed := TrimPrefix(path, routePath);
      assert routePath <= path by {
        assert path[..|routePath|] == (routePath + "/")[..|routePath|];
      }
      assert trimmed[0] == path[|routePath|] == '/';
      if trimmed == "" then "/" else trimmed
    else path
  }

  /** With `/app` listed before `/app/admin`, a Referer under `/app/admin`
      picks `/app` (first match in table order), while the loose prefix
      finder picks `/app/admin` (longest match). */
  lemma RefererFirstMatchPrefixLongest(parse: UrlParser, referer: string)
    requires referer != "" && parse(referer).Some? && parse(referer).value.path == "/app/admin/x"
    ensures var routes := [RouteConfig("app", "/app", "http://a", false),
                           RouteConfig("admin", "/app/admin", "http://b", false)];
            && FindRouteByReferer(routes, referer, parse) == Some(0)
            && FindRouteByPathPrefix(routes, "/app/admin/x") == Some(1)
  {
    var routes := [RouteConfig("app", "/app", "http://a", false),
                   RouteConfig("admin", "/app/admin", "http://b", false)];
    assert ("/app" + "/") <= "/app/admin/x";
    assert RefererMatches(routes[0].path, "/app/admin/x");
    assert routes[1].path <= "/app/admin/x";
    assert routes[0].path <= "/app/admin/x";
  }

  /** With an empty Referer, no direct entry and no route path that
      prefixes the request path, the first configured route governs. */
  lemma FallbackToFirstRoute(pm: ProxyManager, r: Request, parse: UrlParser)
    requires pm.Valid() && |pm.routes| > 0
    requires r.url.path !in pm.direct && Header(r.headers, "Referer") == ""
    requires forall j :: 0 <= j < |pm.routes| ==> !(pm.routes[j].path <= r.url.path) || pm.routes[j].path == ""
    ensures Resolve(pm, r, parse) == FirstRoute(pm.routes[0])
  {
  }
}
