/** The per-request decision of the authentication middleware
    (middleware/auth.go): bypass paths, route resolution, static files,
    skip-auth routes, the session check, the CAS ticket callback and the
    login redirect. The decision is a value; the response writing, proxying
    and logging it triggers are left to the transport. */
module AuthMiddleware {
  import opened Wrappers
  import opened QueryParams
  import opened Http
  import opened Models
  import opened CasTypes
  import opened CasProvider
  import opened Routing

  /** Session value keys. */
  const UserKey: string := "user"
  const IsAuthenticatedKey: string := "authenticated"
  const EmployeeNameKey: string := "employeeName"

  /** What the middleware needs from outside: URL parsing, the CAS
      server's reply to a validation request, and whether the cookie store
      manages to encode and write a session (`session.Save` succeeding). */
  datatype Env = Env(parse: UrlParser, fetch: Fetcher, cookieFits: Session -> bool)

  datatype Action =
    | PassToNext                                        // next.ServeHTTP(w, r), request untouched
    | ForwardFullPath(route: RouteConfig)               // the route's proxy, path not stripped
    | ForwardStripped(route: RouteConfig, path: string) // the route's proxy, with the rewritten path
    | ForwardAuthenticated(headers: Headers)            // next.ServeHTTP with identity headers set
    | RedirectClean(url: Url, session: Session)         // 302 after a validated ticket, cookie saved
    | RedirectLogin(location: Location)                 // 302 to the CAS login page
    | NotFound                                          // http.NotFound

  /** The two operational endpoints the middleware never touches. */
  predicate IsBypassPath(path: string) {
    path == "/health" || path == "/logout"
  }

  /** `session.Values["authenticated"].(bool)` is present and true. */
  predicate IsAuthenticated(s: Session) {
    IsAuthenticatedKey in s.values && s.values[IsAuthenticatedKey] == BoolValue(true)
  }

  /** `GetUser`: the session's `user` value when it is a string, else "". */
  function GetUser(s: Session): (u: string)
    ensures u != "" ==> UserKey in s.values && s.values[UserKey] == StringValue(u)
    ensures UserKey in s.values && s.values[UserKey].StringValue? ==> u == s.values[UserKey].s
  {
    if UserKey in s.values && s.values[UserKey].StringValue? then s.values[UserKey].s else ""
  }

  /** The session's `employeeName` value when it is a non-empty string. */
  function EmployeeName(s: Session): (e: Option<string>)
    ensures e.Some? <==> EmployeeNameKey in s.values && s.values[EmployeeNameKey].StringValue?
                         && s.values[EmployeeNameKey].s != ""
    ensures e.Some? ==> e.value == s.values[EmployeeNameKey].s
  {
    if EmployeeNameKey in s.values && s.values[EmployeeNameKey].StringValue? && s.values[EmployeeNameKey].s != ""
    then Some(s.values[EmployeeNameKey].s) else None
  }

  /** The headers of an authenticated request: `X-User` is set to the
      session user and `X-Employee-Name` to the employee name, both only when
      the user is non-empty; every other header is kept. */
  function IdentityHeaders(h: Headers, s: Session): (r: Headers)
    ensures GetUser(s) == "" ==> r == h
    ensures GetUser(s) != "" ==> "X-User" in r && r["X-User"] == GetUser(s)
    ensures GetUser(s) != "" && EmployeeName(s).Some? ==>
              "X-Employee-Name" in r && r["X-Employee-Name"] == EmployeeName(s).value
    ensures EmployeeName(s).None? ==>
              ("X-Employee-Name" in r <==> "X-Employee-Name" in h)
              && ("X-Employee-Name" in h ==> r["X-Employee-Name"] == h["X-Employee-Name"])
    ensures forall k :: k != "X-User" && k != "X-Employee-Name" ==>
              (k in r <==> k in h) && (k in h ==> r[k] == h[k])
  {
    var user := GetUser(s);
    if user == "" then h
    else
      var h' := h["X-User" := user];
      match EmployeeName(s)
      case Some(e) => h'["X-Employee-Name" := e]
      case None => h'
  }

  /** The session written after a validated ticket: `user` is the identity,
      `authenticated` is true, `employeeName` is written only when non-empty,
      and every other value is kept. */
  function Establish(s: Session, info: UserInfo): (s': Session)
    ensures s'.maxAge == s.maxAge
    ensures UserKey in s'.values && s'.values[UserKey] == StringValue(info.oaid)
    ensures IsAuthenticated(s')
    ensures info.employeeName != "" ==>
              EmployeeNameKey in s'.values && s'.values[EmployeeNameKey] == StringValue(info.employeeName)
    ensures info.employeeName == "" ==>
              (EmployeeNameKey in s'.values <==> EmployeeNameKey in s.values)
              && (EmployeeNameKey in s.values ==> s'.values[EmployeeNameKey] == s.values[EmployeeNameKey])
    ensures forall k :: k != UserKey && k != IsAuthenticatedKey && k != EmployeeNameKey ==>
              (k in s'.values <==> k in s.values) && (k in s.values ==> s'.values[k] == s.values[k])
  {
    var vs := s.values[UserKey := StringValue(info.oaid)];
    var vs' := if info.employeeName != "" then vs[EmployeeNameKey := StringValue(info.employeeName)] else vs;
    Session(vs'[IsAuthenticatedKey := BoolValue(true)], s.maxAge)
  }

  /** The redirect target after a validated ticket: the request URL with
      every `ticket` parameter deleted and all other parameters kept. */
  function CleanUrl(u: Url): (r: Url)
    ensures r.scheme == u.scheme && r.host == u.host && r.path == u.path
    ensures ValuesOf(r.query, "ticket") == []
    ensures !IsLoginPath(Some(r))
    ensures forall k :: k != "ticket" ==> ValuesOf(r.query, k) == ValuesOf(u.query, k)
  {
    DelValues(u.query, "ticket");
    u.(query := Del(u.query, "ticket"))
  }

  /** `Logout`: all session values removed and the cookie expired. */
  function Logout(s: Session): (s': Session)
    ensures s'.values == map[] && s'.maxAge == -1
    ensures !IsAuthenticated(s') && GetUser(s') == ""
  {
    Session(map[], -1)
  }

  /** The login redirect: to CAS login, with the service URL built from the path. */
  function LoginRedirect(cas: CasProvider, env: Env, r: Request): (a: Action)
    ensures a.RedirectLogin?
    ensures a.location == GetLoginUrl(cas, BuildServiceUrl(r, r.url.path), env.parse)
  {
    RedirectLogin(GetLoginUrl(cas, BuildServiceUrl(r, r.url.path), env.parse))
  }

  /** The ticket callback, falling back to the login redirect: a request
      carrying a ticket is validated; on success the session is saved and
      the browser sent back to the clean URL, and any failure on the way
      ends in the login redirect. */
  function Callback(cas: CasProvider, env: Env, r: Request, s: Session): (a: Action)
    ensures a.RedirectClean? || a == LoginRedirect(cas, env, r)
    ensures a.RedirectClean? <==>
              && IsLoginPath(Some(r.url))
              && var v := ValidateTicket(cas, Get(r.url.query, "ticket"), BuildServiceUrl(r, r.url.path),
                                         env.parse, env.fetch);
                 v.Success? && env.cookieFits(Establish(s, v.value))
    ensures a.RedirectClean? ==>
              var v := ValidateTicket(cas, Get(r.url.query, "ticket"), BuildServiceUrl(r, r.url.path),
                                      env.parse, env.fetch);
              a.url == CleanUrl(r.url) && a.session == Establish(s, v.value)
  {
    if IsLoginPath(Some(r.url)) then
      match ExtractTicket(Some(r.url))
      case Failure(_) => LoginRedirect(cas, env, r)
      case Success(ticket) =>
        match ValidateTicket(cas, ticket, BuildServiceUrl(r, r.url.path), env.parse, env.fetch)
        case Failure(_) => LoginRedirect(cas, env, r)
        case Success(info) =>
          var s' := Establish(s, info);
          if env.cookieFits(s') then RedirectClean(CleanUrl(r.url), s') else LoginRedirect(cas, env, r)
    else LoginRedirect(cas, env, r)
  }

  /** The session check, callback and login redirect of a protected route. */
  function Authenticate(cas: CasProvider, env: Env, r: Request): (a: Action)
    ensures IsAuthenticated(LoadSession(r.cookie)) <==> a.ForwardAuthenticated?
    ensures a.ForwardAuthenticated? ==> a.headers == IdentityHeaders(r.headers, LoadSession(r.cookie))
    ensures !a.ForwardAuthenticated? ==> a == Callback(cas, env, r, LoadSession(r.cookie))
  {
    var session := LoadSession(r.cookie);
    if IsAuthenticated(session) then ForwardAuthenticated(IdentityHeaders(r.headers, session))
    else Callback(cas, env, r, session)
  }

  /** Static files, then skip-auth routes, then authentication, once the
      route is known. */
  function Dispatch(pm: ProxyManager, cas: CasProvider, env: Env, r: Request, route: RouteConfig): (a: Action)
    ensures IsStaticFile(r.url.path) ==> a == (if route.path in pm.proxies then ForwardFullPath(route) else NotFound)
    ensures !IsStaticFile(r.url.path) && route.skipAuth ==>
              a == (if route.path in pm.proxies then ForwardStripped(route, StripRoutePrefix(r.url.path, route.path))
                    else NotFound)
    ensures !IsStaticFile(r.url.path) && !route.skipAuth ==> a == Authenticate(cas, env, r)
  {
    if IsStaticFile(r.url.path) then
      if route.path in pm.proxies then ForwardFullPath(route) else NotFound
    else if route.skipAuth then
      if route.path in pm.proxies then ForwardStripped(route, StripRoutePrefix(r.url.path, route.path)) else NotFound
    else Authenticate(cas, env, r)
  }

  /** `Handler`: the whole per-request decision. */
  function Handle(pm: ProxyManager, cas: CasProvider, env: Env, r: Request): (a: Action)
    requires pm.Valid()
    ensures IsBypassPath(r.url.path) ==> a == PassToNext
    ensures a == PassToNext <==>
              IsBypassPath(r.url.path) || (r.url.path !in pm.direct && |pm.routes| == 0)
    ensures !IsBypassPath(r.url.path) && !Resolve(pm, r, env.parse).NoRoute? ==>
              a == Dispatch(pm, cas, env, r, Resolve(pm, r, env.parse).route)
    ensures a.ForwardFullPath? ==> IsStaticFile(r.url.path) && a.route in pm.routes
    ensures a.ForwardStripped? ==>
              && !IsStaticFile(r.url.path) && a.route.skipAuth && a.route in pm.routes
              && ((a.route.path + "/") <= r.url.path ==> a.route.path + a.path == r.url.path && a.path[0] == '/')
              && (!((a.route.path + "/") <= r.url.path) ==> a.path == r.url.path)
    ensures a.NotFound? ==> Resolve(pm, r, env.parse).route.path !in pm.proxies
    ensures a.ForwardAuthenticated? ==> IsAuthenticated(LoadSession(r.cookie))
    ensures a.RedirectClean? ==>
              && IsLoginPath(Some(r.url)) && !IsAuthenticated(LoadSession(r.cookie))
              && ValuesOf(a.url.query, "ticket") == [] && a.url.path == r.url.path
              && IsAuthenticated(a.session)
              && var v := ValidateTicket(cas, Get(r.url.query, "ticket"), BuildServiceUrl(r, r.url.path),
                                         env.parse, env.fetch);
                 v.Success? && GetUser(a.session) == v.value.oaid
    ensures a.RedirectClean? && !cas.useJson ==> GetUser(a.session) != ""
    ensures a.RedirectLogin? ==> a == LoginRedirect(cas, env, r)
  {
    if IsBypassPath(r.url.path) then PassToNext
    else
      var res := Resolve(pm, r, env.parse);
      if res.NoRoute? then PassToNext
      else Dispatch(pm, cas, env, r, res.route)
  }

  /** Static files and skip-auth routes never consult the session: the
      decision is the same whatever cookie the request carries. */
  lemma SessionIrrelevantWithoutAuth(pm: ProxyManager, cas: CasProvider, env: Env, r: Request, c: Cookie)
    requires pm.Valid()
    requires !IsBypassPath(r.url.path) && !Resolve(pm, r, env.parse).NoRoute?
    requires IsStaticFile(r.url.path) || Resolve(pm, r, env.parse).route.skipAuth
    ensures Handle(pm, cas, env, r.(cookie := c)) == Handle(pm, cas, env, r)
    ensures !Handle(pm, cas, env, r).RedirectLogin? && !Handle(pm, cas, env, r).RedirectClean?
  {
    assert Resolve(pm, r.(cookie := c), env.parse) == Resolve(pm, r, env.parse);
  }

  /** The service URL reads the connection, host and headers only. */
  lemma SameServiceUrl(r1: Request, r2: Request)
    requires r1.(cookie := NoCookie) == r2.(cookie := NoCookie)
    ensures BuildServiceUrl(r1, r1.url.path) == BuildServiceUrl(r2, r2.url.path)
  {
    assert r1.url == r2.url && r1.headers == r2.headers && r1.tls == r2.tls && r1.host == r2.host;
    assert Scheme(r1) == Scheme(r2) && ServiceHost(r1) == ServiceHost(r2);
  }

  /** Below the route decision, the cookie matters only through the
      session it decodes to. */
  lemma SameSessionSameAuthenticate(cas: CasProvider, env: Env, r1: Request, r2: Request)
    requires r1.(cookie := NoCookie) == r2.(cookie := NoCookie)
    requires LoadSession(r1.cookie) == LoadSession(r2.cookie)
    ensures Authenticate(cas, env, r1) == Authenticate(cas, env, r2)
  {
    assert r1.url == r2.url && r1.headers == r2.headers;
    SameServiceUrl(r1, r2);
    assert LoginRedirect(cas, env, r1) == LoginRedirect(cas, env, r2);
    assert Callback(cas, env, r1, LoadSession(r1.cookie)) == Callback(cas, env, r2, LoadSession(r2.cookie));
  }

  /** The cookie matters only through the session it decodes to. */
  lemma SameSessionSameDecision(pm: ProxyManager, cas: CasProvider, env: Env, r1: Request, r2: Request)
    requires pm.Valid()
    requires r1.(cookie := NoCookie) == r2.(cookie := NoCookie)
    requires LoadSession(r1.cookie) == LoadSession(r2.cookie)
    ensures Handle(pm, cas, env, r1) == Handle(pm, cas, env, r2)
  {
    assert r1.url == r2.url && r1.headers == r2.headers;
    var res := Resolve(pm, r1, env.parse);
    assert Resolve(pm, r2, env.parse) == res;
    if !IsBypassPath(r1.url.path) && !res.NoRoute? {
      SameSessionSameAuthenticate(cas, env, r1, r2);
      assert Dispatch(pm, cas, env, r1, res.route) == Dispatch(pm, cas, env, r2, res.route);
    }
  }

  /** A cookie that fails to decode is treated exactly like no cookie. */
  lemma CorruptCookieIsNoCookie(pm: ProxyManager, cas: CasProvider, env: Env, r: Request)
    requires pm.Valid()
    ensures Handle(pm, cas, env, r.(cookie := CorruptCookie)) == Handle(pm, cas, env, r.(cookie := NoCookie))
  {
    SameSessionSameDecision(pm, cas, env, r.(cookie := CorruptCookie), r.(cookie := NoCookie));
  }

  /** Replaying the cookie written by logout behaves like a first visit. */
  lemma LogoutReplayIsFirstVisit(pm: ProxyManager, cas: CasProvider, env: Env, r: Request, s: Session)
    requires pm.Valid()
    ensures Handle(pm, cas, env, r.(cookie := SessionCookie(Logout(s).values)))
         == Handle(pm, cas, env, r.(cookie := NoCookie))
  {
    SameSessionSameDecision(pm, cas, env, r.(cookie := SessionCookie(Logout(s).values)), r.(cookie := NoCookie));
  }

  /** Logout does not revoke a session: the session lives entirely in the
      client's cookie, so an authenticated cookie captured before logout is
      still forwarded as authenticated on a protected route, whatever
      happened since. */
  lemma PreLogoutCookieStillAuthenticates(pm: ProxyManager, cas: CasProvider, env: Env, r: Request, s: Session)
    requires pm.Valid()
    requires IsAuthenticated(s)
    requires !IsBypassPath(r.url.path) && !IsStaticFile(r.url.path)
    requires !Resolve(pm, r, env.parse).NoRoute? && !Resolve(pm, r, env.parse).route.skipAuth
    ensures var a := Handle(pm, cas, env, r.(cookie := SessionCookie(s.values)));
            && a.ForwardAuthenticated?
            && (GetUser(s) != "" ==> "X-User" in a.headers && a.headers["X-User"] == GetUser(s))
  {
    var r' := r.(cookie := SessionCookie(s.values));
    assert Resolve(pm, r', env.parse) == Resolve(pm, r, env.parse);
    assert GetUser(LoadSession(r'.cookie)) == GetUser(s);
  }

  /** The login round trip: after the clean redirect that follows a
      validated ticket, the browser's next request — the clean URL with the
      saved session cookie — is forwarded as authenticated. `X-User` is set
      to the identity CAS returned whenever that identity is non-empty,
      which the XML path guarantees; with an empty identity (possible on the
      JSON path) the client's own headers pass unchanged. */
  lemma LoginThenAuthenticated(pm: ProxyManager, cas: CasProvider, env: Env, r: Request)
    requires pm.Valid()
    requires Handle(pm, cas, env, r).RedirectClean?
    ensures var a := Handle(pm, cas, env, r);
            var next := Handle(pm, cas, env, r.(url := a.url, cookie := SessionCookie(a.session.values)));
            && next.ForwardAuthenticated?
            && (GetUser(a.session) != "" ==> "X-User" in next.headers && next.headers["X-User"] == GetUser(a.session))
            && (GetUser(a.session) == "" ==> next.headers == r.headers)
            && (!cas.useJson ==> GetUser(a.session) != "")
  {
    var a := Handle(pm, cas, env, r);
    var r2 := r.(url := a.url, cookie := SessionCookie(a.session.values));
    assert r2.url.path == r.url.path;
    var res := Resolve(pm, r, env.parse);
    assert Resolve(pm, r2, env.parse) == res;
    assert !IsStaticFile(r.url.path) && !res.route.skipAuth;
    assert LoadSession(r2.cookie).values == a.session.values;
    assert IsAuthenticated(LoadSession(r2.cookie));
  }

  /** A CAS reply that decodes neither as JSON nor as XML never
      authenticates anyone: a protected request then either already has a
      session or is sent to the login page. */
  lemma MalformedReplyRedirectsToLogin(cas: CasProvider, env: Env, r: Request)
    requires forall u :: env.fetch(u) == Received(None, None)
    ensures var a := Authenticate(cas, env, r);
            a.ForwardAuthenticated? || a == LoginRedirect(cas, env, r)
  {
    var s := LoadSession(r.cookie);
    var v := ValidateTicket(cas, Get(r.url.query, "ticket"), BuildServiceUrl(r, r.url.path), env.parse, env.fetch);
    match ValidationUrl(cas, Get(r.url.query, "ticket"), BuildServiceUrl(r, r.url.path), env.parse)
    case Failure(_) =>
    case Success(u) =>
      assert env.fetch(u) == Received(None, None);
  }

  /** The service URL the callback validates is the one the login redirect
      sent to CAS: CAS sends the browser back to that URL with a `ticket`
      parameter added, and the service URL does not depend on the query. */
  lemma CallbackValidatesLoginService(cas: CasProvider, env: Env, r: Request, ticket: string)
    requires LoginRedirect(cas, env, r).location.Structured?
    ensures var login := LoginRedirect(cas, env, r).location.url;
            var back := r.(url := r.url.(query := r.url.query + [Param("ticket", ticket)]));
            var v := ValidationUrl(cas, ticket, BuildServiceUrl(back, back.url.path), env.parse);
            v.Success? ==> ValuesOf(v.value.query, "service") == ValuesOf(login.query, "service")
  {
  }

  /** Why an empty identity matters: a session established for the identity
      "" is authenticated, yet the gateway then sets no identity header, so
      an `X-User` header sent by the client reaches the backend unchanged. */
  lemma EmptyIdentityKeepsClientHeader(s: Session, employeeName: string, h: Headers)
    requires "X-User" in h
    ensures IsAuthenticated(Establish(s, UserInfo("", employeeName, map[])))
    ensures var out := IdentityHeaders(h, Establish(s, UserInfo("", employeeName, map[])));
            "X-User" in out && out["X-User"] == h["X-User"]
  {
    assert GetUser(Establish(s, UserInfo("", employeeName, map[]))) == "";
  }
}
