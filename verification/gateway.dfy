/** The two request handlers of the gateway's entry point (main.go): the
    `/logout` closure and the catch-all `/` handler. */
module Gateway {
  import opened Wrappers
  import opened Strings
  import opened Http
  import opened Models
  import opened Routing
  import opened AuthMiddleware

  /** The service the logout redirect names: the Origin header, else the
      Referer header, else `scheme://Host` of this request. */
  function LogoutService(r: Request): (s: string)
    ensures Header(r.headers, "Origin") != "" ==> s == Header(r.headers, "Origin")
    ensures Header(r.headers, "Origin") == "" && Header(r.headers, "Referer") != "" ==>
              s == Header(r.headers, "Referer")
    ensures Header(r.headers, "Origin") == "" && Header(r.headers, "Referer") == "" ==>
              s == Scheme(r) + "://" + r.host
  {
    var origin := Header(r.headers, "Origin");
    if origin != "" then origin
    else
      var referer := Header(r.headers, "Referer");
      if referer != "" then referer else Scheme(r) + "://" + r.host
  }

  const ServiceMarker: string := "?service="

  /** The first submatch of `\?service=(.*)`: what follows the leftmost
      "?service=", up to a line feed, which `.` does not match. */
  function ServiceSubmatch(s: string): (m: Option<string>)
    ensures m.None? <==> forall i :: 0 <= i <= |s| ==> !OccursAt(s, ServiceMarker, i)
    ensures m.Some? ==>
              var i := IndexOf(s, ServiceMarker).value;
              && s[..i] + ServiceMarker + m.value <= s
              && forall j :: 0 <= j < i ==> !OccursAt(s, ServiceMarker, j)
    ensures m.Some? ==> forall j :: 0 <= j < |m.value| ==> m.value[j] != '\n'
    ensures m.Some? ==>
              var end := IndexOf(s, ServiceMarker).value + |ServiceMarker| + |m.value|;
              end == |s| || s[end] == '\n'
  {
    match IndexOf(s, ServiceMarker)
    case None => None
    case Some(i) =>
      var rest := s[i + |ServiceMarker|..];
      var m := TakeLine(rest);
      assert s == s[..i] + ServiceMarker + rest by {
        assert s[i..i + |ServiceMarker|] == ServiceMarker;
      }
      assert |m| < |rest| ==> s[i + |ServiceMarker| + |m|] == rest[|m|];
      Some(m)
  }

  /** An Origin or Referer value that embeds a `service` parameter is
      replaced by that parameter's raw value. */
  function UnwrapService(s: string): (r: string)
    ensures ServiceSubmatch(s).None? ==> r == s
    ensures ServiceSubmatch(s).Some? ==> s[..IndexOf(s, ServiceMarker).value] + ServiceMarker + r <= s
  {
    match ServiceSubmatch(s)
    case None => s
    case Some(m) => m
  }

  /** Header values hold no line feed, and for them the submatch is
      everything after the first "?service=". */
  lemma {:induction false} UnwrapServiceTakesRest(s: string)
    requires forall j :: 0 <= j < |s| ==> s[j] != '\n'
    requires ServiceSubmatch(s).Some?
    ensures s == s[..IndexOf(s, ServiceMarker).value] + ServiceMarker + UnwrapService(s)
  {
    var i := IndexOf(s, ServiceMarker).value;
    var rest := s[i + |ServiceMarker|..];
    assert s == s[..i] + ServiceMarker + rest by {
      assert s[i..i + |ServiceMarker|] == ServiceMarker;
    }
    var m := UnwrapService(s);
    assert m == TakeLine(rest);
  }

  const LogoutPath: string := "/cas2/logout?service="

  /** The CAS logout URL: the service is appended as it is, without any
      URL encoding — the embedded `service` value when the chosen header
      carries one, the chosen value itself otherwise. */
  function LogoutUrl(casBaseUrl: string, r: Request): (u: string)
    ensures ServiceSubmatch(LogoutService(r)).None? ==> u == casBaseUrl + LogoutPath + LogoutService(r)
    ensures ServiceSubmatch(LogoutService(r)).Some? ==>
              u == casBaseUrl + LogoutPath + ServiceSubmatch(LogoutService(r)).value
  {
    casBaseUrl + LogoutPath + UnwrapService(LogoutService(r))
  }

  /** What the logout endpoint does, in order. */
  datatype Effect = WriteCookie(session: Session) | Redirect(location: string)

  /** The `/logout` closure: the session is cleared and written first, then
      the browser is sent to the CAS server's own logout page. */
  function LogoutHandler(casBaseUrl: string, r: Request): (effects: seq<Effect>)
    ensures |effects| == 2
    ensures effects[0].WriteCookie? && effects[0].session.values == map[] && effects[0].session.maxAge == -1
    ensures effects[1].Redirect?
    ensures effects[1].location == casBaseUrl + LogoutPath + UnwrapService(LogoutService(r))
  {
    [WriteCookie(Logout(LoadSession(r.cookie))), Redirect(LogoutUrl(casBaseUrl, r))]
  }

  /** With no "?" before it, the marker after `pre` is the leftmost one. */
  lemma MarkerAfterPrefix(pre: string, target: string)
    requires forall j :: 0 <= j < |pre| ==> pre[j] != '?'
    ensures IndexOf(pre + ServiceMarker + target, ServiceMarker) == Some(|pre|)
  {
    var s := pre + ServiceMarker + target;
    assert s[|pre|..|pre| + |ServiceMarker|] == ServiceMarker;
    forall j | 0 <= j < |pre| ensures !OccursAt(s, ServiceMarker, j) {
      assert s[j] == pre[j];
    }
    assert OccursAt(s, ServiceMarker, |pre|);
    var r := IndexOf(s, ServiceMarker);
    assert r.Some? && r.value <= |pre|;
  }

  lemma NoLineFeed(pre: string, target: string)
    requires forall j :: 0 <= j < |pre| ==> pre[j] != '\n'
    requires forall j :: 0 <= j < |target| ==> target[j] != '\n'
    ensures forall j :: 0 <= j < |pre + ServiceMarker + target| ==> (pre + ServiceMarker + target)[j] != '\n'
  {
    var s := pre + ServiceMarker + target;
    forall j | 0 <= j < |s| ensures s[j] != '\n' {
      if j < |pre| { assert s[j] == pre[j]; }
      else if j < |pre| + |ServiceMarker| { assert s[j] == ServiceMarker[j - |pre|]; }
      else { assert s[j] == target[j - |pre| - |ServiceMarker|]; }
    }
  }

  /** A Referer of the form `pre?service=target`, with no "?" before the
      marker, hands `target` on to CAS unencoded. */
  lemma LogoutPassesEmbeddedService(casBaseUrl: string, r: Request, pre: string, target: string)
    requires Header(r.headers, "Origin") == ""
    requires Header(r.headers, "Referer") == pre + ServiceMarker + target
    requires forall j :: 0 <= j < |pre| ==> pre[j] != '?' && pre[j] != '\n'
    requires forall j :: 0 <= j < |target| ==> target[j] != '\n'
    ensures LogoutUrl(casBaseUrl, r) == casBaseUrl + LogoutPath + target
  {
    var s := pre + ServiceMarker + target;
    assert LogoutService(r) == s;
    MarkerAfterPrefix(pre, target);
    NoLineFeed(pre, target);
    UnwrapServiceTakesRest(s);
    assert s[..|pre|] == pre;
    assert UnwrapService(s) == target;
  }

  /** What the catch-all `/` handler does with a request that reached it. */
  datatype Fallback = EmptyResponse | FallbackNotFound | ForwardUnstripped(route: RouteConfig)

  /** The catch-all handler: the operational paths get an empty response,
      a path the direct lookup does not know gets 404, and otherwise the
      request goes to that route's proxy with its path unchanged. */
  function CatchAll(pm: ProxyManager, r: Request): (f: Fallback)
    requires pm.Valid()
    ensures IsBypassPath(r.url.path) <==> f.EmptyResponse?
    ensures !IsBypassPath(r.url.path) && r.url.path !in pm.direct ==> f.FallbackNotFound?
    ensures f.ForwardUnstripped? <==>
              !IsBypassPath(r.url.path) && r.url.path in pm.direct && pm.direct[r.url.path].path in pm.proxies
    ensures f.ForwardUnstripped? ==> f.route == pm.direct[r.url.path] && f.route in pm.routes
  {
    if IsBypassPath(r.url.path) then EmptyResponse
    else if r.url.path !in pm.direct then FallbackNotFound
    else
      var route := pm.direct[r.url.path];
      if route.path !in pm.proxies then FallbackNotFound else ForwardUnstripped(route)
  }
}
