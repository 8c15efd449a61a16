/** The parts of an HTTP request the gateway's decisions read, and the
    session carried in its signed cookie. */
module Http {
  import opened Wrappers
  import opened QueryParams

  /** A parsed URL (`net/url.URL`) reduced to the fields the gateway uses. */
  datatype Url = Url(scheme: string, host: string, path: string, query: Query)

  /** `net/url.Parse`, supplied from outside: `None` is a parse error. */
  type UrlParser = string -> Option<Url>

  /** Request headers under their canonical names, one value each. */
  type Headers = map<string, string>

  /** `http.Header.Get`: the value, or "" when the header is absent. */
  function Header(h: Headers, name: string): string {
    if name in h then h[name] else ""
  }

  /** A value stored in the session (`map[interface{}]interface{}` in Go);
      the type assertions of the source tell a bool from a string. */
  datatype Value = BoolValue(b: bool) | StringValue(s: string) | OtherValue

  type SessionValues = map<string, Value>

  /** A gorilla session: its values and the cookie max age in seconds. */
  datatype Session = Session(values: SessionValues, maxAge: int)

  /** The session cookie as it arrives: missing, failing signature or
      decoding, or decoding to a value map. */
  datatype Cookie = NoCookie | CorruptCookie | SessionCookie(values: SessionValues)

  /** `MaxAge: 86400 * 7`, the store default (middleware/auth.go:44). */
  const SessionMaxAge: int := 604800

  datatype Request = Request(
    url: Url,              // r.URL (path and decoded query)
    host: string,          // r.Host
    tls: bool,             // r.TLS != nil
    headers: Headers,
    cookie: Cookie)

  /** `store.Get(r, SessionName)` with its error ignored: a cookie that is
      absent or cannot be decoded yields a new, empty session. */
  function LoadSession(c: Cookie): (s: Session)
    ensures s.maxAge == SessionMaxAge
    ensures c.SessionCookie? ==> s.values == c.values
    ensures !c.SessionCookie? ==> s.values == map[]
  {
    match c
    case SessionCookie(vs) => Session(vs, SessionMaxAge)
    case _ => Session(map[], SessionMaxAge)
  }

  /** The scheme test shared by `BuildServiceURL` and the logout handler:
      TLS on the connection or `X-Forwarded-Proto` exactly "https". */
  predicate IsSecure(r: Request) {
    r.tls || Header(r.headers, "X-Forwarded-Proto") == "https"
  }

  function Scheme(r: Request): (s: string)
    ensures s == "https" <==> IsSecure(r)
    ensures s == "http" <==> !IsSecure(r)
  {
    if IsSecure(r) then "https" else "http"
  }
}
