# cas-gateway, modelled in Dafny

cas-gateway is a reverse proxy that puts CAS single sign-on in front of backend
HTTP services. This project models the gateway's decision logic as pure Dafny
functions over immutable values and proves properties about them:

- **Route resolution** (`Routing`): the static-file test; the Referer and
  loose-prefix route finders; the fallback chain (direct lookup, Referer, loose
  prefix, first route); and prefix stripping for skip-auth routes.
- **The per-request state machine** (`AuthMiddleware`): bypass paths, static
  files, skip-auth routes, the session check, the CAS ticket callback and the
  login redirect. The result is an `Action` value.
- **The CAS protocol client** (`CasProvider`, `CasTypes`): provider defaults,
  login URL, ticket extraction, service URL, the validation request and the
  JSON and XML response parsers.
- **Configuration** (`ConfigLoader`, `Models`): the ordered validator, and
  `LoadConfig` assigning the global configuration only on success.
- **The two `main.go` handlers** (`Gateway`): the logout service derivation
  and redirect, and the catch-all `/` dispatch.

Support modules: `Wrappers` (Option and Result); `Strings` (prefix, suffix,
index and UTF-8 length helpers in place of Go's `strings` package and the
regular expressions); `QueryParams` (a query string as a list of key/value
pairs, with `url.Values`' `Get`/`Set`/`Del`); and `Http` (URL, request,
headers, cookie and session values).

The world outside the decisions comes in as parameters of the `Env` value:

- `parse` stands for `net/url.Parse`;
- `fetch` stands for the CAS server's reply, already decoded as JSON and as XML;
- `cookieFits` says whether `session.Save` succeeds.

`ProxyManager` stands for the proxy manager. Its `direct` map is the
`GetRoute(path)` lookup, and the model assumes only that the lookup answers
with a member of the route table. Its `proxies` set holds the route paths for
which `GetProxy` succeeds.

## Model

| member | source | states |
|---|---|---|
| QueryParams.Del | middleware/auth.go:168-171 | deleting a query key leaves no pair with that key and adds no pair |
| QueryParams.DelValues | middleware/auth.go:169-171 | after `Del(k)`, key `k` has no values and every other key keeps its values in order |
| QueryParams.Set | auth/cas/cas_provider.go:55-57 | after `Set(k, v)`, `k` has exactly the value `v` and every other key keeps its values |
| QueryParams.GetFirst | auth/cas/cas_provider.go:108 | `Get` returns the value of the earliest pair with the key |
| Http.LoadSession | middleware/auth.go:134 | a missing or undecodable cookie gives an empty session; a decoded cookie gives its values; max age is the 7-day default |
| Http.Scheme | auth/cas/cas_provider.go:129-132 | the scheme is "https" exactly when the connection is TLS or `X-Forwarded-Proto` is exactly "https", else "http" |
| ConfigLoader.RouteError | config/config.go:50-58 | a route's name, path and target are checked in that order; it is accepted iff all three are non-empty |
| ConfigLoader.ValidateRoutes | config/config.go:50-58 | the route checks run per route in table order; the error is the first incomplete route's, and there is none iff every route is complete |
| ConfigLoader.ValidateConfig | config/config.go:35-61 | checks run in the order port 1..65535, key ≥ 32 bytes, non-empty CAS base URL, routes. Each of the first three errors is reported iff the earlier checks pass and its own check fails. Once those pass, the result is exactly that of `ValidateRoutes`: the first incomplete route's first missing field. Without an error, everything passes |
| ConfigLoader.KeyLengthIsInBytes | config/config.go:40-42 | the key length is counted in UTF-8 bytes: 16 two-byte characters pass, 31 ASCII characters fail |
| ConfigLoader.LoadConfig | config/config.go:14-32 | loading succeeds iff the file was read, decoded and validated. Then `AppConfig` becomes that config; on every failure `AppConfig` keeps its old value |
| CasProvider.NewCasProvider | auth/cas/cas_provider.go:23-45 | fails iff no configuration is loaded. Empty login and validate paths default to "/login" and "/p3/serviceValidate"; base URL and JSON flag are copied |
| CasProvider.LoadedConfigBuildsProvider | auth/cas/cas_provider.go:24-44 | after a successful `LoadConfig` the provider is built with a non-empty base URL and non-empty endpoint paths |
| CasProvider.GetLoginUrl | auth/cas/cas_provider.go:48-60 | the login URL is the parsed login endpoint with `service` set to exactly the service URL and other parameters kept; it is the bare endpoint string when parsing fails |
| CasProvider.ValidationQuery | auth/cas/cas_provider.go:71-78 | after the query edits, `ticket` and `service` each hold exactly the given value; `format` holds exactly "json" in JSON mode and keeps the endpoint's own values otherwise; every other parameter is untouched |
| CasProvider.ValidationUrl | auth/cas/cas_provider.go:65-80 | the endpoint base URL + validate path fails to parse iff an error is returned; otherwise scheme, host and path are those of the endpoint and the query is the endpoint's query with the edits above |
| CasProvider.ValidateTicket | auth/cas/cas_provider.go:63-99 | an unparsable endpoint, a transport failure and a read failure are each their own error. The JSON/XML flag alone selects the parser, and the JSON path runs the parser as written. Only in XML mode is a successful identity guaranteed non-empty |
| CasProvider.ValidateTicketChecked | auth/cas/cas_provider.go:63-99 | the same validation with the corrected JSON parser: every successful identity is non-empty |
| CasProvider.ValidationsAgree | auth/cas/cas_provider.go:63-99 | the corrected validation returns exactly what the validation as written returns, except where the latter yields an empty identity |
| CasProvider.ExtractTicket | auth/cas/cas_provider.go:102-114 | succeeds exactly when the URL parses and its first `ticket` value is non-empty, and returns that value |
| CasProvider.IsLoginPath | auth/cas/cas_provider.go:117-125 | a URL is a CAS callback iff `ExtractTicket` succeeds on it |
| CasProvider.LoginUrlTicketRoundTrip | auth/cas/cas_provider.go:48-60 | the login URL is not a callback; the same URL with `ticket=t` appended is one, and `t` is extracted from it |
| CasProvider.ServiceHost | auth/cas/cas_provider.go:134-137 | the service host is `r.Host`, falling back to the Host header only when `r.Host` is empty |
| CasProvider.BuildServiceUrl | auth/cas/cas_provider.go:128-140 | the service URL starts with "https://" iff the request is secure, otherwise with "http://". Between `scheme://` and the trailing path it holds exactly the service host: `r.Host`, else the Host header |
| CasProvider.ParseJsonResponse | auth/cas/cas_provider.go:143-181 | a failure object takes precedence, and a missing success object is an error. The identity is `oaid[0]` when that array is non-empty, else a non-empty `user`, else an error. The employee name is `employeeName[0]` or empty |
| CasProvider.EmptyOaidAccepted | auth/cas/cas_provider.go:166-167 | the JSON parser as written accepts `oaid: [""]` with an empty identity; the corrected parser returns `user` |
| CasProvider.ParseJsonResponseChecked | auth/cas/cas_provider.go:165-173 | the corrected JSON parser: the identity is a non-empty `oaid[0]`, else a non-empty `user`, so a success always has a non-empty identity |
| CasProvider.JsonParsersAgree | auth/cas/cas_provider.go:165-173 | the corrected parser returns exactly what the parser as written returns, except on a success with an empty identity |
| CasProvider.ParseXmlResponse | auth/cas/cas_provider.go:184-209 | a failure element takes precedence. Success requires a success element with a non-empty `user`, which becomes the identity. The employee name is `displayName` only when attributes are present |
| CasProvider.IdentityPrecedenceExamples | auth/cas/cas_provider.go:165-173 | JSON `oaid ["u1"]` with `user "u2"` gives "u1"; JSON with only `user "u2"` gives "u2", for the parser as written and the corrected one alike; XML `user "u3"` gives "u3" |
| Routing.IsStaticFile | middleware/auth.go:24-30 | a path is static iff it ends with "." followed by one of the 14 extensions, case-sensitively and anchored at the end |
| Routing.StaticFileByLastDot | middleware/auth.go:24 | the end-anchored extension pattern matches iff the text after the last dot is one of the extensions |
| Routing.StaticFileExamples | middleware/auth.go:24 | `.png` and `.woff2` paths are static |
| Routing.UpperCaseIsNotStatic | middleware/auth.go:24 | `.PNG` is not static: the match is case-sensitive |
| Routing.PageIsNotStatic | middleware/auth.go:24 | `.html` is not static |
| Routing.FirstRefererMatch | middleware/auth.go:223-228 | the scan returns the first route in table order whose path equals the Referer path or is followed by "/" in it |
| Routing.FindRouteByReferer | middleware/auth.go:208-231 | no route for an empty or unparsable Referer; otherwise the first matching route in table order, and none only when no route matches |
| Routing.PrefixScan | middleware/auth.go:241-248 | each loop step keeps the longest non-empty raw prefix seen so far, and the earliest among equals |
| Routing.FindRouteByPathPrefix | middleware/auth.go:234-251 | the chosen route's path is a non-empty raw prefix of the request path and no matching path is longer. No earlier route matches with the same length, so ties go to the earliest route; none is found iff every prefixing path is empty |
| Routing.RefererFirstMatchPrefixLongest | middleware/auth.go:223-247 | with `/app` listed before `/app/admin`, a Referer under `/app/admin` picks `/app` (first match), while the loose-prefix finder picks `/app/admin` (longest) |
| Routing.Resolve | middleware/auth.go:70-96 | resolution order is direct lookup, then Referer, then loose prefix, then the first route. No route is found iff the lookup misses and the table is empty. A resolved route is always a table member |
| Routing.FallbackToFirstRoute | middleware/auth.go:83-86 | with an empty Referer, no direct entry and no prefixing route path, the first configured route governs |
| Routing.StripRoutePrefix | middleware/auth.go:118-124 | the prefix is removed only when the path continues below the route with "/". The rest then starts with "/" and the prefix plus the rest restores the path; any other path is unchanged |
| AuthMiddleware.GetUser | middleware/auth.go:191-197 | the user is the session's `user` value when it is a string, and "" otherwise |
| AuthMiddleware.EmployeeName | middleware/auth.go:143 | the employee name counts only when it is a non-empty string value |
| AuthMiddleware.IdentityHeaders | middleware/auth.go:140-146 | `X-User` is set to the user and `X-Employee-Name` to a non-empty employee name, only when the user is non-empty. Every other header is untouched |
| AuthMiddleware.Establish | middleware/auth.go:160-165 | after validation the session holds `user` = identity and `authenticated` = true. `employeeName` is written only if non-empty; all other values and the max age are kept |
| AuthMiddleware.CleanUrl | middleware/auth.go:168-171 | the post-login redirect is the request URL with every `ticket` deleted and all other parameters kept, so it is no longer a callback |
| AuthMiddleware.Logout | middleware/auth.go:200-205 | logout empties every session value and sets max age -1, leaving the session unauthenticated and without a user |
| AuthMiddleware.LoginRedirect | middleware/auth.go:182-186 | the login redirect goes to the login URL for the service URL built from the request path |
| AuthMiddleware.Callback | middleware/auth.go:152-186 | a clean redirect happens iff the request carries a ticket, validation succeeds and the session can be saved; every other case is the login redirect |
| AuthMiddleware.Authenticate | middleware/auth.go:133-150 | an authenticated session is forwarded with the identity headers; without one, the request goes to the callback and login logic |
| AuthMiddleware.Dispatch | middleware/auth.go:98-131 | a static path goes to the route's proxy with the full path, and a skip-auth route goes to its proxy with the stripped path. Either gives 404 when the proxy is missing; every other request is authenticated |
| AuthMiddleware.Handle | middleware/auth.go:58-188 | `/health` and `/logout` pass straight through, before any lookup. The request passes untouched otherwise only when the lookup misses and the table is empty. 404 comes only from a missing proxy. A clean redirect drops the ticket and saves an authenticated session whose user is exactly the identity validation returned. That user is non-empty in XML mode; in JSON mode it can be empty |
| AuthMiddleware.SessionIrrelevantWithoutAuth | middleware/auth.go:98-131 | static files and skip-auth routes decide the same whatever cookie is sent, and never redirect |
| AuthMiddleware.SameSessionSameAuthenticate | middleware/auth.go:133-186 | on a route that needs authentication, the cookie influences the outcome only through the session it decodes to |
| AuthMiddleware.SameSessionSameDecision | middleware/auth.go:134 | the cookie influences the decision only through the session it decodes to |
| AuthMiddleware.CorruptCookieIsNoCookie | middleware/auth.go:134 | a cookie that fails to decode is treated exactly like no cookie |
| AuthMiddleware.LogoutReplayIsFirstVisit | middleware/auth.go:200-205 | replaying the cookie written at logout gives the same decision as a first visit |
| AuthMiddleware.PreLogoutCookieStillAuthenticates | middleware/auth.go:133-146 | logout does not revoke a session: an authenticated cookie captured before logout is still forwarded as authenticated on a protected route, with its user as `X-User` |
| AuthMiddleware.LoginThenAuthenticated | middleware/auth.go:133-175 | after a clean redirect, requesting the clean URL with the saved cookie is forwarded as authenticated. A non-empty stored user becomes `X-User`. An empty one, possible only in JSON mode, leaves the client's headers unchanged |
| AuthMiddleware.MalformedReplyRedirectsToLogin | middleware/auth.go:153-186 | when the CAS reply decodes as neither JSON nor XML, a protected request is either already authenticated or sent to login, never to an error |
| AuthMiddleware.CallbackValidatesLoginService | middleware/auth.go:157 | the service validated on the callback is the one the login redirect sent to CAS: adding the ticket does not change it |
| AuthMiddleware.EmptyIdentityKeepsClientHeader | middleware/auth.go:140-146 | a session established for the empty identity is authenticated, yet it leaves a client-sent `X-User` header in place |
| Gateway.LogoutService | main.go:90-100 | the logout service is Origin if non-empty, else Referer if non-empty, else `scheme://Host` |
| Gateway.ServiceSubmatch | main.go:102 | the submatch exists iff "?service=" occurs. It starts right after the leftmost occurrence, holds no line feed, and ends at the first line feed or the end of the text |
| Gateway.UnwrapService | main.go:102-104 | a service without "?service=" is kept; otherwise it is replaced by text following the first marker |
| Gateway.UnwrapServiceTakesRest | main.go:102-104 | for header values (no line feed) the replacement is everything after the first "?service=" |
| Gateway.LogoutPassesEmbeddedService | main.go:90-107 | a Referer `pre?service=target` yields the logout URL `base + "/cas2/logout?service=" + target`, without URL encoding |
| Gateway.LogoutUrl | main.go:90-105 | the logout URL is the CAS base URL, "/cas2/logout?service=" and then, unencoded, the embedded `service` submatch of the chosen service when there is one, else the chosen service itself |
| Gateway.LogoutHandler | main.go:87-108 | logout first writes the cleared session with max age -1 and then redirects to exactly the CAS base URL + "/cas2/logout?service=" + the unwrapped logout service |
| Gateway.CatchAll | main.go:112-134 | the catch-all answers `/health` and `/logout` with an empty response and a failed lookup or missing proxy with 404. Otherwise it forwards the unstripped path to the looked-up route |

## Behaviour of the code worth knowing

These points of the code are easy to misread, and the model follows them:

- Resolution step 1 is the proxy manager's `GetRoute(path)`, which this model
  treats as an abstract lookup. The Referer step is first-match in table order,
  not longest-match.
- With a non-empty route table, resolution always finds a route because of the
  first-route fallback. In the middleware (`AuthMiddleware.Handle`) a 404
  therefore comes only from a missing proxy. The catch-all `/` handler
  (`Gateway.CatchAll`) is different: it answers 404 whenever the direct lookup
  misses. An authenticated request whose path lies under no route path
  registered with the request multiplexer ends up there. If its path is also
  unknown to the direct lookup, the gateway answers it with 404, even when the
  middleware found its route through the Referer, loose-prefix or first-route
  step.
- Authenticated requests go to the next handler (the request multiplexer). They
  do not go straight to a proxy with the prefix stripped.
- A request is a CAS callback when its first `ticket` value is non-empty. The
  mere presence of the parameter is not enough.
- The validator checks each route's name, path and target. It does not reject
  an empty route table or duplicate route paths.

## Left out

- proxy/proxy.go: the reverse proxy and its `X-Forwarded-By` header. Its
  `GetRoute()` and `GetProxy()` take no arguments, while middleware/auth.go and
  main.go call `GetRoute(path)`, `GetProxy(path)` and `GetAllRoutes()`, a method
  proxy.go does not define. The model reads these calls as the `ProxyManager`
  lookups: `direct` for `GetRoute(path)`, `routes` for `GetAllRoutes()`, and
  `proxies` for `GetProxy(path)`.
- `NewProxyManager(route *RouteConfig)` takes a single route, but main.go:33
  passes the whole `cfg.Routes` slice. The model skips proxy-manager
  construction and starts from a `ProxyManager` holding the route table.
- config/config.go:50-58 checks `cfg.Route`, a field that `Config` in
  models/config.go:29 does not have; the struct holds a `Routes` slice. The
  model reads the check as applying to each route of `Routes` in table order.
  This reading accepts an empty table, whereas a zero-valued single `Route`
  would have failed the name check.
- The HTTP GET, `io.ReadAll`, and JSON/XML unmarshalling in `ValidateTicket`.
  They are replaced by the `Fetch` reply, which carries both decodings of the
  body.
- Cookie signing, encoding, the HttpOnly/Secure/SameSite options and the
  length limit. A session is a value map with a max age, and `cookieFits`
  stands for `session.Save` succeeding.
- `net/url` parsing (the `parse` parameter) and URL serialisation. Serialisation
  covers `URL.String`, percent-encoding and the key-sorted `Values.Encode`, so
  redirect targets stay structured `Url` values. Re-parsing `r.URL.String()` is
  taken to give back `r.URL`.
- CasProvider.GetLoginUrl: returns the structured URL rather than its string
  form, because query encoding is not modelled.
- Header canonicalisation and multi-valued headers. A header is one value
  under its canonical name.
- `auth.UserInfo.Extra`: its values are Go `interface{}`. The model uses a
  string map, which the provider always leaves empty.
- Error message texts. Each error becomes a datatype constructor.
- `main()`'s wiring: reading `os.Args`, the config file and YAML, building the
  proxies, mux registration and pattern matching, the `StripPrefix` route
  handlers, `/health`, `ListenAndServe`, and all logging.
- Concurrency of per-request goroutines. Each decision is a pure function of
  one request.

## Findings

| source | as written | input that shows it | evidently intended | confidence | as-written member | corrected member |
|---|---|---|---|---|---|---|
| auth/cas/cas_provider.go:166-167 | a JSON success takes `oaid[0]` as the identity whenever the array is non-empty, even when that value is empty | `{"serviceResponse":{"authenticationSuccess":{"user":"u2","attributes":{"oaid":[""]}}}}`: the identity becomes "", the session is authenticated with user "", and a client-sent `X-User` then reaches the backend | an empty identifier is not an identity: fall back to `user`, and fail when that is empty too, as the XML parser and the fallback branch already do | medium, not executed | CasProvider.EmptyOaidAccepted | CasProvider.ParseJsonResponseChecked |

The gateway's decision (`AuthMiddleware.Handle`) runs the code as written:
`CasProvider.ValidateTicket` calls `CasProvider.ParseJsonResponse`, so in JSON
mode a clean redirect can save an authenticated session with user "".
`AuthMiddleware.EmptyIdentityKeepsClientHeader` shows the consequence: such a
session leaves a client-sent `X-User` in place. The corrected flow is
`CasProvider.ValidateTicketChecked`, built on `CasProvider.ParseJsonResponseChecked`,
whose successes always carry a non-empty identity. `CasProvider.ValidationsAgree`
shows it differs from the code as written only on an empty identity.
