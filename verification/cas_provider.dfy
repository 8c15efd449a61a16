/** The CAS protocol client (auth/cas/cas_provider.go): login URL, ticket
    extraction, service URL, validation request and the two response parsers.
    The HTTP GET and the JSON/XML unmarshalling are supplied from outside as
    a `Fetcher`, whose reply already carries both decodings of the body. */
module CasProvider {
  import opened Wrappers
  import opened Strings
  import opened QueryParams
  import opened Http
  import opened Models
  import opened CasTypes
  import ConfigLoader

  datatype CasProvider = CasProvider(baseUrl: string, loginPath: string, validatePath: string, useJson: bool)

  const DefaultValidatePath: string := "/p3/serviceValidate"
  const DefaultLoginPath: string := "/login"

  datatype ProviderError = ConfigNotLoaded

  datatype CasError =
    | EndpointUnparsable                                // url.Parse of base + validatePath failed
    | RequestFailed                                     // http.Get failed
    | ReadFailed                                        // io.ReadAll failed
    | Malformed                                         // the body did not unmarshal
    | AuthenticationFailed(code: string, description: string)
    | MissingSuccess                                    // JSON without authenticationSuccess
    | MissingIdentity                                   // JSON success without oaid or user
    | MissingUser                                       // XML without success or with an empty user
    | UrlUnparsable                                     // ExtractTicket could not parse its URL
    | TicketMissing                                     // ExtractTicket found no ticket

  /** `NewCASProvider`: reads the loaded configuration and fills in the
      default endpoint paths. */
  function NewCasProvider(appConfig: Option<Config>): (r: Result<CasProvider, ProviderError>)
    ensures r.Failure? <==> appConfig.None?
    ensures r.Success? ==> r.value.loginPath != "" && r.value.validatePath != ""
    ensures r.Success? ==> r.value.baseUrl == appConfig.value.cas.baseUrl
    ensures r.Success? ==> r.value.useJson == appConfig.value.cas.useJson
    ensures r.Success? && appConfig.value.cas.loginPath != "" ==>
              r.value.loginPath == appConfig.value.cas.loginPath
    ensures r.Success? && appConfig.value.cas.loginPath == "" ==> r.value.loginPath == "/login"
    ensures r.Success? && appConfig.value.cas.validatePath != "" ==>
              r.value.validatePath == appConfig.value.cas.validatePath
    ensures r.Success? && appConfig.value.cas.validatePath == "" ==>
              r.value.validatePath == "/p3/serviceValidate"
  {
    match appConfig
    case None => Failure(ConfigNotLoaded)
    case Some(cfg) =>
      var validatePath := if cfg.cas.validatePath == "" then DefaultValidatePath else cfg.cas.validatePath;
      var loginPath := if cfg.cas.loginPath == "" then DefaultLoginPath else cfg.cas.loginPath;
      Success(CasProvider(cfg.cas.baseUrl, loginPath, validatePath, cfg.cas.useJson))
  }

  /** A redirect target: either a URL string used as it is, or a parsed URL
      whose serialisation (`URL.String`) is left to the transport. */
  datatype Location = Verbatim(text: string) | Structured(url: Url)

  /** The only change `GetLoginURL` and the validation request make to a
      parsed endpoint: its query, every other field kept. */
  predicate SameEndpoint(u: Url, e: Url) {
    u.scheme == e.scheme && u.host == e.host && u.path == e.path
  }

  /** `GetLoginURL`: the login endpoint with its `service` parameter set to
      `serviceUrl`, or the bare endpoint string when it does not parse. */
  function GetLoginUrl(p: CasProvider, serviceUrl: string, parse: UrlParser): (loc: Location)
    ensures parse(p.baseUrl + p.loginPath).None? ==> loc == Verbatim(p.baseUrl + p.loginPath)
    ensures parse(p.baseUrl + p.loginPath).Some? ==>
              var e := parse(p.baseUrl + p.loginPath).value;
              && loc.Structured?
              && SameEndpoint(loc.url, e)
              && ValuesOf(loc.url.query, "service") == [serviceUrl]
              && forall k :: k != "service" ==> ValuesOf(loc.url.query, k) == ValuesOf(e.query, k)
  {
    var loginUrl := p.baseUrl + p.loginPath;
    match parse(loginUrl)
    case None => Verbatim(loginUrl)
    case Some(u) => Structured(u.(query := Set(u.query, "service", serviceUrl)))
  }

  /** The query of the validation request: `ticket` and `service` set and,
      in JSON mode, `format=json`; every other parameter kept. */
  function ValidationQuery(q: Query, ticket: string, serviceUrl: string, useJson: bool): (r: Query)
    ensures ValuesOf(r, "ticket") == [ticket]
    ensures ValuesOf(r, "service") == [serviceUrl]
    ensures useJson ==> ValuesOf(r, "format") == ["json"]
    ensures !useJson ==> ValuesOf(r, "format") == ValuesOf(q, "format")
    ensures forall k :: k != "ticket" && k != "service" && k != "format" ==> ValuesOf(r, k) == ValuesOf(q, k)
  {
    var q1 := Set(q, "ticket", ticket);
    var q2 := Set(q1, "service", serviceUrl);
    assert ValuesOf(q2, "ticket") == ValuesOf(q1, "ticket");
    assert ValuesOf(q2, "format") == ValuesOf(q1, "format") == ValuesOf(q, "format");
    if useJson then
      var q3 := Set(q2, "format", "json");
      assert ValuesOf(q3, "ticket") == ValuesOf(q2, "ticket");
      assert ValuesOf(q3, "service") == ValuesOf(q2, "service");
      q3
    else q2
  }

  /** The request `ValidateTicket` sends: the validation endpoint with
      `ticket`, `service` and, in JSON mode, `format=json` set. */
  function ValidationUrl(p: CasProvider, ticket: string, serviceUrl: string, parse: UrlParser): (r: Result<Url, CasError>)
    ensures parse(p.baseUrl + p.validatePath).None? <==> r == Failure(EndpointUnparsable)
    ensures r.Success? <==> parse(p.baseUrl + p.validatePath).Some?
    ensures r.Success? ==>
              var e := parse(p.baseUrl + p.validatePath).value;
              && SameEndpoint(r.value, e)
              && r.value.query == ValidationQuery(e.query, ticket, serviceUrl, p.useJson)
  {
    match parse(p.baseUrl + p.validatePath)
    case None => Failure(EndpointUnparsable)
    case Some(u) => Success(u.(query := ValidationQuery(u.query, ticket, serviceUrl, p.useJson)))
  }

  /** What the CAS server's reply became: a transport or read error, or a
      body together with its JSON and XML decodings (`None` where that
      unmarshalling fails). */
  datatype Fetch =
    | TransportError
    | BodyReadError
    | Received(json: Option<JsonServiceResponse>, xml: Option<ServiceResponse>)

  type Fetcher = Url -> Fetch

  /** `ValidateTicket`: send the validation request, then parse the reply
      with the parser the `useJson` flag selects — never by content. Only
      the XML path guarantees a non-empty identity; the JSON parser as
      written accepts an empty first `oaid` value. */
  function ValidateTicket(p: CasProvider, ticket: string, serviceUrl: string, parse: UrlParser, fetch: Fetcher)
    : (r: Result<UserInfo, CasError>)
    ensures ValidationUrl(p, ticket, serviceUrl, parse).Failure? ==> r == Failure(EndpointUnparsable)
    ensures ValidationUrl(p, ticket, serviceUrl, parse).Success? ==>
              var reply := fetch(ValidationUrl(p, ticket, serviceUrl, parse).value);
              && (reply.TransportError? ==> r == Failure(RequestFailed))
              && (reply.BodyReadError? ==> r == Failure(ReadFailed))
              && (reply.Received? && p.useJson ==> r == ParseJsonResponse(reply.json))
              && (reply.Received? && !p.useJson ==> r == ParseXmlResponse(reply.xml))
    ensures r.Success? && !p.useJson ==> r.value.oaid != ""
  {
    match ValidationUrl(p, ticket, serviceUrl, parse)
    case Failure(e) => Failure(e)
    case Success(u) =>
      match fetch(u)
      case TransportError => Failure(RequestFailed)
      case BodyReadError => Failure(ReadFailed)
      case Received(j, x) =>
        if p.useJson then ParseJsonResponse(j) else ParseXmlResponse(x)
  }

  /** `ValidateTicket` with the corrected JSON parser: every identity it
      returns is non-empty. */
  function ValidateTicketChecked(p: CasProvider, ticket: string, serviceUrl: string, parse: UrlParser, fetch: Fetcher)
    : (r: Result<UserInfo, CasError>)
    ensures r.Success? ==> r.value.oaid != ""
    ensures ValidationUrl(p, ticket, serviceUrl, parse).Success? ==>
              var reply := fetch(ValidationUrl(p, ticket, serviceUrl, parse).value);
              reply.Received? && p.useJson ==> r == ParseJsonResponseChecked(reply.json)
  {
    match ValidationUrl(p, ticket, serviceUrl, parse)
    case Failure(e) => Failure(e)
    case Success(u) =>
      match fetch(u)
      case TransportError => Failure(RequestFailed)
      case BodyReadError => Failure(ReadFailed)
      case Received(j, x) =>
        if p.useJson then ParseJsonResponseChecked(j) else ParseXmlResponse(x)
  }

  /** The corrected validation differs from the one as written only where
      the latter returns an empty identity. */
  lemma ValidationsAgree(p: CasProvider, ticket: string, serviceUrl: string, parse: UrlParser, fetch: Fetcher)
    ensures var v := ValidateTicket(p, ticket, serviceUrl, parse, fetch);
            v.Failure? || v.value.oaid != "" ==> ValidateTicketChecked(p, ticket, serviceUrl, parse, fetch) == v
  {
    match ValidationUrl(p, ticket, serviceUrl, parse)
    case Failure(_) =>
    case Success(u) =>
      match fetch(u)
      case TransportError =>
      case BodyReadError =>
      case Received(j, x) =>
        JsonParsersAgree(j);
  }

  /** `ExtractTicket`: the `ticket` parameter of a URL that parsed
      (`None` is a parse failure), when it is non-empty. */
  function ExtractTicket(u: Option<Url>): (r: Result<string, CasError>)
    ensures u.None? ==> r == Failure(UrlUnparsable)
    ensures r.Success? <==> u.Some? && Get(u.value.query, "ticket") != ""
    ensures r.Success? ==> r.value != "" && r.value == ValuesOf(u.value.query, "ticket")[0]
  {
    match u
    case None => Failure(UrlUnparsable)
    case Some(url) =>
      var ticket := Get(url.query, "ticket");
      if ticket == "" then Failure(TicketMissing) else Success(ticket)
  }

  /** `IsLoginPath`: is this a CAS callback, that is, does it carry a ticket? */
  function IsLoginPath(u: Option<Url>): (b: bool)
    ensures b <==> ExtractTicket(u).Success?
  {
    match u
    case None => false
    case Some(url) => Get(url.query, "ticket") != ""
  }

  /** The host `BuildServiceURL` uses: `r.Host`, else the Host header. */
  function ServiceHost(r: Request): (h: string)
    ensures r.host != "" ==> h == r.host
    ensures r.host == "" ==> h == Header(r.headers, "Host")
  {
    if r.host != "" then r.host else Header(r.headers, "Host")
  }

  /** `BuildServiceURL`: `scheme://host` followed by the given path. */
  function BuildServiceUrl(r: Request, path: string): (s: string)
    ensures "https://" <= s <==> IsSecure(r)
    ensures !IsSecure(r) ==> "http://" <= s
    ensures HasSuffix(s, path)
    ensures Scheme(r) + "://" <= s && |Scheme(r)| + 3 <= |s| - |path|
    ensures s[|Scheme(r)| + 3 .. |s| - |path|] == ServiceHost(r)
  {
    var prefix := Scheme(r) + "://";
    var s := prefix + ServiceHost(r) + path;
    assert s[|s| - |path|..] == path;
    assert s[..|prefix|] == prefix;
    assert s[|prefix|..|s| - |path|] == ServiceHost(r);
    if IsSecure(r) then
      assert s[..8] == "https://";
      s
    else
      assert s[..7] == "http://";
      assert s[4] == ':';
      s
  }

  /** `parseJSONResponse` as written: a failure object wins; otherwise the
      success object must be present, and the identity is the first `oaid`
      value if the array is non-empty, else a non-empty `user`. */
  function ParseJsonResponse(decoded: Option<JsonServiceResponse>): (r: Result<UserInfo, CasError>)
    ensures decoded.None? ==> r == Failure(Malformed)
    ensures decoded.Some? && decoded.value.serviceResponse.authenticationFailure.Some? ==>
              var f := decoded.value.serviceResponse.authenticationFailure.value;
              r == Failure(AuthenticationFailed(f.code, f.description))
    ensures (decoded.Some? && decoded.value.serviceResponse.authenticationFailure.None?
             && decoded.value.serviceResponse.authenticationSuccess.None?) ==> r == Failure(MissingSuccess)
    ensures r.Success? <==>
              && decoded.Some?
              && decoded.value.serviceResponse.authenticationFailure.None?
              && decoded.value.serviceResponse.authenticationSuccess.Some?
              && var s := decoded.value.serviceResponse.authenticationSuccess.value;
                 |s.attributes.oaid| > 0 || s.user != ""
    ensures r.Success? ==>
              var s := decoded.value.serviceResponse.authenticationSuccess.value;
              && (|s.attributes.oaid| > 0 ==> r.value.oaid == s.attributes.oaid[0])
              && (|s.attributes.oaid| == 0 ==> r.value.oaid == s.user)
              && (|s.attributes.employeeName| > 0 ==> r.value.employeeName == s.attributes.employeeName[0])
              && (|s.attributes.employeeName| == 0 ==> r.value.employeeName == "")
              && r.value.extra == map[]
  {
    match decoded
    case None => Failure(Malformed)
    case Some(resp) =>
      if resp.serviceResponse.authenticationFailure.Some? then
        var f := resp.serviceResponse.authenticationFailure.value;
        Failure(AuthenticationFailed(f.code, f.description))
      else if resp.serviceResponse.authenticationSuccess.None? then
        Failure(MissingSuccess)
      else
        var s := resp.serviceResponse.authenticationSuccess.value;
        var name := if |s.attributes.employeeName| > 0 then s.attributes.employeeName[0] else "";
        if |s.attributes.oaid| > 0 then Success(UserInfo(s.attributes.oaid[0], name, map[]))
        else if s.user != "" then Success(UserInfo(s.user, name, map[]))
        else Failure(MissingIdentity)
  }

  /** `parseJSONResponse` with its identity check completed: an empty first
      `oaid` value is not an identity, so the parser falls back to `user`
      and fails when that is empty too. */
  function ParseJsonResponseChecked(decoded: Option<JsonServiceResponse>): (r: Result<UserInfo, CasError>)
    ensures r.Success? ==> r.value.oaid != ""
    ensures r.Success? <==>
              && decoded.Some?
              && decoded.value.serviceResponse.authenticationFailure.None?
              && decoded.value.serviceResponse.authenticationSuccess.Some?
              && var s := decoded.value.serviceResponse.authenticationSuccess.value;
                 (|s.attributes.oaid| > 0 && s.attributes.oaid[0] != "") || s.user != ""
    ensures r.Success? ==>
              var s := decoded.value.serviceResponse.authenticationSuccess.value;
              && (|s.attributes.oaid| > 0 && s.attributes.oaid[0] != "" ==> r.value.oaid == s.attributes.oaid[0])
              && (|s.attributes.oaid| == 0 || s.attributes.oaid[0] == "" ==> r.value.oaid == s.user)
  {
    match ParseJsonResponse(decoded)
    case Failure(e) => Failure(e)
    case Success(info) =>
      if info.oaid != "" then Success(info)
      else
        var s := decoded.value.serviceResponse.authenticationSuccess.value;
        if s.user != "" then Success(info.(oaid := s.user)) else Failure(MissingIdentity)
  }

  /** Wherever the parser as written yields a non-empty identity, the
      corrected parser returns exactly the same result; the two differ only
      on a success whose first `oaid` value is empty. */
  lemma JsonParsersAgree(decoded: Option<JsonServiceResponse>)
    ensures ParseJsonResponse(decoded).Failure? ==> ParseJsonResponseChecked(decoded) == ParseJsonResponse(decoded)
    ensures ParseJsonResponse(decoded).Success? && ParseJsonResponse(decoded).value.oaid != "" ==>
              ParseJsonResponseChecked(decoded) == ParseJsonResponse(decoded)
  {
  }

  /** The discrepancy: a success whose `oaid` array is `[""]` is accepted by
      the parser as written with an empty identity, although `user` names
      someone. */
  lemma EmptyOaidAccepted()
    ensures var resp := JsonServiceResponse(JsonServiceResponseInner(
              Some(JsonSuccessResponse("u2", JsonAttributes([""], []))), None));
            && ParseJsonResponse(Some(resp)) == Success(UserInfo("", "", map[]))
            && ParseJsonResponseChecked(Some(resp)) == Success(UserInfo("u2", "", map[]))
  {
  }

  /** `parseXMLResponse`: a failure element wins; otherwise a success element
      with a non-empty `user` is required, and that user is the identity. */
  function ParseXmlResponse(decoded: Option<ServiceResponse>): (r: Result<UserInfo, CasError>)
    ensures decoded.None? ==> r == Failure(Malformed)
    ensures decoded.Some? && decoded.value.failure.Some? ==>
              r == Failure(AuthenticationFailed(decoded.value.failure.value.code, decoded.value.failure.value.message))
    ensures r.Success? <==>
              decoded.Some? && decoded.value.failure.None? && decoded.value.success.Some?
              && decoded.value.success.value.user != ""
    ensures r.Success? ==> r.value.oaid == decoded.value.success.value.user && r.value.oaid != ""
    ensures r.Success? && decoded.value.success.value.attributes.Some? ==>
              r.value.employeeName == decoded.value.success.value.attributes.value.displayName
    ensures r.Success? && decoded.value.success.value.attributes.None? ==> r.value.employeeName == ""
  {
    match decoded
    case None => Failure(Malformed)
    case Some(resp) =>
      if resp.failure.Some? then Failure(AuthenticationFailed(resp.failure.value.code, resp.failure.value.message))
      else if resp.success.None? || resp.success.value.user == "" then Failure(MissingUser)
      else
        var s := resp.success.value;
        var name := if s.attributes.Some? then s.attributes.value.displayName else "";
        Success(UserInfo(s.user, name, map[]))
  }

  /** Identity precedence on the example responses: `oaid` over `user` in
      JSON, `user` in XML. */
  lemma IdentityPrecedenceExamples()
    ensures ParseJsonResponse(Some(JsonServiceResponse(JsonServiceResponseInner(
              Some(JsonSuccessResponse("u2", JsonAttributes(["u1"], []))), None)))) == Success(UserInfo("u1", "", map[]))
    ensures ParseJsonResponse(Some(JsonServiceResponse(JsonServiceResponseInner(
              Some(JsonSuccessResponse("u2", JsonAttributes([], []))), None)))) == Success(UserInfo("u2", "", map[]))
    ensures ParseJsonResponseChecked(Some(JsonServiceResponse(JsonServiceResponseInner(
              Some(JsonSuccessResponse("u2", JsonAttributes(["u1"], []))), None)))).value.oaid == "u1"
    ensures ParseJsonResponseChecked(Some(JsonServiceResponse(JsonServiceResponseInner(
              Some(JsonSuccessResponse("u2", JsonAttributes([], []))), None)))).value.oaid == "u2"
    ensures ParseXmlResponse(Some(ServiceResponse(Some(SuccessResponse("u3", None)), None))).value.oaid == "u3"
  {
  }

  /** Round trip: the login URL carries no ticket, so it is not a
      callback; the same URL with `ticket=t` appended is one, and `t` is the
      ticket extracted from it. */
  lemma {:induction false} LoginUrlTicketRoundTrip(p: CasProvider, serviceUrl: string, parse: UrlParser, t: string)
    requires parse(p.baseUrl + p.loginPath).Some?
    requires !Has(parse(p.baseUrl + p.loginPath).value.query, "ticket")
    requires t != ""
    ensures var u := GetLoginUrl(p, serviceUrl, parse).url;
            && !IsLoginPath(Some(u))
            && IsLoginPath(Some(u.(query := u.query + [Param("ticket", t)])))
            && ExtractTicket(Some(u.(query := u.query + [Param("ticket", t)]))) == Success(t)
  {
    var e := parse(p.baseUrl + p.loginPath).value;
    var u := GetLoginUrl(p, serviceUrl, parse).url;
    ValuesOfEmpty(e.query, "ticket");
    assert ValuesOf(u.query, "ticket") == [];
    ValuesOfAppend(u.query, [Param("ticket", t)], "ticket");
    assert ValuesOf([Param("ticket", t)], "ticket") == [t];
  }

  /** A configuration that `LoadConfig` accepted makes `NewCASProvider`
      succeed, with a non-empty CAS base URL and non-empty endpoint paths. */
  lemma LoadedConfigBuildsProvider(prev: Option<Config>, c: Config)
    requires ConfigLoader.LoadConfig(prev, ConfigLoader.Decoded(c)).result.Success?
    ensures var p := NewCasProvider(ConfigLoader.LoadConfig(prev, ConfigLoader.Decoded(c)).appConfig);
            && p.Success? && p.value.baseUrl == c.cas.baseUrl && p.value.baseUrl != ""
            && p.value.loginPath != "" && p.value.validatePath != ""
  {
  }
}
