/** Configuration loading and validation (config/config.go). */
module ConfigLoader {
  import opened Wrappers
  import opened Strings
  import opened Models

  datatype ConfigError =
    | InvalidPort(port: int)
    | ShortSessionKey
    | EmptyCasBaseUrl
    | EmptyRouteName
    | EmptyRoutePath(route: string)
    | EmptyRouteTarget(route: string)

  /** Minimum session signing key length, in bytes. */
  const MinSessionKeyBytes: nat := 32

  predicate PortInRange(port: int) {
    0 < port <= 65535
  }

  /** Go's `len` on a string counts UTF-8 bytes, not characters. */
  predicate KeyLongEnough(key: string) {
    Utf8Length(key) >= MinSessionKeyBytes
  }

  predicate RouteComplete(r: RouteConfig) {
    r.name != "" && r.path != "" && r.target != ""
  }

  predicate IsRouteError(e: ConfigError) {
    e.EmptyRouteName? || e.EmptyRoutePath? || e.EmptyRouteTarget?
  }

  /** The three field checks of one route, in the order name, path, target. */
  function RouteError(r: RouteConfig): (e: Option<ConfigError>)
    ensures e.None? <==> RouteComplete(r)
    ensures e == Some(EmptyRouteName) <==> r.name == ""
    ensures e == Some(EmptyRoutePath(r.name)) <==> r.name != "" && r.path == ""
    ensures e == Some(EmptyRouteTarget(r.name)) <==> r.name != "" && r.path != "" && r.target == ""
  {
    if r.name == "" then Some(EmptyRouteName)
    else if r.path == "" then Some(EmptyRoutePath(r.name))
    else if r.target == "" then Some(EmptyRouteTarget(r.name))
    else None
  }

  /** The route checks applied to each route in table order; the first
      incomplete route decides the error. */
  function ValidateRoutes(routes: seq<RouteConfig>): (e: Option<ConfigError>)
    ensures e.None? <==> forall i :: 0 <= i < |routes| ==> RouteComplete(routes[i])
    ensures e.Some? ==> IsRouteError(e.value)
    ensures e.Some? ==> exists i :: 0 <= i < |routes| && e == RouteError(routes[i])
                                  && forall j :: 0 <= j < i ==> RouteComplete(routes[j])
  {
    if |routes| == 0 then None
    else if RouteError(routes[0]).Some? then RouteError(routes[0])
    else
      var rest := ValidateRoutes(routes[1..]);
      if rest.Some? then
        var i :| 0 <= i < |routes[1..]| && rest == RouteError(routes[1..][i])
                 && forall j :: 0 <= j < i ==> RouteComplete(routes[1..][j]);
        assert routes[i + 1] == routes[1..][i];
        assert forall j :: 1 <= j < i + 1 ==> routes[j] == routes[1..][j - 1];
        rest
      else
        assert forall i :: 1 <= i < |routes| ==> routes[i] == routes[1..][i - 1];
        rest
  }

  /** `validateConfig`: the checks run in a fixed order and the first failing
      one is reported; `None` stands for Go's nil error. */
  function ValidateConfig(c: Config): (e: Option<ConfigError>)
    ensures e.None? <==> PortInRange(c.server.port) && KeyLongEnough(c.server.sessionKey)
                         && c.cas.baseUrl != ""
                         && forall i :: 0 <= i < |c.routes| ==> RouteComplete(c.routes[i])
    ensures e == Some(InvalidPort(c.server.port)) <==> !PortInRange(c.server.port)
    ensures e == Some(ShortSessionKey) <==> PortInRange(c.server.port) && !KeyLongEnough(c.server.sessionKey)
    ensures e == Some(EmptyCasBaseUrl) <==>
              PortInRange(c.server.port) && KeyLongEnough(c.server.sessionKey) && c.cas.baseUrl == ""
    ensures e.Some? && IsRouteError(e.value) <==>
              PortInRange(c.server.port) && KeyLongEnough(c.server.sessionKey) && c.cas.baseUrl != ""
              && exists i :: 0 <= i < |c.routes| && !RouteComplete(c.routes[i])
    ensures PortInRange(c.server.port) && KeyLongEnough(c.server.sessionKey) && c.cas.baseUrl != "" ==>
              e == ValidateRoutes(c.routes)
  {
    if !PortInRange(c.server.port) then Some(InvalidPort(c.server.port))
    else if !KeyLongEnough(c.server.sessionKey) then Some(ShortSessionKey)
    else if c.cas.baseUrl == "" then Some(EmptyCasBaseUrl)
    else ValidateRoutes(c.routes)
  }

  /** What reading and YAML-decoding the configuration file produced. */
  datatype ConfigSource = Unreadable | Undecodable | Decoded(config: Config)

  datatype LoadError = ReadFailed | DecodeFailed | Invalid(cause: ConfigError)

  /** The outcome of `LoadConfig` together with the global `AppConfig` after it. */
  datatype Loaded = Loaded(result: Result<Config, LoadError>, appConfig: Option<Config>)

  /** `LoadConfig`: the global configuration is replaced only when the file
      was read, decoded and validated; otherwise it keeps its old value. */
  function LoadConfig(appConfig: Option<Config>, src: ConfigSource): (l: Loaded)
    ensures l.result.Success? <==> src.Decoded? && ValidateConfig(src.config).None?
    ensures l.result.Success? ==> l.result.value == src.config && l.appConfig == Some(src.config)
    ensures l.result.Failure? ==> l.appConfig == appConfig
    ensures src.Decoded? && ValidateConfig(src.config).Some? ==>
              l.result == Failure(Invalid(ValidateConfig(src.config).value))
  {
    match src
    case Unreadable => Loaded(Failure(ReadFailed), appConfig)
    case Undecodable => Loaded(Failure(DecodeFailed), appConfig)
    case Decoded(c) =>
      match ValidateConfig(c)
      case Some(err) => Loaded(Failure(Invalid(err)), appConfig)
      case None => Loaded(Success(c), Some(c))
  }

  /** The key length is counted in UTF-8 bytes, not characters: a key of
      16 two-byte characters (32 bytes) is accepted, while a key of 31 ASCII
      characters is rejected. */
  lemma KeyLengthIsInBytes()
    ensures KeyLongEnough(seq(16, _ => 'é'))
    ensures !KeyLongEnough(seq(31, _ => 'a'))
  {
    var wide := seq(16, _ => 'é');
    var narrow := seq(31, _ => 'a');
    Utf8LengthUniform(wide, 'é');
    Utf8LengthUniform(narrow, 'a');
  }

  lemma {:induction false} Utf8LengthUniform(s: string, c: char)
    requires forall i :: 0 <= i < |s| ==> s[i] == c
    ensures Utf8Length(s) == |s| * Utf8Width(c)
  {
    if |s| > 0 {
      Utf8LengthUniform(s[1..], c);
    }
  }
}
