/** The configuration records (models/config.go). */
module Models {

  datatype ServerConfig = ServerConfig(port: int, sessionKey: string)

  datatype RouteConfig = RouteConfig(name: string, path: string, target: string, skipAuth: bool)

  datatype CasConfig = CasConfig(baseUrl: string, loginPath: string, validatePath: string, useJson: bool)

  datatype Config = Config(server: ServerConfig, cas: CasConfig, routes: seq<RouteConfig>)
}
