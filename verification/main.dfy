/** Start-up of the proxy process (`main` in cmd/gpproxy/main.go): load the
    configuration, then build the node service from the two configured
    addresses; either failure stops the process before it serves. */
module Main {
  import opened Wrappers
  import Config
  import InfuraWs
  import Node

  datatype StartupError = ConfigError(env: Config.EnvError) | NodeError(message: string)

  /** What the process serves with: its configuration and node service. */
  datatype Started = Started(config: Config.Config, node: Node.NodeService, listenAddr: string)

  function Startup(env: Config.Env, parse: Node.UrlParser): (r: Result<Started, StartupError>)
    ensures Config.LoadConfig(env).Failure? ==> r == Failure(ConfigError(Config.LoadConfig(env).error))
    ensures r.Success? ==> Config.LoadConfig(env) == Success(r.value.config)
    ensures r.Success? ==> parse(r.value.config.nodeURL) == Success(r.value.node.httpURL)
    ensures r.Success? ==> parse(r.value.config.nodeWSURL) == Success(r.value.node.wsURL)
    ensures r.Success? ==> r.value.listenAddr == Config.ListenAddr(r.value.config)
    ensures Config.LoadConfig(env).Success? ==>
      var c := Config.LoadConfig(env).value;
      r.Success? <==> parse(c.nodeURL).Success? && parse(c.nodeWSURL).Success?
  {
    match Config.LoadConfig(env)
    case Failure(e) => Failure(ConfigError(e))
    case Success(c) =>
      match Node.NewNodeService(parse, c.nodeURL, c.nodeWSURL)
      case Failure(m) => Failure(NodeError(m))
      case Success(node) => Success(Started(c, node, Config.ListenAddr(c)))
  }

  /** Without `NODE_WS_URL`, the node service's WebSocket upstream is the
      parse of the address derived from `NODE_URL`. */
  lemma DerivedWsUpstream(env: Config.Env, parse: Node.UrlParser)
    requires "NODE_WS_URL" !in env
    requires Startup(env, parse).Success?
    ensures parse(InfuraWs.HandleInfuraNodeWS(env["NODE_URL"])) == Success(Startup(env, parse).value.node.wsURL)
  {
  }
}
