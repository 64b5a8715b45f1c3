/** Process configuration (cmd/gpproxy/config.go). The environment parsing
    step is modelled from the struct tags of `Config`: `PORT` defaults to 8545,
    `NODE_URL` is required, `NODE_WS_URL` is optional. After parsing, an empty
    WebSocket address is derived from the HTTP address. */
module Config {
  import opened Wrappers
  import opened GoTypes
  import InfuraWs

  const DefaultPort: nat := 8545

  /** `Config`: listening port and the two upstream addresses. */
  datatype Config = Config(port: nat, nodeURL: string, nodeWSURL: string)

  /** The process environment, variable name to value. */
  type Env = map<string, string>

  datatype EnvError =
    | RequiredNotSet(key: string)
    | ParseError(field: string, value: string)

  /** Unsigned decimal parse of an environment value into a `uint` field:
      non-empty, digits only, at most 32 bits. */
  function ParseUint(s: string): (r: Option<nat>)
    ensures r.Some? <==> |s| > 0 && AllDigits(s) && DecimalValue(s) <= MaxUint32
    ensures r.Some? ==> r.value <= MaxUint32
    ensures r.Some? ==> AllDigits(s) && r.value == DecimalValue(s)
  {
    if |s| == 0 || !AllDigits(s) then None
    else if DecimalValue(s) > MaxUint32 then None
    else Some(DecimalValue(s))
  }

  /** Printing a port and parsing the text back gives the same port. */
  lemma ParseShowRoundTrip(n: nat)
    requires n <= MaxUint32
    ensures ParseUint(ShowDecimal(n)) == Some(n)
  {
    DecimalOfShow(n);
  }

  /** The environment parsing step. Fields are processed in declaration order
      and the first failure is returned; a variable that is set but empty
      leaves its field at the zero value. */
  function ParseEnv(env: Env): (r: Result<Config, EnvError>)
    ensures "PORT" !in env && "NODE_URL" in env ==> r.Success? && r.value.port == DefaultPort
    ensures "PORT" in env && env["PORT"] == "" && "NODE_URL" in env ==> r.Success? && r.value.port == 0
    ensures "PORT" in env && ParseUint(env["PORT"]).Some? && "NODE_URL" in env
            ==> r.Success? && r.value.port == ParseUint(env["PORT"]).value
    ensures "PORT" in env && env["PORT"] != "" && ParseUint(env["PORT"]).None?
            ==> r == Failure(ParseError("Port", env["PORT"]))
    ensures ("PORT" !in env || ParseUint(env["PORT"]).Some? || env["PORT"] == "") && "NODE_URL" !in env
            ==> r == Failure(RequiredNotSet("NODE_URL"))
    ensures r.Success? ==> "NODE_URL" in env && r.value.nodeURL == env["NODE_URL"]
    ensures r.Success? ==> r.value.nodeWSURL == (if "NODE_WS_URL" in env then env["NODE_WS_URL"] else "")
    ensures r.Success? ==> r.value.port <= MaxUint32
  {
    var port :- if "PORT" !in env then Success(DefaultPort)
                else if env["PORT"] == "" then Success(0)
                else match ParseUint(env["PORT"])
                  case Some(v) => Success(v)
                  case None => Failure(ParseError("Port", env["PORT"]));
    var nodeURL :- if "NODE_URL" in env then Success(env["NODE_URL"])
                   else Failure(RequiredNotSet("NODE_URL"));
    var nodeWSURL := if "NODE_WS_URL" in env then env["NODE_WS_URL"] else "";
    Success(Config(port, nodeURL, nodeWSURL))
  }

  /** The fallback of `LoadConfig`: an empty WebSocket address is replaced by
      the one derived from the HTTP address; nothing else changes. */
  function WithWSFallback(c: Config): (r: Config)
    ensures r.port == c.port && r.nodeURL == c.nodeURL
    ensures c.nodeWSURL != "" ==> r == c
    ensures c.nodeWSURL == "" ==> r.nodeWSURL == InfuraWs.HandleInfuraNodeWS(c.nodeURL)
    ensures r.nodeWSURL == "" <==> c.nodeWSURL == "" && c.nodeURL == ""
  {
    InfuraWs.DerivedEmptyIff(c.nodeURL);
    if c.nodeWSURL == "" then c.(nodeWSURL := InfuraWs.HandleInfuraNodeWS(c.nodeURL)) else c
  }

  /** Applying the fallback a second time changes nothing. */
  lemma WithWSFallbackIdempotent(c: Config)
    ensures WithWSFallback(WithWSFallback(c)) == WithWSFallback(c)
  {
  }

  /** `LoadConfig`: a parse failure is returned as is and no derivation runs;
      otherwise the parsed configuration with the WebSocket fallback applied. */
  function LoadConfig(env: Env): (r: Result<Config, EnvError>)
    ensures ParseEnv(env).Failure? ==> r == ParseEnv(env)
    ensures ParseEnv(env).Success? ==> r.Success?
    ensures r.Success? ==> r.value.port == ParseEnv(env).value.port
    ensures r.Success? ==> r.value.nodeURL == env["NODE_URL"]
    ensures r.Success? && "NODE_WS_URL" in env && env["NODE_WS_URL"] != ""
            ==> r.value.nodeWSURL == env["NODE_WS_URL"]
    ensures r.Success? && ("NODE_WS_URL" !in env || env["NODE_WS_URL"] == "")
            ==> r.value.nodeWSURL == InfuraWs.HandleInfuraNodeWS(env["NODE_URL"])
  {
    var parsed :- ParseEnv(env);
    Success(WithWSFallback(parsed))
  }

  /** The listening address `main` builds from the configured port. */
  function ListenAddr(c: Config): (r: string)
    ensures |r| > 1 && r[0] == ':'
    ensures c.port <= MaxUint32 ==> ParseUint(r[1..]) == Some(c.port)
  {
    DecimalOfShow(c.port);
    ":" + ShowDecimal(c.port)
  }
}
