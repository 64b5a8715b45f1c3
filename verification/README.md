# gpproxy in Dafny

gpproxy is a small reverse proxy in front of a single Ethereum JSON-RPC node.
It has two access paths, plain HTTP and WebSocket, and one shortcut route,
`/eth/gasprice`, that asks for `eth_gasPrice` when the request names no
method. Most of the program hands requests to library code. This project models the parts
that decide what gets forwarded, as pure functions over immutable records,
and proves properties of them:

- **WebSocket address derivation** (`handleInfuraNodeWS`, module `InfuraWs`).
  The first `http` becomes `ws`, giving the `ws`/`wss` schemes of section 3
  of RFC 6455. Then, if the result mentions `infura.io/v3`, its first
  occurrence becomes `infura.io/ws/v3`. The module `Strings` models the Go
  string operations this uses: `strings.Index`, `strings.Contains` and
  `strings.Replace(s, old, new, 1)`.
- **Configuration** (`LoadConfig`, module `Config`). The environment is
  parsed following the struct tags: `PORT` defaults to 8545 and `NODE_URL` is
  required. An empty WebSocket address is then derived from the HTTP address.
- **Node service** (node.go, module `Node`). Construction checks that both
  addresses parse. The HTTP director rewrites the target, `Host` and
  `X-Forwarded-Host`. The WebSocket backend and director choose the dial
  target and its `Host`. Transport errors become a 500 JSON error envelope.
- **API** (proxy.go, module `Proxy`). This covers the route table, the
  `readRPCRequest` normaliser behind `/eth/gasprice`, and the dispatch of
  each route to the node service.
- **Start-up** (`main`, module `Main`). It loads the configuration, then
  builds the node service.

Most library behaviour enters through function-typed parameters: `url.Parse`
(`Node.UrlParser`), `json.Marshal` and the JSON decoder (`Rpc.Codec`), and
the upstream HTTP exchange (`Node.RoundTrip`). A proof that needs the JSON
codec to read back what it wrote states this as a precondition
(`Rpc.ReadsBack`). There are three exceptions:

- The environment parsing of `env.Parse` is modelled concretely in
  `Config.ParseEnv`, under the library behaviour assumed under "Left out".
- The handshake headers the WebSocket library copies from the inbound
  request enter as a plain `Header` argument of `Node.ProxyWs`.
- Go's `strings.Index`, `strings.Contains` and `strings.Replace` are
  modelled directly in `Strings`.

Two panics of the program become explicit outcomes:

- `readRPCRequest` panics on a malformed body (proxy.go:46). There
  `Proxy.ReadRpcRequest` returns a `Failure` and `Proxy.Serve` returns
  `Aborted`.
- A proxy route served with a nil node service panics when the handler calls
  it (proxy.go:39,63,71). `Proxy.Serve` returns `Aborted`.

`NewNodeService` needs only `url.Parse` to accept both strings (node.go:26-34).
It makes no other check, and the tests construct it with an empty string
(proxy_test.go:38,94).

## Model

| member | source | states |
|---|---|---|
| Strings.Contains | cmd/gpproxy/main.go:29 | `strings.Contains` holds exactly when the pattern occurs at some index; it implies the pattern is no longer than the string, and the empty pattern is always contained |
| Strings.FirstIndexOf | cmd/gpproxy/main.go:28 | the result is present exactly when the pattern occurs; it is an occurrence and no occurrence starts earlier |
| Strings.Index | cmd/gpproxy/main.go:28 | the left-to-right scan returns -1 exactly when the pattern is absent, and otherwise the first occurrence |
| Strings.ReplaceFirst | cmd/gpproxy/main.go:28 | without an occurrence the string is unchanged; otherwise the length changes by the lengths' difference, the text before the first match is kept, the replacement sits at the match, and the text after the match is kept |
| Strings.FirstIndexAfterClearPrefix | cmd/gpproxy/main.go:28-31 | for a pattern that cannot overlap itself, the first occurrence in `p + pat + q` is at the end of `p`, provided `p` does not contain the pattern |
| Strings.ReplaceFirstSplit | cmd/gpproxy/main.go:28-31 | replacing in `p + pat + q`, with no occurrence starting inside `p`, gives `p + rep + q`; later occurrences in `q` are untouched |
| Strings.ReplaceFirstHasSplit | cmd/gpproxy/main.go:28-31 | conversely, any string containing the pattern splits as `p + pat + q` with no earlier occurrence, and is replaced to `p + rep + q` |
| InfuraWs.SchemeStep | cmd/gpproxy/main.go:28 | without `http` the address is unchanged; with it the address gets 2 characters shorter |
| InfuraWs.HandleInfuraNodeWS | cmd/gpproxy/main.go:27-33 | if the intermediate address lacks `infura.io/v3`, the output is the scheme step's result; an address with neither `http` nor `infura.io/v3` is a fixed point; the output length is the input length, minus 2 if `http` occurs, plus 3 if the Infura rewrite fires |
| InfuraWs.SchemeStepUnanchored | cmd/gpproxy/main.go:28 | `http` matches anywhere, not only as a prefix: `p + "http" + rest` becomes `p + "ws" + rest` when `p` contains no `http`, even if `rest` does |
| InfuraWs.SchemeStepOnHttpPrefix | cmd/gpproxy/main.go:28 | an address starting with `http` gets `ws` instead, so `http://…` becomes `ws://…` and `https://…` becomes `wss://…` |
| InfuraWs.InfuraStepRewritesFirst | cmd/gpproxy/main.go:29-31 | when the intermediate address is `p + "infura.io/v3" + q` with no earlier occurrence, the output is `p + "infura.io/ws/v3" + q` |
| InfuraWs.DerivedEmptyIff | cmd/gpproxy/main.go:27-33 | the derived address is empty exactly when the input is empty |
| InfuraWs.InfuraMainnet | cmd/gpproxy/main.go:27-33 | `https://mainnet.infura.io/v3/<key>` derives `wss://mainnet.infura.io/ws/v3/<key>` for every key |
| InfuraWs.TestNodeAddresses | proxy_test.go:21-32 | the test harness's own copy of the rewrite computes `handleInfuraNodeWS` of its chosen address, which is `NODE_URL` or else the fake node's `/ws` endpoint |
| GoTypes.ShowDecimal | cmd/gpproxy/main.go:23 | `%d` printing yields a non-empty string of digits with no leading zero |
| GoTypes.DecimalOfShow | cmd/gpproxy/main.go:23 | the decimal digits printed for a number read back as that number |
| Config.ParseUint | cmd/gpproxy/config.go:8 | a `PORT` value is accepted exactly when it is a non-empty string of digits whose value fits in 32 bits, and then yields that decimal value (leading zeros allowed) |
| Config.ParseShowRoundTrip | cmd/gpproxy/config.go:8 | parsing the printed form of any 32-bit port gives the same port back |
| Config.ParseEnv | cmd/gpproxy/config.go:7-15 | an absent `PORT` gives 8545, a set but empty one gives 0, and a parsable one gives its value; an unparsable `PORT` is an error; a missing `NODE_URL` is an error otherwise; on success the addresses are the environment values, and an absent `NODE_WS_URL` is empty |
| Config.WithWSFallback | cmd/gpproxy/config.go:18-20 | the port and HTTP address never change; a non-empty WebSocket address is kept; an empty one becomes `handleInfuraNodeWS` of the HTTP address; the result is empty only if both addresses were |
| Config.WithWSFallbackIdempotent | cmd/gpproxy/config.go:18-20 | applying the fallback twice is the same as once |
| Config.LoadConfig | cmd/gpproxy/config.go:14-22 | a parse error is returned unchanged with no derivation; otherwise the port and `NODE_URL` pass through, a non-empty `NODE_WS_URL` is kept, and an unset or empty one is derived from `NODE_URL` |
| Config.ListenAddr | cmd/gpproxy/main.go:23 | the listen address is `:` followed by text that parses back to the configured port |
| Rpc.ToJson | rpc.go:8-13 | a request is encoded as an object with the members `id` (its decimal id), `jsonrpc`, `method` and `params` (`null` for a nil slice), in that order, each carrying the request's field |
| Rpc.Bytes | rpc.go:16-19 | `Request.Bytes` is `json.Marshal` of the request's JSON object, and decoding it gives the request back exactly when the codec reads back that request |
| Rpc.ToJsonInjective | rpc.go:8-17 | different requests are encoded as different JSON values, so no field is lost in encoding |
| Node.NewNodeService | node.go:25-46 | construction succeeds exactly when both strings parse, and the service then holds the two parsed URLs; otherwise the first parse error is returned with the `node: ` prefix |
| Http.SetHeader | node.go:64 | `Header.Set` leaves the key holding exactly the one value, adds the key, and keeps every other key's values |
| Node.HttpDirector | node.go:63-67 | `X-Forwarded-Host` holds the inbound host; the URL is the configured HTTP URL; `Host` is that URL's host; verb, body, length and all other headers pass through |
| Node.HttpDirectorIgnoresInboundTarget | node.go:65 | the inbound path and query never influence the forwarded request |
| Node.ErrorEnvelope | node.go:91-93 | the error payload is a one-member object `{"error": message}` |
| Node.RespondWithJson | node.go:84-89 | the response has the given status, `Content-Type: application/json` and the encoded payload as body |
| Node.RespondWithError | node.go:91-93 | the response has the given status, JSON content type and the encoded error envelope |
| Node.ProxyHttp | node.go:62-78 | the upstream receives the directed request; its response is relayed unchanged; a transport error yields status 500, JSON content type and `{"error": <message>}` |
| Node.WsBackend | node.go:50-56 | the backend URL equals the configured WebSocket URL (path, query and fragment included) for every inbound request |
| Node.WsDirector | node.go:57-59 | the outbound handshake `Host` is the configured WebSocket host, and the other headers are unchanged |
| Node.ProxyWs | node.go:49-60 | the upgrade dials the configured WebSocket URL with `Host` set to its host, and every other copied handshake header reaches the dial unchanged |
| Node.ProxyWsIndependentOfInbound | node.go:50-59 | any two inbound upgrade requests dial the same target with the same `Host`, whatever handshake headers each one copies; the other headers depend only on the copied handshake |
| Proxy.WithDefaultMethod | proxy.go:55-57 | the method is never empty afterwards; a non-empty method is kept; an empty one becomes `eth_gasPrice`; id, version and params are unchanged |
| Proxy.WithDefaultMethodIdempotent | proxy.go:55-57 | defaulting twice is defaulting once |
| Proxy.DecodeBody | proxy.go:43-48 | an empty body gives the zero request; a malformed body is a failure; otherwise the decoded request |
| Proxy.ReadRpcRequest | proxy.go:42-60 | a malformed body is a failure with no rewritten request; otherwise the verb is POST, the body encodes the decoded request with the default method applied, the content length equals the body length, and target, host and headers are untouched |
| Proxy.EmptyBodyAsksGasPrice | proxy.go:44-57 | an empty body is forwarded as the zero request with method `eth_gasPrice` |
| Proxy.ExplicitMethodPreserved | proxy.go:55-57 | a decoded request naming a method is forwarded exactly as decoded |
| Proxy.EmptyBodyLikeExplicitGasPrice | proxy_test.go:56-62 | an empty body and `{"method":"eth_gasPrice"}` are forwarded with identical bodies |
| Proxy.ReadRpcRequestIgnoresVerb | proxy.go:58 | a GET and a POST with the same body are normalised identically |
| Proxy.UpstreamSeesDefaultedRequest | proxy.go:49-57 | with a codec that reads back its own output, the upstream decodes the client's id, version and params unchanged, and the client's method or `eth_gasPrice` if it was empty |
| Proxy.ReadRpcRequestIdempotent | proxy.go:42-60 | normalising an already normalised request changes nothing, given a codec that reads back its own output |
| Proxy.Lookup | proxy.go:24-36 | the router finds nothing exactly when no registration has the path, and otherwise returns the handler of the first registration with that path |
| Proxy.RouteTableBindings | proxy.go:26-34 | `/`, `/ws`, `/eth/gasprice`, `/metrics` and `/healthz` are each bound to their own handler, and no other path reaches any of them |
| Proxy.Route | proxy.go:24-36 | the router has a handler for a path exactly when it is one of `/`, `/ws`, `/eth/gasprice`, `/metrics` and `/healthz` |
| Proxy.Serve | proxy.go:24-72 | `/` is exactly `ProxyHTTP` of the inbound request (so the caller gets the upstream's response or the 500 envelope); `/eth/gasprice` is exactly `ProxyHTTP` of the normalised request, or aborts on a malformed body; `/ws` dials the WebSocket upstream; `/healthz` replies 200 `ok`; `/metrics` is delegated; unknown paths are not found; proxy routes abort without a node service |
| Proxy.HealthzNeverTouchesNode | proxy.go:31-34 | `/healthz` answers 200 `ok` whatever the node service (even nil), the upstream and the request |
| Proxy.UnreachableUpstreamIs500 | node.go:68-70 | when the upstream cannot be reached, `/` and `/eth/gasprice` answer 500 with the JSON error envelope |
| Proxy.GasPriceAnyVerb | proxy.go:38-60 | `/eth/gasprice` gives the same outcome for every inbound verb and forwards a POST to the configured HTTP URL |
| Main.Startup | cmd/gpproxy/main.go:14-23 | a configuration error stops start-up; otherwise start-up succeeds exactly when both configured addresses parse, and the service holds the parsed addresses and listens on the configured port |
| Main.DerivedWsUpstream | cmd/gpproxy/config.go:18-20 | without `NODE_WS_URL`, the node's WebSocket upstream is the parse of the address derived from `NODE_URL` |

## Left out

- HTTP forwarding itself is out: the reverse proxy's transport, response streaming, hop-by-hop header removal, `X-Forwarded-For` and copying upstream response headers (node.go:62,77). The upstream exchange is the `RoundTrip` parameter, and its response is relayed as a whole.
- The WebSocket relay is out: the upgrade, the dial and its failure response, duplex frame copying and teardown (node.go:49,81). This is concurrent network I/O inside a library. Only the dial target and its headers are modelled.
- JSON encoding and decoding are out (rpc.go:17, proxy.go:44, node.go:85). They are library code, supplied as `Rpc.Codec`. Lemmas that need the codec to read back what it wrote take that as a precondition.
- `url.Parse` is out (node.go:26,31). It is library code, supplied as `Node.UrlParser`. The model cannot say that empty strings parse; that depends on the parser passed in.
- `url.URL` keeps only scheme, user, host, path, query and fragment. Go's URL is shared by pointer, but the model's records are values, so the stored URLs cannot change.
- Header names are assumed to be in canonical form already. `Header.Set` canonicalisation is not modelled.
- Closing the body and the reader wrappers (proxy.go:51-52) are out, because they are I/O.
- Config.ParseEnv: env.Parse's reflection is out. Three library behaviours are assumed: fields are read in declaration order and the first error is returned; a variable that is set but empty leaves the field at its zero value; a `uint` field is parsed as an unsigned decimal of at most 32 bits. Error messages are a datatype, not the library's text.
- `Request.ID` is a Go `uint`, taken to be 64 bits wide (`GoTypes.uint64`), its width on 64-bit platforms; a 32-bit build is not modelled.
- Go strings are byte sequences, but the model's strings are sequences of Unicode scalar values. Invalid UTF-8 is not modelled.
- Router internals are out: gorilla/mux path cleaning and redirects, and the body of its 404 reply. The Prometheus `/metrics` handler is out (only the fact that it is routed remains). So are logrus and `ListenAndServe` (cmd/gpproxy/main.go:12,24).
- Proxy.Serve: a handler panic is modelled as `Aborted`. The panic comes from a malformed shortcut body or a nil node service. What the HTTP server then does with the connection is not modelled.
- The test fixtures (`FakeEthNode`, proxy_test.go:161-222) are out.
