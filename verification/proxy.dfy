/** The API of proxy.go: the route table, the gas-price shortcut that
    normalises a request body into a JSON-RPC `eth_gasPrice` call, and the
    dispatch of each route to the node service. */
module Proxy {
  import opened Wrappers
  import opened GoTypes
  import opened Http
  import Rpc
  import Node

  /** The method the shortcut route asks for when the client names none. */
  const DefaultMethod: string := "eth_gasPrice"

  /** An empty method becomes `eth_gasPrice`; nothing else changes. */
  function WithDefaultMethod(r: Rpc.Request): (d: Rpc.Request)
    ensures d.methodName != ""
    ensures r.methodName != "" ==> d == r
    ensures r.methodName == "" ==> d.methodName == DefaultMethod
    ensures d.id == r.id && d.jsonrpc == r.jsonrpc && d.params == r.params
  {
    if r.methodName == "" then r.(methodName := DefaultMethod) else r
  }

  lemma WithDefaultMethodIdempotent(r: Rpc.Request)
    ensures WithDefaultMethod(WithDefaultMethod(r)) == WithDefaultMethod(r)
  {
  }

  /** The request decoded from a body: the zero request when the body holds
      no JSON value, the decoder's error when it is malformed. */
  function DecodeBody(codec: Rpc.Codec, body: seq<byte>): (r: Result<Rpc.Request, string>)
    ensures r.Failure? <==> codec.decode(body).Malformed?
    ensures codec.decode(body).Eof? ==> r == Success(Rpc.EmptyRequest)
    ensures codec.decode(body).Decoded? ==> r == Success(codec.decode(body).request)
  {
    match codec.decode(body)
    case Eof => Success(Rpc.EmptyRequest)
    case Malformed(m) => Failure(m)
    case Decoded(x) => Success(x)
  }

  /** `readRPCRequest`. A malformed body makes `readRPCRequest` panic; here it is a
      `Failure` and no rewritten request exists. Otherwise the verb becomes
      POST, the body becomes the encoding of the decoded request with the
      default method filled in (the deferred rewrite runs after the default is
      applied), and the content length is the new body's length. The target,
      host and headers are untouched. */
  function ReadRpcRequest(codec: Rpc.Codec, req: Request): (r: Result<Request, string>)
    ensures r.Failure? <==> codec.decode(req.body).Malformed?
    ensures r.Failure? ==> r.error == codec.decode(req.body).message
    ensures r.Success? ==> r.value.verb == MethodPost
    ensures r.Success? ==> r.value.contentLength == |r.value.body|
    ensures r.Success? ==> r.value.url == req.url && r.value.host == req.host && r.value.header == req.header
    ensures r.Success? ==> r.value.body == Rpc.Bytes(codec, WithDefaultMethod(DecodeBody(codec, req.body).value))
  {
    match DecodeBody(codec, req.body)
    case Failure(m) => Failure(m)
    case Success(decoded) =>
      var body := Rpc.Bytes(codec, WithDefaultMethod(decoded));
      Success(req.(verb := MethodPost, body := body, contentLength := |body|))
  }

  /** An empty body is forwarded as the zero request asking for `eth_gasPrice`. */
  lemma EmptyBodyAsksGasPrice(codec: Rpc.Codec, req: Request)
    requires codec.decode(req.body) == Rpc.Eof
    ensures ReadRpcRequest(codec, req).Success?
    ensures ReadRpcRequest(codec, req).value.body
         == Rpc.Bytes(codec, Rpc.Request(0, "", DefaultMethod, None))
  {
  }

  /** A decoded request that names a method is forwarded exactly as decoded. */
  lemma ExplicitMethodPreserved(codec: Rpc.Codec, req: Request, x: Rpc.Request)
    requires codec.decode(req.body) == Rpc.Decoded(x) && x.methodName != ""
    ensures ReadRpcRequest(codec, req).Success?
    ensures ReadRpcRequest(codec, req).value.body == Rpc.Bytes(codec, x)
  {
  }

  /** An empty body and a body holding just `{"method":"eth_gasPrice"}` are
      forwarded identically. */
  lemma EmptyBodyLikeExplicitGasPrice(codec: Rpc.Codec, req1: Request, req2: Request)
    requires codec.decode(req1.body) == Rpc.Eof
    requires codec.decode(req2.body) == Rpc.Decoded(Rpc.Request(0, "", DefaultMethod, None))
    ensures ReadRpcRequest(codec, req1).value.body == ReadRpcRequest(codec, req2).value.body
  {
  }

  /** The inbound verb is irrelevant: a GET is normalised exactly like a POST. */
  lemma ReadRpcRequestIgnoresVerb(codec: Rpc.Codec, req: Request, verb: string)
    ensures ReadRpcRequest(codec, req.(verb := verb)) == ReadRpcRequest(codec, req)
  {
  }

  /** What the upstream reads back from a normalised body, when the codec
      reads back what it writes: the decoded request with only its method
      possibly changed, and never an empty method. */
  lemma UpstreamSeesDefaultedRequest(codec: Rpc.Codec, req: Request)
    requires ReadRpcRequest(codec, req).Success?
    requires Rpc.ReadsBack(codec, WithDefaultMethod(DecodeBody(codec, req.body).value))
    ensures
      var decoded := DecodeBody(codec, req.body).value;
      var seen := codec.decode(ReadRpcRequest(codec, req).value.body);
      && seen.Decoded?
      && seen.request.id == decoded.id
      && seen.request.jsonrpc == decoded.jsonrpc
      && seen.request.params == decoded.params
      && seen.request.methodName == (if decoded.methodName == "" then DefaultMethod else decoded.methodName)
  {
  }

  /** Normalising an already normalised request changes nothing, provided the
      codec reads back the request it wrote. */
  lemma {:induction false} ReadRpcRequestIdempotent(codec: Rpc.Codec, req: Request)
    requires ReadRpcRequest(codec, req).Success?
    requires Rpc.ReadsBack(codec, WithDefaultMethod(DecodeBody(codec, req.body).value))
    ensures ReadRpcRequest(codec, ReadRpcRequest(codec, req).value) == ReadRpcRequest(codec, req)
  {
    var once := ReadRpcRequest(codec, req).value;
    var forwarded := WithDefaultMethod(DecodeBody(codec, req.body).value);
    assert codec.decode(once.body) == Rpc.Decoded(forwarded);
    assert DecodeBody(codec, once.body) == Success(forwarded);
    assert WithDefaultMethod(forwarded) == forwarded;
  }

  /** What each registered path is bound to. */
  datatype Handler = NodeHTTP | EthGasPrice | NodeWS | Metrics | Healthz

  /** `Routes`: the registrations, in the order they are made. */
  const RouteTable: seq<(string, Handler)> := [
    ("/", NodeHTTP),
    ("/ws", NodeWS),
    ("/eth/gasprice", EthGasPrice),
    ("/metrics", Metrics),
    ("/healthz", Healthz)]

  /** The router's choice: the first registration whose path is `path`. */
  function Lookup(table: seq<(string, Handler)>, path: string): (h: Option<Handler>)
    ensures h.None? <==> forall i | 0 <= i < |table| :: table[i].0 != path
    ensures h.Some? ==> exists i | 0 <= i < |table| ::
      table[i] == (path, h.value) && forall k | 0 <= k < i :: table[k].0 != path
  {
    if |table| == 0 then None
    else if table[0].0 == path then Some(table[0].1)
    else Lookup(table[1..], path)
  }

  /** The handler the router picks for `path`: one exists exactly for the
      five registered paths. */
  function Route(path: string): (h: Option<Handler>)
    ensures h.Some? <==> path in {"/", "/ws", "/eth/gasprice", "/metrics", "/healthz"}
  {
    var t := RouteTable;
    assert t[0].0 == "/" && t[1].0 == "/ws" && t[2].0 == "/eth/gasprice";
    assert t[3].0 == "/metrics" && t[4].0 == "/healthz";
    Lookup(RouteTable, path)
  }

  /** The route table binds each handler to exactly one path, and every other
      path is unrouted. */
  lemma RouteTableBindings(path: string)
    ensures Route(path) == Some(NodeHTTP) <==> path == "/"
    ensures Route(path) == Some(NodeWS) <==> path == "/ws"
    ensures Route(path) == Some(EthGasPrice) <==> path == "/eth/gasprice"
    ensures Route(path) == Some(Metrics) <==> path == "/metrics"
    ensures Route(path) == Some(Healthz) <==> path == "/healthz"
  {
    var t := RouteTable;
    assert t[0] == ("/", NodeHTTP) && t[1] == ("/ws", NodeWS) && t[2] == ("/eth/gasprice", EthGasPrice);
    assert t[3] == ("/metrics", Metrics) && t[4] == ("/healthz", Healthz);
  }

  /** `API`: the node service may be nil, as when only the health and metrics
      endpoints are exercised. */
  datatype Api = Api(node: Option<Node.NodeService>)

  /** The `/healthz` reply: status 200 and body `ok`. */
  const HealthzResponse: Response := Response(StatusOK, map[], [0x6F, 0x6B])

  /** How one inbound request ends. `Aborted` is a handler panic, which the
      HTTP server recovers by dropping the connection. */
  datatype Outcome =
    | Proxied(exchange: Node.Exchange)
    | Upgraded(dial: Node.WsDial)
    | Replied(response: Response)
    | MetricsPage
    | Aborted(reason: string)
    | NotFound

  const NilNodeService: string := "nil NodeService"

  /** The router dispatching one request at `path`. `roundTrip` is the
      upstream HTTP exchange and `handshake` the headers the WebSocket library
      copies from the inbound request. */
  function Serve(api: Api, codec: Rpc.Codec, roundTrip: Node.RoundTrip, handshake: Header,
                 path: string, req: Request): (o: Outcome)
    ensures Route(path).None? ==> o == NotFound
    ensures Route(path) == Some(Healthz) ==> o == Replied(HealthzResponse)
    ensures Route(path) == Some(Metrics) ==> o == MetricsPage
    ensures Route(path) == Some(NodeHTTP) && api.node.Some? ==>
      o == Proxied(Node.ProxyHttp(api.node.value, codec, roundTrip, req))
    ensures Route(path) == Some(NodeHTTP) && api.node.Some? ==>
      o.Proxied? && o.exchange.sent == Node.HttpDirector(api.node.value, req)
    ensures Route(path) == Some(EthGasPrice) && codec.decode(req.body).Malformed? ==> o.Aborted?
    ensures Route(path) == Some(EthGasPrice) && api.node.Some? && !codec.decode(req.body).Malformed? ==>
      o.Proxied? && o.exchange.sent == Node.HttpDirector(api.node.value, ReadRpcRequest(codec, req).value)
    ensures Route(path) == Some(EthGasPrice) && api.node.Some? && !codec.decode(req.body).Malformed? ==>
      o == Proxied(Node.ProxyHttp(api.node.value, codec, roundTrip, ReadRpcRequest(codec, req).value))
    ensures Route(path) == Some(NodeWS) && api.node.Some? ==>
      o == Upgraded(Node.ProxyWs(api.node.value, req, handshake))
    ensures Route(path).Some? && Route(path).value in {NodeHTTP, EthGasPrice, NodeWS} && api.node.None? ==> o.Aborted?
  {
    match Route(path)
    case None => NotFound
    case Some(Healthz) => Replied(HealthzResponse)
    case Some(Metrics) => MetricsPage
    case Some(NodeHTTP) =>
      (match api.node
       case None => Aborted(NilNodeService)
       case Some(n) => Proxied(Node.ProxyHttp(n, codec, roundTrip, req)))
    case Some(NodeWS) =>
      (match api.node
       case None => Aborted(NilNodeService)
       case Some(n) => Upgraded(Node.ProxyWs(n, req, handshake)))
    case Some(EthGasPrice) =>
      (match ReadRpcRequest(codec, req)
       case Failure(m) => Aborted(m)
       case Success(normalised) =>
         match api.node
         case None => Aborted(NilNodeService)
         case Some(n) => Proxied(Node.ProxyHttp(n, codec, roundTrip, normalised)))
  }

  /** `/healthz` answers 200 `ok` whatever the node service, the upstream's
      state or the request. */
  lemma HealthzNeverTouchesNode(api: Api, codec: Rpc.Codec, roundTrip: Node.RoundTrip,
                                handshake: Header, req: Request)
    ensures Serve(api, codec, roundTrip, handshake, "/healthz", req) == Replied(HealthzResponse)
  {
    RouteTableBindings("/healthz");
  }

  /** With the upstream unreachable, `/` and `/eth/gasprice` answer 500 with
      the JSON error envelope carrying the transport error. */
  lemma UnreachableUpstreamIs500(node: Node.NodeService, codec: Rpc.Codec, roundTrip: Node.RoundTrip,
                                 handshake: Header, path: string, req: Request)
    requires path == "/" || path == "/eth/gasprice"
    requires !codec.decode(req.body).Malformed?
    requires forall r: Request :: roundTrip(r).Failure?
    ensures
      var o := Serve(Api(Some(node)), codec, roundTrip, handshake, path, req);
      && o.Proxied?
      && o.exchange.response.status == StatusInternalServerError
      && o.exchange.response.body == codec.marshal(Node.ErrorEnvelope(roundTrip(o.exchange.sent).error))
  {
    RouteTableBindings(path);
  }

  /** `/eth/gasprice` accepts any verb and forwards a POST; the verb the
      client used makes no difference to the outcome. */
  lemma GasPriceAnyVerb(node: Node.NodeService, codec: Rpc.Codec, roundTrip: Node.RoundTrip,
                        handshake: Header, req: Request, verb: string)
    requires !codec.decode(req.body).Malformed?
    ensures
      var o := Serve(Api(Some(node)), codec, roundTrip, handshake, "/eth/gasprice", req.(verb := verb));
      && o == Serve(Api(Some(node)), codec, roundTrip, handshake, "/eth/gasprice", req)
      && o.Proxied? && o.exchange.sent.verb == MethodPost && o.exchange.sent.url == node.httpURL
  {
    RouteTableBindings("/eth/gasprice");
    ReadRpcRequestIgnoresVerb(codec, req, verb);
  }
}
