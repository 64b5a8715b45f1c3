/** The node service of node.go: the single upstream, reached over HTTP
    through a reverse proxy and over WebSocket through a WebSocket proxy. The
    network exchange itself is library code; the model covers what the service
    decides before and after it. */
module Node {
  import opened Wrappers
  import opened GoTypes
  import opened Http
  import Rpc

  /** `url.Parse`: a partial function from text to a URL, or an error message. */
  type UrlParser = string -> Result<Url, string>

  /** One HTTP exchange with the upstream: the response, or the transport
      error (refused connection, timeout, ...) that prevented one. */
  type RoundTrip = Request -> Result<Response, string>

  /** `nodeService`: the two parsed upstream addresses, fixed at construction. */
  datatype NodeService = NodeService(httpURL: Url, wsURL: Url)

  /** `NewNodeService`: both strings must parse, the HTTP one first; a parse
      error is returned with the `node: ` prefix. No other check is made. */
  function NewNodeService(parse: UrlParser, httpStr: string, wsStr: string): (r: Result<NodeService, string>)
    ensures r.Success? <==> parse(httpStr).Success? && parse(wsStr).Success?
    ensures r.Success? ==> r.value.httpURL == parse(httpStr).value && r.value.wsURL == parse(wsStr).value
    ensures parse(httpStr).Failure? ==> r == Failure("node: " + parse(httpStr).error)
    ensures parse(httpStr).Success? && parse(wsStr).Failure? ==> r == Failure("node: " + parse(wsStr).error)
  {
    match parse(httpStr)
    case Failure(e) => Failure("node: " + e)
    case Success(httpURL) =>
      match parse(wsStr)
      case Failure(e) => Failure("node: " + e)
      case Success(wsURL) => Success(NodeService(httpURL, wsURL))
  }

  const XForwardedHost: string := "X-Forwarded-Host"
  const HostHeader: string := "Host"
  const ContentType: string := "Content-Type"
  const ApplicationJson: string := "application/json"

  /** The reverse proxy's `Director`: remembers the inbound `Host` in
      `X-Forwarded-Host`, replaces the whole target by the configured HTTP
      address and addresses the request to the upstream host. Verb, body,
      length and the other headers pass through. */
  function HttpDirector(node: NodeService, req: Request): (out: Request)
    ensures XForwardedHost in out.header && out.header[XForwardedHost] == [req.host]
    ensures out.url == node.httpURL
    ensures out.host == node.httpURL.host
    ensures out.verb == req.verb && out.body == req.body && out.contentLength == req.contentLength
    ensures forall k | k in req.header && k != XForwardedHost :: k in out.header && out.header[k] == req.header[k]
    ensures out.header.Keys == req.header.Keys + {XForwardedHost}
  {
    var withForward := req.(header := SetHeader(req.header, XForwardedHost, req.host));
    withForward.(url := node.httpURL, host := node.httpURL.host)
  }

  /** The inbound path and query never reach the upstream: two requests that
      differ only in their target are forwarded identically. */
  lemma HttpDirectorIgnoresInboundTarget(node: NodeService, req: Request, target: Url)
    ensures HttpDirector(node, req.(url := target)) == HttpDirector(node, req)
  {
  }

  /** The error envelope `{"error": message}`. */
  function ErrorEnvelope(message: string): (j: Rpc.Json)
    ensures j.JObject? && |j.members| == 1
    ensures j.members[0].0 == "error" && j.members[0].1 == Rpc.JString(message)
  {
    Rpc.JObject([("error", Rpc.JString(message))])
  }

  /** `RespondWithJSON`: JSON content type, the given status, the encoded payload. */
  function RespondWithJson(codec: Rpc.Codec, code: int, payload: Rpc.Json): (resp: Response)
    ensures resp.status == code
    ensures resp.header == map[ContentType := [ApplicationJson]]
    ensures resp.body == codec.marshal(payload)
  {
    Response(code, SetHeader(map[], ContentType, ApplicationJson), codec.marshal(payload))
  }

  /** `RespondWithError`: `RespondWithJSON` of the error envelope. */
  function RespondWithError(codec: Rpc.Codec, code: int, message: string): (resp: Response)
    ensures resp.status == code
    ensures resp.header == map[ContentType := [ApplicationJson]]
    ensures resp.body == codec.marshal(ErrorEnvelope(message))
  {
    RespondWithJson(codec, code, ErrorEnvelope(message))
  }

  /** What the upstream was sent and what the caller received. */
  datatype Exchange = Exchange(sent: Request, response: Response)

  /** `ProxyHTTP`: the directed request goes to the upstream; its response is
      relayed, and a transport error becomes a 500 error envelope. */
  function ProxyHttp(node: NodeService, codec: Rpc.Codec, roundTrip: RoundTrip, req: Request): (x: Exchange)
    ensures x.sent == HttpDirector(node, req)
    ensures roundTrip(x.sent).Success? ==> x.response == roundTrip(x.sent).value
    ensures roundTrip(x.sent).Failure? ==>
      && x.response.status == StatusInternalServerError
      && x.response.header == map[ContentType := [ApplicationJson]]
      && x.response.body == codec.marshal(ErrorEnvelope(roundTrip(x.sent).error))
  {
    var sent := HttpDirector(node, req);
    match roundTrip(sent)
    case Success(resp) => Exchange(sent, resp)
    case Failure(e) => Exchange(sent, RespondWithError(codec, StatusInternalServerError, e))
  }

  /** The WebSocket proxy's `Backend`: a copy of the configured WebSocket
      address with its fragment, path and query copied over again. Because the
      model's URLs are values, the stored address cannot be changed through it. */
  function WsBackend(node: NodeService, req: Request): (u: Url)
    ensures u == node.wsURL
  {
    var u := node.wsURL;
    u.(fragment := node.wsURL.fragment, path := node.wsURL.path, rawQuery := node.wsURL.rawQuery)
  }

  /** The WebSocket proxy's `Director`: sets `Host` on the outbound handshake
      headers to the configured WebSocket host. */
  function WsDirector(node: NodeService, req: Request, out: Header): (h: Header)
    ensures HostHeader in h && h[HostHeader] == [node.wsURL.host]
    ensures h.Keys == out.Keys + {HostHeader}
    ensures forall k | k in out && k != HostHeader :: h[k] == out[k]
  {
    SetHeader(out, HostHeader, node.wsURL.host)
  }

  /** The upstream handshake `ProxyWS` opens: target address and headers.
      `handshake` is what the WebSocket library copies from the inbound
      request before the director runs. */
  datatype WsDial = WsDial(target: Url, header: Header)

  function ProxyWs(node: NodeService, req: Request, handshake: Header): (d: WsDial)
    ensures d.target == node.wsURL
    ensures HostHeader in d.header && d.header[HostHeader] == [node.wsURL.host]
    ensures d.header.Keys == handshake.Keys + {HostHeader}
    ensures forall k | k in handshake && k != HostHeader :: d.header[k] == handshake[k]
  {
    WsDial(WsBackend(node, req), WsDirector(node, req, handshake))
  }

  /** Every inbound upgrade, whatever its path, query, host or copied
      handshake headers, dials the same upstream target with the same `Host`;
      the other headers depend only on the copied handshake. */
  lemma ProxyWsIndependentOfInbound(node: NodeService, r1: Request, r2: Request, h1: Header, h2: Header)
    ensures ProxyWs(node, r1, h1).target == ProxyWs(node, r2, h2).target
    ensures ProxyWs(node, r1, h1).header[HostHeader] == ProxyWs(node, r2, h2).header[HostHeader]
    ensures ProxyWs(node, r1, h1) == ProxyWs(node, r2, h1)
  {
  }
}
