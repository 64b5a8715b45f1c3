/** The JSON-RPC 2.0 request object of rpc.go (section 4 of the JSON-RPC 2.0
    specification) and the JSON values it is encoded as. Encoding JSON values
    to bytes and decoding bytes into a request are done by library code; the
    model receives them as a `Codec`. */
module Rpc {
  import opened Wrappers
  import opened GoTypes

  /** A JSON value. Numbers keep their literal text. */
  datatype Json =
    | JNull
    | JBool(b: bool)
    | JNumber(literal: string)
    | JString(s: string)
    | JArray(items: seq<Json>)
    | JObject(members: seq<(string, Json)>)

  /** `Request`: `params` is `None` for a nil slice, which encodes as `null`. */
  datatype Request = Request(id: uint64, jsonrpc: string, methodName: string, params: Option<seq<Json>>)

  /** The zero `Request`, what an empty body leaves behind. */
  const EmptyRequest: Request := Request(0, "", "", None)

  /** Outcome of decoding one JSON value from a body into a `Request`: the
      body held no value at all (`io.EOF`), was malformed, or decoded. */
  datatype DecodeOutcome = Eof | Malformed(message: string) | Decoded(request: Request)

  /** The JSON library: `marshal` is `json.Marshal`, `decode` is
      `json.NewDecoder(body).Decode(&request)`. */
  datatype Codec = Codec(marshal: Json -> seq<byte>, decode: seq<byte> -> DecodeOutcome)

  /** A codec that reads back what it wrote for request `r`. */
  predicate ReadsBack(codec: Codec, r: Request) {
    codec.decode(codec.marshal(ToJson(r))) == Decoded(r)
  }

  /** The JSON object `json.Marshal` builds from a `Request`: its four fields,
      named by their struct tags, in declaration order. */
  function ToJson(r: Request): (j: Json)
    ensures j.JObject? && |j.members| == 4
    ensures j.members[0] == ("id", JNumber(ShowDecimal(r.id)))
    ensures j.members[1] == ("jsonrpc", JString(r.jsonrpc))
    ensures j.members[2] == ("method", JString(r.methodName))
    ensures j.members[3].0 == "params"
    ensures r.params.None? ==> j.members[3].1 == JNull
    ensures r.params.Some? ==> j.members[3].1 == JArray(r.params.value)
  {
    JObject([
      ("id", JNumber(ShowDecimal(r.id))),
      ("jsonrpc", JString(r.jsonrpc)),
      ("method", JString(r.methodName)),
      ("params", match r.params case None => JNull case Some(ps) => JArray(ps))])
  }

  /** Distinct requests have distinct encodings: every field can be read
      back from the JSON object. */
  lemma ToJsonInjective(a: Request, b: Request)
    requires ToJson(a) == ToJson(b)
    ensures a == b
  {
    DecimalOfShow(a.id);
    DecimalOfShow(b.id);
    assert ShowDecimal(a.id) == ShowDecimal(b.id);
  }

  /** `Request.Bytes`: the request serialised with `json.Marshal`. */
  function Bytes(codec: Codec, r: Request): (b: seq<byte>)
    ensures b == codec.marshal(ToJson(r))
    ensures codec.decode(b) == Decoded(r) <==> ReadsBack(codec, r)
  {
    codec.marshal(ToJson(r))
  }
}
