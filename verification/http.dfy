/** The parts of Go's `net/http` and `net/url` values that the proxy reads
    or rewrites, as immutable records. */
module Http {
  import opened GoTypes

  /** `url.URL`, reduced to the components the proxy uses. */
  datatype Url = Url(
    scheme: string,
    user: string,
    host: string,
    path: string,
    rawQuery: string,
    fragment: string)

  /** `http.Header`: canonical header name to its values. Keys are written in
      canonical form throughout the model. */
  type Header = map<string, seq<string>>

  /** `Header.Set`: the key now holds exactly `value`; other keys keep theirs. */
  function SetHeader(h: Header, key: string, value: string): (r: Header)
    ensures key in r && r[key] == [value]
    ensures r.Keys == h.Keys + {key}
    ensures forall k | k in h && k != key :: r[k] == h[k]
  {
    h[key := [value]]
  }

  /** `http.Request`: verb, target URL, the `Host` the request is addressed
      to, headers, the body bytes and the declared content length. */
  datatype Request = Request(
    verb: string,
    url: Url,
    host: string,
    header: Header,
    body: seq<byte>,
    contentLength: int)

  /** What a handler writes to its `http.ResponseWriter`. */
  datatype Response = Response(status: int, header: Header, body: seq<byte>)

  const MethodPost: string := "POST"
  const StatusOK: int := 200
  const StatusInternalServerError: int := 500
}
