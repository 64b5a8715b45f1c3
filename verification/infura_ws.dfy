/** Derivation of the upstream WebSocket address from the HTTP address
    (`handleInfuraNodeWS` in cmd/gpproxy/main.go, duplicated in the test
    harness). The scheme step turns `http`/`https` into the `ws`/`wss` schemes
    of section 3 of RFC 6455; the provider step moves Infura's `/v3` endpoint
    to its `/ws/v3` WebSocket endpoint. Both are first-occurrence substring
    replacements, not anchored to the start of the address. */
module InfuraWs {
  import opened Strings

  const Http: string := "http"
  const Ws: string := "ws"
  const InfuraV3: string := "infura.io/v3"
  const InfuraWsV3: string := "infura.io/ws/v3"

  /** First step: the first `http` anywhere in the address becomes `ws`. */
  function SchemeStep(url: string): (r: string)
    ensures !Contains(url, Http) ==> r == url
    ensures Contains(url, Http) ==> |r| == |url| - 2
  {
    ReplaceFirst(url, Http, Ws)
  }

  /** `handleInfuraNodeWS`: the scheme step, then, only if the intermediate
      address mentions `infura.io/v3`, its first occurrence becomes
      `infura.io/ws/v3`. */
  function HandleInfuraNodeWS(url: string): (r: string)
    ensures !Contains(SchemeStep(url), InfuraV3) ==> r == SchemeStep(url)
    ensures !Contains(url, Http) && !Contains(url, InfuraV3) ==> r == url
    ensures |r| == |url| - (if Contains(url, Http) then 2 else 0)
                         + (if Contains(SchemeStep(url), InfuraV3) then 3 else 0)
  {
    var u := ReplaceFirst(url, Http, Ws);
    if Contains(u, InfuraV3) then ReplaceFirst(u, InfuraV3, InfuraWsV3) else u
  }

  lemma HttpUnbordered()
    ensures Unbordered(Http)
  {
    assert Http[1..][0] != Http[..3][0];
    assert Http[2..][0] != Http[..2][0];
    assert Http[3..][0] != Http[..1][0];
  }

  lemma InfuraV3Unbordered()
    ensures Unbordered(InfuraV3)
  {
    forall k | 0 < k < |InfuraV3|
      ensures InfuraV3[k..] != InfuraV3[..|InfuraV3| - k]
    {
      if k == 7 {
        assert InfuraV3[k..][1] != InfuraV3[..|InfuraV3| - k][1];
      } else {
        assert InfuraV3[k..][0] != InfuraV3[..|InfuraV3| - k][0];
      }
    }
  }

  /** The `http` match is a substring match: whatever precedes the first
      `http` is kept, and everything after it, including any later `http`,
      is left untouched. */
  lemma SchemeStepUnanchored(p: string, rest: string)
    requires !Contains(p, Http)
    ensures SchemeStep(p + Http + rest) == p + Ws + rest
  {
    HttpUnbordered();
    FirstIndexAfterClearPrefix(p, Http, rest);
    ReplaceFirstSplit(p, Http, rest, Ws);
  }

  /** An address that starts with `http` gets the `ws` scheme: `http://…`
      becomes `ws://…` and `https://…` becomes `wss://…`. */
  lemma SchemeStepOnHttpPrefix(rest: string)
    ensures SchemeStep(Http + rest) == Ws + rest
  {
    assert !Contains("", Http);
    SchemeStepUnanchored("", rest);
    assert "" + Http + rest == Http + rest;
    assert "" + Ws + rest == Ws + rest;
  }

  /** When the intermediate address is `p + "infura.io/v3" + q` with no
      earlier occurrence in `p`, exactly that occurrence is rewritten. */
  lemma InfuraStepRewritesFirst(url: string, p: string, q: string)
    requires SchemeStep(url) == p + InfuraV3 + q
    requires !Contains(p, InfuraV3)
    ensures HandleInfuraNodeWS(url) == p + InfuraWsV3 + q
  {
    InfuraV3Unbordered();
    FirstIndexAfterClearPrefix(p, InfuraV3, q);
    ReplaceFirstSplit(p, InfuraV3, q, InfuraWsV3);
  }

  /** The derived address is empty exactly when the HTTP address is. */
  lemma DerivedEmptyIff(url: string)
    ensures HandleInfuraNodeWS(url) == "" <==> url == ""
  {
    if Contains(url, Http) {
      var i :| 0 <= i <= |url| - |Http| && OccursAt(url, Http, i);
      assert |url| >= 4;
    }
  }

  /** `wss://mainnet.` cannot contain `infura.io/v3`: none of its first three
      characters is an `i`. */
  lemma MainnetPrefixClear()
    ensures !Contains(Ws + "s://mainnet.", InfuraV3)
  {
    var p := Ws + "s://mainnet.";
    assert |p| == 14;
    forall j | 0 <= j <= |p| - |InfuraV3|
      ensures !OccursAt(p, InfuraV3, j)
    {
      assert p[j..j + |InfuraV3|][0] == p[j] != 'i';
    }
  }

  /** The Infura mainnet endpoint `https://mainnet.infura.io/v3/<key>` maps to
      its WebSocket endpoint `wss://mainnet.infura.io/ws/v3/<key>`, whatever the
      key contains. */
  lemma InfuraMainnet(key: string)
    ensures HandleInfuraNodeWS(Http + "s://mainnet." + InfuraV3 + "/" + key)
         == Ws + "s://mainnet." + InfuraWsV3 + "/" + key
  {
    var host := "s://mainnet.";
    var tail := "/" + key;
    var url := Http + host + InfuraV3 + "/" + key;
    var p := Ws + host;
    calc {
      SchemeStep(url);
      { assert url == Http + (host + InfuraV3 + tail); }
      SchemeStep(Http + (host + InfuraV3 + tail));
      { SchemeStepOnHttpPrefix(host + InfuraV3 + tail); }
      Ws + (host + InfuraV3 + tail);
      p + InfuraV3 + tail;
    }
    MainnetPrefixClear();
    InfuraStepRewritesFirst(url, p, tail);
    assert p + InfuraWsV3 + tail == Ws + host + InfuraWsV3 + "/" + key;
  }

  /** The test harness (proxy_test.go, `TestMain`) picks the upstream addresses:
      the `NODE_URL` environment value, or else a local fake node whose
      WebSocket endpoint is `/ws` under its address; it then derives the
      WebSocket address with its own copy of the rewrite. That copy computes
      the same address as `handleInfuraNodeWS`. */
  method TestNodeAddresses(envNodeURL: string, fakeURL: string)
    returns (nodeHTTP: string, nodeWS: string)
    ensures nodeHTTP == (if envNodeURL == "" then fakeURL else envNodeURL)
    ensures nodeWS == HandleInfuraNodeWS(if envNodeURL == "" then fakeURL + "/ws" else envNodeURL)
  {
    nodeHTTP := envNodeURL;
    nodeWS := nodeHTTP;
    if nodeHTTP == "" {
      nodeHTTP := fakeURL;
      nodeWS := fakeURL + "/ws";
    }
    nodeWS := ReplaceFirst(nodeWS, "http", "ws");
    if Contains(nodeWS, "infura.io/v3") {
      nodeWS := ReplaceFirst(nodeWS, "infura.io/v3", "infura.io/ws/v3");
    }
  }
}
