/**
 * `middleware1.ts`: the allow-list variant of the `/h5-api` gateway. The
 * outbound headers are built from scratch, four credentials are copied when
 * present, there is no retry, and an upstream 403 becomes a JSON answer that
 * quotes the first 500 characters of the upstream text.
 */
module Middleware1 {
  import opened Wrappers
  import opened Text
  import opened FetchApi
  import opened Gateway


  /** `importantHeaders`: the inbound headers copied when present. */
  const ImportantHeaders := ["Authorization", "X-API-Key", "X-Requested-With", "Cookie"]

  /** Their stored (lower-case) names, in the same order. */
  const ImportantNames := ["authorization", "x-api-key", "x-requested-with", "cookie"]

  /** The six headers that are always sent. */
  const FixedNames := {"host", "user-agent", "accept", "content-type", "referer", "origin"}

  lemma ImportantNameLower(i: nat)
    requires i < |ImportantHeaders|
    ensures Lower(ImportantHeaders[i]) == ImportantNames[i]
  {
    if i == 0 {
      LowerConcat("Author", "ization");
      assert "Authorization" == "Author" + "ization";
    } else if i == 1 {
      assert Lower("X-API-Key") == "x-api-key";
    } else if i == 2 {
      LowerConcat("X-Requested", "-With");
      assert "X-Requested-With" == "X-Requested" + "-With";
    } else {
      assert Lower("Cookie") == "cookie";
    }
  }

  /** The `importantHeaders.forEach` loop: after the first `k` important names, each present and non-empty value is set. */
  function CopyImportant(h: HeaderMap, inbound: HeaderMap, k: nat): HeaderMap
    requires k <= |ImportantHeaders|
  {
    if k == 0 then h
    else
      var name := ImportantHeaders[k - 1];
      var value := Lookup(inbound, name);
      var h' := CopyImportant(h, inbound, k - 1);
      if Truthy(value) then (LowerIsLower(name); h'[Lower(name) := value.value]) else h'
  }

  /** The headers set before the important ones are copied: host, user agent, accept, content type, referer, origin. */
  function BaseHeaders(inbound: HeaderMap, url: Url): HeaderMap {
    map[
      "host" := url.host,
      "user-agent" := UserAgent,
      "accept" := AcceptAny,
      "content-type" := LookupOr(inbound, "Content-Type", "application/json"),
      "referer" := Origin(url),
      "origin" := Origin(url)]
  }

  lemma ContentTypeLower()
    ensures Lower("Content-Type") == "content-type"
  {
    LowerConcat("Content-", "Type");
    assert "Content-Type" == "Content-" + "Type";
  }

  lemma FixedNamesLower()
    ensures Lower("Host") == "host" && Lower("User-Agent") == "user-agent" && Lower("Accept") == "accept"
    ensures Lower("Content-Type") == "content-type" && Lower("Referer") == "referer" && Lower("Origin") == "origin"
  {
    ContentTypeLower();
    LowerConcat("User-", "Agent");
    assert "User-Agent" == "User-" + "Agent";
  }

  /** The allow-listed outbound headers. */
  function OutboundHeaders(inbound: HeaderMap, url: Url): HeaderMap {
    CopyImportant(BaseHeaders(inbound, url), inbound, |ImportantHeaders|)
  }

  /** An important name the inbound request carries with a non-empty value. */
  predicate Carried(inbound: HeaderMap, names: seq<string>, n: string) {
    n in names && n in inbound && inbound[n] != ""
  }

  /**
   * Copying the first `k` important names adds exactly those of them that the
   * inbound request carries with a non-empty value, with that value, and keeps
   * the rest.
   */
  lemma {:induction false} CopyImportantAdds(h: HeaderMap, inbound: HeaderMap, k: nat)
    requires k <= |ImportantHeaders|
    ensures forall n :: n in CopyImportant(h, inbound, k) <==> n in h || Carried(inbound, ImportantNames[..k], n)
    ensures forall n :: Carried(inbound, ImportantNames[..k], n) ==> CopyImportant(h, inbound, k)[n] == inbound[n]
    ensures forall n :: n in h && !Carried(inbound, ImportantNames[..k], n) ==> CopyImportant(h, inbound, k)[n] == h[n]
  {
    if k > 0 {
      CopyImportantAdds(h, inbound, k - 1);
      CopyImportantStep(h, inbound, k);
      assert ImportantNames[..k] == ImportantNames[..k - 1] + [ImportantNames[k - 1]];
      SetCarried(h, inbound, ImportantNames[..k - 1], ImportantNames[k - 1],
                 CopyImportant(h, inbound, k - 1), CopyImportant(h, inbound, k));
    }
  }

  /** One more name in the loop: setting it when carried keeps the three facts above. */
  lemma SetCarried(h: HeaderMap, inbound: HeaderMap, names: seq<string>, n: string, prev: HeaderMap, cur: HeaderMap)
    requires forall m :: m in prev <==> m in h || Carried(inbound, names, m)
    requires forall m :: Carried(inbound, names, m) ==> prev[m] == inbound[m]
    requires forall m :: m in h && !Carried(inbound, names, m) ==> prev[m] == h[m]
    requires cur == if n in inbound && inbound[n] != "" then prev[n := inbound[n]] else prev
    ensures forall m :: m in cur <==> m in h || Carried(inbound, names + [n], m)
    ensures forall m :: Carried(inbound, names + [n], m) ==> cur[m] == inbound[m]
    ensures forall m :: m in h && !Carried(inbound, names + [n], m) ==> cur[m] == h[m]
  {
    CarriedSnoc(inbound, names, n);
  }

  lemma CarriedSnoc(inbound: HeaderMap, names: seq<string>, n: string)
    ensures forall m :: Carried(inbound, names + [n], m) <==>
      Carried(inbound, names, m) || (m == n && n in inbound && inbound[n] != "")
  {
  }

  /** One round of the loop, with the name in its stored form. */
  lemma CopyImportantStep(h: HeaderMap, inbound: HeaderMap, k: nat)
    requires 0 < k <= |ImportantHeaders|
    ensures var prev, n := CopyImportant(h, inbound, k - 1), ImportantNames[k - 1];
      CopyImportant(h, inbound, k) == if n in inbound && inbound[n] != "" then prev[n := inbound[n]] else prev
  {
    ImportantNameLower(k - 1);
  }

  lemma FixedNamesNotImportant()
    ensures forall n :: n in FixedNames ==> n !in ImportantNames
  {
  }

  /**
   * The allow-list policy, names: the six fixed headers are always sent, and
   * the only others are the four credentials, each exactly when the request
   * carries it with a non-empty value. No other inbound header is forwarded.
   */
  lemma AllowListNames(inbound: HeaderMap, url: Url)
    ensures forall n :: n in OutboundHeaders(inbound, url) <==> n in FixedNames || Carried(inbound, ImportantNames, n)
  {
    CopyImportantAdds(BaseHeaders(inbound, url), inbound, |ImportantHeaders|);
    assert ImportantNames[..|ImportantHeaders|] == ImportantNames;
  }

  /**
   * The allow-list policy, values: `host` is the target host, `referer` and
   * `origin` are the upstream origin whatever the request says, `accept` and
   * `user-agent` are fixed, `content-type` is inherited when non-empty.
   */
  lemma AllowListFixedValues(inbound: HeaderMap, url: Url)
    ensures var h := OutboundHeaders(inbound, url);
      && "host" in h && h["host"] == url.host
      && "user-agent" in h && h["user-agent"] == UserAgent
      && "accept" in h && h["accept"] == AcceptAny
      && "referer" in h && h["referer"] == Origin(url)
      && "origin" in h && h["origin"] == Origin(url)
      && "content-type" in h
      && h["content-type"] == (if "content-type" in inbound && inbound["content-type"] != "" then inbound["content-type"] else "application/json")
  {
    FixedKeepBase(inbound, url);
    ContentTypeLower();
  }

  lemma FixedKeepBase(inbound: HeaderMap, url: Url)
    ensures forall n :: n in FixedNames ==> n in OutboundHeaders(inbound, url) && OutboundHeaders(inbound, url)[n] == BaseHeaders(inbound, url)[n]
  {
    var base := BaseHeaders(inbound, url);
    CopyImportantAdds(base, inbound, |ImportantHeaders|);
    assert ImportantNames[..|ImportantHeaders|] == ImportantNames;
    FixedNamesNotImportant();
  }

  /** The allow-list policy, credentials: each carried credential is sent with the inbound value. */
  lemma AllowListCredentials(inbound: HeaderMap, url: Url)
    ensures forall n :: Carried(inbound, ImportantNames, n) ==>
              n in OutboundHeaders(inbound, url) && OutboundHeaders(inbound, url)[n] == inbound[n]
  {
    CopyImportantAdds(BaseHeaders(inbound, url), inbound, |ImportantHeaders|);
    assert ImportantNames[..|ImportantHeaders|] == ImportantNames;
  }

  /** The single call of `fetch`: same method, the target URL, the allow-listed headers, the forwarded body. */
  function FirstAttempt(req: Request): Outbound
    requires Intercepts(req.path)
  {
    var url := Target(req);
    Outbound(req.verb, url, OutboundHeaders(req.headers, url), ForwardedBody(req))
  }

  /** `responseText.slice(0, 500)`. */
  function Excerpt(text: string): (r: string)
    ensures |r| == if |text| < 500 then |text| else 500
    ensures text == r + text[|r|..]
  {
    if |text| <= 500 then text else text[..500]
  }

  /** The JSON answer to an upstream 403. */
  function Rejection(text: string): (r: Response)
    ensures r.status == 403 && r.headers == JsonHeaders && !HasCors(r.headers)
    ensures r.body.Json? && Names(r.body.fields) == ["error", "details", "serverResponse"]
    ensures var excerpt := r.body.fields[2].1;
      |excerpt| == (if |text| < 500 then |text| else 500) && text == excerpt + text[|excerpt|..]
  {
    JsonResponse(403, [
      ("error", "目标服务器拒绝访问(403)"),
      ("details", "可能是IP限制或认证问题"),
      ("serverResponse", Excerpt(text))])
  }

  /** `createResponse`: copy every upstream header, then overwrite the three CORS headers. */
  method CreateResponse(response: UpstreamResponse) returns (r: Response)
    ensures r == Relayed(response)
  {
    var headers := CopyHeaders(response.headers);
    AddCors(headers);
    r := Response(response.status, response.statusText, headers.entries, Relay(response.body));
  }

  /** The six fixed `set` calls on a fresh `Headers`. */
  method BuildBaseHeaders(inbound: HeaderMap, targetUrl: Url) returns (headers: Headers)
    ensures fresh(headers)
    ensures headers.entries == BaseHeaders(inbound, targetUrl)
  {
    headers := new Headers();
    FixedNamesLower();
    headers.Set("Host", targetUrl.host);
    headers.Set("User-Agent", UserAgent);
    headers.Set("Accept", AcceptAny);
    var contentType := LookupOr(inbound, "Content-Type", "application/json");
    headers.Set("Content-Type", contentType);
    headers.Set("Referer", Origin(targetUrl));
    headers.Set("Origin", Origin(targetUrl));
  }

  /** `headers`: a fresh `Headers` with the fixed entries, then the important ones that are present. */
  method BuildHeaders(inbound: HeaderMap, targetUrl: Url) returns (headers: Headers)
    ensures fresh(headers)
    ensures headers.entries == OutboundHeaders(inbound, targetUrl)
  {
    headers := BuildBaseHeaders(inbound, targetUrl);
    for i := 0 to |ImportantHeaders|
      invariant headers.entries == CopyImportant(BaseHeaders(inbound, targetUrl), inbound, i)
    {
      var header := ImportantHeaders[i];
      var value := Lookup(inbound, header);
      LowerIsLower(header);
      if Truthy(value) {
        headers.Set(header, value.value);
      }
    }
  }

  /**
   * The `fetch` and the `catch` of `middleware`: one call of `fetch`; a throw gives status 500, a 403 the
   * JSON rejection, anything else is relayed.
   */
  ghost predicate SingleCall(fetch: (nat, Outbound) -> FetchResult, calls: seq<Outbound>, out: Response)
  {
    && |calls| == 1
    && out == match fetch(0, calls[0])
              case Threw(e) => TransportFailure(e)
              case Answered(first) => if first.status == 403 then Rejection(first.body) else Relayed(first)
  }

  /** Only the two JSON answers lack the CORS headers; a relayed response always has them. */
  lemma SingleCallRepliesCarryCors(fetch: (nat, Outbound) -> FetchResult, calls: seq<Outbound>, out: Response)
    requires SingleCall(fetch, calls, out)
    ensures out.body.Json? || HasCors(out.headers)
    ensures out.body.Json? ==> out.status in {403, 500}
    ensures out.status == 403 && out.body.Json? ==> fetch(0, calls[0]).Answered? && fetch(0, calls[0]).response.status == 403
  {
  }

  /**
   * A `fetch` that refuses a URL with credentials, as the Fetch standard's
   * `Request` constructor does, throws on such a target: the answer
   * is the JSON 500, and nothing reaches the network.
   */
  lemma CredentialedTargetFails(fetch: (nat, Outbound) -> FetchResult, calls: seq<Outbound>, out: Response)
    requires RejectsCredentials(fetch)
    requires SingleCall(fetch, calls, out)
    requires IncludesCredentials(calls[0].url)
    ensures fetch(0, calls[0]).Threw? && out == TransportFailure(fetch(0, calls[0]).error)
    ensures out.status == 500 && out.body.Json?
  {
    TransportFailureAnswer(fetch(0, calls[0]).error);
  }

  /**
   * `/h5-api@evil.example/steal` passes the `startsWith` test, and its target
   * names `evil.example` as host with the upstream name as user information.
   * `fetch` refuses that URL, so the answer is the JSON 500.
   */
  lemma EvilExampleFails(req: Request, fetch: (nat, Outbound) -> FetchResult, calls: seq<Outbound>, out: Response)
    requires req.path == "/h5-api@evil.example/steal" && Forwards(req)
    requires RejectsCredentials(fetch)
    requires calls != [] && calls[0] == FirstAttempt(req) && SingleCall(fetch, calls, out)
    ensures |calls| == 1 && calls[0].url.host == "evil.example" && calls[0].url.userinfo == UpstreamHost
    ensures out.status == 500 && out.body.Json?
  {
    EvilExampleRedirect(req);
    CredentialedTargetFails(fetch, calls, out);
  }

  /** From `fetch(targetUrl, fetchOptions)` to the returned response: the one upstream call and what is returned. */
  method Forward(fetchOptions: Outbound, fetch: (nat, Outbound) -> FetchResult) returns (out: Response, calls: seq<Outbound>)
    ensures calls == [fetchOptions]
    ensures SingleCall(fetch, calls, out)
  {
    calls := [fetchOptions];
    var response := fetch(0, fetchOptions);
    if response.Threw? {
      return TransportFailure(response.error), calls;
    }
    if response.response.status == 403 {
      var responseText := response.response.body;
      return Rejection(responseText), calls;
    }
    out := CreateResponse(response.response);
  }

  /**
   * The middleware. `fetch(i, o)` is what the upstream does with the i-th call
   * `o`; `calls` lists the calls made, in order.
   */
  method Handle(req: Request, fetch: (nat, Outbound) -> FetchResult) returns (out: Outcome, calls: seq<Outbound>)
    ensures !Intercepts(req.path) ==> out == Continue && calls == []
    ensures Intercepts(req.path) && req.verb == "OPTIONS" ==> out == Reply(Preflight()) && calls == []
    ensures Forwards(req) ==> calls == [FirstAttempt(req)]
    ensures Forwards(req) ==> out.Reply? && SingleCall(fetch, calls, out.response)
  {
    if !StartsWith(req.path, ApiPrefix) {
      return Continue, [];
    }
    if req.verb == "OPTIONS" {
      return Reply(Preflight()), [];
    }
    var targetUrl := BuildTarget(req);

    var body: Option<string> := None;
    if ReadsBody(req.verb) {
      body := Some(req.body);
    }

    var headers := BuildHeaders(req.headers, targetUrl);

    var fetchBody: Option<string> := None;
    if body.Some? && body.value != "" {
      fetchBody := body;
    }
    var fetchOptions := Outbound(req.verb, targetUrl, headers.entries, fetchBody);
    assert fetchOptions == FirstAttempt(req);

    var response;
    response, calls := Forward(fetchOptions, fetch);
    out := Reply(response);
  }
}
