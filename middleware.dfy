/**
 * `middleware.ts`: the pass-through variant of the `/h5-api` gateway. Every
 * inbound header but `host` goes upstream, `host`/`Referer`/`User-Agent` are
 * rewritten, and an upstream 403 is retried once with only `Content-Type`
 * and `Accept`.
 */
module Middleware {
  import opened Wrappers
  import opened Text
  import opened FetchApi
  import opened Gateway


  /** The headers `fetch` receives: the inbound ones copied without `host`, then four `set` calls. */
  function OutboundHeaders(inbound: HeaderMap, url: Url): HeaderMap {
    var copied: HeaderMap := map k | k in inbound && k != "host" :: inbound[k];
    var h: HeaderMap := copied["host" := url.host]["referer" := Origin(url)]["user-agent" := UserAgent];
    if "origin" in h then h else h["origin" := Origin(url)]
  }

  /**
   * The pass-through policy: the inbound headers without `host`, then `host`,
   * `referer` and `user-agent` set, and `origin` set only when absent.
   */
  lemma PassThroughHeaders(inbound: HeaderMap, url: Url)
    ensures var h := OutboundHeaders(inbound, url);
      && h.Keys == (inbound.Keys - {"host"}) + {"host", "referer", "user-agent", "origin"}
      && h["host"] == url.host
      && h["referer"] == Origin(url) && h["user-agent"] == UserAgent
      && h["origin"] == (if "origin" in inbound then inbound["origin"] else Origin(url))
      && forall k :: k in inbound && k !in {"host", "referer", "user-agent", "origin"} ==> h[k] == inbound[k]
  {
  }

  lemma ForwardNamesLower()
    ensures Lower("host") == "host" && Lower("Referer") == "referer"
    ensures Lower("User-Agent") == "user-agent" && Lower("Origin") == "origin"
  {
  }

  /** The first call of `fetch`: same method, the target URL, the pass-through headers, the forwarded body. */
  function FirstAttempt(req: Request): Outbound
    requires Intercepts(req.path)
  {
    var url := Target(req);
    Outbound(req.verb, url, OutboundHeaders(req.headers, url), ForwardedBody(req))
  }

  /** The reduced headers of the retry: `Content-Type` (inherited, or JSON) and `Accept`, nothing else. */
  function RetryHeaders(h: HeaderMap): (r: HeaderMap)
    ensures r.Keys == {"content-type", "accept"}
    ensures r["content-type"] == if "content-type" in h && h["content-type"] != "" then h["content-type"] else "application/json"
    ensures r["accept"] == AcceptAny
  {
    assert Lower("Content-Type") == "content-type";
    map["content-type" := LookupOr(h, "Content-Type", "application/json"), "accept" := AcceptAny]
  }

  predicate Rejected(r: FetchResult) {
    r.Answered? && r.response.status == 403
  }

  /** `createResponse`: copy every upstream header, then overwrite the three CORS headers. */
  method CreateResponse(response: UpstreamResponse) returns (r: Response)
    ensures r == Relayed(response)
  {
    var headers := CopyHeaders(response.headers);
    AddCors(headers);
    r := Response(response.status, response.statusText, headers.entries, Relay(response.body));
  }

  /** `headers`: a fresh `Headers` filled from the inbound headers and the target URL. */
  method BuildHeaders(inbound: HeaderMap, targetUrl: Url) returns (headers: Headers)
    ensures fresh(headers)
    ensures headers.entries == OutboundHeaders(inbound, targetUrl)
  {
    headers := new Headers();
    var todo := inbound.Keys;
    while todo != {}
      invariant todo <= inbound.Keys
      invariant headers.entries == map k | k in inbound && k !in todo && k != "host" :: inbound[k]
      decreases todo
    {
      var key :| key in todo;
      LowerOfLower(key);
      if Lower(key) != "host" {
        headers.Set(key, inbound[key]);
      }
      todo := todo - {key};
    }
    assert headers.entries == map k | k in inbound && k != "host" :: inbound[k];
    ForwardNamesLower();
    headers.Set("host", targetUrl.host);
    headers.Set("Referer", Origin(targetUrl));
    headers.Set("User-Agent", UserAgent);
    var hasOrigin := headers.Has("Origin");
    if !hasOrigin {
      headers.Set("Origin", Origin(targetUrl));
    }
  }

  /** `simpleHeaders`: the retry's `Headers`, built from the first call's `headers`. */
  method BuildRetryHeaders(headers: Headers) returns (simpleHeaders: Headers)
    ensures fresh(simpleHeaders)
    ensures simpleHeaders.entries == RetryHeaders(headers.entries)
  {
    simpleHeaders := new Headers();
    var contentType := headers.Get("Content-Type");
    assert Lower("Content-Type") == "content-type" && Lower("Accept") == "accept";
    simpleHeaders.Set("Content-Type", if Truthy(contentType) then contentType.value else "application/json");
    simpleHeaders.Set("Accept", AcceptAny);
  }

  /**
   * The `fetch`, the 403 retry and the `catch` of `middleware`: the calls made from the
   * first outbound request and the response returned. A first answer of 403
   * leads to exactly one retry with the reduced headers; the retry is relayed
   * when it is `ok`, the first answer otherwise; a throw gives status 500.
   */
  ghost predicate RetryOn403(fetch: (nat, Outbound) -> FetchResult, calls: seq<Outbound>, out: Response)
  {
    && 1 <= |calls| <= 2
    && (|calls| == 2 <==> Rejected(fetch(0, calls[0])))
    && (|calls| == 2 ==> calls[1] == calls[0].(headers := RetryHeaders(calls[0].headers)))
    && out == match fetch(0, calls[0])
              case Threw(e) => TransportFailure(e)
              case Answered(first) =>
                if first.status != 403 || |calls| != 2 then Relayed(first)
                else match fetch(1, calls[1])
                     case Threw(e) => TransportFailure(e)
                     case Answered(retry) => if IsOk(retry.status) then Relayed(retry) else Relayed(first)
  }

  /**
   * A `fetch` that refuses a URL with credentials, as the Fetch standard's
   * `Request` constructor does, throws on such a target: no retry follows and the answer
   * is the JSON 500, and nothing reaches the network.
   */
  lemma CredentialedTargetFails(fetch: (nat, Outbound) -> FetchResult, calls: seq<Outbound>, out: Response)
    requires RejectsCredentials(fetch)
    requires RetryOn403(fetch, calls, out)
    requires IncludesCredentials(calls[0].url)
    ensures |calls| == 1
    ensures fetch(0, calls[0]).Threw? && out == TransportFailure(fetch(0, calls[0]).error)
    ensures out.status == 500 && out.body.Json?
  {
    TransportFailureAnswer(fetch(0, calls[0]).error);
  }

  /**
   * `/h5-api@evil.example/steal` passes the `startsWith` test, and its target
   * names `evil.example` as host with the upstream name as user information.
   * `fetch` refuses that URL, so the answer is the JSON 500.
   */
  lemma EvilExampleFails(req: Request, fetch: (nat, Outbound) -> FetchResult, calls: seq<Outbound>, out: Response)
    requires req.path == "/h5-api@evil.example/steal" && Forwards(req)
    requires RejectsCredentials(fetch)
    requires calls != [] && calls[0] == FirstAttempt(req) && RetryOn403(fetch, calls, out)
    ensures |calls| == 1 && calls[0].url.host == "evil.example" && calls[0].url.userinfo == UpstreamHost
    ensures out.status == 500 && out.body.Json?
  {
    EvilExampleRedirect(req);
    CredentialedTargetFails(fetch, calls, out);
  }

  /** Every response the retry policy produces is an upstream relay with the CORS headers, or the JSON failure. */
  lemma RetryRepliesCarryCors(fetch: (nat, Outbound) -> FetchResult, calls: seq<Outbound>, out: Response)
    requires RetryOn403(fetch, calls, out)
    ensures out.body.Json? || HasCors(out.headers)
    ensures out.body.Json? ==> out.status == 500
  {
  }

  /**
   * From `fetch(targetUrl, fetchOptions)` to the returned response: send the
   * first request, retry once on 403, relay or report. `headers` is the
   * `Headers` object the first request carries.
   */
  method Forward(fetchOptions: Outbound, headers: Headers, fetch: (nat, Outbound) -> FetchResult)
    returns (out: Response, calls: seq<Outbound>)
    requires headers.entries == fetchOptions.headers
    ensures calls != [] && calls[0] == fetchOptions
    ensures RetryOn403(fetch, calls, out)
  {
    calls := [fetchOptions];
    var response := fetch(0, fetchOptions);
    if response.Threw? {
      return TransportFailure(response.error), calls;
    }
    if response.response.status == 403 {
      var simpleHeaders := BuildRetryHeaders(headers);
      var retryOptions := fetchOptions.(headers := simpleHeaders.entries);
      calls := calls + [retryOptions];
      var retryResponse := fetch(1, retryOptions);
      if retryResponse.Threw? {
        return TransportFailure(retryResponse.error), calls;
      }
      if IsOk(retryResponse.response.status) {
        out := CreateResponse(retryResponse.response);
        return;
      }
    }
    out := CreateResponse(response.response);
  }

  /**
   * The middleware. `fetch(i, o)` is what the upstream does with the i-th call
   * `o`; `calls` lists the calls made, in order.
   */
  method Handle(req: Request, fetch: (nat, Outbound) -> FetchResult) returns (out: Outcome, calls: seq<Outbound>)
    ensures !Intercepts(req.path) ==> out == Continue && calls == []
    ensures Intercepts(req.path) && req.verb == "OPTIONS" ==> out == Reply(Preflight()) && calls == []
    ensures Forwards(req) ==> calls != [] && calls[0] == FirstAttempt(req)
    ensures Forwards(req) ==> out.Reply? && RetryOn403(fetch, calls, out.response)
  {
    if !StartsWith(req.path, ApiPrefix) {
      return Continue, [];
    }
    if req.verb == "OPTIONS" {
      return Reply(Preflight()), [];
    }
    var targetUrl := BuildTarget(req);

    var body: Option<string> := None;
    if ReadsBody(req.verb) {
      body := Some(req.body);
    }

    var headers := BuildHeaders(req.headers, targetUrl);

    var fetchBody: Option<string> := None;
    if body.Some? && body.value != "" {
      fetchBody := body;
    }
    var fetchOptions := Outbound(req.verb, targetUrl, headers.entries, fetchBody);
    assert fetchOptions == FirstAttempt(req);

    var response;
    response, calls := Forward(fetchOptions, headers, fetch);
    out := Reply(response);
  }
}
