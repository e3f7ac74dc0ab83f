/**
 * What the two `/h5-api` forwarding middlewares have in common: the prefix
 * test, the CORS preflight answer, the target URL (prefix stripped, query
 * copied with `URLSearchParams.set`), the rule for forwarding a body, the
 * relay of an upstream response with the CORS headers laid over it, and the
 * JSON answer to a failed upstream call.
 */
module Gateway {
  import opened Wrappers
  import opened Text
  import opened FetchApi

  /** The `Accept` value both variants send upstream. */
  const AcceptAny := "application/json, */*"

  /** The path prefix the gateway serves. */
  const ApiPrefix := "/h5-api"

  /** The one upstream host, fixed in the program text. */
  const UpstreamHost := "artsharing.vhost.chengzhanheng.cn"

  /** The browser-like `User-Agent` sent upstream. */
  const UserAgent := "Mozilla/5.0 (Windows NT 10.0; Win64; x64) AppleWebKit/537.36"

  const AllowedMethods := "GET, POST, PUT, DELETE, OPTIONS, PATCH"

  /** `nextUrl.pathname`: it never holds `?`, `#` or `\`. */
  type Pathname = s: string | PathText(s)

  /** An inbound request: method, `nextUrl.pathname`, `nextUrl.searchParams` in order, headers, body text (`''` when none). */
  datatype Request = Request(verb: string, path: Pathname, query: Pairs, headers: HeaderMap, body: string)

  /** The middleware's own test: `pathname.startsWith('/h5-api')`. */
  predicate Intercepts(path: string) {
    StartsWith(path, ApiPrefix)
  }

  /** The request is forwarded: it is under the prefix and is not a preflight. */
  predicate Forwards(req: Request) {
    Intercepts(req.path) && req.verb != "OPTIONS"
  }

  /** The routing matcher `/h5-api/:path*`: exactly the prefix, or the prefix and a further segment. */
  predicate MatcherAdmits(path: string) {
    path == ApiPrefix || StartsWith(path, ApiPrefix + "/")
  }

  /** The text `new URL` parses holds no `?`, `#` or `\` either. */
  lemma UpstreamTextIsPath(path: Pathname)
    requires Intercepts(path)
    ensures PathText(UpstreamHost + TargetPathname(path))
  {
    var pathname := TargetPathname(path);
    assert PathText(pathname) by {
      if path != ApiPrefix {
        assert path == ApiPrefix + pathname;
        assert forall c :: c in pathname ==> c in path;
      }
    }
    assert PathText(UpstreamHost);
  }

  lemma MatcherImpliesIntercepts(path: string)
    requires MatcherAdmits(path)
    ensures Intercepts(path)
  {
    if path != ApiPrefix {
      assert path[..|ApiPrefix|] == (ApiPrefix + "/")[..|ApiPrefix|];
    }
  }

  /** The three headers laid over every relayed response (section 3.2 of the WHATWG Fetch Standard). */
  const CorsHeaders: HeaderMap := (CorsNamesAreLower(); map[
    "access-control-allow-origin" := "*",
    "access-control-allow-methods" := AllowedMethods,
    "access-control-allow-headers" := "*"])

  lemma AccessControlLower(tail: string)
    ensures Lower("Access-Control-" + tail) == "access-control-" + Lower(tail)
  {
    LowerConcat("Access-Control-", tail);
    assert Lower("Access-Control-") == "access-control-";
  }

  /** The lower-case forms under which `headers.set` stores the CORS names. */
  lemma CorsNamesLower()
    ensures Lower("Access-Control-Allow-Origin") == "access-control-allow-origin"
    ensures Lower("Access-Control-Allow-Methods") == "access-control-allow-methods"
    ensures Lower("Access-Control-Allow-Headers") == "access-control-allow-headers"
  {
    AllowOriginLower();
    AllowMethodsLower();
    AllowHeadersLower();
  }

  lemma AllowOriginLower()
    ensures Lower("Access-Control-Allow-Origin") == "access-control-allow-origin"
  {
    AccessControlLower("Allow-Origin");
    assert "Access-Control-Allow-Origin" == "Access-Control-" + "Allow-Origin";
    assert Lower("Allow-Origin") == "allow-origin";
  }

  lemma AllowMethodsLower()
    ensures Lower("Access-Control-Allow-Methods") == "access-control-allow-methods"
  {
    AccessControlLower("Allow-Methods");
    assert "Access-Control-Allow-Methods" == "Access-Control-" + "Allow-Methods";
    assert Lower("Allow-Methods") == "allow-methods";
  }

  lemma AllowHeadersLower()
    ensures Lower("Access-Control-Allow-Headers") == "access-control-allow-headers"
  {
    AccessControlLower("Allow-Headers");
    assert "Access-Control-Allow-Headers" == "Access-Control-" + "Allow-Headers";
    assert Lower("Allow-Headers") == "allow-headers";
  }

  predicate HasCors(h: HeaderMap) {
    && "access-control-allow-origin" in h && h["access-control-allow-origin"] == "*"
    && "access-control-allow-methods" in h && h["access-control-allow-methods"] == AllowedMethods
    && "access-control-allow-headers" in h && h["access-control-allow-headers"] == "*"
  }

  /** The answer to an `OPTIONS` preflight: status 200, no body, the CORS headers and a one-day max age. */
  function Preflight(): (r: Response)
    ensures r.status == 200 && r.body == NoBody
    ensures HasCors(r.headers)
    ensures r.headers.Keys == CorsHeaders.Keys + {"access-control-max-age"}
    ensures r.headers["access-control-max-age"] == "86400"
  {
    MaxAgeNameLower();
    Response(200, "", CorsHeaders["access-control-max-age" := "86400"], NoBody)
  }

  lemma LowerCaseName(s: string)
    requires forall i :: 0 <= i < |s| ==> s[i] in "abcdefghijklmnopqrstuvwxyz-"
    ensures IsLower(s)
  {
  }

  lemma CorsNamesAreLower()
    ensures IsLower("access-control-allow-origin")
    ensures IsLower("access-control-allow-methods")
    ensures IsLower("access-control-allow-headers")
  {
    LowerCaseName("access-control-allow-origin");
    LowerCaseName("access-control-allow-methods");
    LowerCaseName("access-control-allow-headers");
  }

  lemma MaxAgeNameLower()
    ensures IsLower("access-control-max-age")
  {
    LowerCaseName("access-control-max-age");
  }

  /** `pathname.replace('/h5-api', '') || '/'`: the first occurrence is the prefix itself. */
  function TargetPathname(path: string): (r: string)
    requires Intercepts(path)
    ensures path == ApiPrefix ==> r == "/"
    ensures path != ApiPrefix ==> path == ApiPrefix + r
  {
    var rest := path[|ApiPrefix|..];
    assert path == ApiPrefix + rest;
    if rest == "" then "/" else rest
  }

  /** The query after `targetUrl.searchParams.set(key, value)` for each inbound pair in turn. */
  function Collapse(ps: Pairs): Pairs
  {
    if ps == [] then []
    else
      var last := ps[|ps| - 1];
      SetPair(Collapse(ps[..|ps| - 1]), last.0, last.1)
  }

  /** The URL the request is forwarded to. */
  function Target(req: Request): Url
    requires Intercepts(req.path)
  {
    UpstreamTextIsPath(req.path);
    ParseHttps(UpstreamHost + TargetPathname(req.path)).(query := Collapse(req.query))
  }

  /** The `forEach` over the inbound pairs: one `targetUrl.searchParams.set` per pair, in order. */
  method CopyQuery(query: Pairs) returns (params: SearchParams)
    ensures fresh(params)
    ensures params.pairs == Collapse(query)
  {
    params := new SearchParams();
    var i := 0;
    while i < |query|
      invariant 0 <= i <= |query|
      invariant params.pairs == Collapse(query[..i])
    {
      assert query[..i + 1][..i] == query[..i];
      params.Set(query[i].0, query[i].1);
      i := i + 1;
    }
    assert query[..i] == query;
  }

  /** Builds `targetUrl`: the parsed URL, then the query copied with `set`. */
  method BuildTarget(req: Request) returns (u: Url)
    requires Intercepts(req.path)
    ensures u == Target(req)
  {
    var pathname := TargetPathname(req.path);
    UpstreamTextIsPath(req.path);
    var base := ParseHttps(UpstreamHost + pathname);
    var params := CopyQuery(req.query);
    u := base.(query := params.pairs);
  }

  /** `['POST', 'PUT', 'PATCH', 'DELETE'].includes(request.method)`. */
  predicate ReadsBody(verb: string) {
    verb in ["POST", "PUT", "PATCH", "DELETE"]
  }

  /** The body handed to `fetch`: read only for the four methods, attached only when non-empty. */
  function ForwardedBody(req: Request): (r: Option<string>)
    ensures r.Some? <==> ReadsBody(req.verb) && req.body != ""
    ensures r.Some? ==> r.value == req.body
  {
    if ReadsBody(req.verb) && req.body != "" then Some(req.body) else None
  }

  /**
   * `createResponse(response)`: the upstream status, status text and body,
   * every upstream header, and then the three CORS headers overwritten.
   */
  function Relayed(up: UpstreamResponse): (r: Response)
    ensures r.status == up.status && r.statusText == up.statusText && r.body == Relay(up.body)
    ensures HasCors(r.headers)
    ensures r.headers.Keys == up.headers.Keys + CorsHeaders.Keys
    ensures forall k :: k in up.headers && k !in CorsHeaders ==> r.headers[k] == up.headers[k]
  {
    Response(up.status, up.statusText, up.headers + CorsHeaders, Relay(up.body))
  }

  /** The three CORS `set` calls that close `createResponse`, overwriting any upstream value. */
  method AddCors(headers: Headers)
    modifies headers
    ensures headers.entries == old(headers.entries) + CorsHeaders
  {
    CorsNamesLower();
    ghost var before := headers.entries;
    headers.Set("Access-Control-Allow-Origin", "*");
    headers.Set("Access-Control-Allow-Methods", AllowedMethods);
    headers.Set("Access-Control-Allow-Headers", "*");
    CorsOverride(before);
  }

  /** Setting the three CORS names one by one is the same as overriding with `CorsHeaders`. */
  lemma CorsOverride(e: HeaderMap)
    ensures e["access-control-allow-origin" := "*"]["access-control-allow-methods" := AllowedMethods]
             ["access-control-allow-headers" := "*"] == e + CorsHeaders
  {
  }

  /**
   * The `response.headers.forEach` loop of `createResponse`: a fresh response
   * `Headers` object that receives every upstream header with `set`.
   */
  method CopyHeaders(source: HeaderMap) returns (headers: Headers)
    ensures fresh(headers)
    ensures headers.entries == source
  {
    headers := new Headers();
    var todo := source.Keys;
    while todo != {}
      invariant todo <= source.Keys
      invariant headers.entries == source - todo
      decreases todo
    {
      var key :| key in todo;
      LowerOfLower(key);
      headers.Set(key, source[key]);
      todo := todo - {key};
    }
  }

  /** `error instanceof Error ? error.message : '未知错误'`. */
  function Details(e: Thrown): string {
    match e
    case ErrorObject(message) => message
    case OtherValue => "未知错误"
  }

  /** The status 500 JSON answer when the upstream call throws. */
  function TransportFailure(e: Thrown): Response
  {
    JsonResponse(500, [("error", "代理请求失败"), ("details", Details(e))])
  }

  /**
   * A throw is answered with status 500, the JSON content type and no CORS
   * headers; the body names the failure and passes on an `Error`'s message.
   */
  lemma TransportFailureAnswer(e: Thrown)
    ensures var r := TransportFailure(e);
      && r.status == 500 && r.headers == JsonHeaders && !HasCors(r.headers)
      && r.body.Json? && Names(r.body.fields) == ["error", "details"]
      && ("details", if e.ErrorObject? then e.message else "未知错误") in r.body.fields
  {
  }

  // ----- Properties of the query copy -----

  /** The distinct names of `xs` in order of first appearance. */
  function Dedup(xs: seq<string>): (r: seq<string>)
    ensures forall x :: x in r <==> x in xs
    ensures NoDup(r)
  {
    if xs == [] then []
    else
      var d := Dedup(xs[..|xs| - 1]);
      var x := xs[|xs| - 1];
      assert xs == xs[..|xs| - 1] + [x];
      if x in d then d else d + [x]
  }

  /** The value of the last pair named `name`. */
  function LastValue(ps: Pairs, name: string): string
    requires name in Names(ps)
  {
    var last := ps[|ps| - 1];
    if last.0 == name then last.1
    else
      assert Names(ps) == Names(ps[..|ps| - 1]) + [last.0];
      LastValue(ps[..|ps| - 1], name)
  }

  lemma {:induction false} WithoutAbsent(ps: Pairs, name: string)
    requires name !in Names(ps)
    ensures Without(ps, name) == ps
  {
    if ps != [] {
      assert Names(ps) == [ps[0].0] + Names(ps[1..]);
      WithoutAbsent(ps[1..], name);
    }
  }

  /** On pairs with distinct names, `set` overwrites the pair in place or appends a new one. */
  lemma {:induction false} SetPairInPlace(qs: Pairs, name: string, value: string)
    requires NoDup(Names(qs))
    ensures name in Names(qs) ==> |SetPair(qs, name, value)| == |qs|
    ensures name !in Names(qs) ==> SetPair(qs, name, value) == qs + [(name, value)]
    ensures forall j :: 0 <= j < |qs| ==>
              SetPair(qs, name, value)[j] == if qs[j].0 == name then (name, value) else qs[j]
  {
    if qs != [] {
      var tail := qs[1..];
      var r := SetPair(qs, name, value);
      assert Names(tail) == Names(qs)[1..];
      NoDupTail(Names(qs));
      if qs[0].0 == name {
        WithoutAbsent(tail, name);
        assert r == [(name, value)] + tail;
        forall j | 1 <= j < |qs|
          ensures qs[j].0 != name
        {
          assert Names(tail)[j - 1] == qs[j].0;
        }
      } else {
        SetPairInPlace(tail, name, value);
        assert r == [qs[0]] + SetPair(tail, name, value);
        assert name in Names(qs) <==> name in Names(tail);
        assert qs == [qs[0]] + tail;
      }
    }
  }

  /** Every pair the target carries was sent with the request. */
  lemma {:induction false} CollapseSentPairs(ps: Pairs)
    ensures forall p :: p in Collapse(ps) ==> p in ps
  {
    if ps != [] {
      var init := ps[..|ps| - 1];
      var last := ps[|ps| - 1];
      CollapseSentPairs(init);
      SetPairContents(Collapse(init), last.0, last.1);
      assert ps == init + [last];
    }
  }

  /**
   * The copied query names each inbound name exactly once, in order of first
   * appearance, and carries the last inbound value for that name.
   */
  lemma {:induction false} CollapseKeepsLastValue(ps: Pairs)
    ensures Names(Collapse(ps)) == Dedup(Names(ps))
    ensures NoDup(Names(Collapse(ps)))
    ensures forall j :: 0 <= j < |Collapse(ps)| ==>
              Collapse(ps)[j].0 in Names(ps) && Collapse(ps)[j].1 == LastValue(ps, Collapse(ps)[j].0)
  {
    if ps != [] {
      var init, last := ps[..|ps| - 1], ps[|ps| - 1];
      assert Names(ps) == Names(init) + [last.0];
      CollapseKeepsLastValue(init);
      var c := Collapse(init);
      SetPairInPlace(c, last.0, last.1);
      var c' := Collapse(ps);
      assert c' == SetPair(c, last.0, last.1);
      assert Names(c') == Dedup(Names(ps));
    }
  }

  /** `?a=1&a=2` is forwarded as `?a=2`: a repeated name keeps only its last value. */
  lemma RepeatedNameCollapses()
    ensures Collapse([("a", "1"), ("a", "2")]) == [("a", "2")]
  {
    assert [("a", "1"), ("a", "2")][..1] == [("a", "1")];
    assert [("a", "1")][..0] == [];
  }

  // ----- Properties of the target URL -----

  lemma UpstreamHostHasNoDelimiters()
    ensures '/' !in UpstreamHost && '@' !in UpstreamHost
  {
  }

  /**
   * For every path the matcher admits, the target keeps the upstream host and
   * its path is the inbound path without the prefix, or `/`.
   */
  lemma MatchedTargetStaysUpstream(req: Request)
    requires MatcherAdmits(req.path)
    ensures Intercepts(req.path)
    ensures Target(req).userinfo == "" && Target(req).host == UpstreamHost
    ensures Target(req).path == if req.path == ApiPrefix then "/" else req.path[|ApiPrefix|..]
  {
    MatcherImpliesIntercepts(req.path);
    UpstreamTextIsPath(req.path);
    var pathname := TargetPathname(req.path);
    if req.path != ApiPrefix {
      assert req.path[..|ApiPrefix| + 1] == ApiPrefix + "/";
      assert pathname[0] == '/';
    }
    UpstreamHostHasNoDelimiters();
    ParseHttpsHostPath(UpstreamHost, pathname);
  }

  /**
   * Non-empty text of lowercase letters, digits and `-`. Glued to the
   * upstream host, it only lengthens the last label `cn`, which still starts
   * with a letter, so the URL parser keeps the host as it is: it neither
   * lowercases it nor reads it as an IPv4 number.
   */
  predicate HostSuffixText(s: string) {
    s != [] && forall i :: 0 <= i < |s| ==> ('a' <= s[i] <= 'z' || '0' <= s[i] <= '9' || s[i] == '-')
  }

  /**
   * A host name of lowercase letters, digits and dots whose labels are
   * non-empty and start with a letter. The URL parser keeps such a host as
   * it is: no label is a number (so the IPv4 rule does not apply), none
   * starts with `xn--`, and nothing needs lowercasing.
   */
  predicate PlainHostName(s: string) {
    && s != [] && 'a' <= s[0] <= 'z' && s[|s| - 1] != '.'
    && (forall i :: 0 <= i < |s| ==> ('a' <= s[i] <= 'z' || '0' <= s[i] <= '9' || s[i] == '.'))
    && (forall i :: 0 <= i < |s| - 1 && s[i] == '.' ==> 'a' <= s[i + 1] <= 'z')
  }

  /**
   * Without the matcher, a path such as `/h5-apix` would extend the host:
   * text glued to the prefix becomes part of the authority.
   */
  lemma UnmatchedPathExtendsHost(req: Request, tail: string)
    requires req.path == ApiPrefix + tail
    requires HostSuffixText(tail)
    ensures Intercepts(req.path) && !MatcherAdmits(req.path)
    ensures Target(req).userinfo == "" && Target(req).host == UpstreamHost + tail
  {
    assert req.path[..|ApiPrefix|] == ApiPrefix;
    assert req.path[..|ApiPrefix| + 1][|ApiPrefix|] == tail[0];
    assert req.path[|ApiPrefix|..] == tail;
    assert '/' !in tail && '@' !in tail;
    UpstreamHostHasNoDelimiters();
    assert '/' !in UpstreamHost + tail;
  }

  /**
   * Without the matcher, a path such as `/h5-api@evil.example/steal` would
   * give the target another host: the upstream name becomes user
   * information, and the host is what follows the `@`. Such a URL includes
   * credentials, so `fetch` refuses it (see `CredentialedTargetFails` in
   * each middleware).
   */
  lemma UnmatchedPathRedirectsHost(req: Request, host: string, path: string)
    requires req.path == ApiPrefix + "@" + host + path
    requires PlainHostName(host) && path != "" && path[0] == '/'
    ensures Intercepts(req.path) && !MatcherAdmits(req.path)
    ensures Target(req).userinfo == UpstreamHost && IncludesCredentials(Target(req))
    ensures Target(req).host == host && Target(req).path == path
  {
    PlainHostHasNoDelimiters(host);
    var pathname := AtPathname(req, host, path);
    UpstreamTextIsPath(req.path);
    UpstreamHostHasNoDelimiters();
    ParseHttpsUserinfo(UpstreamHost, host, path);
    UpstreamHostIsCredential();
  }

  lemma PlainHostHasNoDelimiters(host: string)
    requires PlainHostName(host)
    ensures '/' !in host && '@' !in host
  {
  }

  lemma UpstreamHostIsCredential()
    ensures UpstreamHost != "" && UpstreamHost != ":"
  {
    assert UpstreamHost[0] == 'a';
  }

  /** The pathname of `/h5-api@host/path` is `@host/path`, which is not under the matcher. */
  lemma AtPathname(req: Request, host: string, path: string) returns (pathname: string)
    requires req.path == ApiPrefix + "@" + host + path
    ensures Intercepts(req.path) && !MatcherAdmits(req.path)
    ensures pathname == TargetPathname(req.path) && UpstreamHost + pathname == UpstreamHost + "@" + host + path
  {
    assert req.path[..|ApiPrefix|] == ApiPrefix;
    assert req.path[..|ApiPrefix| + 1][|ApiPrefix|] == '@';
    assert req.path[|ApiPrefix|..] == "@" + host + path;
    pathname := TargetPathname(req.path);
  }


  lemma EvilPathSplits()
    ensures "/h5-api@evil.example/steal" == ApiPrefix + "@" + "evil.example" + "/steal"
  {
  }

  lemma EvilExampleIsPlain()
    ensures PlainHostName("evil.example")
  {
    var s := "evil.example";
    assert forall i :: 0 <= i < |s| - 1 && s[i] == '.' ==> i == 4;
  }

  /**
   * The concrete case: `/h5-api@evil.example/steal` gives a target with host
   * `evil.example` and the upstream name as user information.
   */
  lemma EvilExampleRedirect(req: Request)
    requires req.path == "/h5-api@evil.example/steal"
    ensures Target(req).host == "evil.example"
    ensures Target(req).userinfo == UpstreamHost && IncludesCredentials(Target(req))
  {
    EvilPathSplits();
    EvilExampleIsPlain();
    UnmatchedPathRedirectsHost(req, "evil.example", "/steal");
  }
}
