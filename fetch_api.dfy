/**
 * The parts of the WHATWG Fetch and URL standards that the gateway relies on:
 * a `Headers` object (names stored byte-lowercased, `set` replaces), a
 * `URLSearchParams` object (`set` keeps one pair per name), the parse of the
 * target URL string, and the request/response values that pass through the
 * upstream call.
 */
module FetchApi {
  import opened Wrappers
  import opened Text

  /** The contents of a header list after "sort and combine": one value per lower-case name. */
  type HeaderMap = m: map<string, string> | forall k :: k in m ==> IsLower(k)

  /** `headers.get(name)`: case-insensitive lookup, `None` for the source's `null`. */
  function Lookup(m: HeaderMap, name: string): (r: Option<string>)
    ensures r.Some? <==> Lower(name) in m
    ensures r.Some? ==> r.value == m[Lower(name)]
  {
    if Lower(name) in m then Some(m[Lower(name)]) else None
  }

  /** A JavaScript value is truthy as a header value when it is present and not `''`. */
  predicate Truthy(v: Option<string>) {
    v.Some? && v.value != ""
  }

  /** `headers.get(name) || fallback`. */
  function LookupOr(m: HeaderMap, name: string, fallback: string): (r: string)
    ensures Truthy(Lookup(m, name)) ==> r == m[Lower(name)]
    ensures !Truthy(Lookup(m, name)) ==> r == fallback
  {
    var v := Lookup(m, name);
    if Truthy(v) then v.value else fallback
  }

  /** A mutable `Headers` object. */
  class Headers {
    var entries: HeaderMap

    /** `new Headers()`. */
    constructor ()
      ensures entries == map[]
    {
      entries := map[];
    }

    /** `headers.set(name, value)`: the one entry for the lower-cased name now holds `value`. */
    method Set(name: string, value: string)
      modifies this
      ensures entries == old(entries)[Lower(name) := value]
    {
      LowerIsLower(name);
      entries := entries[Lower(name) := value];
    }

    /** `headers.get(name)`. */
    method Get(name: string) returns (v: Option<string>)
      ensures v == Lookup(entries, name)
    {
      if Lower(name) in entries {
        v := Some(entries[Lower(name)]);
      } else {
        v := None;
      }
    }

    /** `headers.has(name)`. */
    method Has(name: string) returns (b: bool)
      ensures b <==> Lower(name) in entries
    {
      b := Lower(name) in entries;
    }
  }

  /** A list of name/value pairs in order, as `URLSearchParams` holds them. */
  type Pairs = seq<(string, string)>

  function Names(ps: Pairs): (r: seq<string>)
    ensures |r| == |ps|
    ensures forall i :: 0 <= i < |ps| ==> r[i] == ps[i].0
  {
    seq(|ps|, i requires 0 <= i < |ps| => ps[i].0)
  }

  /** The pairs whose name is not `name`, in order. */
  function Without(ps: Pairs, name: string): (r: Pairs)
    ensures forall p :: p in r <==> p in ps && p.0 != name
  {
    if ps == [] then []
    else if ps[0].0 == name then Without(ps[1..], name)
    else [ps[0]] + Without(ps[1..], name)
  }

  /**
   * `URLSearchParams.set(name, value)`, section 6.2 of the WHATWG URL Standard:
   * when a pair with that name exists, the first one takes the new value and
   * the later ones are removed; otherwise the pair is appended.
   */
  function SetPair(ps: Pairs, name: string, value: string): (r: Pairs)
  {
    if ps == [] then [(name, value)]
    else if ps[0].0 == name then [(name, value)] + Without(ps[1..], name)
    else [ps[0]] + SetPair(ps[1..], name, value)
  }

  /**
   * After `set`, the name holds the new value, every other pair is kept and
   * no other pair for the name remains.
   */
  lemma {:induction false} SetPairContents(ps: Pairs, name: string, value: string)
    ensures (name, value) in SetPair(ps, name, value)
    ensures forall p :: p in SetPair(ps, name, value) ==> p == (name, value) || (p in ps && p.0 != name)
    ensures forall p :: p in ps && p.0 != name ==> p in SetPair(ps, name, value)
  {
    if ps != [] && ps[0].0 != name {
      SetPairContents(ps[1..], name, value);
    }
  }

  /** A mutable `URLSearchParams` object. */
  class SearchParams {
    var pairs: Pairs

    constructor ()
      ensures pairs == []
    {
      pairs := [];
    }

    method Set(name: string, value: string)
      modifies this
      ensures pairs == SetPair(old(pairs), name, value)
    {
      pairs := SetPair(pairs, name, value);
    }
  }

  /**
   * A parsed `https:` URL: the user information before the host (`""` when
   * there is none), its `host` (with any port), its path and its query pairs.
   */
  datatype Url = Url(userinfo: string, host: string, path: string, query: Pairs)

  /**
   * The URL standard's "includes credentials": a non-empty username or
   * password. The user information `user:password` splits at its first `:`.
   */
  predicate IncludesCredentials(u: Url) {
    u.userinfo != "" && u.userinfo != ":"
  }

  /**
   * A `fetch` that follows the Fetch standard's `Request` constructor: a URL
   * that includes credentials is refused with a `TypeError` before anything
   * is sent.
   */
  ghost predicate RejectsCredentials(fetch: (nat, Outbound) -> FetchResult) {
    forall n: nat, o: Outbound :: IncludesCredentials(o.url) ==> fetch(n, o).Threw?
  }

  /** Text `nextUrl.pathname` can hold: the URL parser has taken out the query and fragment and turned `\` into `/`. */
  predicate PathText(s: string) {
    '?' !in s && '#' !in s && '\\' !in s
  }

  /** `url.origin` for an `https:` URL. */
  function Origin(u: Url): string {
    "https://" + u.host
  }

  /** The text after the last `@`, or all of it: the host part of an authority. */
  function AfterLastAt(s: string): (r: string)
    ensures '@' !in r
    ensures '@' !in s ==> r == s
    ensures '@' in s ==> |r| < |s| && s[|s| - |r| - 1] == '@' && s[|s| - |r|..] == r
    decreases |s|
  {
    if '@' !in s then s
    else
      var i := IndexOf(s, '@');
      var r := AfterLastAt(s[i + 1..]);
      assert s[i + 1..][|s[i + 1..]| - |r|..] == s[|s| - |r|..];
      r
  }

  /** The text before the last `@`, or `""` when there is none: the user information of an authority. */
  function BeforeLastAt(s: string): (r: string)
    ensures '@' !in s ==> r == ""
    ensures '@' in s ==> s == r + "@" + AfterLastAt(s)
  {
    if '@' !in s then ""
    else
      var a := AfterLastAt(s);
      var r := s[..|s| - |a| - 1];
      assert s == r + [s[|s| - |a| - 1]] + s[|s| - |a|..];
      r
  }

  /**
   * `new URL("https://" + rest)` for a `rest` without `?`, `#` or `\`: the
   * authority runs up to the first `/`, its host is what follows the last
   * `@` (what precedes it is user information), and an empty path reads `/`.
   */
  function ParseHttps(rest: string): (u: Url)
    requires PathText(rest)
    ensures u.query == []
  {
    if '/' in rest then
      var i := IndexOf(rest, '/');
      Url(BeforeLastAt(rest[..i]), AfterLastAt(rest[..i]), rest[i..], [])
    else
      Url(BeforeLastAt(rest), AfterLastAt(rest), "/", [])
  }

  /** A host followed by an absolute path parses into that host and path. */
  lemma ParseHttpsHostPath(host: string, path: string)
    requires '/' !in host && '@' !in host
    requires path != [] && path[0] == '/'
    requires PathText(host + path)
    ensures ParseHttps(host + path) == Url("", host, path, [])
  {
    IndexOfAppend(host, path, '/');
    var s := host + path;
    assert s[..|host|] == host;
    assert s[|host|..] == path;
  }

  /** User information before an `@` is kept apart from the host. */
  lemma ParseHttpsUserinfo(user: string, host: string, path: string)
    requires '/' !in user && '@' !in user && '/' !in host && '@' !in host
    requires path != [] && path[0] == '/'
    requires PathText(user + "@" + host + path)
    ensures ParseHttps(user + "@" + host + path) == Url(user, host, path, [])
  {
    var auth := user + "@" + host;
    assert '/' !in auth;
    IndexOfAppend(auth, path, '/');
    var s := auth + path;
    assert s[..|auth|] == auth;
    assert s[|auth|..] == path;
    IndexOfAppend(user, "@" + host, '@');
    assert user + "@" + host == user + ("@" + host);
    assert auth[|user| + 1..] == host;
  }

  /** What the upstream answers: its status line, header list and body text. */
  datatype UpstreamResponse = UpstreamResponse(status: int, statusText: string, headers: HeaderMap, body: string)

  /** A thrown value: an `Error` with its `message`, or any other value. */
  datatype Thrown = ErrorObject(message: string) | OtherValue

  /** One call of `fetch`: it either answers or throws. */
  datatype FetchResult = Answered(response: UpstreamResponse) | Threw(error: Thrown)

  /** `response.ok`. */
  predicate IsOk(status: int) {
    200 <= status <= 299
  }

  /** What the gateway hands to `fetch`: the method (`verb`), URL, headers and optional body text (redirects followed). */
  datatype Outbound = Outbound(verb: string, url: Url, headers: HeaderMap, body: Option<string>)

  /** The body of a response the gateway returns. */
  datatype Body =
    | NoBody                                  // `null`
    | Relay(text: string)                     // the upstream body, passed on unchanged
    | Json(fields: seq<(string, string)>)     // `NextResponse.json` of an object with string fields

  datatype Response = Response(status: int, statusText: string, headers: HeaderMap, body: Body)

  /** The single header that `NextResponse.json` sets. */
  const JsonHeaders: HeaderMap := map["content-type" := "application/json"]

  function JsonResponse(status: int, fields: seq<(string, string)>): Response {
    Response(status, "", JsonHeaders, Json(fields))
  }

  /** Either `NextResponse.next()` (the request goes on to the application) or a response. */
  datatype Outcome = Continue | Reply(response: Response)
}
