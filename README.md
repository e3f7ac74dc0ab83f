# H5 API proxy middleware and query-string helpers, in Dafny

This project models the request proxy of a Next.js site and the query-string
helpers it ships. Requests under `/h5-api` are forwarded to the upstream host
`artsharing.vhost.chengzhanheng.cn` with the prefix removed. The answer comes
back with permissive CORS headers. A preflight `OPTIONS` request is answered
locally.

There are two versions of the middleware:

- `middleware.ts` (module `Middleware`) copies every inbound header except
  `host`. It adds `host`, `Referer`, `User-Agent` and (if missing) `Origin`.
  On a 403 it retries once with only `Content-Type` and `Accept`. The retry is
  relayed only if it succeeds (status 200-299).
- `middleware1.ts` (module `Middleware1`) builds the outbound headers from a
  fixed allow-list. It makes a single upstream call. It turns a 403 into its
  own JSON answer with the first 500 characters of the upstream body.

Both share the parts in module `Gateway`:

- the prefix test;
- the preflight answer;
- the target URL (the pathname after `/h5-api`, or `/` if empty, on the
  upstream host);
- the query copy through `URLSearchParams.set`;
- which verbs carry a body;
- the CORS relay (`createResponse`);
- the JSON 500 answer when the upstream call throws.

`lib/utils.ts` (module `QueryString`) serialises an ordered record into a
query string:

- empty values are dropped;
- arrays become repeated `key[]=` pairs;
- names and values are percent-encoded unless encoding is off;
- a `?` is added unless that is off.

`buildQueryStringFromSearchParams` first groups URL search pairs into such a
record. It skips excluded names, turns a repeated name into an array in arrival
order, and lets `mergeParams` overwrite entries.

Supporting modules:

- `FetchApi` models the parts of the Fetch and URL standards the code relies
  on. `Headers` is a class over a map with byte-lowercased names.
  `URLSearchParams.set` is `SetPair`. URL parsing of `https://` plus a string
  is `ParseHttps`: the authority runs to the first `/`, the host follows
  the last `@`, and what precedes that `@` is the URL's user information.
  `RejectsCredentials` describes a `fetch` that, as the Fetch standard's
  `Request` constructor does, throws a `TypeError` for a URL that includes
  credentials.
- `Gateway` also fixes the text a pathname can hold (`Pathname`): no `?`,
  `#` or `\`, which the URL parser has already taken out.
- `UriComponent` models `encodeURIComponent` and `decodeURIComponent` as
  section 19.2.6 of ECMA-262 defines them: UTF-8 bytes, unreserved characters
  kept, everything else as `%XX` with uppercase hex.
- `Text` holds string helpers.
- `Wrappers` holds `Option`.

`fetch` is a parameter of type `(nat, Outbound) -> FetchResult`: the n-th
upstream call and its answer, or the value it threw. The handlers return the
list of calls they made, so the contracts can say how many upstream requests
were sent and with which headers.

The route matcher `/h5-api/:path*` is stronger than the handler's own
`startsWith('/h5-api')` test. The lemmas show that only the matcher keeps the
target URL on the upstream host:

- `Gateway.MatchedTargetStaysUpstream`: a matched path goes to the upstream
  host.
- `Gateway.UnmatchedPathExtendsHost`: `/h5-apix` goes to host
  `artsharing.vhost.chengzhanheng.cnx`.
- `Gateway.EvilExampleRedirect`: `/h5-api@evil.example/steal` gives a
  target URL with host `evil.example`, because the upstream host name
  becomes user information. That URL includes credentials, so `fetch`
  throws before sending anything, and the answer is the JSON 500
  (`Middleware.EvilExampleFails`, `Middleware1.EvilExampleFails`).

Behaviour of the code worth knowing:

- A repeated inbound query name reaches the upstream once, with its last
  value, because the code uses `set`, not `append`.
- A 403 retry that does not succeed relays the first 403. The retry's own
  failure response is not relayed.
- The JSON 500 answer and the JSON 403 answer of `middleware1.ts` carry no
  CORS headers. Only `createResponse` adds them.
- `excludeParams` affects only the search pairs. A `mergeParams` entry with an
  excluded name is still serialised.

## Model

| member | source | states |
|---|---|---|
| Gateway.Preflight | middleware.ts:10-20 | The preflight answer has status 200 and no body. Its headers are exactly the three CORS headers plus a max-age of 86400. |
| Gateway.TargetPathname | middleware.ts:23 | For the bare prefix `/h5-api` the forwarded pathname is `/`. For any longer intercepted path it is exactly what follows the prefix. |
| Gateway.Target | middleware.ts:22-29 | Defines the target URL: `https://` + upstream host + forwarded pathname, parsed, with the query given by `Collapse` over the inbound pairs. Its properties are the `Collapse*` and `*Target*` lemmas below. |
| Gateway.CopyQuery | middleware.ts:27-29 | Calls `searchParams.set` once per inbound pair, in order, on a fresh parameter list. The resulting pairs are exactly `Collapse` of the inbound pairs, whose properties are the `Collapse*` lemmas. |
| Gateway.BuildTarget | middleware.ts:22-29 | Builds the target URL by parsing the upstream text, then copying the query with `CopyQuery`. The result equals the target URL function (`Target`) for the request. |
| Gateway.Collapse | middleware.ts:27-29 | Defines the query after the `forEach` loop: `SetPair` applied to each inbound pair in order. |
| Gateway.CollapseSentPairs | middleware.ts:27-29 | Every pair the target carries was sent with the request: the copy never invents a name or value. |
| Gateway.CollapseKeepsLastValue | middleware.ts:27-29 | After the `set` loop, the names are the inbound names without duplicates, in order of first appearance. Each carries the last value sent for it. |
| Gateway.RepeatedNameCollapses | middleware.ts:27-29 | Example: `a=1&a=2` is forwarded as `a=2`. |
| Gateway.MatchedTargetStaysUpstream | middleware.ts:124-126 | A path the matcher admits is intercepted. Its target keeps the upstream host, with the prefix removed from the pathname. |
| Gateway.UnmatchedPathExtendsHost | middleware.ts:5 | A path that only passes the `startsWith` test, `/h5-api` plus a tail of lowercase letters, digits and `-` (such as `/h5-apix`), changes the target host to the upstream host plus the tail. The tail only lengthens the last label `cn`, so the URL parser keeps that host as it is. |
| Gateway.UnmatchedPathRedirectsHost | middleware.ts:23-24 | For `/h5-api@host/path`, the target URL has host `host`, pathname `/path`, and the upstream host name as user information, so it includes credentials. This holds for each `host` of lowercase letters, digits and dots whose labels are non-empty and start with a letter, which the URL parser keeps as it is. |
| Gateway.EvilExampleRedirect | middleware.ts:23-24 | Example: `/h5-api@evil.example/steal` gives a target URL with host `evil.example` and the upstream host name as user information. |
| Gateway.ForwardedBody | middleware.ts:31-37 | A body is sent exactly when the verb is POST, PUT, PATCH or DELETE and the text is not empty. It is the request text, unchanged. |
| Gateway.Relayed | middleware.ts:105-122 | The relay keeps the upstream status, status text and body. Its headers are the upstream headers plus the three CORS headers. The CORS values win, and every other upstream header keeps its value. |
| Gateway.TransportFailure | middleware.ts:95-101 | Defines the `catch` answer, which both variants share (also middleware1.ts:102-108): `NextResponse.json` with status 500 and the fields `error` and `details`. |
| Gateway.TransportFailureAnswer | middleware.ts:95-101 | A throw gets status 500, only the JSON content type and no CORS headers. The body has exactly the fields `error` and `details`. `details` is the `Error`'s message, or `未知错误` for any other thrown value. |
| Gateway.CopyHeaders | middleware.ts:112-114 | The `response.headers.forEach` copy loop, which both variants share (also middleware1.ts:118-120): the fresh `Headers` object ends up holding exactly the upstream headers. |
| Gateway.AddCors | middleware.ts:117-119 | The three CORS `set` calls, which both variants share (also middleware1.ts:123-125): the headers become the previous ones overridden by the three CORS entries, whatever the upstream sent for them. |
| Gateway.CorsOverride | middleware.ts:117-119 | Setting the three CORS names one after the other equals overriding the map with `CorsHeaders`. |
| FetchApi.SetPair | middleware.ts:28 | Defines `URLSearchParams.set`: the first pair with the name takes the value, and later pairs with it are removed. A new name is appended. |
| FetchApi.SetPairContents | middleware.ts:28 | After `set`, the new pair is present. Every other pair was there before under another name, and every pair under another name is kept. |
| Gateway.WithoutAbsent | middleware.ts:28 | Removing a name that is not present leaves the pairs unchanged. |
| Gateway.SetPairInPlace | middleware.ts:28 | On pairs with distinct names, `set` on a present name replaces that pair's value in place and keeps the length. On an absent name it appends the pair. |
| FetchApi.ParseHttpsHostPath | middleware.ts:24 | Parsing `https://` + host + path gives no user information, that host and that path. |
| FetchApi.BeforeLastAt | middleware.ts:24 | The user information of an authority: empty without an `@`, and otherwise the text that, followed by the last `@` and the host, gives back the whole authority. |
| FetchApi.ParseHttpsUserinfo | middleware.ts:24 | Parsing `https://user@host/path` gives user information `user`, host `host` and path `/path`. |
| FetchApi.Headers.Set | middleware.ts:45 | `Headers.set` stores the value under the lowercased name and leaves every other entry unchanged. |
| Middleware.OutboundHeaders | middleware.ts:39-59 | Defines the pass-through headers: the inbound ones without `host`, then `host`, `referer` and `user-agent` set, and `origin` set only when absent. Its properties are `PassThroughHeaders`. |
| Middleware.PassThroughHeaders | middleware.ts:39-59 | The names are the inbound names minus `host`, plus host, referer, user-agent and origin. `host` is the target host. `referer` is the target origin. The User-Agent is fixed. An inbound Origin is kept, otherwise it is the target origin. Every other inbound header keeps its value. |
| Middleware.BuildHeaders | middleware.ts:39-59 | The `Headers` object built by the copy loop and the four `set` calls holds exactly `OutboundHeaders`. |
| Middleware.RetryHeaders | middleware.ts:78-81 | The retry sends only `content-type` and `accept`. `content-type` is the first attempt's value if non-empty, else `application/json`. `accept` is `application/json, */*`. |
| Middleware.BuildRetryHeaders | middleware.ts:79-81 | The `Headers` object built for the retry reads `Content-Type` from the first call's `Headers` object with `get`. It holds exactly `RetryHeaders` of that object's entries. |
| Middleware.CreateResponse | middleware.ts:105-122 | The loop that copies the headers produces exactly the relay `Relayed` describes. |
| Middleware.Forward | middleware.ts:72-101 | Makes one call, plus a second one exactly when the first answers 403. The second call differs from the first only in its headers. The answer is the retry if it succeeds, else the first response. A thrown value gives the JSON 500. |
| Middleware.Handle | middleware.ts:4-102 | Paths outside `/h5-api` continue untouched with no call. OPTIONS gets the preflight answer with no call. Every other request sends its first call to the target URL with the outbound headers and body, then follows the retry-on-403 policy. |
| Middleware.RetryRepliesCarryCors | middleware.ts:88-100 | Every answer of this middleware, other than the JSON 500, carries the CORS headers. |
| Middleware.CredentialedTargetFails | middleware.ts:72-101 | When `fetch` refuses URLs with credentials and the first call's URL has them, that call throws: there is no retry, and the answer is the JSON 500 built from the thrown value. |
| Middleware.EvilExampleFails | middleware.ts:22-101 | For `/h5-api@evil.example/steal` (not OPTIONS), the one call names host `evil.example` with the upstream host name as user information. `fetch` refuses it, and the answer is the JSON 500. |
| Middleware1.OutboundHeaders | middleware1.ts:40-62 | Defines the allow-list headers: the six fixed entries, then the copied credential headers. Its properties are the three `AllowList*` lemmas. |
| Middleware1.BuildBaseHeaders | middleware1.ts:40-53 | The fresh `Headers` object after the six fixed `set` calls holds exactly `BaseHeaders`: target host, fixed user agent and accept, the inbound content type or `application/json`, and the target origin as referer and origin. |
| Middleware1.AllowListNames | middleware1.ts:40-62 | The outbound names are exactly host, user-agent, accept, content-type, referer and origin, plus each of Authorization, X-API-Key, X-Requested-With and Cookie that is present and non-empty inbound. No other inbound header is forwarded. |
| Middleware1.AllowListFixedValues | middleware1.ts:43-53 | Host is the target host, User-Agent is fixed, Accept is `application/json, */*`, and Referer and Origin are the target origin. Content-Type is the inbound value if non-empty, else `application/json`. |
| Middleware1.AllowListCredentials | middleware1.ts:56-62 | Each allow-listed credential header that is present and non-empty inbound is forwarded with its inbound value. |
| Middleware1.CopyImportantAdds | middleware1.ts:57-62 | The allow-list loop only adds names from the list, and carries each one exactly when its inbound value is truthy. |
| Middleware1.BuildHeaders | middleware1.ts:40-62 | The `Headers` object built by the fixed `set` calls and the allow-list loop holds exactly `OutboundHeaders`. |
| Middleware1.Excerpt | middleware1.ts:94 | The excerpt is the prefix of the upstream text of length min(500, length). |
| Middleware1.Rejection | middleware1.ts:86-98 | The answer to an upstream 403 has status 403, only the JSON content type and no CORS headers. Its fields are `error`, `details` and `serverResponse`, in that order. `serverResponse` is the prefix of the upstream text of length min(500, length). |
| Middleware1.CreateResponse | middleware1.ts:111-128 | The loop that copies the headers produces exactly the relay `Relayed` describes. |
| Middleware1.Forward | middleware1.ts:81-108 | Makes exactly one call. A 403 becomes the JSON 403 with the error, the details and the excerpt. Any other answer is relayed. A thrown value gives the JSON 500. |
| Middleware1.Handle | middleware1.ts:4-109 | Same gate and preflight as `Middleware.Handle`. Every other request makes one call to the target with the allow-list headers and the forwarded body. |
| Middleware1.SingleCallRepliesCarryCors | middleware1.ts:85-107 | Every answer other than the JSON 403 and the JSON 500 carries the CORS headers. A JSON 403 comes only from an upstream 403. |
| Middleware1.CredentialedTargetFails | middleware1.ts:81-108 | When `fetch` refuses URLs with credentials and the call's URL has them, that call throws, and the answer is the JSON 500 built from the thrown value. |
| Middleware1.EvilExampleFails | middleware1.ts:22-108 | For `/h5-api@evil.example/steal` (not OPTIONS), the one call names host `evil.example` with the upstream host name as user information. `fetch` refuses it, and the answer is the JSON 500. |
| UriComponent.EncodeAlphabet | lib/utils.ts:54 | encodeURIComponent output consists of unreserved characters, `%` and uppercase hex digits only, so it never contains `&` or `=`. |
| UriComponent.DecodeEncode | lib/utils.ts:54 | decodeURIComponent(encodeURIComponent(s)) == s for every string of code points. |
| QueryString.Kept | lib/utils.ts:32-41 | Defines the `filterEmpty` filter: the entries whose value is not empty, in their order. |
| QueryString.KeptExactly | lib/utils.ts:31-41 | With `filterEmpty`, an entry is kept exactly when its value is not null, undefined, `''` or the empty array. This keeps `0` and `false`. |
| QueryString.BuildQueryString | lib/utils.ts:43-47 | No remaining entries gives `''`, even with `includeQuestionMark`. Otherwise, with `includeQuestionMark`, the result starts with `?`. The exact text is stated by `ExactText`. |
| QueryString.EncodedLead | lib/utils.ts:43-63 | With encoding and at least one remaining entry, the result starts with `?` exactly when `includeQuestionMark` is set, because no encoded pair starts with `?`. |
| QueryString.RoundTrip | lib/utils.ts:17-64 | With encoding, decoding the result (optional `?`, `&`-separated, split at the first `=`, percent-decoded) gives exactly the pairs of the kept entries, in order. A scalar becomes `key`=`String(value)`, and an array becomes one `key[]` pair per element. |
| QueryString.ExactText | lib/utils.ts:43-63 | For both settings of `encode`: no remaining entries gives `''`. Otherwise the result is `?` (only with `includeQuestionMark`) followed by the `name=value` texts of the entries' pairs, in order and joined by `&`. With `encode`, the name (an array key with its `[]` suffix) and the value each go through encodeURIComponent. Without it, both are written verbatim. An empty array (kept only without `filterEmpty`) leaves an empty segment. Without empty arrays, the segments are exactly the texts of the pairs the round trip reads back. |
| QueryString.EncodedArrayKey | lib/utils.ts:54 | Example: with the defaults, `{a: ['1']}` gives `?a%5B%5D=1`, so the brackets are encoded with the key. |
| QueryString.EmptyArrayEmptySegment | lib/utils.ts:49-61 | Example: without encoding or filtering, `{a: 1, b: []}` gives `?a=1&`. |
| QueryString.BuildQueryStringFromSearchParams | lib/utils.ts:89-122 | The loop over the search pairs, the `Object.assign` loop and the final call produce the query string of the merged, grouped record (`Assign` over `Group`), with the defaults. |
| QueryString.Group | lib/utils.ts:99-114 | Defines the record after the `forEach` loop: excluded names are skipped. Otherwise each pair is assigned the value `Added` gives (a string, a new two-element array, or the array grown by one). |
| QueryString.GroupValue | lib/utils.ts:99-114 | An excluded or absent name has no entry. A name seen once holds that string. A name seen more often holds the array of all its values in arrival order. |
| QueryString.GroupKeys | lib/utils.ts:99-114 | The grouped record has one entry for each name that is present and not excluded, and no name twice. |
| QueryString.Put | lib/utils.ts:109-112 | After assigning a value to a property, reading it gives that value, and every other property is unchanged. |
| QueryString.PutKeys | lib/utils.ts:109-112 | Assigning an existing property keeps its position. A new property goes last. |
| QueryString.Assign | lib/utils.ts:116-119 | Defines `Object.assign`: each merge entry in order, as a property assignment. |
| QueryString.AssignValue | lib/utils.ts:116-119 | After `Object.assign`, a merged name holds the value of its last merge entry. Every other name keeps its grouped value. |
| QueryString.ExcludedUnlessMerged | lib/utils.ts:99-102 | An excluded name that `mergeParams` does not mention has no entry in the merged record, so no pair is serialised from an entry of that name. A different name `k` can still produce pairs named `k[]`, which may equal an excluded name. |
| QueryString.ExcludedNameMergedBack | lib/utils.ts:116-119 | Example: excluding `token` does not stop a merged `token` from being serialised. |

## Left out

- Logging (`console.log` and `console.error`) is left out. It has no effect on the answers.
- Asynchrony is left out. The network, `fetch` and streaming bodies are modelled by the `fetch` parameter and string bodies.
- `redirect: 'follow'` is part of the oracle's behaviour, not of the model.
- Exceptions from `request.clone().text()` and from `response.text()` are left out. Only a thrown `fetch` is modelled: its `Error` message, or another value.
- The `statusText` of the JSON answers is left out. The model uses `""`.
- The Fetch standard's header guards, forbidden names, value normalisation and the multiplicity of `Set-Cookie` are left out. Headers are a map from lowercased names.
- The user information is kept as one text. Its split into username and password at the first `:`, and their percent-encoding, are left out. `IncludesCredentials` uses the split only to treat `:` alone as no credentials.
- URL parsing is modelled only for targets whose host is the upstream host, possibly with a longer last label, or a plain host name whose labels start with a letter. Ports, IDNA, host lowercasing, the IPv4 rule (a host whose last label is a number is read as an IPv4 address, so `1` becomes `0.0.0.1` and `a.1` is rejected), percent-encoding of the path and the `TypeError` for an invalid host are left out. They arise only for paths the matcher `/h5-api/:path*` does not admit. That `TypeError` would be thrown by `new URL` before the `try`, so it would never become the JSON 500 answer.
- The target's query is the pair list. How `toString` serialises it is left out.
- `cn` (lib/utils.ts:4-6) is left out. It wraps third-party class-name libraries.
- `buildQueryStringFromRequest` (lib/utils.ts:74-84) is left out. It only parses `request.url` and passes the search pairs on. The model starts from those pairs.
- QueryString.Value: numbers are integers. Floating-point formatting (`String(1.5)`, `NaN`, `Infinity`) is left out. So are object values and functions.
- QueryString.ToStr: `Num` is not bounded. JavaScript writes integers of magnitude 1e21 or more in exponent form (`1e+21`), while the model always writes all the digits.
- QueryString.Kept: it assumes entries with distinct names, as a JavaScript record has. `Object.entries` listing integer-like names first is left out.
- QueryString.Group: `key in params` is also true for the names the empty record inherits from `Object.prototype`, such as `toString` and `__proto__`. The model treats the record as holding only its own properties, so it writes `toString=v` and `__proto__=v` for those searches. In the code:
  - for `?toString=v` it builds the array of the inherited `Object.prototype.toString` function and `v`, and writes two `toString[]` pairs, the first holding the function's source text;
  - for `?__proto__=v` the assignment replaces the record's prototype instead of adding an entry, so no `__proto__` pair is written.
- QueryString.BuildQueryStringFromSearchParams: `push` grows the array inside the record in place. The model replaces the array value. Nothing else holds that array, so the result is the same.
- UriComponent.DecodeEncode: strings are sequences of code points. UTF-16 lone surrogates, which make encodeURIComponent throw, are outside the model.
- Middleware1.Excerpt: `slice(0, 500)` counts UTF-16 code units, and the model counts code points.
- Middleware1.Rejection: its `serverResponse` excerpt counts code points, for the same reason.
- The page, layout, route handlers under `app/` and `next.config.ts` are left out. They are not part of the proxy core.
