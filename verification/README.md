# IIJmio coupon checker: a Dafny model of `CouponInfo`

This project models the protocol logic of the mikutter IIJmio coupon-checker
plugin, which lives in the three class methods of `CouponInfo`:

- `get_info` fetches the account's coupon information. The model covers its
  developer-id guard, its request headers, how it decides on the response
  status, and how it turns the decoded JSON document into `CouponInfo` records.
- `switch(hdo, is_valid)` turns coupon use on or off for one line. The model
  covers its guard, its PUT body, its headers and its status decision.
- `auth` starts the OAuth implicit-grant flow. The model covers its guard, the
  authorization URL it opens, and the request handler of its local redirect
  listener.

Threads, Deferreds, the HTTP client, the JSON codec and the WEBrick server are
not modelled. Every operation is a pure function. The configuration
(`iij_developer_id`, `iij_access_token`) is a `Config` parameter. The HTTP
client is a `transport` parameter that answers a request with a response whose
body is already decoded, or with nil.

Modules, one file each:

- `Wrappers`: `Option` (Ruby's nil) and `Result` (a Deferred that resolves or fails).
- `Json`: the decoded document, and `Dig`, which follows Ruby's `Hash#dig` and `Array#dig`.
  Nil met at any step gives nil. A missing key, JSON null and an index past
  the end all give nil. An integer index into a Hash gives nil. A string key
  into an Array raises TypeError. Any step into a string, number or boolean
  also raises TypeError.
- `CouponModel`: `Coupon`, `HdoInfo` and `CouponInfo`. Each leaf is kept as the
  raw JSON value `dig` returned.
- `Parser`: the parse loop of `get_info`, in the source's order of evaluation.
- `ParserProperties`: when the parse succeeds (exactly), which key each field
  comes from, ordering, and the failure cases.
- `ResponseDocument`: the document the API sends for given records. Parsing it
  gives the records back.
- `Requests`: the configuration, the headers, the authorization query string
  (with a reader for it) and the switch body.
- `Service`: `GetInfo`, `Switch` and `Authorize`, each returning a trace of
  the requests sent, whether re-authorization started, and the result.
- `Redirect`: the redirect listener's request handler, both as written and as
  intended (see Findings).

Points where the code may surprise a reader:

- On a 403 the code starts `auth` and still fails the call. There is no retry
  (lines 82-83 and 132-133).
- The parser fails in more places than on a malformed root. It raises TypeError
  when a `dig` path steps through a scalar or digs a string key into an Array
  (`hdoInfo == [[1]]`, or the `[key, value]` pairs `.each` yields from a
  non-empty Hash), and NoMethodError when `.each` or `.dig` is called on nil or
  on a scalar.
- When `couponInfo` or a record's `coupon` is an empty JSON object, Ruby's
  `Hash#each` runs zero times, so that list parses as empty.
- The headers are `X-IIJmio-Developer` and `X-IIJmio-Authorization`.
- The guard tests Ruby truthiness, so an empty developer id passes it. Only an
  unset (nil) id fails.

## Model

| member | source | states |
|---|---|---|
| Json.Dig | model/coupon_info.rb:88-104 | `dig` follows the path one step at a time. Its contract is stated by `Json.DigResultShape` (no JSON null, only the TypeError) and `Json.DigAppend` (a path dug in two parts) |
| Parser.Each | model/coupon_info.rb:86-101 | `.each` succeeds exactly when the value is an Array whose elements all pass the block, or an empty Hash. An Array then yields one result per element, in order, and an empty Hash yields none. nil and scalars fail with `NotIterable` |
| Parser.ParseBundleCoupon | model/coupon_info.rb:102-104 | a bundle coupon parses exactly when it is a Hash. `ResponseDocument.BundleRoundTrip` pins its keys `volume`, `expire` and `typo`; `ParserProperties.BundleCouponValue` only unfolds the body for other proofs |
| Parser.ParseRecord | model/coupon_info.rb:88-110 | a parsed record came from a Hash, and it holds one bundle coupon per element of the record's `coupon` Array (none for an empty Hash). `ParserProperties.RecordParsesIff` and `ParserProperties.RecordFieldSources` state when it succeeds and where each field comes from |
| Parser.ParseCouponInfo | model/coupon_info.rb:85-112 | a document that is not a Hash fails with `RootNotObject`. A successful parse of a `couponInfo` Array yields one record per element. `ParserProperties.DocumentParsesIff` states when it succeeds, and `ParserProperties.ParsePreservesOrder` states that the i-th record comes from the i-th element |
| Requests.Headers | model/coupon_info.rb:75-79 | the default headers of both calls (lines 75-79 and 125-129). Their contract is stated by `Requests.HeadersCarryConfig` |
| Requests.JoinQuery | model/coupon_info.rb:38 | the query string, joined without any encoding. `Requests.QueryRoundTrip` states that `Requests.SplitQuery` reads it back |
| Service.Respond | model/coupon_info.rb:81-83 | the response handler of both calls (lines 81-83 and 131-134): exactly the one request is recorded, re-authorization starts exactly on 403, a 200 runs the success branch, and every other response (nil included) fails with that response |
| Json.DigResultShape | model/coupon_info.rb:88-98 | `dig` never returns a JSON null, because null reads as nil, and the only failure it can raise is the TypeError |
| Json.DigAppend | model/coupon_info.rb:88-98 | digging a path `p + q` equals digging `p` and then digging `q` from the result; nil and the TypeError short-circuit |
| Parser.Traverse | model/coupon_info.rb:86-111 | the `.each` loop succeeds exactly when the block succeeds on every element. It then yields one result per element, in order. Otherwise it fails with the error of the first element that fails, and every earlier element succeeded |
| ParserProperties.RecordParsesIff | model/coupon_info.rb:88-110 | a record parses exactly when it is a Hash, the path `hdoInfo/0/coupon/0` never steps through a scalar and never digs a string key into an Array, and its own `coupon` is an Array of Hashes or an empty Hash |
| ParserProperties.DocumentParsesIff | model/coupon_info.rb:85-112 | the document parses exactly when it is a Hash and its `couponInfo` is an Array of acceptable records or an empty Hash |
| ParserProperties.ParsePreservesOrder | model/coupon_info.rb:85-112 | for a `couponInfo` Array of n records, a successful parse yields exactly n records, the i-th parsed from the i-th element. The parse succeeds exactly when every record is acceptable |
| ParserProperties.RecordFieldSources | model/coupon_info.rb:88-110 | `hddServiceCode` and `plan` come from the record. The seven line fields come from `hdoInfo/0/<key>`. The in-SIM coupon comes from `hdoInfo/0/coupon/0`, with its type read from `type`. There is one bundle coupon per element of the record's own `coupon` Array, in order, with its type read from `typo` |
| ParserProperties.NoLineLeavesFieldsUnset | model/coupon_info.rb:88-98 | when `data.dig('hdoInfo', 0)` is nil (`hdoInfo` absent, null, a Hash, empty or starting with null), every line field and every in-SIM coupon field is nil. The record then parses exactly when its own `coupon` list does |
| ParserProperties.NoSimCouponLeavesItUnset | model/coupon_info.rb:88-90 | when `data.dig('hdoInfo', 0, 'coupon', 0)` is nil (`coupon` absent, null, a Hash, empty or starting with null), a parsed record's in-SIM coupon has every field nil |
| ParserProperties.NoSimCouponKeepsParsing | model/coupon_info.rb:88-90 | when `data.dig('hdoInfo', 0, 'coupon', 0)` is nil, the parse does not fail on it: the record parses exactly when its own `coupon` list does |
| ParserProperties.NilEachFails | model/coupon_info.rb:86-101 | an absent or null `couponInfo` fails with `nil.each` at line 86. A single record whose own `coupon` is absent or null fails the whole parse |
| ResponseDocument.ParseDocumentRoundTrip | model/coupon_info.rb:85-112 | parsing the API document laid out for any records whose fields hold no JSON null (every record the parser can produce, by `Json.DigResultShape`) gives exactly those records back. This pins down the keys `couponInfo`, `hdoInfo`, `coupon`, `type` and `typo` |
| ResponseDocument.RecordRoundTrip | model/coupon_info.rb:88-110 | parsing the document laid out for one record whose fields hold no JSON null (every record the parser can produce, by `Json.DigResultShape`) gives that record back |
| ResponseDocument.BundleRoundTrip | model/coupon_info.rb:100-105 | parsing a record's bundle coupon list, for coupons whose fields hold no JSON null, gives back the same coupons in the same order, with each type under `typo` |
| Requests.HeadersCarryConfig | model/coupon_info.rb:75-79 | the request carries three headers. `Content-Type` is `application/json`, `X-IIJmio-Developer` is the configured developer id, and `X-IIJmio-Authorization` is the configured access token (nil when unset) |
| Requests.QueryRoundTrip | model/coupon_info.rb:38 | joining at least one parameter as `k=v` with `&` and reading the result back gives the same parameters in order, when keys hold neither `&` nor `=` and values hold no `&` |
| Requests.AuthorizationUrl | model/coupon_info.rb:32-38 | the URL is the authorization endpoint, then `?response_type=token&client_id=<id>&state=mikutter_iij_coupon_checker&redirect_uri=http://localhost:8080/`, with the id inserted verbatim |
| Requests.AuthorizationQueryReadsBack | model/coupon_info.rb:32-38 | when the id holds no `&`, the authorization query reads back as the four parameters in Hash-literal order |
| Requests.AmpersandInIdAddsParameters | model/coupon_info.rb:38 | nothing is percent-encoded, so an id holding `&` splits the query into more than four parameters |
| Requests.SwitchBody | model/coupon_info.rb:124 | the PUT body holds one record, which holds one line, which holds exactly `hdoServiceCode` (the given code) and `couponUse` (the given flag) |
| Service.Decide | model/coupon_info.rb:81-83 | a response is accepted exactly when its status is 200. Re-authorization starts exactly when the status is 403. A nil response is rejected |
| Service.GetInfo | model/coupon_info.rb:71-114 | with no developer id, it fails before any request is sent. Otherwise it sends exactly one GET and re-authorizes exactly on 403. A 403 call is not retried: it still fails with the 403 response. It succeeds only on 200, and then with the parse of the body. Any other status fails with the response itself |
| Service.Switch | model/coupon_info.rb:120-135 | with no developer id, it fails before any request is sent. Otherwise it sends exactly one PUT with the switch body and re-authorizes exactly on 403, without retrying. It succeeds exactly on 200, returning the response. Otherwise it fails with the response |
| Service.Authorize | model/coupon_info.rb:31-38 | it fails exactly when no developer id is configured, and then with `DeveloperIdMissing`. Otherwise it succeeds with the authorization URL for that id |
| Redirect.HandleAsWritten | model/coupon_info.rb:49-58 | as written, the handler answers 200 and stores nothing, or it raises. It raises exactly when the query is present and empty |
| Redirect.AsWrittenNeverStoresToken | model/coupon_info.rb:55-57 | as written, no request gets a token stored, including the redirect `/?access_token=<token>` for any token |
| Redirect.AsWrittenNeverRefusesFavicon | model/coupon_info.rb:53 | as written, every request that is served gets status 200, never 451. A favicon probe with a non-empty query is answered with 200 |
| Redirect.HandleRedirect | model/coupon_info.rb:49-58 | as intended, the status is 451 exactly for paths containing `favicon.ico`. The stored token is exactly a non-empty `access_token` from the query |
| Redirect.CapturesRedirectToken | model/coupon_info.rb:55-57 | as intended, the redirect `/?access_token=<token>` stores exactly `<token>`, for tokens holding none of `&`, `;`, `%` and `+`. An empty token is ignored |
| Redirect.RefusesFavicon | model/coupon_info.rb:53 | as intended, every path holding `favicon.ico` anywhere is answered with 451, whatever the query. `/favicon.ico` with an empty query stores nothing |

## Findings

| source | as written | input that shows it | evidently intended | confidence | as-written member | corrected member |
|---|---|---|---|---|---|---|
| model/coupon_info.rb:55 | `if req.query&.empty?` enters only when the query is empty. It then calls `.empty?` on the nil `req.query['access_token']`, which raises | the redirect `/?access_token=TOK123`: the query is not empty, so the token is never stored | store `access_token` when the query carries a non-empty one | high; not executed | Redirect.AsWrittenNeverStoresToken | Redirect.CapturesRedirectToken |
| model/coupon_info.rb:53 | `res.status == 451` compares and discards the result | `/favicon.ico?v=1` is answered with 200 | `res.status = 451` for favicon probes | medium; not executed | Redirect.AsWrittenNeverRefusesFavicon | Redirect.RefusesFavicon |

## Left out

- Threads and `Delayer::Deferred` chaining (lines 30, 39, 73, 81, 121, 131). Each operation is a pure function whose `Result` stands for the Deferred's outcome. `Deferred.fail` is taken to abort the block it is called in. At line 72 the guard runs outside any Deferred; the model treats it as failing the call before a request is built, like the other two guards.
- `HTTPClient#get` and `#put` (lines 74, 80, 123, 130) are the `transport` parameter. Exceptions the client raises are not modelled; a nil response is.
- `JSON.parse` (line 86) and `JSON.generate` (line 130): the model starts from a decoded `Json` value and sends the body as a `Json` value. Malformed JSON text is not modelled, and neither are floating-point numbers.
- The WEBrick server itself (lines 40-62): binding port 8080, serving `index.html`, `trap('INT')`, and the fact that nothing shuts the server down after a token arrives. Only the mounted handler's decision is modelled.
- `Plugin.call(:open, ...)` (line 38): `Authorize` returns the URL that would be opened.
- `UserConfig` persistence (lines 31, 33, 57, 72, 77-78, 122, 127-128): the configuration is a parameter, read once per call. In the handler, storing the token is the `stored` field of the outcome.
- The field typing of `Retriever::Model` (lines 19-22) and of the `Coupon` and `HDOInfo` classes is not part of this model. Fields hold the raw JSON value.
- The class-level `@hdo_info` (line 91) keeps the last record's line after the call. This side effect is not modelled.
- Parser.Each: for a non-empty Hash, Ruby's `.each` passes `[key, value]` pairs to the block, and the block's first string-keyed `dig` on a pair raises. The model reports this as one `ElementNotObject` failure without building the pairs.
- Redirect.TokenRedirect: the redirect's query is read with the model's own split, on `&` and the first `=`. WEBrick's `parse_query` also splits on `;`, skips empty segments and form-unescapes `%XX` and `+`. So `Redirect.TokenRedirectQuery` and `Redirect.CapturesRedirectToken` cover only tokens holding none of `&`, `;`, `%` and `+`. `Redirect.QueryMap` does follow WEBrick in keeping the first value of a repeated key.
- WEBrick fills `req.query` with a Hash (empty when there is no query string) for the requests this handler sees. The model's `query: None` is a case WEBrick does not produce, and it is kept only for generality.
- Json.Dig: only non-negative indices are modelled, because the source only digs index 0.
- Which Ruby exception class is raised: the model's `ParseError` names the call that raised, not the exception class.
