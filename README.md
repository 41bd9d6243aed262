# go-url-shortener, modelled in Dafny

The system is a small HTTP service that keeps an in-memory table from short keys
(URL paths) to resource URLs. `POST /api/new` with a JSON body
`{"ShortKey": ..., "Resource": ...}` and `Content-Type: application/json` stores an
entry. Any other path is looked up in the table. A hit is answered with a
`303 See Other` redirect (RFC 9110, section 15.4.4) to the stored resource. A miss
gets the body "Not found" with the default status 200.

The model has these parts:

- `Json` (json.dfy): what the `encoding/json` decoder reports, taken as input. The
  first `Decode` either yields a `Redirection` or fails with a `DecodeError`. That
  error is described by what the handler can ask of it: the offset of a syntax error
  in its chain, whether it is `io.ErrUnexpectedEOF`, the type-mismatch error in its
  chain, its text, and whether it is `io.EOF`. One error may match several of the
  handler's cases, so the order of the cases matters. The second `Decode` is either
  exactly `io.EOF` or something else.
- `Http` (http.dfy): requests (method, path, `Content-Type` header, decode outcomes),
  responses (status and body, or a redirect with its target), and `http.Error`, which
  writes the message followed by a newline.
- `Format` (format.dfy): `%d` as decimal rendering, `%q` as quoting, and
  `strings.HasPrefix`/`TrimPrefix`.
- `Handlers` (handlers.dfy): the handler decisions as pure functions from a request
  and the store to a response and the next store. These are the content-type gate,
  the prioritised decode-error classification, the single-object check, the insert,
  the method guard on `/api/new` and the lookup.
- `Server` (server.dfy): the class `Shortener` owns the mutable map `pathsToUrls`.
  `Put` and `Get` are the point write and the comma-ok read of that map.
  `CreateRedirection`, `Redirect` and `Handle` follow the handlers step by step, with
  early returns. Each of these three is proved against the corresponding function in
  `Handlers`.
- `Traces` (traces.dfy): requests served one at a time. It proves last-write-wins,
  that nothing is ever deleted, that rejected requests change nothing, that lookups
  are idempotent, and that a create followed by a lookup redirects to the stored
  resource.
- `Scenarios` (scenarios.dfy): example requests to the creation route and a repeated
  miss, each with the answer the server gives.

Two behaviours of the code differ from what one would expect of a URL shortener. The
model follows the code:

- A request for path `/api/new` always reaches the creation route. So an entry with
  key `/api/new` can be stored but is never served. The intended round-trip "create
  (k, r), then GET k redirects to r" therefore holds only for `k != "/api/new"`.
  `Traces.CreatePathNeverRedirects` states this shadowing.
- A miss answers "Not found" with status 200, not 404. The model keeps 200.

## Model

| member | source | states |
|---|---|---|
| `Format.NatToDecimal` | cmd/main.go:43 | `%d` of a non-negative offset is a non-empty string of decimal digits with no leading zero |
| `Format.IntToDecimal` | cmd/main.go:48-49 | `%d` of any offset starts with '-' exactly when the offset is negative |
| `Format.NatToDecimalRoundTrip` | cmd/main.go:43 | reading back the digits written for an offset gives the offset |
| `Format.IntToDecimalInjective` | cmd/main.go:43 | distinct offsets are printed as distinct texts |
| `Format.NatToDecimalInjective` | cmd/main.go:43 | distinct non-negative offsets are printed as distinct digit strings |
| `Format.TrimPrefix` | cmd/main.go:52 | when the prefix is present, prefix + result is the input; otherwise the input is returned unchanged |
| `Format.TrimPrefixOfConcat` | cmd/main.go:51-52 | text built as prefix + rest passes the prefix test, and trimming the prefix gives back rest |
| `Handlers.CheckContentType` | cmd/main.go:23-31 | the request passes exactly when the header equals "application/json"; an empty or any other value gets 400 "Content-Type must be set to application/json" |
| `Handlers.ClassifyDecodeError` | cmd/main.go:38-62 | a failed decode is always answered with an error: 400 exactly when one of the five recognised cases holds, 500 otherwise, and the 500 body is only the generic status text |
| `Handlers.ClassificationPriority` | cmd/main.go:41-61 | first match wins (syntax error, unexpected EOF, type mismatch, unknown-field prefix, EOF): once a case matches, the later cases do not change the response |
| `Handlers.SyntaxErrorOffsetReported` | cmd/main.go:42-44 | the syntax-error response identifies the offset: two syntax errors with the same response have the same offset |
| `Handlers.TypeMismatchReported` | cmd/main.go:47-50 | a type mismatch that no earlier case catches is answered 400 with the message naming its field and offset, and two such errors answered alike have the same field and the same offset |
| `Format.SplitAfterLastSpace` | cmd/main.go:48-49 | a message ending in a space and then a printed number splits there in only one way, so the number can be read off the message |
| `Handlers.UnknownFieldReported` | cmd/main.go:51-54 | an unknown-field error whose text is "json: unknown field " + name is answered 400 "Request body contains unknown field " + name |
| `Handlers.CreateRedirection` | cmd/main.go:22-70 | the answer is 200 with an empty body exactly when all checks pass, and then the key maps to the resource (overwriting any earlier entry) with every other entry kept; any rejection leaves the store unchanged; checks run in order (content type, then first decode, then the trailing-content check) |
| `Handlers.Lookup` | cmd/main.go:81-86 | redirects exactly when the path is stored, with status 303 and the stored resource as target; otherwise status 200 with body exactly "Not found" |
| `Handlers.Serve` | cmd/main.go:73-87 | the store changes only on an accepted POST to /api/new; any other method there gets 400 "Not allowed" without reaching creation; other paths get the lookup; /api/new is never redirected |
| `Server.Shortener.constructor` | cmd/main.go:15 | the table starts empty |
| `Server.Shortener.Put` | cmd/main.go:69 | inserts or overwrites one key and keeps every other entry |
| `Server.Shortener.Get` | cmd/main.go:82 | returns found exactly when the path is a key, with its resource, and "" when not found |
| `Server.Shortener.CreateRedirection` | cmd/main.go:22-70 | the in-place handler gives the response and new table that `Handlers.CreateRedirection` gives for the old table |
| `Server.Shortener.Redirect` | cmd/main.go:80-87 | answers as `Handlers.Lookup` on the current table and changes nothing |
| `Server.Shortener.Handle` | cmd/main.go:73-87 | the in-place dispatch gives the response and new table that `Handlers.Serve` gives for the old table |
| `Traces.Run` | cmd/main.go:73-87 | serving requests one after another gives exactly one response per request |
| `Traces.RunAppliesWrites` | cmd/main.go:69 | the store after a run is the initial store with the run's accepted creations applied in order |
| `Traces.ApplyIsLatest` | cmd/main.go:69 | after a sequence of inserts, each key holds the resource of its most recent insert, or its old entry if it had none |
| `Traces.RunLastWriteWins` | cmd/main.go:69 | after any run, each key resolves to the resource of the latest accepted creation for it; repeated keys are overwritten without error |
| `Traces.RunNeverDeletes` | cmd/main.go:69 | no key present before a run is missing after it |
| `Traces.RunKeepsUntouchedKeys` | cmd/main.go:69 | a key that no accepted creation names keeps its entry, or stays absent, through a run |
| `Traces.RejectionsLeaveStoreUnchanged` | cmd/main.go:22-70 | a run in which no request is an accepted creation leaves the store exactly as it was |
| `Traces.RunResponseAt` | cmd/main.go:73-87 | each request of a run is answered from the store that the earlier requests left |
| `Traces.LookupsOnly` | cmd/main.go:80-87 | requests to paths other than /api/new change nothing, and each is answered from the initial store, so repeated lookups give the same answer |
| `Traces.CreateThenLookup` | cmd/main.go:69-83 | after an accepted creation of (k, r) with k not /api/new, a later request for k is redirected (303) to r, provided no later request stored k again |
| `Traces.RegisterTwiceRedirectsToLatest` | cmd/main.go:69-83 | registering one key twice and then requesting it redirects to the second resource |
| `Traces.CreatePathNeverRedirects` | cmd/main.go:73-80 | a request for /api/new is never redirected, even when /api/new is a stored key |
| `Scenarios.CharsetParameterRejected` | cmd/main.go:23-27 | "application/json; charset=utf-8" is rejected with the content-type message, whatever the body, and nothing is stored |
| `Scenarios.SyntaxErrorAtOffset` | cmd/main.go:42-44 | a syntax error at a given offset is answered 400 "Request body contains badly-formed JSON (at position N)", whatever the second decode says |
| `Scenarios.TruncatedBodyRejected` | cmd/main.go:45-46 | a body cut off mid-object is answered 400 "Request body contains badly-formed JSON" |
| `Scenarios.ExtraFieldNamed` | cmd/main.go:51-54 | an extra field "Extra" is answered 400 naming "Extra" as unknown |
| `Scenarios.WrongTypeNamed` | cmd/main.go:47-50 | a number given for ShortKey is answered 400 naming "ShortKey" and the offset |
| `Scenarios.EmptyBodyRejected` | cmd/main.go:55-57 | an empty body is answered 400 "Request body must not be empty" |
| `Scenarios.TwoObjectsRejected` | cmd/main.go:64-68 | a body with more after the first object is answered 400 "Request body must only contain a single JSON object", and nothing is stored |
| `Scenarios.MissRepeated` | cmd/main.go:84-86 | asking twice for an unregistered path gives status 200 with "Not found" both times and leaves the store as it was |

## Left out

- JSON decoding by `encoding/json` (cmd/main.go:33-37, 64) is a library whose code is not part of this model. Its results are inputs. `DisallowUnknownFields` is modelled only through the error text it produces. Byte offsets are opaque integers.
- The width of the offsets (Go `int64`) is not modelled. Offsets are unbounded integers.
- `Format.Quote` models `%q` as the text between double quotes. It does not model Go's escaping of quotes, backslashes or non-printable characters.
- `http.Redirect` details are not modelled: rewriting relative targets against the request path, the `Location` header, and the short HTML body. A redirect is only a status and a target.
- `http.Error` headers (`Content-Type: text/plain`, `X-Content-Type-Options`) are not modelled. Only the status and the body written are.
- `http.ListenAndServe`, the address `:8080`, and `ServeMux` matching and path cleaning are not modelled. Routing is "path equals /api/new, or not". Lookups use the request path as given.
- `log.Print` in the 500 case writes only to the server log and is not modelled.
- Concurrent access to the unsynchronised map is a data race in the source. It is not modelled: requests are served one at a time.
- Go strings are byte sequences, while a Dafny `string` is a sequence of characters. So keys, resources, headers and error texts that are not valid UTF-8 cannot be represented. The handlers only compare such strings and test prefixes, so no modelled answer depends on this.
- Reading the request body is not modelled, and neither is which value `Header.Get` picks among several headers. The header is one string, empty when absent.
