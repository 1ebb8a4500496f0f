# Transcription proxy worker: rate limiter and request dispatch

This project models the request handler of a small HTTP worker that forwards
audio-transcription requests from one trusted browser origin
(`https://dayonebuilder.github.io`) to an upstream speech-to-text service. It
proves properties of that model.

The handler runs its checks in a fixed order:

1. A CORS preflight (`OPTIONS`, any path) gets 204 with three CORS headers
   when its `Origin` is the allowed one, and 403 otherwise.
2. Anything but `POST /transcribe` gets 404, whatever its origin.
3. `POST /transcribe` from another origin gets 403.
4. The client key is `CF-Connecting-IP`, or `"unknown"` when that header is
   missing or empty. The key goes through a fixed-window, per-client rate
   limiter: at most 30 requests per 60 000 ms window. A limited request gets
   429 with a JSON error.
5. An admitted request is proxied. The upstream's status and body are relayed,
   with its Content-Type, or `application/json` when it sent none. A failed
   upstream call gets 502 with a JSON error. So does an upstream status that
   the platform's `Response` constructor refuses with a text body: 204, 205,
   304, or a status outside 200-599. The constructor throws inside the same
   `try` block.

Every response from steps 4 and 5 carries the CORS headers.

The files:

- `wrappers.dfy` holds module `Wrappers`, an `Option` type.
- `rate_limit.dfy` holds module `RateLimiting`.
  - The class `RateLimiter` holds the process-wide table, a `map<string, Entry>`.
  - Its method `IsRateLimited` updates the table in place.
  - The pure functions `Assess`, `Record` and `Replay` specify that method.
  - The lemmas state what the limiter promises: the first request is admitted,
    the window resets strictly after 60 000 ms, denied requests are counted,
    calls 1 to 30 of a window are admitted and later ones limited, and clients
    are isolated from each other.
- `worker.dfy` holds module `Worker`, the dispatch decision tree.
  - Its pure parts are `Screen` (preflight, route and origin checks) and
    `Relay` (the response once admission is decided).
  - `Respond` is the whole handler as a function of the table.
  - The method `Fetch` calls the limiter and is proved equal to `Respond`.
  - `Serve` and the lemma `ClientQuota` lift the limiter's guarantees to
    whole sequences of handled requests.

The clock and the upstream call are inputs to the model. `now` is passed to
the limiter, and no ordering between successive values of `now` is assumed.
The upstream outcome is either `Answered(status, body, contentType)` or `Failed`.
The request's URL is given as its path. A header is `None` when absent.

The 403 and 404 responses carry the texts `Forbidden` and `Not Found`
(worker/src/index.js:37, 45, 50). JavaScript's `||` treats an empty header like an
absent one. So an empty `CF-Connecting-IP` also maps to `"unknown"`, an empty
`Origin` is the empty origin, and an empty upstream Content-Type falls back to
`application/json`.

## Model

| member | source | states |
|---|---|---|
| `RateLimiting.Assess` | worker/src/index.js:13-19 | the verdict is "limited" exactly when the count after the request exceeds 30; the request is always counted, so the new count is at least 1 |
| `RateLimiting.RateLimiter.constructor` | worker/src/index.js:5 | the table starts empty |
| `RateLimiting.RateLimiter.IsRateLimited` | worker/src/index.js:9-20 | the result and the new table are those of one call of the limiter on the old table; afterwards the client has an entry, the result is "limited" iff that entry's count exceeds 30, every other key's entry is unchanged, and all counts stay positive |
| `RateLimiting.FirstRequestAdmitted` | worker/src/index.js:11-15 | a client with no entry is admitted and its entry becomes exactly `{start: now, count: 1}` |
| `RateLimiting.ExpiredWindowResets` | worker/src/index.js:13-15 | when more than 60 000 ms have elapsed, the entry becomes `{start: now, count: 1}` and the request is admitted, whatever the old count |
| `RateLimiting.InWindowCounts` | worker/src/index.js:18-19 | within the window, the count rises by exactly one, the start is kept, and the request is limited iff the new count exceeds 30 |
| `RateLimiting.WindowBoundaryIsStrict` | worker/src/index.js:7-13 | at exactly 60 000 ms elapsed there is no reset, and at 60 001 ms there is |
| `RateLimiting.OverLimitStaysLimited` | worker/src/index.js:18-19 | a client at or over the limit stays limited for the rest of its window, and its count keeps rising (denied requests are not capped) |
| `RateLimiting.RecordTouchesOnlyItsKey` | worker/src/index.js:11-18 | one call of the limiter leaves every other client's entry as it was |
| `RateLimiting.ReplayWellFormed` | worker/src/index.js:13-19 | any sequence of calls keeps every entry's count at least 1 (an invariant recorded for documentation; no other contract relies on it) |
| `RateLimiting.Isolation` | worker/src/index.js:11-18 | after any interleaving of calls, a client's entry equals what its own calls alone would give, so other clients' traffic never affects it |
| `RateLimiting.BurstEntry` | worker/src/index.js:9-19 | for a client with no entry whose first n calls fall within one window of the first of them, after those n calls the entry is `{start: first call's time, count: n}`; later calls are unconstrained |
| `RateLimiting.BurstVerdicts` | worker/src/index.js:6-19 | from no entry, with the calls up to this one inside one window, calls 1 to 30 are admitted and every call from the 31st on is limited |
| `RateLimiting.InterleavedBurst` | worker/src/index.js:6-19 | inside any interleaving with other clients, a client's call is limited iff that client already made 30 calls in the window before it; only its calls up to this one need to fall in the window |
| `Worker.ClientKey` | worker/src/index.js:54 | the key is never empty, and it is `"unknown"` exactly when the IP header is absent, empty or literally `"unknown"`, so all such clients share one counter |
| `Worker.Screen` | worker/src/index.js:32-51 | a request goes on to the limiter iff it is `POST /transcribe` from the allowed origin, and then under its client key; any other request is answered 204, 403 or 404 before the limiter |
| `Worker.CorsHeaders` | worker/src/index.js:22-28 | exactly the three CORS headers, with `Access-Control-Allow-Origin` equal to the origin and none of them `Content-Type`, so adding a Content-Type never replaces one; `PreflightAccepted` gives the exact map, and `Relay` shows the headers are in every 429, 502 and relayed response |
| `Worker.Relay` | worker/src/index.js:55-88 | every response after admission carries the three CORS headers, a non-empty Content-Type and a body; its status is 429, 502, or an upstream status the `Response` constructor accepts |
| `Worker.Respond` | worker/src/index.js:31-90 | the table changes only for a `POST /transcribe` from the allowed origin, and then only at the request's client key |
| `Worker.Fetch` | worker/src/index.js:31-90 | the handler's response and new table are those of `Respond` on the old table, and the table invariant is kept |
| `Worker.PreflightAccepted` | worker/src/index.js:22-40 | an `OPTIONS` request from the allowed origin, on any path, gets 204 with no body and exactly the three CORS headers, with `Access-Control-Allow-Origin` equal to that origin; the table is unchanged |
| `Worker.PreflightRejected` | worker/src/index.js:35-38 | any other `OPTIONS` request gets 403 `Forbidden`; the table is unchanged |
| `Worker.UnknownRouteNotFound` | worker/src/index.js:43-46 | a request that is neither `OPTIONS` nor `POST /transcribe` gets 404 `Not Found`, whatever its origin; the table is unchanged |
| `Worker.ForeignOriginForbidden` | worker/src/index.js:48-51 | `POST /transcribe` from another origin, or with no `Origin` header, gets 403 `Forbidden`; the table is unchanged |
| `Worker.AdmittedRequestIsCounted` | worker/src/index.js:53-55 | an admitted request changes the table exactly as one limiter call under its client key |
| `Worker.RateLimitedResponse` | worker/src/index.js:55-59 | a limited request gets 429 with body `{"error":"Rate limit exceeded"}`, the CORS headers and Content-Type `application/json` |
| `Worker.ProxyFailureResponse` | worker/src/index.js:84-88 | an admitted request whose upstream call fails gets 502 with body `{"error":"Proxy error"}`, the CORS headers and Content-Type `application/json` |
| `Worker.ProxySuccessResponse` | worker/src/index.js:77-83 | an admitted request whose upstream answers with a status the `Response` constructor accepts gets the upstream status and body, the CORS headers, and the upstream Content-Type if it is present and non-empty, else `application/json` |
| `Worker.UnrelayableStatusResponse` | worker/src/index.js:77-88 | an upstream answer with status 204, 205, 304 or outside 200-599 makes the relayed `Response` throw, so the request gets the same 502 `{"error":"Proxy error"}` as a failed call |
| `Worker.ServeIsReplay` | worker/src/index.js:44-55 | serving any sequence of requests changes the table exactly as the limiter would for the admitted requests alone |
| `Worker.ClientQuota` | worker/src/index.js:9-60 | in any sequence of handled requests, take a client with no entry whose admitted requests up to this one fall within one window. Its request gets the 429 response iff it already had 30 requests admitted before it; otherwise the upstream outcome is relayed |

## Left out

- The upstream call is not modelled. This covers reading the request body, the outbound `POST` to the transcription service, the `Authorization: Bearer` header built from the secret key, copying the request's Content-Type, and reading the upstream's answer. These are network I/O, so their outcome is an input: `Answered(status, body, contentType)` or `Failed`.
- Only the `Response` constructor's status checks are modelled (`Relay`, `UnrelayableStatusResponse`): a null-body status (204, 205, 304) with a text body, or a status outside 200-599, gives the 502. Its other checks, on header names and values, are platform semantics and are not modelled.
- The runtime adds an implicit `text/plain` Content-Type to the 403 and 404 responses. The model lists only the headers the handler sets itself. Header-name case-insensitivity and the other details of the `Response` object are platform semantics.
- URL parsing (`new URL(request.url)`) is not modelled. The path is given as a string.
- `Date.now()` is not modelled. The time is a parameter, and no monotonicity is assumed.
- Concurrent invocations of the handler are not modelled, including races between two requests on the same key. The model serves requests one after another.
- Stale entries are never evicted, and the table grows without bound. The source does the same, so the model is faithful here; this is a note, not a gap.
- Numbers are unbounded integers. JavaScript's floating-point `count` and timestamps behave the same way for all values below 2^53.
