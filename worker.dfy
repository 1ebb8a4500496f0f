/**
 * The worker's request dispatch: CORS preflight, route matching, origin
 * allow-listing, per-client rate limiting and relaying of the upstream
 * transcription service's answer, checked in that order.
 *
 * The upstream call is not modelled: its outcome is an input, either the
 * status, body text and optional Content-Type it answered with, or a failure
 * (any exception while reading the request body, calling the service or
 * reading its answer). Building the relayed response can fail as well: the
 * platform's `Response` constructor refuses some statuses, and that exception
 * is caught by the same handler. The clock is an input as well.
 */
module Worker {
  import opened Wrappers
  import opened RateLimiting

  /** The only origin whose requests are served. */
  const AllowedOrigin := "https://dayonebuilder.github.io"

  /** The only route that is proxied (with method POST). */
  const TranscribePath := "/transcribe"

  const JsonType := "application/json"

  /** The JSON object whose `error` field is `Rate limit exceeded`, serialised without spaces. */
  const RateLimitBody := "{\"error\":\"Rate limit exceeded\"}"

  /** The JSON object whose `error` field is `Proxy error`, serialised without spaces. */
  const ProxyErrorBody := "{\"error\":\"Proxy error\"}"

  /**
   * What the handler reads of a request: its method, the path of its URL and
   * the `Origin` and `CF-Connecting-IP` headers, each absent or present.
   */
  datatype Request = Request(
    httpMethod: string,
    path: string,
    origin: Option<string>,
    connectingIp: Option<string>)

  /**
   * The outcome of the proxied upstream call: an answer with any status the
   * upstream sent, or a failure before an answer was read.
   */
  datatype Upstream =
    | Answered(status: int, body: string, contentType: Option<string>)
    | Failed

  /** A response: status, body (`None` for a null body) and the headers set explicitly. */
  datatype Response = Response(status: int, body: Option<string>, headers: map<string, string>)

  /** The handler's response together with the rate-limit table it leaves behind. */
  datatype Outcome = Outcome(response: Response, table: Table)

  /**
   * JavaScript's `header || fallback`: an absent header and an empty one are
   * both falsy and give `fallback`.
   */
  function HeaderOr(header: Option<string>, fallback: string): string
  {
    if header.Some? && header.value != "" then header.value else fallback
  }

  /** The `Origin` header, or the empty string when it is absent. */
  function OriginOf(req: Request): string
  {
    HeaderOr(req.origin, "")
  }

  /**
   * The rate-limit key: the `CF-Connecting-IP` header, or the literal
   * `"unknown"` when it is absent or empty, so that all such clients share one
   * counter with a client that really sends `"unknown"`.
   */
  function ClientKey(req: Request): (key: string)
    ensures key != ""
    ensures key == "unknown" <==> req.connectingIp.None? || req.connectingIp.value == "" || req.connectingIp.value == "unknown"
  {
    HeaderOr(req.connectingIp, "unknown")
  }

  /**
   * The CORS headers granted to `origin`: exactly three, echoing the origin,
   * and none of them `Content-Type`, so a `Content-Type` added beside them
   * never replaces one.
   */
  function CorsHeaders(origin: string): (h: map<string, string>)
    ensures h.Keys == {"Access-Control-Allow-Origin", "Access-Control-Allow-Methods", "Access-Control-Allow-Headers"}
    ensures h["Access-Control-Allow-Origin"] == origin
    ensures "Content-Type" !in h
  {
    map[
      "Access-Control-Allow-Origin" := origin,
      "Access-Control-Allow-Methods" := "POST, OPTIONS",
      "Access-Control-Allow-Headers" := "Content-Type"
    ]
  }

  /** The CORS headers with a `Content-Type` added. */
  function CorsWithType(origin: string, contentType: string): map<string, string>
  {
    CorsHeaders(origin)["Content-Type" := contentType]
  }

  function Forbidden(): Response
  {
    Response(403, Some("Forbidden"), map[])
  }

  function NotFound(): Response
  {
    Response(404, Some("Not Found"), map[])
  }

  /** A request that reaches the rate limiter is POST /transcribe from the allowed origin. */
  predicate Admissible(req: Request)
  {
    req.httpMethod == "POST" && req.path == TranscribePath && OriginOf(req) == AllowedOrigin
  }

  /** The first part of the handler: either a final response, or admission to the limiter. */
  datatype Screening = Reply(response: Response) | Admit(origin: string, key: string)

  /**
   * Preflight, route and origin checks, in the handler's order. Only an
   * admissible request goes on to the limiter, under its client key.
   */
  function Screen(req: Request): (s: Screening)
    ensures s.Admit? <==> Admissible(req)
    ensures s.Admit? ==> s.origin == AllowedOrigin && s.key == ClientKey(req)
    ensures s.Reply? ==> s.response.status in {204, 403, 404}
  {
    var origin := OriginOf(req);
    if req.httpMethod == "OPTIONS" then
      if origin != AllowedOrigin then Reply(Forbidden())
      else Reply(Response(204, None, CorsHeaders(origin)))
    else if req.httpMethod != "POST" || req.path != TranscribePath then
      Reply(NotFound())
    else if origin != AllowedOrigin then
      Reply(Forbidden())
    else
      Admit(origin, ClientKey(req))
  }

  /**
   * The statuses with which the `Response` constructor accepts a text body:
   * those in 200..599 other than the null-body statuses 204, 205 and 304.
   * Any other status makes the constructor throw, inside the proxy's `try`.
   */
  predicate Relayable(status: int)
  {
    200 <= status <= 599 && status != 204 && status != 205 && status != 304
  }

  /**
   * The response once admission has been decided. Every such response carries
   * the CORS headers for `origin`, a non-empty `Content-Type` and a body, and
   * its status is 429, 502 or an upstream status the constructor accepts.
   */
  function Relay(origin: string, limited: bool, upstream: Upstream): (resp: Response)
    ensures forall h :: h in CorsHeaders(origin) ==> h in resp.headers && resp.headers[h] == CorsHeaders(origin)[h]
    ensures "Content-Type" in resp.headers && resp.headers["Content-Type"] != ""
    ensures resp.body.Some?
    ensures resp.status == 429 || resp.status == 502 || Relayable(resp.status)
  {
    if limited then
      Response(429, Some(RateLimitBody), CorsWithType(origin, JsonType))
    else
      match upstream
      case Failed =>
        Response(502, Some(ProxyErrorBody), CorsWithType(origin, JsonType))
      case Answered(status, body, contentType) =>
        if Relayable(status) then
          Response(status, Some(body), CorsWithType(origin, HeaderOr(contentType, JsonType)))
        else
          Response(502, Some(ProxyErrorBody), CorsWithType(origin, JsonType))
  }

  /**
   * The whole handler as a function of the table before the request: the
   * table changes only for an admissible request, and then only at the
   * request's client key.
   */
  function Respond(table: Table, req: Request, now: int, upstream: Upstream): (out: Outcome)
    ensures !Admissible(req) ==> out.table == table
    ensures forall k :: k != ClientKey(req) ==> Lookup(out.table, k) == Lookup(table, k)
  {
    match Screen(req)
    case Reply(resp) => Outcome(resp, table)
    case Admit(origin, key) =>
      var v := Assess(Lookup(table, key), now);
      Outcome(Relay(origin, v.limited, upstream), table[key := v.entry])
  }

  /**
   * The request handler. The limiter is consulted, and its table changed,
   * only for a request that passed the preflight, route and origin checks.
   */
  method Fetch(limiter: RateLimiter, req: Request, now: int, upstream: Upstream) returns (resp: Response)
    requires limiter.Valid()
    modifies limiter
    ensures limiter.Valid()
    ensures Outcome(resp, limiter.table) == Respond(old(limiter.table), req, now, upstream)
  {
    var screening := Screen(req);
    match screening {
      case Reply(r) =>
        resp := r;
      case Admit(origin, key) =>
        var limited := limiter.IsRateLimited(key, now);
        resp := Relay(origin, limited, upstream);
    }
  }

  /** A preflight from the allowed origin, on any path, gets 204 and the three CORS headers. */
  lemma PreflightAccepted(table: Table, req: Request, now: int, upstream: Upstream)
    requires req.httpMethod == "OPTIONS" && OriginOf(req) == AllowedOrigin
    ensures Respond(table, req, now, upstream) == Outcome(Response(204, None, map[
      "Access-Control-Allow-Origin" := "https://dayonebuilder.github.io",
      "Access-Control-Allow-Methods" := "POST, OPTIONS",
      "Access-Control-Allow-Headers" := "Content-Type"]), table)
  {
  }

  /** Any other preflight, on any path, gets 403 and leaves the table alone. */
  lemma PreflightRejected(table: Table, req: Request, now: int, upstream: Upstream)
    requires req.httpMethod == "OPTIONS" && OriginOf(req) != AllowedOrigin
    ensures Respond(table, req, now, upstream) == Outcome(Response(403, Some("Forbidden"), map[]), table)
  {
  }

  /** A request that is neither a preflight nor POST /transcribe gets 404, whatever its origin. */
  lemma UnknownRouteNotFound(table: Table, req: Request, now: int, upstream: Upstream)
    requires req.httpMethod != "OPTIONS"
    requires req.httpMethod != "POST" || req.path != "/transcribe"
    ensures Respond(table, req, now, upstream) == Outcome(Response(404, Some("Not Found"), map[]), table)
  {
  }

  /** POST /transcribe from another origin, or with no `Origin` header, gets 403. */
  lemma ForeignOriginForbidden(table: Table, req: Request, now: int, upstream: Upstream)
    requires req.httpMethod == "POST" && req.path == "/transcribe"
    requires OriginOf(req) != AllowedOrigin
    ensures Respond(table, req, now, upstream) == Outcome(Response(403, Some("Forbidden"), map[]), table)
  {
  }

  /** An admitted request counts against its client key, as one call of the limiter. */
  lemma AdmittedRequestIsCounted(table: Table, req: Request, now: int, upstream: Upstream)
    requires Admissible(req)
    ensures Respond(table, req, now, upstream).table == Record(table, Hit(ClientKey(req), now))
  {
  }

  /** A rate-limited request gets 429 with the JSON error and the CORS headers. */
  lemma RateLimitedResponse(table: Table, req: Request, now: int, upstream: Upstream)
    requires Admissible(req) && Assess(Lookup(table, ClientKey(req)), now).limited
    ensures Respond(table, req, now, upstream).response
      == Response(429, Some("{\"error\":\"Rate limit exceeded\"}"), CorsWithType(AllowedOrigin, "application/json"))
  {
  }

  /** An admitted request whose upstream call fails gets 502 with the JSON error and the CORS headers. */
  lemma ProxyFailureResponse(table: Table, req: Request, now: int)
    requires Admissible(req) && !Assess(Lookup(table, ClientKey(req)), now).limited
    ensures Respond(table, req, now, Failed).response
      == Response(502, Some("{\"error\":\"Proxy error\"}"), CorsWithType(AllowedOrigin, "application/json"))
  {
  }

  /**
   * An admitted request whose upstream answers with a status the `Response`
   * constructor accepts gets the upstream status and body, the upstream
   * Content-Type when present and non-empty, JSON otherwise, and the CORS
   * headers.
   */
  lemma ProxySuccessResponse(table: Table, req: Request, now: int, status: int, body: string, contentType: Option<string>)
    requires Admissible(req) && !Assess(Lookup(table, ClientKey(req)), now).limited
    requires Relayable(status)
    ensures var resp := Respond(table, req, now, Answered(status, body, contentType)).response;
      && resp.status == status && resp.body == Some(body)
      && resp.headers == CorsWithType(AllowedOrigin,
           if contentType.Some? && contentType.value != "" then contentType.value else "application/json")
  {
  }

  /**
   * An upstream answer whose status the `Response` constructor refuses (204,
   * 205, 304, or outside 200..599) makes the constructor throw, and the
   * request gets the same 502 as a failed upstream call.
   */
  lemma UnrelayableStatusResponse(table: Table, req: Request, now: int, status: int, body: string, contentType: Option<string>)
    requires Admissible(req) && !Assess(Lookup(table, ClientKey(req)), now).limited
    requires !Relayable(status)
    ensures Respond(table, req, now, Answered(status, body, contentType)).response
      == Response(502, Some("{\"error\":\"Proxy error\"}"), CorsWithType(AllowedOrigin, "application/json"))
  {
  }

  /** One invocation of the handler: the request, the clock, and what the upstream would answer. */
  datatype Call = Call(req: Request, now: int, upstream: Upstream)

  /** The table after the handler has served `calls` in order. */
  function Serve(table: Table, calls: seq<Call>): Table
    decreases |calls|
  {
    if calls == [] then table
    else
      var last := calls[|calls| - 1];
      Respond(Serve(table, calls[..|calls| - 1]), last.req, last.now, last.upstream).table
  }

  /** The limiter calls that `calls` give rise to: one per admissible request. */
  function AdmittedHits(calls: seq<Call>): (hits: seq<Hit>)
    ensures |hits| <= |calls|
    decreases |calls|
  {
    if calls == [] then []
    else
      var last := calls[|calls| - 1];
      AdmittedHits(calls[..|calls| - 1])
        + (if Admissible(last.req) then [Hit(ClientKey(last.req), last.now)] else [])
  }

  /** The response to call number `k` (from 0) of `calls`. */
  function ResponseAt(table: Table, calls: seq<Call>, k: nat): Response
    requires k < |calls|
  {
    Respond(Serve(table, calls[..k]), calls[k].req, calls[k].now, calls[k].upstream).response
  }

  /**
   * Serving a sequence of requests changes the table exactly as the limiter
   * would for the admissible ones alone: preflights, unknown routes and
   * foreign origins never touch it.
   */
  lemma {:induction false} ServeIsReplay(table: Table, calls: seq<Call>)
    ensures Serve(table, calls) == Replay(table, AdmittedHits(calls))
    decreases |calls|
  {
    if calls != [] {
      var init, last := calls[..|calls| - 1], calls[|calls| - 1];
      ServeIsReplay(table, init);
      var hits := AdmittedHits(init);
      if Admissible(last.req) {
        var all := hits + [Hit(ClientKey(last.req), last.now)];
        assert AdmittedHits(calls) == all;
        assert all[..|all| - 1] == hits;
      } else {
        assert AdmittedHits(calls) == hits;
      }
    }
  }

  /**
   * End to end: in any sequence of requests, interleaving any clients and any
   * rejected requests, take an admissible request from a client that had no
   * entry and whose admitted requests up to this one fall within one window of
   * its first. It is limited (429 with the JSON error) exactly when that client
   * already had `RateLimit` (30) requests admitted before it; otherwise the
   * upstream's outcome is relayed.
   */
  lemma ClientQuota(table: Table, calls: seq<Call>, key: string, k: nat)
    requires key !in table
    requires k < |calls| && Admissible(calls[k].req) && ClientKey(calls[k].req) == key
    requires OneWindowBurst(OwnHits(AdmittedHits(calls[..k + 1]), key), key)
    ensures var before := |OwnHits(AdmittedHits(calls[..k]), key)|;
      ResponseAt(table, calls, k) == Relay(AllowedOrigin, before >= RateLimit, calls[k].upstream)
    ensures |OwnHits(AdmittedHits(calls[..k]), key)| >= RateLimit ==>
      ResponseAt(table, calls, k)
        == Response(429, Some("{\"error\":\"Rate limit exceeded\"}"), CorsWithType(AllowedOrigin, "application/json"))
  {
    var prior := AdmittedHits(calls[..k]);
    var hits := AdmittedHits(calls[..k + 1]);
    var m := |prior|;
    LimiterCallOf(calls, k);
    assert hits[..m + 1] == hits;
    assert hits[..m] == prior;
    ServeIsReplay(table, calls[..k]);
    AdmittedResponseAt(table, calls, k);
    InterleavedBurst(table, hits, key, m);
  }

  /** An admitted call's response is `Relay` of the limiter's verdict on the table served so far. */
  lemma AdmittedResponseAt(table: Table, calls: seq<Call>, k: nat)
    requires k < |calls| && Admissible(calls[k].req)
    ensures ResponseAt(table, calls, k) == Relay(AllowedOrigin,
      Assess(Lookup(Serve(table, calls[..k]), ClientKey(calls[k].req)), calls[k].now).limited, calls[k].upstream)
  {
  }

  /** An admitted call adds exactly one limiter call, under its client key, to those before it. */
  lemma LimiterCallOf(calls: seq<Call>, k: nat)
    requires k < |calls| && Admissible(calls[k].req)
    ensures AdmittedHits(calls[..k + 1]) == AdmittedHits(calls[..k]) + [Hit(ClientKey(calls[k].req), calls[k].now)]
  {
    assert calls[..k + 1][..k] == calls[..k];
  }
}
