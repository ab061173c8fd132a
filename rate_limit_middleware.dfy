/**
 * The gate in front of every route: HTTP requests outside a few exempt paths are
 * checked against the limiter under a key built from the client's address, and
 * a rejected request gets a 429 answer instead of reaching the application.
 */
module RateLimitMiddleware {
  import opened Wrappers
  import RateLimiting

  /** The parts of a connection scope the gate looks at: its type, its path and the client's host. */
  datatype Scope = Scope(kind: string, path: string, client: Option<string>)

  /** A JSON answer: status, `detail` and `retry_after` body fields, and headers. */
  datatype Response = JsonResponse(status: int, detail: string, retryAfter: int, headers: seq<(string, string)>)

  /** What the gate does with a request: hand it to the application once, or answer it itself. */
  datatype Outcome = Forwarded | Responded(response: Response)

  /** The paths that are never rate limited: health check, login and registration. */
  const ExemptPaths: seq<string> := ["/api/v1/health", "/api/v1/auth/login", "/api/v1/auth/register"]

  predicate IsExempt(path: string)
  {
    path in ExemptPaths
  }

  /** A request is checked when it is HTTP and its path is not exempt. */
  predicate NeedsCheck(scope: Scope)
  {
    scope.kind == "http" && !IsExempt(scope.path)
  }

  /** The partition key of a request: its client's host, or `unknown` without a client. */
  function ClientKey(client: Option<string>): (key: string)
    ensures |key| >= 3 && key[..3] == "ip:" && key[3..] == client.GetOr("unknown")
  {
    "ip:" + client.GetOr("unknown")
  }

  /** The answer to a rejected request: 429, a retry hint of 60 seconds in the body and in a header. */
  function TooManyRequests(): (r: Response)
    ensures r.status == 429 && r.retryAfter == 60 && ("Retry-After", "60") in r.headers
  {
    JsonResponse(429, "Rate limit exceeded. Please try again later.", 60, [("Retry-After", "60")])
  }

  /**
   * Handle one request.  Requests that are not checked reach the application and
   * leave the limiter alone; a checked request consults the limiter exactly once,
   * under its client key, and reaches the application iff it is admitted.
   */
  method Handle(limiter: RateLimiting.RateLimiter, scope: Scope, now: real) returns (outcome: Outcome)
    requires limiter.Valid()
    modifies limiter, limiter.redis
    ensures limiter.Valid()
    ensures !NeedsCheck(scope) ==>
              && outcome == Forwarded
              && unchanged(limiter)
              && (old(limiter.redis) != null ==> unchanged(old(limiter.redis)))
    ensures NeedsCheck(scope) ==>
              && limiter.Consulted(ClientKey(scope.client), 1, now, outcome.Forwarded?)
              && outcome == if old(limiter.Admits(ClientKey(scope.client), 1, now)) then Forwarded
                            else Responded(TooManyRequests())
  {
    if scope.kind != "http" {
      return Forwarded;
    }
    if IsExempt(scope.path) {
      return Forwarded;
    }
    var key := ClientKey(scope.client);
    var allowed := limiter.IsAllowed(key, 1, now);
    if !allowed {
      return Responded(TooManyRequests());
    }
    return Forwarded;
  }

  /** Only exact matches are exempt: a longer path that starts with an exempt one is checked. */
  lemma ExtendedExemptPathIsChecked(path: string, suffix: string)
    requires IsExempt(path) && suffix != ""
    ensures !IsExempt(path + suffix)
  {
    var p := path + suffix;
    assert p[..|path|] == path;
    if path == ExemptPaths[0] {
      assert p[8] == 'h' != ExemptPaths[1][8] == ExemptPaths[2][8];
    } else if path == ExemptPaths[1] {
      assert p[13] == 'l' != ExemptPaths[2][13];
    }
  }

  /** The path of the detailed health report is not exempt, so it is rate limited. */
  lemma DetailedHealthIsChecked(client: Option<string>)
    ensures NeedsCheck(Scope("http", "/api/v1/health/detailed", client))
  {
    assert "/api/v1/health/detailed" == ExemptPaths[0] + "/detailed";
    ExtendedExemptPathIsChecked(ExemptPaths[0], "/detailed");
  }

  /** Distinct client hosts get distinct partition keys. */
  lemma ClientKeysDistinguishHosts(a: string, b: string)
    requires ClientKey(Some(a)) == ClientKey(Some(b))
    ensures a == b
  {
    assert a == ClientKey(Some(a))[3..];
    assert b == ClientKey(Some(b))[3..];
  }

  /** A request without a client shares its bucket with a client whose host is literally `unknown`. */
  lemma MissingClientSharesUnknownBucket()
    ensures ClientKey(None) == ClientKey(Some("unknown"))
  {
  }
}
