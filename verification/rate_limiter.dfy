/**
 * The rate limiter of rate-limiter.js: a module-level singleton that keeps a
 * map from caller identity to its fixed-window record and, per request, either
 * passes the request on or answers it with status 429 and a retry hint.
 *
 * `Date.now()` is the parameter `now`; the timer that deletes an entry
 * `window` ms after it was created is the method `Evict`; the Express
 * response is the returned `Verdict`.
 */
module RateLimiting {
  import opened Optional
  import opened FixedWindow

  /**
   * The request fields that identification reads, each `None` when absent:
   * `req.ip`, `req.connection.remoteAddress`, the `x-forwarded-for` and
   * `authorization` headers, and `req.cookies?.session`.
   */
  datatype Request = Request(
    ip: Option<string>,
    remoteAddress: Option<string>,
    forwardedFor: Option<string>,
    authorization: Option<string>,
    session: Option<string>)

  /** A caller identity: a string, or `None` for JavaScript's `undefined`. */
  type Identity = Option<string>

  /** JavaScript truthiness of a possibly absent string: the empty string is falsy. */
  predicate Truthy(v: Identity)
  {
    v.Some? && v.value != ""
  }

  /** JavaScript's `a || b` on possibly absent strings. */
  function Or(a: Identity, b: Identity): Identity
  {
    if Truthy(a) then a else b
  }

  class RateLimiter {
    const window: int
    const maxHits: int
    /** The built-in strategy: "ip", "authToken", "cookie", or anything else. */
    const identifier: string
    const customIdentifierExtractor: Option<Request -> Identity>
    /** The records, by identity. */
    var requests: map<Identity, Record>

    /** The fields a first construction sets up: the options as given, no records. */
    constructor (window: int, maxHits: int, identifier: string,
                 customIdentifierExtractor: Option<Request -> Identity>)
      ensures this.window == window && this.maxHits == maxHits
      ensures this.identifier == identifier
      ensures this.customIdentifierExtractor == customIdentifierExtractor
      ensures requests == map[]
    {
      this.window := window;
      this.maxHits := maxHits;
      this.identifier := identifier;
      this.customIdentifierExtractor := customIdentifierExtractor;
      requests := map[];
    }

    /**
     * The identity a request is counted under. A configured extractor decides
     * alone. Otherwise "ip" takes the first present of the client address, the
     * connection address and the forwarded-for header, and is undefined when
     * none is and the header is missing; "authToken" and "cookie" take the
     * header or the session cookie, or the empty string; any other strategy
     * puts every caller under the empty string.
     */
    function GetIdentifier(req: Request): (id: Identity)
      ensures customIdentifierExtractor.Some? ==> id == customIdentifierExtractor.value(req)
      ensures customIdentifierExtractor.None? ==>
        (id.None? <==>
          identifier == "ip" && !Truthy(req.ip) && !Truthy(req.remoteAddress) && req.forwardedFor.None?)
      // "ip": the client address wins, then the connection address, then the header
      ensures customIdentifierExtractor.None? && identifier == "ip" ==>
        && (Truthy(id) <==> Truthy(req.ip) || Truthy(req.remoteAddress) || Truthy(req.forwardedFor))
        && (Truthy(req.ip) ==> id == req.ip)
        && (!Truthy(req.ip) && Truthy(req.remoteAddress) ==> id == req.remoteAddress)
        && (!Truthy(req.ip) && !Truthy(req.remoteAddress) ==> id == req.forwardedFor)
      ensures customIdentifierExtractor.None? && identifier == "authToken" ==>
        && (Truthy(id) <==> Truthy(req.authorization))
        && (Truthy(req.authorization) ==> id == req.authorization)
      ensures customIdentifierExtractor.None? && identifier == "cookie" ==>
        && (Truthy(id) <==> Truthy(req.session))
        && (Truthy(req.session) ==> id == req.session)
      ensures customIdentifierExtractor.None? && identifier !in {"ip", "authToken", "cookie"} ==>
        id == Some("")
    {
      match customIdentifierExtractor
      case Some(extract) => extract(req)
      case None =>
        if identifier == "ip" then Or(req.ip, Or(req.remoteAddress, req.forwardedFor))
        else if identifier == "authToken" then Or(req.authorization, Some(""))
        else if identifier == "cookie" then Or(req.session, Some(""))
        else Some("")
    }

    /**
     * The handler that `guard()` returns, for one request at `now`. Only the
     * entry of the request's identity changes, as one fixed-window step; the
     * request is passed on unless a hit inside the current window takes the
     * count past `maxHits`, and the count keeps growing on a denial.
     */
    method Guard(req: Request, now: int) returns (v: Verdict)
      modifies this
      ensures var id := GetIdentifier(req);
        && requests == old(requests)[id := Advance(Lookup(old(requests), id), now, window)]
        && v == Admit(Lookup(old(requests), id), now, window, maxHits)
      ensures WellFormed(old(requests), now) ==> WellFormed(requests, now)
    {
      var id := GetIdentifier(req);

      if id !in requests {
        requests := requests[id := Record(1, now)];
        return Allow;
      }

      var requestData := requests[id];

      if now - requestData.timestamp > window {
        requestData := requestData.(count := 1, timestamp := now);
        requests := requests[id := requestData];
        return Allow;
      }

      requestData := requestData.(count := requestData.count + 1);
      requests := requests[id := requestData];

      if requestData.count > maxHits {
        return Deny(TooManyRequests, TooManyRequestsError,
                    CeilSeconds(requestData.timestamp + window - now));
      }

      return Allow;
    }

    /** The timer set up when an identity's record is created: it deletes that entry. */
    method Evict(id: Identity)
      modifies this
      ensures requests == old(requests) - {id}
    {
      requests := requests - {id};
    }
  }

  /**
   * The module scope of rate-limiter.js, which holds the one instance. A
   * construction when an instance exists yields that instance and ignores the
   * options passed; the first one creates it with the options, defaulting the
   * strategy to "ip" and the extractor to none.
   */
  class LimiterModule {
    var instance: RateLimiter?

    constructor ()
      ensures instance == null
    {
      instance := null;
    }

    method NewRateLimiter(window: int, maxHits: int, identifier: string := "ip",
                          customIdentifierExtractor: Option<Request -> Identity> := None)
      returns (limiter: RateLimiter)
      modifies this
      ensures instance == limiter
      ensures old(instance) != null ==> limiter == old(instance)
      ensures old(instance) != null ==> limiter.requests == old(instance.requests)
      ensures old(instance) == null ==>
        && fresh(limiter)
        && limiter.window == window && limiter.maxHits == maxHits
        && limiter.identifier == identifier
        && limiter.customIdentifierExtractor == customIdentifierExtractor
        && limiter.requests == map[]
    {
      if instance != null {
        return instance;
      }
      limiter := new RateLimiter(window, maxHits, identifier, customIdentifierExtractor);
      instance := limiter;
    }
  }
}
