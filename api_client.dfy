/**
 * `OandaAPIClient`: the credential-shape check, the paced and retried
 * request, and the candle request with its response check. Time is an
 * integer number of milliseconds; the remote service and the clock are
 * oracles handed in by the caller.
 */
module ApiClient {
  import opened Exceptions

  /** MIN_REQUEST_INTERVAL, 0.01 s. */
  const MinRequestInterval: int := 10
  /** The retry decorator's max_tries. */
  const MaxTries: nat := 5
  /** Rows asked for in every candle request. */
  const CandleCount: nat := 5000
  const MinTokenLength: nat := 10
  const TooManyRequests: string := "TOO_MANY_REQUESTS"
  const NotFoundCodes: set<string> := {"INSTRUMENT_NOT_FOUND", "PRICE_NOT_FOUND"}

  /** The parsed JSON the API answers with. */
  datatype Json =
    | JNull
    | JBool(b: bool)
    | JNumber(n: int)
    | JString(s: string)
    | JArray(items: seq<Json>)
    | JObject(fields: map<string, Json>)

  /** A response body: a JSON object. */
  type Response = map<string, Json>

  /** What one call into the API library does. */
  datatype RemoteOutcome =
    | Responded(response: Response)
    | ApiError(code: Option<string>)   // V20Error, with or without a `code` attribute
    | TransportFailure                 // any other exception

  /** What one run of the request body does: return a value or raise. */
  datatype Attempt = Returned(response: Option<Response>) | Raised(error: Error)

  /** How the body treats a V20Error. */
  datatype Handling = RaiseRateLimit | ReturnNothing | Reraise

  /** The clock readings of one attempt: on entry, and once the response has arrived. */
  datatype AttemptClock = AttemptClock(start: int, received: int)

  /** The request fetch_candles builds. Times are whole seconds, as '%Y-%m-%dT%H:%M:%SZ' renders them. */
  datatype CandleRequest = CandleRequest(
    instrument: string,
    granularity: string,
    fromSecond: int,
    toSecond: int,
    price: string,
    alignmentTimezone: string,
    count: nat,
    headers: map<string, string>)

  /** _validate_credentials: a token is accepted iff it is non-empty and at least ten characters long. */
  function ValidCredentials(token: string): (ok: bool)
    ensures ok <==> token != "" && |token| >= MinTokenLength
    ensures !ok <==> |token| < MinTokenLength
  {
    if token == "" || |token| < MinTokenLength then false else true
  }

  /**
   * The pacing sleep before a request: the residual of the minimum interval
   * since the last successful request, or nothing once it has elapsed. The
   * sleep is never negative, ends exactly one interval after the last
   * request, and is at most one interval unless the clock went backwards.
   */
  function PacingDelay(now: int, lastRequestTime: int): (d: int)
    ensures d >= 0
    ensures d == 0 <==> now - lastRequestTime >= MinRequestInterval
    ensures d > 0 ==> now + d == lastRequestTime + MinRequestInterval
    ensures now >= lastRequestTime ==> d <= MinRequestInterval
  {
    var elapsed := now - lastRequestTime;
    if elapsed < MinRequestInterval then MinRequestInterval - elapsed else 0
  }

  /**
   * The classification of a V20Error: the rate-limit code becomes
   * RateLimitExceeded, the two not-found codes a None result, and
   * everything else, including an error without a code, is re-raised.
   */
  function ClassifyApiError(code: Option<string>): (h: Handling)
    ensures h == RaiseRateLimit <==> code == Some(TooManyRequests)
    ensures h == ReturnNothing <==> code.Some? && code.value in NotFoundCodes
    ensures h == Reraise <==>
              code.None? || (code.value != TooManyRequests && code.value !in NotFoundCodes)
  {
    match code
    case None => Reraise
    case Some(c) =>
      if c == TooManyRequests then RaiseRateLimit
      else if c in NotFoundCodes then ReturnNothing
      else Reraise
  }

  /**
   * What one run of make_request's body makes of the library's outcome:
   * only a real response returns a body, only a not-found code returns
   * None, and every other error is raised.
   */
  function AttemptResult(o: RemoteOutcome): (a: Attempt)
    ensures (a.Returned? && a.response.Some?) <==> o.Responded?
    ensures o.Responded? ==> a == Returned(Some(o.response))
    ensures a == Returned(None) <==> o.ApiError? && o.code.Some? && o.code.value in NotFoundCodes
    ensures a == Raised(RateLimitExceeded) <==> o == ApiError(Some(TooManyRequests))
    ensures o.ApiError? && ClassifyApiError(o.code) == Reraise ==> a == Raised(V20Error(o.code))
    ensures o.TransportFailure? ==> a == Raised(TransportError)
  {
    match o
    case Responded(r) => Returned(Some(r))
    case ApiError(code) =>
      (match ClassifyApiError(code)
       case RaiseRateLimit => Raised(RateLimitExceeded)
       case ReturnNothing => Returned(None)
       case Reraise => Raised(V20Error(code)))
    case TransportFailure => Raised(TransportError)
  }

  /** The exceptions the retry decorator catches and retries: V20Error and RateLimitExceeded. */
  predicate Retried(a: Attempt) {
    a.Raised? && (a.error == RateLimitExceeded || a.error.V20Error?)
  }

  /** The parameters (and headers) of a candle request; granularity and price default to S10 and MBA. */
  function CandleParams(instrument: string, startTime: int, endTime: int,
                        granularity: string := "S10", price: string := "MBA"): (q: CandleRequest)
    ensures q.instrument == instrument && q.granularity == granularity && q.price == price
    ensures q.count == CandleCount && q.alignmentTimezone == "UTC"
    ensures q.fromSecond * 1000 <= startTime < q.fromSecond * 1000 + 1000
    ensures q.toSecond * 1000 <= endTime < q.toSecond * 1000 + 1000
    ensures q.headers == map["Accept-Encoding" := "gzip", "Accept-Datetime-Format" := "RFC3339"]
  {
    CandleRequest(instrument, granularity, startTime / 1000, endTime / 1000, price, "UTC", CandleCount,
                  map["Accept-Encoding" := "gzip", "Accept-Datetime-Format" := "RFC3339"])
  }

  lemma DefaultCandleParams(instrument: string, startTime: int, endTime: int)
    ensures CandleParams(instrument, startTime, endTime).granularity == "S10"
    ensures CandleParams(instrument, startTime, endTime).price == "MBA"
  {
  }

  /** A value `len` accepts: a JSON array, object or string. */
  predicate Sized(j: Json) {
    j.JArray? || j.JObject? || j.JString?
  }

  /**
   * fetch_candles' response check: a None result, or a response without a
   * `candles` entry, is a DataIntegrityError; an entry `len` cannot measure
   * makes the log message raise TypeError; otherwise the entry is returned
   * exactly as received.
   */
  function CheckCandlesResponse(response: Option<Response>): (r: Result<Json>)
    ensures r.Ok? <==> response.Some? && "candles" in response.value && Sized(response.value["candles"])
    ensures r.Ok? ==> r.value == response.value["candles"]
    ensures r == Err(DataIntegrityError) <==> response.None? || "candles" !in response.value
    ensures r == Err(TypeError) <==>
              response.Some? && "candles" in response.value && !Sized(response.value["candles"])
    ensures r.Err? ==> r.error == DataIntegrityError || r.error == TypeError
  {
    if response.None? || "candles" !in response.value then
      Err(DataIntegrityError)
    else
      var candles := response.value["candles"];
      // the log line takes len(candles) before the value is returned
      if !Sized(candles) then Err(TypeError) else Ok(candles)
  }

  /** What fetch_candles makes of make_request's final attempt. */
  function FetchResult(a: Attempt): (r: Result<Json>)
    ensures a.Raised? ==> r == Err(a.error)
    ensures a == Returned(None) ==> r == Err(DataIntegrityError)
    ensures r.Ok? <==>
              a.Returned? && a.response.Some? && "candles" in a.response.value
              && Sized(a.response.value["candles"])
    ensures r.Ok? ==> r.value == a.response.value["candles"]
    ensures (a.Returned? && a.response.Some? && "candles" in a.response.value
             && !Sized(a.response.value["candles"])) ==> r == Err(TypeError)
  {
    match a
    case Raised(e) => Err(e)
    case Returned(resp) => CheckCandlesResponse(resp)
  }

  /** A not-found answer reaches fetch_candles' caller as DataIntegrityError, not as an empty list. */
  lemma NotFoundSurfacesAsIntegrityError(code: string)
    requires code in NotFoundCodes
    ensures FetchResult(AttemptResult(ApiError(Some(code)))) == Err(DataIntegrityError)
  {
  }

  /** A not-found answer is a return value, so the retry decorator never repeats it. */
  lemma NotFoundNeverRetried(code: string)
    requires code in NotFoundCodes
    ensures !Retried(AttemptResult(ApiError(Some(code))))
  {
  }

  /** The constructor: a token that fails the shape check is refused with SecurityError before any client exists. */
  method OpenClient(accessToken: string, environment: string := "practice") returns (r: Result<OandaApiClient>)
    ensures r.Err? <==> !ValidCredentials(accessToken)
    ensures r.Err? ==> r.error == SecurityError
    ensures r.Ok? ==> fresh(r.value) && r.value.lastRequestTime == 0 && r.value.environment == environment
  {
    if !ValidCredentials(accessToken) {
      return Err(SecurityError);
    }
    var c := new OandaApiClient(accessToken, environment);
    r := Ok(c);
  }

  class OandaApiClient {
    const environment: string
    /** When the last successful request returned. */
    var lastRequestTime: int

    /** The part of the constructor after the credential check. */
    constructor (accessToken: string, environment: string)
      requires ValidCredentials(accessToken)
      ensures this.environment == environment && lastRequestTime == 0
    {
      this.environment := environment;
      lastRequestTime := 0;
    }

    /**
     * One run of make_request's body: sleep the pacing delay, call the
     * library, and move the watermark only when a response came back.
     */
    method TryOnce(now: int, outcome: RemoteOutcome, received: int) returns (a: Attempt, pause: int)
      modifies this
      ensures pause == PacingDelay(now, old(lastRequestTime))
      ensures a == AttemptResult(outcome)
      ensures lastRequestTime == if outcome.Responded? then received else old(lastRequestTime)
    {
      pause := PacingDelay(now, lastRequestTime);
      match outcome {
        case Responded(response) =>
          lastRequestTime := received;
          a := Returned(Some(response));
        case ApiError(code) =>
          match ClassifyApiError(code) {
            case RaiseRateLimit => a := Raised(RateLimitExceeded);
            case ReturnNothing => a := Returned(None);
            case Reraise => a := Raised(V20Error(code));
          }
        case TransportFailure =>
          a := Raised(TransportError);
      }
    }

    /**
     * make_request under its retry decorator. Attempt k starts at
     * clock(k).start and the library answers remote(k). The body is run
     * again only after V20Error or RateLimitExceeded, and at most five times
     * in all; the final attempt's return or exception is the result, and
     * pauses[k] is the pacing sleep of attempt k.
     */
    method MakeRequest(clock: nat -> AttemptClock, remote: nat -> RemoteOutcome)
      returns (r: Attempt, tries: nat, pauses: seq<int>)
      modifies this
      ensures 1 <= tries <= MaxTries
      ensures r == AttemptResult(remote(tries - 1))
      ensures forall k :: 0 <= k < tries - 1 ==> Retried(AttemptResult(remote(k)))
      ensures tries < MaxTries ==> !Retried(r)
      ensures |pauses| == tries
      ensures forall k :: 0 <= k < tries ==> pauses[k] == PacingDelay(clock(k).start, old(lastRequestTime))
      ensures lastRequestTime ==
                if remote(tries - 1).Responded? then clock(tries - 1).received else old(lastRequestTime)
    {
      var pause;
      r, pause := TryOnce(clock(0).start, remote(0), clock(0).received);
      tries, pauses := 1, [pause];
      while tries < MaxTries && Retried(r)
        invariant 1 <= tries <= MaxTries
        invariant r == AttemptResult(remote(tries - 1))
        invariant forall k :: 0 <= k < tries - 1 ==> Retried(AttemptResult(remote(k)))
        invariant |pauses| == tries
        invariant forall k :: 0 <= k < tries ==> pauses[k] == PacingDelay(clock(k).start, old(lastRequestTime))
        invariant lastRequestTime ==
                    if remote(tries - 1).Responded? then clock(tries - 1).received else old(lastRequestTime)
        decreases MaxTries - tries
      {
        // the decorator's exponential backoff wait falls between clock(tries - 1) and clock(tries)
        r, pause := TryOnce(clock(tries).start, remote(tries), clock(tries).received);
        tries, pauses := tries + 1, pauses + [pause];
      }
    }

    /**
     * fetch_candles: build the request, run it through make_request, and
     * check the response; any exception propagates unchanged.
     */
    method FetchCandles(instrument: string, startTime: int, endTime: int,
                        clock: nat -> AttemptClock, remote: nat -> RemoteOutcome,
                        granularity: string := "S10", price: string := "MBA")
      returns (r: Result<Json>, request: CandleRequest, tries: nat, pauses: seq<int>)
      modifies this
      ensures request == CandleParams(instrument, startTime, endTime, granularity, price)
      ensures 1 <= tries <= MaxTries
      ensures |pauses| == tries
      ensures forall k :: 0 <= k < tries ==> pauses[k] == PacingDelay(clock(k).start, old(lastRequestTime))
      ensures forall k :: 0 <= k < tries - 1 ==> Retried(AttemptResult(remote(k)))
      ensures tries < MaxTries ==> !Retried(AttemptResult(remote(tries - 1)))
      ensures r == FetchResult(AttemptResult(remote(tries - 1)))
      ensures lastRequestTime ==
                if remote(tries - 1).Responded? then clock(tries - 1).received else old(lastRequestTime)
    {
      request := CandleParams(instrument, startTime, endTime, granularity, price);
      var a;
      a, tries, pauses := MakeRequest(clock, remote);
      match a {
        case Raised(e) => r := Err(e);
        case Returned(response) => r := CheckCandlesResponse(response);
      }
    }
  }
}
