/** The error taxonomy, the mapping of thrown values to response envelopes,
    and the in-memory fixed-window rate limiter (src/lib/errors.ts). */
module Errors {
  import opened Wrappers
  import opened Strings

  /** An `ApiError` (or one of its subclasses): `name` is the class name. */
  datatype ApiError = ApiError(name: string, message: string, statusCode: int, code: Option<string>)

  /** `new ApiError(message, statusCode = 500, code?)`. */
  function MakeApiError(message: string, statusCode: int := 500, code: Option<string> := None): ApiError {
    ApiError("ApiError", message, statusCode, code)
  }

  function ValidationError(message: string): ApiError {
    ApiError("ValidationError", message, 400, Some("VALIDATION_ERROR"))
  }

  function NotFoundError(resource: string): ApiError {
    ApiError("NotFoundError", resource + " not found", 404, Some("NOT_FOUND"))
  }

  function UnauthorizedError(message: string := "Unauthorized"): ApiError {
    ApiError("UnauthorizedError", message, 401, Some("UNAUTHORIZED"))
  }

  function RateLimitError(): ApiError {
    ApiError("RateLimitError", "Too many requests. Please try again later.", 429, Some("RATE_LIMIT"))
  }

  /** What a handler can throw: an `ApiError`, any other `Error` (carrying
      its message), or a value that is not an `Error` at all. */
  datatype Thrown = ThrownApiError(apiError: ApiError) | ThrownError(message: string) | ThrownValue

  /** The uniform response envelope `{ success, data?, error?, message? }`. */
  datatype Envelope<T> = Envelope(success: bool, data: Option<T>, error: Option<string>, message: Option<string>)

  /** An HTTP response: status code and JSON envelope. */
  datatype Response<T> = Response(status: int, body: Envelope<T>)

  function OkResponse<T>(status: int, data: T): Response<T> {
    Response(status, Envelope(true, Some(data), None, None))
  }

  function FailureResponse<T>(status: int, error: string): Response<T> {
    Response(status, Envelope(false, None, Some(error), None))
  }

  const GenericMessage: string := "An unexpected error occurred"

  /** `handleApiError`: the process environment's `NODE_ENV` is a parameter
      (`None` when unset); logging is not modelled. */
  function HandleApiError<T>(thrown: Thrown, nodeEnv: Option<string>): (r: Response<T>)
    ensures !r.body.success && r.body.data == None && r.body.message == None && r.body.error.Some?
    ensures thrown.ThrownApiError? ==>
      r.status == thrown.apiError.statusCode && r.body.error == Some(thrown.apiError.message)
    ensures !thrown.ThrownApiError? ==> r.status == 500
    ensures thrown.ThrownError? && nodeEnv == Some("development") ==> r.body.error == Some(thrown.message)
    ensures thrown.ThrownError? && nodeEnv != Some("development") ==> r.body.error == Some(GenericMessage)
    ensures thrown.ThrownValue? ==> r.body.error == Some(GenericMessage)
  {
    match thrown
    case ThrownApiError(e) => FailureResponse(e.statusCode, e.message)
    case ThrownError(m) =>
      FailureResponse(500, if nodeEnv == Some("development") then m else GenericMessage)
    case ThrownValue => FailureResponse(500, GenericMessage)
  }

  /** The four specific error classes reach the client as client errors,
      with their own status and message, and the base class defaults to a
      server error. */
  lemma ErrorStatusCodes<T>(message: string, resource: string, nodeEnv: Option<string>)
    ensures var r: Response<T> := HandleApiError(ThrownApiError(ValidationError(message)), nodeEnv);
      r.status == 400 && r.body.error == Some(message)
    ensures var r: Response<T> := HandleApiError(ThrownApiError(NotFoundError(resource)), nodeEnv);
      r.status == 404 && r.body.error == Some(resource + " not found")
    ensures var r: Response<T> := HandleApiError(ThrownApiError(UnauthorizedError()), nodeEnv);
      r.status == 401 && r.body.error == Some("Unauthorized")
    ensures var r: Response<T> := HandleApiError(ThrownApiError(RateLimitError()), nodeEnv);
      r.status == 429 && r.body.error == Some("Too many requests. Please try again later.")
    ensures var r: Response<T> := HandleApiError(ThrownApiError(MakeApiError(message)), nodeEnv);
      r.status == 500 && r.body.error == Some(message)
  {
  }

  // ---------------------------------------------------------------------
  // Rate limiting

  /** `request.headers.get('x-forwarded-for') || 'anonymous'`: the client
      identifier the route handlers key their limits on. */
  function ClientIdentifier(forwardedFor: Option<string>): (r: string)
    ensures r != ""
    ensures forwardedFor.Some? && forwardedFor.value != "" ==> r == forwardedFor.value
    ensures forwardedFor.None? || forwardedFor.value == "" ==> r == "anonymous"
  {
    if forwardedFor.Some? && forwardedFor.value != "" then forwardedFor.value else "anonymous"
  }

  /** One entry of the limiter's table. */
  datatype RateEntry = RateEntry(count: int, resetTime: int)

  /** The verdict of one check and the table afterwards. */
  datatype Decision = Decision(allowed: bool, store: map<string, RateEntry>)

  /** A window is open for `identifier` at time `now` (a missing or expired
      entry counts as no window). */
  predicate InWindow(store: map<string, RateEntry>, identifier: string, now: int) {
    identifier in store && !(now > store[identifier].resetTime)
  }

  /** One `checkRateLimit` call as a function of the table before it. */
  function Check(store: map<string, RateEntry>, identifier: string, maxRequests: int, windowMs: int, now: int): (d: Decision)
    ensures identifier in d.store
    ensures forall k :: k != identifier ==> (k in d.store <==> k in store)
    ensures forall k :: k != identifier && k in store ==> d.store[k] == store[k]
    ensures !InWindow(store, identifier, now) ==>
      d.allowed && d.store[identifier] == RateEntry(1, now + windowMs)
    ensures InWindow(store, identifier, now) ==>
      d.store[identifier].resetTime == store[identifier].resetTime &&
      (d.allowed <==> store[identifier].count < maxRequests) &&
      d.store[identifier].count == store[identifier].count + (if d.allowed then 1 else 0)
  {
    if identifier !in store || now > store[identifier].resetTime then
      Decision(true, store[identifier := RateEntry(1, now + windowMs)])
    else if store[identifier].count >= maxRequests then
      Decision(false, store)
    else
      Decision(true, store[identifier := store[identifier].(count := store[identifier].count + 1)])
  }

  /** The verdicts of consecutive checks of one identifier at the given times. */
  function Verdicts(store: map<string, RateEntry>, identifier: string, maxRequests: int, windowMs: int, times: seq<int>): seq<bool>
    decreases |times|
  {
    if times == [] then []
    else
      var d := Check(store, identifier, maxRequests, windowMs, times[0]);
      [d.allowed] + Verdicts(d.store, identifier, maxRequests, windowMs, times[1..])
  }

  /** Inside an open window holding `count` requests, call number `i` of a
      run is accepted exactly when `count + i` is still under the ceiling. */
  lemma {:induction false} VerdictsInWindow(store: map<string, RateEntry>, identifier: string, maxRequests: int, windowMs: int, times: seq<int>)
    requires identifier in store && store[identifier].count >= 1
    requires forall i :: 0 <= i < |times| ==> times[i] <= store[identifier].resetTime
    ensures var v := Verdicts(store, identifier, maxRequests, windowMs, times);
      |v| == |times| &&
      forall i :: 0 <= i < |times| ==> (v[i] <==> store[identifier].count + i < Max(1, maxRequests))
  {
    if times != [] {
      var d := Check(store, identifier, maxRequests, windowMs, times[0]);
      assert InWindow(store, identifier, times[0]);
      VerdictsInWindow(d.store, identifier, maxRequests, windowMs, times[1..]);
      var v := Verdicts(store, identifier, maxRequests, windowMs, times);
      var rest := Verdicts(d.store, identifier, maxRequests, windowMs, times[1..]);
      assert v == [d.allowed] + rest;
      forall i | 0 < i < |times|
        ensures v[i] <==> store[identifier].count + i < Max(1, maxRequests)
      {
        assert v[i] == rest[i - 1];
      }
    }
  }

  /** The limit over one window: when the first call of a run opens a fresh
      window at `times[0]` and every later call comes no later than
      `times[0] + windowMs`, exactly the first `max(1, maxRequests)` calls
      are accepted and every later one is rejected. */
  lemma {:induction false} WindowLimit(store: map<string, RateEntry>, identifier: string, maxRequests: int, windowMs: int, times: seq<int>)
    requires |times| >= 1 && !InWindow(store, identifier, times[0])
    requires forall i :: 1 <= i < |times| ==> times[i] <= times[0] + windowMs
    ensures var v := Verdicts(store, identifier, maxRequests, windowMs, times);
      |v| == |times| && forall i :: 0 <= i < |times| ==> (v[i] <==> i < Max(1, maxRequests))
  {
    var d := Check(store, identifier, maxRequests, windowMs, times[0]);
    var rest := times[1..];
    forall i | 0 <= i < |rest| ensures rest[i] <= d.store[identifier].resetTime {
      assert rest[i] == times[i + 1];
    }
    VerdictsInWindow(d.store, identifier, maxRequests, windowMs, rest);
    var v := Verdicts(store, identifier, maxRequests, windowMs, times);
    var w := Verdicts(d.store, identifier, maxRequests, windowMs, rest);
    assert v == [true] + w;
    forall i | 0 < i < |times| ensures v[i] <==> i < Max(1, maxRequests) {
      assert v[i] == w[i - 1];
    }
  }

  /** When a window has expired, the next request is accepted again. */
  lemma AcceptedAfterExpiry(store: map<string, RateEntry>, identifier: string, maxRequests: int, windowMs: int, now: int)
    requires identifier in store && now > store[identifier].resetTime
    ensures Check(store, identifier, maxRequests, windowMs, now).allowed
  {
  }

  /** A table whose entries for `identifier` respect `max(1, maxRequests)`
      keeps respecting it. */
  lemma CountBounded(store: map<string, RateEntry>, identifier: string, maxRequests: int, windowMs: int, now: int)
    requires identifier in store ==> store[identifier].count <= Max(1, maxRequests)
    ensures Check(store, identifier, maxRequests, windowMs, now).store[identifier].count <= Max(1, maxRequests)
  {
  }

  /** A verdict depends on the identifier's own entry only. */
  lemma VerdictIsLocal(s1: map<string, RateEntry>, s2: map<string, RateEntry>, identifier: string, maxRequests: int, windowMs: int, now: int)
    requires (identifier in s1 <==> identifier in s2)
    requires identifier in s1 ==> s1[identifier] == s2[identifier]
    ensures Check(s1, identifier, maxRequests, windowMs, now).allowed == Check(s2, identifier, maxRequests, windowMs, now).allowed
    ensures Check(s1, identifier, maxRequests, windowMs, now).store[identifier] == Check(s2, identifier, maxRequests, windowMs, now).store[identifier]
  {
  }

  /** The table after the periodic sweep at time `now`. */
  function Swept(store: map<string, RateEntry>, now: int): (r: map<string, RateEntry>)
    ensures forall k :: k in r <==> k in store && !(now > store[k].resetTime)
    ensures forall k :: k in r ==> r[k] == store[k]
  {
    map k | k in store && !(now > store[k].resetTime) :: store[k]
  }

  /** Sweeping cannot change any later verdict: an expired entry is already
      treated as absent by every check at the sweep time or later. */
  lemma SweepIsUnobservable(store: map<string, RateEntry>, sweepTime: int, identifier: string, maxRequests: int, windowMs: int, now: int)
    requires sweepTime <= now
    ensures var before := Check(store, identifier, maxRequests, windowMs, now);
      var after := Check(Swept(store, sweepTime), identifier, maxRequests, windowMs, now);
      after.allowed == before.allowed && after.store[identifier] == before.store[identifier]
  {
  }

  /** The one-minute window every route passes to `checkRateLimit`. */
  const WindowMs: int := 60000

  /** The process-wide table of the limiter. */
  class RateLimiter {
    var store: map<string, RateEntry>

    constructor ()
      ensures store == map[]
    {
      store := map[];
    }

    /** `checkRateLimit(identifier, maxRequests = 60, windowMs = 60000)`
        with the clock reading `now` passed in. */
    method CheckRateLimit(identifier: string, now: int, maxRequests: int := 60, windowMs: int := 60000) returns (allowed: bool)
      modifies this
      ensures Decision(allowed, store) == Check(old(store), identifier, maxRequests, windowMs, now)
    {
      if identifier !in store || now > store[identifier].resetTime {
        store := store[identifier := RateEntry(1, now + windowMs)];
        return true;
      }
      var record := store[identifier];
      if record.count >= maxRequests {
        return false;
      }
      store := store[identifier := record.(count := record.count + 1)];
      return true;
    }

    /** The body of the periodic clean-up: deletes every entry whose window
        has ended by `now`. */
    method Sweep(now: int)
      modifies this
      ensures store == Swept(old(store), now)
    {
      ghost var original := store;
      var keys := store.Keys;
      while keys != {}
        invariant keys <= store.Keys
        invariant forall k :: k in store <==> k in original && (k in keys || !(now > original[k].resetTime))
        invariant forall k :: k in store ==> store[k] == original[k]
        decreases keys
      {
        var key :| key in keys;
        if now > store[key].resetTime {
          store := store - {key};
        }
        keys := keys - {key};
      }
      assert store == Swept(original, now);
    }
  }
}
