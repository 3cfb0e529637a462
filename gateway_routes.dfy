/** The gateway's retry filter and the filters attached to each route.

    The downstream handler is the function `handler`, whose argument is the
    number of earlier invocations for this request, so `handler(i)` is what
    the (i+1)-th invocation answers. The half-second pause between attempts
    and the interrupt path are not modelled. */
module GatewayRoutes {
  import opened Common

  datatype HttpMethod = GET | HEAD | POST | PUT | PATCH | DELETE | OPTIONS | TRACE

  /** HttpMethod.name() */
  function MethodName(m: HttpMethod): string {
    match m
    case GET => "GET"
    case HEAD => "HEAD"
    case POST => "POST"
    case PUT => "PUT"
    case PATCH => "PATCH"
    case DELETE => "DELETE"
    case OPTIONS => "OPTIONS"
    case TRACE => "TRACE"
  }

  /** What one invocation of the downstream handler does. */
  datatype HandlerOutcome = Success(response: int) | Failure(message: string)

  datatype GatewayException =
    | HandlerException(message: string)
      /** RuntimeException("Request failed after " + maxRetries + " attempts", cause) */
    | RetriesExhausted(maxRetries: int, cause: Option<GatewayException>)

  /** The filter either returns a response or throws. */
  datatype FilterResult = Returned(response: int) | Thrown(error: GatewayException)

  function AsResult(o: HandlerOutcome): FilterResult {
    match o
    case Success(r) => Returned(r)
    case Failure(m) => Thrown(HandlerException(m))
  }

  /** The attempt loop for a GET request: stop at the first success, give up
      after maxRetries failures. */
  method RetryLoop(maxRetries: int, handler: nat -> HandlerOutcome) returns (result: FilterResult, calls: nat)
    ensures calls <= (if maxRetries > 0 then maxRetries else 0)
    ensures forall i :: 0 <= i < calls && result.Thrown? ==> handler(i).Failure?
    ensures forall i :: 0 <= i < calls - 1 ==> handler(i).Failure?
    ensures result.Returned? ==> calls >= 1 && result == AsResult(handler(calls - 1))
    ensures result.Thrown? ==>
      && calls == (if maxRetries > 0 then maxRetries else 0)
      && result.error == RetriesExhausted(maxRetries,
           if calls > 0 then Some(HandlerException(handler(calls - 1).message)) else None)
    ensures result.Returned? <==> exists i :: 0 <= i < maxRetries && handler(i).Success?
  {
    var attempts := 0;
    var lastException: Option<GatewayException> := None;
    while attempts < maxRetries
      invariant 0 <= attempts
      invariant maxRetries > 0 ==> attempts < maxRetries
      invariant maxRetries <= 0 ==> attempts == 0
      invariant forall i :: 0 <= i < attempts ==> handler(i).Failure?
      invariant lastException == if attempts > 0 then Some(HandlerException(handler(attempts - 1).message)) else None
    {
      var outcome := handler(attempts);
      if outcome.Success? {
        return Returned(outcome.response), attempts + 1;
      }
      attempts := attempts + 1;
      lastException := Some(HandlerException(outcome.message));
      if attempts >= maxRetries {
        break;
      }
    }
    result, calls := Thrown(RetriesExhausted(maxRetries, lastException)), attempts;
  }

  /** retryFilter(maxRetries) as intended, with the method's name as the
      value tested: requests other than GET go through exactly once, GET
      requests go through the attempt loop. */
  method RetryFilter(m: HttpMethod, maxRetries: int, handler: nat -> HandlerOutcome) returns (result: FilterResult, calls: nat)
    ensures m != GET ==> calls == 1 && result == AsResult(handler(0))
    ensures m == GET ==> calls <= (if maxRetries > 0 then maxRetries else 0)
    ensures m == GET && result.Returned? ==>
      && calls >= 1 && result == AsResult(handler(calls - 1))
      && forall i :: 0 <= i < calls - 1 ==> handler(i).Failure?
    ensures m == GET && result.Thrown? ==>
      && calls == (if maxRetries > 0 then maxRetries else 0)
      && (forall i :: 0 <= i < calls ==> handler(i).Failure?)
      && result.error == RetriesExhausted(maxRetries,
           if calls > 0 then Some(HandlerException(handler(calls - 1).message)) else None)
    ensures m == GET ==> (result.Returned? <==> exists i :: 0 <= i < maxRetries && handler(i).Success?)
  {
    result, calls := RetryFilterOn(JavaString(MethodName(m)), maxRetries, handler);
  }

  // ---------------------------------------------------------------------------
  // The method test as written
  // ---------------------------------------------------------------------------

  /** A Java value passed to String.equals: a string, or an HttpMethod object. */
  datatype JavaValue = JavaString(s: string) | JavaHttpMethod(m: HttpMethod)

  /** String.equals(Object): false for any argument that is not a String. */
  predicate StringEquals(receiver: string, arg: JavaValue) {
    arg.JavaString? && arg.s == receiver
  }

  /** The body of retryFilter(maxRetries), given the value its test passes
      to "GET".equals: a request whose value is not the string "GET" goes
      through once, any other goes through the attempt loop. */
  method RetryFilterOn(arg: JavaValue, maxRetries: int, handler: nat -> HandlerOutcome) returns (result: FilterResult, calls: nat)
    ensures !StringEquals(MethodName(GET), arg) ==> calls == 1 && result == AsResult(handler(0))
    ensures StringEquals(MethodName(GET), arg) ==> calls <= (if maxRetries > 0 then maxRetries else 0)
    ensures StringEquals(MethodName(GET), arg) && result.Returned? ==>
      && calls >= 1 && result == AsResult(handler(calls - 1))
      && forall i :: 0 <= i < calls - 1 ==> handler(i).Failure?
    ensures StringEquals(MethodName(GET), arg) && result.Thrown? ==>
      && calls == (if maxRetries > 0 then maxRetries else 0)
      && (forall i :: 0 <= i < calls ==> handler(i).Failure?)
      && result.error == RetriesExhausted(maxRetries,
           if calls > 0 then Some(HandlerException(handler(calls - 1).message)) else None)
    ensures StringEquals(MethodName(GET), arg) ==>
      (result.Returned? <==> exists i :: 0 <= i < maxRetries && handler(i).Success?)
  {
    if !StringEquals(MethodName(GET), arg) {
      return AsResult(handler(0)), 1;
    }
    result, calls := RetryLoop(maxRetries, handler);
  }

  /** The pass-through test as written: the name "GET" is compared with the
      method object that ServerRequest.method() returns. */
  predicate SkipsRetryAsWritten(m: HttpMethod) {
    !StringEquals(MethodName(GET), JavaHttpMethod(m))
  }

  /** As written, every request, GET included, takes the pass-through branch. */
  lemma AsWrittenNeverRetries(m: HttpMethod)
    ensures SkipsRetryAsWritten(m)
  {
  }

  /** retryFilter(maxRetries) as written, testing the HttpMethod object
      itself: one invocation for every request, so a failing GET is never
      retried. */
  method RetryFilterAsWritten(m: HttpMethod, maxRetries: int, handler: nat -> HandlerOutcome) returns (result: FilterResult, calls: nat)
    ensures calls == 1 && result == AsResult(handler(0))
  {
    AsWrittenNeverRetries(m);
    result, calls := RetryFilterOn(JavaHttpMethod(m), maxRetries, handler);
  }

  // ---------------------------------------------------------------------------
  // Routes
  // ---------------------------------------------------------------------------

  datatype RouteFilter = CircuitBreaker(name: string, fallback: string) | Retry(maxRetries: int) | UserIdHeader

  datatype Route = Route(id: string, paths: seq<string>, filters: seq<RouteFilter>)

  /** The business-service routes with their filters, in declaration order. */
  const SERVICE_ROUTES: seq<Route> := [
    Route("movie_service", ["/api/movie/**", "/api/movies/**"],
          [CircuitBreaker("movieServiceCircuitBreaker", "forward:/fallback/movie"), Retry(2)]),
    Route("rating_service", ["/api/rating/**", "/api/ratings/**"],
          [CircuitBreaker("ratingServiceCircuitBreaker", "forward:/fallback/rating"), Retry(2), UserIdHeader]),
    Route("sign_service", ["/api/sign/**"],
          [CircuitBreaker("signServiceCircuitBreaker", "forward:/fallback/sign"), Retry(2), UserIdHeader]),
    Route("achievement_service", ["/api/achievement/**", "/api/achievements/**"],
          [CircuitBreaker("achievementServiceCircuitBreaker", "forward:/fallback/achievement"), Retry(2), UserIdHeader]),
    Route("notification_service", ["/api/notification/**", "/api/notifications/**"],
          [CircuitBreaker("notificationServiceCircuitBreaker", "forward:/fallback/notification"), Retry(2), UserIdHeader]),
    Route("user_service", ["/api/user/**"],
          [CircuitBreaker("userServiceCircuitBreaker", "forward:/fallback/user"), Retry(2), UserIdHeader])
  ]

  /** The retry bound a route applies, or None when it has no retry filter. */
  function RetryBound(filters: seq<RouteFilter>): (r: Option<int>)
    ensures r.Some? <==> exists f :: f in filters && f.Retry?
    ensures r.Some? ==> Retry(r.value) in filters
  {
    if filters == [] then None
    else if filters[0].Retry? then Some(filters[0].maxRetries)
    else RetryBound(filters[1..])
  }

  /** Every service route retries with maxRetries 2, i.e. a GET reaches the
      service at most twice; every route but the public movie route adds the
      user-id header. */
  lemma ServiceRoutesRetryTwice()
    ensures |SERVICE_ROUTES| == 6
    ensures forall r :: r in SERVICE_ROUTES ==> RetryBound(r.filters) == Some(2)
    ensures forall r :: r in SERVICE_ROUTES ==> (UserIdHeader in r.filters <==> r.id != "movie_service")
  {
  }
}
