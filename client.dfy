/** The front end's preconfigured HTTP client: the request interceptor that
    attaches the stored access token, and the response interceptor that
    refreshes the token once on a 401 and otherwise passes the error on.

    A request's config is an object the interceptors mutate (its headers and
    its _retry flag). The refresh endpoint's answer is the parameter
    `refresh`; reissuing the request is reported as `Reissue` rather than
    performed. Development logging is not modelled. */
module ApiClient {
  import opened Common
  import opened BrowserStorage

  const AUTHORIZATION: string := "Authorization"
  const NO_REFRESH_TOKEN_MESSAGE: string := "No refresh token available"

  /** A server reply, or a failure with no reply at all (status None). */
  datatype HttpReply = HttpReply(status: Option<int>, body: Json)

  /** The default axios acceptance: a 2xx status resolves, anything else rejects. */
  predicate Accepted(reply: HttpReply) {
    reply.status.Some? && 200 <= reply.status.value < 300
  }

  /** What POST /api/auth/refresh produced: a body whose access_token may be
      missing, or an error. */
  datatype RefreshAnswer = Refreshed(accessToken: Option<string>) | RefreshRejected(message: string)

  datatype ClientError = Original(reply: HttpReply) | RefreshFailed(message: string)

  /** How the interceptor settles the request's promise. */
  datatype Settlement = Resolve(reply: HttpReply) | Reject(error: ClientError) | Reissue

  /** The state an interceptor run can change: storage, location, and the
      request config's headers and _retry flag. */
  datatype ClientState = ClientState(
    storage: map<string, StoredValue>,
    location: string,
    headers: map<string, string>,
    retry: bool)

  datatype Step = Step(state: ClientState, settlement: Settlement)

  function Bearer(token: string): string {
    "Bearer " + token
  }

  /** The request interceptor's effect on the headers. */
  function AttachToken(storage: map<string, StoredValue>, headers: map<string, string>): (h: map<string, string>)
    ensures ItemTruthy(storage, ACCESS_TOKEN_KEY) ==>
      h == headers[AUTHORIZATION := Bearer(ItemText(storage[ACCESS_TOKEN_KEY]))]
    ensures !ItemTruthy(storage, ACCESS_TOKEN_KEY) ==> h == headers
  {
    if ItemTruthy(storage, ACCESS_TOKEN_KEY) then headers[AUTHORIZATION := Bearer(ItemText(storage[ACCESS_TOKEN_KEY]))]
    else headers
  }

  /** The catch block: clear the session, go to the login page, reject with the refresh error. */
  function RefreshFailure(st: ClientState, message: string): Step {
    Step(st.(storage := ClearSession(st.storage), location := LOGIN_PATH), Reject(RefreshFailed(message)))
  }

  /** The response interceptor, success and error handlers together. */
  function OnReply(st: ClientState, reply: HttpReply, refresh: RefreshAnswer): Step {
    if Accepted(reply) then Step(st, Resolve(reply))
    else if reply.status == Some(401) && !st.retry then
      var marked := st.(retry := true);
      if !ItemTruthy(st.storage, REFRESH_TOKEN_KEY) then RefreshFailure(marked, NO_REFRESH_TOKEN_MESSAGE)
      else
        match refresh
        case RefreshRejected(m) => RefreshFailure(marked, m)
        case Refreshed(token) =>
          var stored := TextOrUndefined(token);
          Step(marked.(storage := st.storage[ACCESS_TOKEN_KEY := stored],
                       headers := st.headers[AUTHORIZATION := Bearer(ItemText(stored))]),
               Reissue)
    else Step(st, Reject(Original(reply)))
  }

  // ---------------------------------------------------------------------------
  // Properties
  // ---------------------------------------------------------------------------

  /** A 2xx reply passes through and nothing changes. */
  lemma AcceptedPassesThrough(st: ClientState, reply: HttpReply, refresh: RefreshAnswer)
    requires Accepted(reply)
    ensures OnReply(st, reply, refresh) == Step(st, Resolve(reply))
  {
  }

  /** Every first 401 marks the request, so a request is refreshed at most
      once: a 401 on a marked request is rejected with the original error,
      without a refresh, and changes nothing. */
  lemma AtMostOneRefreshPerRequest(st: ClientState, reply: HttpReply, refresh: RefreshAnswer, again: HttpReply, refresh2: RefreshAnswer)
    requires reply.status == Some(401) && !st.retry
    ensures OnReply(st, reply, refresh).state.retry
    ensures var st1 := OnReply(st, reply, refresh).state;
      !Accepted(again) ==> OnReply(st1, again, refresh2) == Step(st1, Reject(Original(again)))
  {
  }

  /** A missing or empty refresh token fails like a rejected refresh. */
  lemma MissingRefreshTokenFails(st: ClientState, reply: HttpReply, refresh: RefreshAnswer)
    requires reply.status == Some(401) && !st.retry
    requires !ItemTruthy(st.storage, REFRESH_TOKEN_KEY)
    ensures var s := OnReply(st, reply, refresh);
      && s.settlement == Reject(RefreshFailed(NO_REFRESH_TOKEN_MESSAGE))
      && s.state.location == LOGIN_PATH
      && (forall k :: k in SESSION_KEYS ==> k !in s.state.storage)
  {
  }

  /** A successful refresh stores the new access token and reissues the
      request with "Bearer " and that token; the other keys are untouched. */
  lemma RefreshSuccessReissues(st: ClientState, reply: HttpReply, token: string)
    requires reply.status == Some(401) && !st.retry
    requires ItemTruthy(st.storage, REFRESH_TOKEN_KEY)
    ensures var s := OnReply(st, reply, Refreshed(Some(token)));
      && s.settlement == Reissue
      && s.state.storage == st.storage[ACCESS_TOKEN_KEY := Text(token)]
      && s.state.headers == st.headers[AUTHORIZATION := Bearer(token)]
      && s.state.location == st.location && s.state.retry
  {
  }

  /** When the refresh is rejected, the three session keys are removed, the
      page goes to /login and the refresh error is the rejection; without a
      stored refresh token no refresh is attempted and the rejection carries
      "No refresh token available". */
  lemma RefreshFailureClearsSession(st: ClientState, reply: HttpReply, message: string)
    requires reply.status == Some(401) && !st.retry
    ensures var s := OnReply(st, reply, RefreshRejected(message));
      && s.state.location == LOGIN_PATH
      && (forall k :: k in SESSION_KEYS ==> k !in s.state.storage)
      && (forall k :: k in st.storage && k !in SESSION_KEYS ==> k in s.state.storage && s.state.storage[k] == st.storage[k])
      && (ItemTruthy(st.storage, REFRESH_TOKEN_KEY) ==> s.settlement == Reject(RefreshFailed(message)))
      && (!ItemTruthy(st.storage, REFRESH_TOKEN_KEY) ==> s.settlement == Reject(RefreshFailed(NO_REFRESH_TOKEN_MESSAGE)))
  {
  }

  /** Every other failure (403, 429, 5xx, no reply, a 401 already retried)
      leaves everything alone and rejects with the original error. */
  lemma OtherErrorsRejectUnchanged(st: ClientState, reply: HttpReply, refresh: RefreshAnswer)
    requires !Accepted(reply)
    requires reply.status != Some(401) || st.retry
    ensures OnReply(st, reply, refresh) == Step(st, Reject(Original(reply)))
  {
  }

  /** The reissued request goes out with the refreshed token: the request
      interceptor, run again, sets the same Authorization header. */
  lemma ReissueKeepsNewToken(st: ClientState, reply: HttpReply, token: string)
    requires reply.status == Some(401) && !st.retry
    requires ItemTruthy(st.storage, REFRESH_TOKEN_KEY) && token != ""
    ensures var s := OnReply(st, reply, Refreshed(Some(token)));
      AttachToken(s.state.storage, s.state.headers)[AUTHORIZATION] == Bearer(token)
  {
  }

  // ---------------------------------------------------------------------------
  // The interceptors over the mutable objects
  // ---------------------------------------------------------------------------

  /** An axios request config: its headers and the _retry mark. */
  class RequestConfig {
    var headers: map<string, string>
    var retry: bool

    constructor (headers0: map<string, string>)
      ensures headers == headers0 && !retry
    {
      headers, retry := headers0, false;
    }
  }

  method RequestInterceptor(window: Browser, config: RequestConfig)
    modifies config
    ensures config.headers == AttachToken(window.storage, old(config.headers))
    ensures config.retry == old(config.retry)
  {
    var token := window.GetItem(ACCESS_TOKEN_KEY);
    if token.Some? && ItemText(token.value) != "" {
      config.headers := config.headers[AUTHORIZATION := Bearer(ItemText(token.value))];
    }
  }

  method ResponseInterceptor(window: Browser, config: RequestConfig, reply: HttpReply, refresh: RefreshAnswer)
    returns (settlement: Settlement)
    modifies window, config
    ensures Step(ClientState(window.storage, window.location, config.headers, config.retry), settlement)
      == OnReply(ClientState(old(window.storage), old(window.location), old(config.headers), old(config.retry)), reply, refresh)
  {
    if Accepted(reply) {
      return Resolve(reply);
    }
    if reply.status == Some(401) && !config.retry {
      config.retry := true;
      var refreshToken := window.GetItem(REFRESH_TOKEN_KEY);
      var failure: Option<string> := None;
      if refreshToken.None? || ItemText(refreshToken.value) == "" {
        failure := Some(NO_REFRESH_TOKEN_MESSAGE);
      } else if refresh.RefreshRejected? {
        failure := Some(refresh.message);
      } else {
        var stored := TextOrUndefined(refresh.accessToken);
        window.SetItem(ACCESS_TOKEN_KEY, stored);
        config.headers := config.headers[AUTHORIZATION := Bearer(ItemText(stored))];
        return Reissue;
      }
      window.RemoveSession();
      window.location := LOGIN_PATH;
      return Reject(RefreshFailed(failure.value));
    }
    settlement := Reject(Original(reply));
  }
}
