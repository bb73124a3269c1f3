/**
 * The frontend's HTTP client: the interceptors that count requests in
 * flight and tell listeners when loading starts and stops, add the bearer
 * token, refresh an expired token once per request and retry failed
 * requests with exponential backoff; `setAuthToken`; and the error record
 * `handleApiCall` throws. Browser storage is the client's token fields,
 * the refresh call's answer and the time waited are parameters and results.
 */
module ApiClient {
  import opened Common

  /** `RETRY_CONFIG`. */
  const MAX_RETRIES: nat := 3
  const RETRY_DELAY_MS: nat := 1000

  /** The server's error body: `detail` and `message`, absent unless present. */
  datatype ErrorBody = ErrorBody(detail: Option<string>, message: Option<string>)

  /** A failed request: its error code, the response if there was one, and the error's message. */
  datatype HttpError = HttpError(code: string, status: Option<int>, body: Option<ErrorBody>, message: string)

  /** `retryCondition`: a network error, or a response with status 500 or above. */
  predicate RetryCondition(e: HttpError)
  {
    e.code == "NETWORK_ERROR" || (e.status.Some? && e.status.value >= 500)
  }

  function Pow2(k: nat): (p: nat)
    ensures p >= 1
  {
    if k == 0 then 1 else 2 * Pow2(k - 1)
  }

  /** The wait before the k-th retry: 1000 ms doubled for each earlier retry. */
  function BackoffDelay(k: nat): (ms: nat)
    requires k >= 1
    ensures ms >= RETRY_DELAY_MS
    ensures k >= 2 ==> ms == 2 * BackoffDelay(k - 1)
  {
    RETRY_DELAY_MS * Pow2(k - 1)
  }

  /** What the response-error interceptor does with a failure. */
  datatype Route = RefreshToken | Backoff | GiveUp

  /**
   * A 401 on a request not yet refreshed goes to the token refresh, before
   * anything else; otherwise a retryable error on a request retried fewer
   * than three times is retried; anything else is rejected.
   */
  function RouteOf(e: HttpError, retried: bool, retryCount: nat): (r: Route)
    ensures r == RefreshToken <==> e.status == Some(401) && !retried
    ensures r == Backoff <==> !(e.status == Some(401) && !retried) && RetryCondition(e) && retryCount < MAX_RETRIES
  {
    if e.status == Some(401) && !retried then RefreshToken
    else if RetryCondition(e) && retryCount < MAX_RETRIES then Backoff
    else GiveUp
  }

  /** The waits of the retries a request gets when every attempt fails with the same error. */
  function Delays(e: HttpError, retried: bool, retryCount: nat): seq<nat>
    decreases MAX_RETRIES - retryCount
  {
    if RouteOf(e, retried, retryCount) == Backoff then
      [BackoffDelay(retryCount + 1)] + Delays(e, retried, retryCount + 1)
    else []
  }

  /** No request is retried more than three times. */
  lemma {:induction false} AtMostThreeRetries(e: HttpError, retried: bool, retryCount: nat)
    ensures Delays(e, retried, retryCount) == [] || retryCount + |Delays(e, retried, retryCount)| <= MAX_RETRIES
    decreases MAX_RETRIES - retryCount
  {
    if RouteOf(e, retried, retryCount) == Backoff {
      AtMostThreeRetries(e, retried, retryCount + 1);
    }
  }

  /**
   * A request that keeps failing with a retryable error, other than a first
   * 401, is retried after 1, 2 and 4 seconds and then rejected; any other
   * error is never retried.
   */
  lemma RetrySchedule(e: HttpError, retried: bool)
    ensures RetryCondition(e) && !(e.status == Some(401) && !retried) ==> Delays(e, retried, 0) == [1000, 2000, 4000]
    ensures !RetryCondition(e) ==> Delays(e, retried, 0) == []
  {
    if RetryCondition(e) && !(e.status == Some(401) && !retried) {
      assert Delays(e, retried, 3) == [];
      assert Delays(e, retried, 2) == [4000];
      assert Delays(e, retried, 1) == [2000, 4000];
    }
  }

  /** A 401 goes to the token refresh even when it is also a network error. */
  lemma UnauthorizedFirst(e: HttpError, retryCount: nat)
    requires e.status == Some(401)
    ensures RouteOf(e, false, retryCount) == RefreshToken
    ensures RouteOf(e, true, retryCount) != RefreshToken
  {
  }

  /** The answer to `POST /auth/refresh/`: new tokens, or a failure. */
  datatype RefreshResult = Refreshed(access: string, refresh: Option<string>) | RefreshFailed

  /** What becomes of a failed request: sent again (after a wait, or with a new token) or rejected. */
  datatype Outcome = ResendAfter(delayMs: nat) | ResendWithToken(token: string) | Reject

  /** A request's config: its Authorization header and the per-request `_retry` and `_retryCount` flags. */
  class RequestConfig {
    var authorization: Option<string>
    var retried: bool
    var retryCount: nat

    constructor ()
      ensures authorization == None && !retried && retryCount == 0
    {
      authorization := None;
      retried := false;
      retryCount := 0;
    }
  }

  /** Whether a stored value is set and non-empty (JavaScript truthiness of a string). */
  predicate Present(v: Option<string>)
  {
    v.Some? && v.value != ""
  }

  class Client {
    /** `activeRequests`. */
    var activeRequests: int
    /** The subscribed listeners, by handle. */
    var listeners: set<nat>
    /** Every notification sent: who received it and whether loading. */
    var notifications: seq<(set<nat>, bool)>
    /** `localStorage`'s access and refresh tokens. */
    var accessToken: Option<string>
    var refreshToken: Option<string>
    /** `api.defaults.headers.common['Authorization']`. */
    var defaultAuthorization: Option<string>
    /** `window.location.pathname`. */
    var pathname: string

    /** The request counter is never negative. */
    predicate Valid()
      reads this
    {
      activeRequests >= 0
    }

    /** `isLoading`. */
    function IsLoading(): (b: bool)
      reads this
      requires Valid()
      ensures b <==> activeRequests != 0
    {
      activeRequests > 0
    }

    constructor (storedAccess: Option<string>, storedRefresh: Option<string>, path: string)
      ensures Valid() && activeRequests == 0 && listeners == {} && notifications == []
      ensures accessToken == storedAccess && refreshToken == storedRefresh
      ensures defaultAuthorization == None && pathname == path
    {
      activeRequests := 0;
      listeners := {};
      notifications := [];
      accessToken := storedAccess;
      refreshToken := storedRefresh;
      defaultAuthorization := None;
      pathname := path;
    }

    /** `addRequestListener`: subscribes `id`; the returned unsubscribe is `RemoveListener`. */
    method AddListener(id: nat)
      modifies this
      ensures listeners == old(listeners) + {id}
      ensures activeRequests == old(activeRequests) && notifications == old(notifications)
      ensures accessToken == old(accessToken) && refreshToken == old(refreshToken)
      ensures defaultAuthorization == old(defaultAuthorization) && pathname == old(pathname)
    {
      listeners := listeners + {id};
    }

    method RemoveListener(id: nat)
      modifies this
      ensures listeners == old(listeners) - {id}
      ensures activeRequests == old(activeRequests) && notifications == old(notifications)
      ensures accessToken == old(accessToken) && refreshToken == old(refreshToken)
      ensures defaultAuthorization == old(defaultAuthorization) && pathname == old(pathname)
    {
      listeners := listeners - {id};
    }

    /** `notifyListeners`: every current listener receives the value. */
    method Notify(isLoading: bool)
      modifies this
      ensures notifications == old(notifications) + [(listeners, isLoading)]
      ensures activeRequests == old(activeRequests) && listeners == old(listeners)
      ensures accessToken == old(accessToken) && refreshToken == old(refreshToken)
      ensures defaultAuthorization == old(defaultAuthorization) && pathname == old(pathname)
    {
      notifications := notifications + [(listeners, isLoading)];
    }

    /**
     * The request interceptor: the stored access token, if any, becomes the
     * request's bearer header; the counter goes up, and listeners hear
     * `true` exactly when it goes from 0 to 1.
     */
    method OnRequest(config: RequestConfig)
      requires Valid()
      modifies this, config
      ensures Valid() && activeRequests == old(activeRequests) + 1
      ensures notifications == old(notifications) + (if old(activeRequests) == 0 then [(listeners, true)] else [])
      ensures config.authorization ==
        (if Present(accessToken) then Some("Bearer " + accessToken.value) else old(config.authorization))
      ensures config.retried == old(config.retried) && config.retryCount == old(config.retryCount)
      ensures listeners == old(listeners) && accessToken == old(accessToken) && refreshToken == old(refreshToken)
      ensures defaultAuthorization == old(defaultAuthorization) && pathname == old(pathname)
    {
      var token := accessToken;
      if token.Some? && token.value != "" {
        config.authorization := Some("Bearer " + token.value);
      }
      activeRequests := activeRequests + 1;
      if activeRequests == 1 {
        Notify(true);
      }
    }

    /**
     * The end of a request, as every completion path does it: the counter
     * goes down but never below 0, and listeners hear `false` whenever it
     * is then 0.
     */
    method Complete()
      modifies this
      ensures Valid() && activeRequests == if old(activeRequests) - 1 > 0 then old(activeRequests) - 1 else 0
      ensures notifications == old(notifications) + (if activeRequests == 0 then [(listeners, false)] else [])
      ensures listeners == old(listeners) && accessToken == old(accessToken) && refreshToken == old(refreshToken)
      ensures defaultAuthorization == old(defaultAuthorization) && pathname == old(pathname)
    {
      activeRequests := if activeRequests - 1 > 0 then activeRequests - 1 else 0;
      if activeRequests == 0 {
        Notify(false);
      }
    }

    /** The request interceptor's error handler and the response interceptor's success handler. */
    method OnRequestError()
      modifies this
      ensures Valid() && activeRequests == if old(activeRequests) - 1 > 0 then old(activeRequests) - 1 else 0
      ensures notifications == old(notifications) + (if activeRequests == 0 then [(listeners, false)] else [])
      ensures listeners == old(listeners) && accessToken == old(accessToken) && refreshToken == old(refreshToken)
      ensures defaultAuthorization == old(defaultAuthorization) && pathname == old(pathname)
    {
      Complete();
    }

    method OnResponse()
      modifies this
      ensures Valid() && activeRequests == if old(activeRequests) - 1 > 0 then old(activeRequests) - 1 else 0
      ensures notifications == old(notifications) + (if activeRequests == 0 then [(listeners, false)] else [])
      ensures listeners == old(listeners) && accessToken == old(accessToken) && refreshToken == old(refreshToken)
      ensures defaultAuthorization == old(defaultAuthorization) && pathname == old(pathname)
    {
      Complete();
    }

    /**
     * `setAuthToken`: a non-empty token becomes the default header and the
     * stored access token; an empty one removes the header and both tokens.
     */
    method SetAuthToken(token: string)
      modifies this
      ensures token != "" ==> defaultAuthorization == Some("Bearer " + token) && accessToken == Some(token) &&
                              refreshToken == old(refreshToken)
      ensures token == "" ==> defaultAuthorization == None && accessToken == None && refreshToken == None
      ensures activeRequests == old(activeRequests) && listeners == old(listeners)
      ensures notifications == old(notifications) && pathname == old(pathname)
    {
      if token != "" {
        defaultAuthorization := Some("Bearer " + token);
        accessToken := Some(token);
      } else {
        defaultAuthorization := None;
        accessToken := None;
        refreshToken := None;
      }
    }

    /** The failed refresh: both tokens and the default header go, and the page moves to the login page. */
    method ClearAuth()
      modifies this
      ensures accessToken == None && refreshToken == None && defaultAuthorization == None
      ensures pathname == "/login"
      ensures activeRequests == old(activeRequests) && listeners == old(listeners) && notifications == old(notifications)
    {
      accessToken := None;
      refreshToken := None;
      defaultAuthorization := None;
      if pathname != "/login" {
        pathname := "/login";
      }
    }

    /**
     * The response interceptor's error handler. After the request is
     * counted out, a first 401 marks the request and tries one refresh with
     * the stored refresh token: on success the new tokens are stored and the
     * request is sent again with the new access token; without a refresh
     * token or when the refresh fails, all auth data is cleared and the
     * request rejected. Otherwise a retryable error is retried with
     * exponential backoff, counting the retries on the request, and any
     * other error is rejected.
     */
    method OnResponseError(config: RequestConfig, e: HttpError, refresh: RefreshResult) returns (outcome: Outcome)
      modifies this, config
      ensures Valid() && activeRequests == if old(activeRequests) - 1 > 0 then old(activeRequests) - 1 else 0
      ensures listeners == old(listeners)
      ensures notifications == old(notifications) + (if activeRequests == 0 then [(listeners, false)] else [])
      ensures old(config.retryCount) <= MAX_RETRIES ==> config.retryCount <= MAX_RETRIES
      ensures RouteOf(e, old(config.retried), old(config.retryCount)) == RefreshToken ==>
        config.retried && config.retryCount == old(config.retryCount) &&
        if Present(old(refreshToken)) && refresh.Refreshed? then
          outcome == ResendWithToken(refresh.access) && config.authorization == Some("Bearer " + refresh.access) &&
          defaultAuthorization == (if refresh.access != "" then Some("Bearer " + refresh.access) else None) &&
          accessToken == (if refresh.access != "" then Some(refresh.access) else None) &&
          refreshToken == (if Present(refresh.refresh) then refresh.refresh
                           else if refresh.access != "" then old(refreshToken) else None) &&
          pathname == old(pathname)
        else
          outcome == Reject && accessToken == None && refreshToken == None && defaultAuthorization == None &&
          pathname == "/login"
      ensures RouteOf(e, old(config.retried), old(config.retryCount)) == Backoff ==>
        config.retryCount == old(config.retryCount) + 1 && outcome == ResendAfter(BackoffDelay(config.retryCount)) &&
        config.retried == old(config.retried) && accessToken == old(accessToken) && refreshToken == old(refreshToken) &&
        defaultAuthorization == old(defaultAuthorization) && pathname == old(pathname)
      ensures RouteOf(e, old(config.retried), old(config.retryCount)) == GiveUp ==>
        outcome == Reject && config.retried == old(config.retried) && config.retryCount == old(config.retryCount) &&
        accessToken == old(accessToken) && refreshToken == old(refreshToken) &&
        defaultAuthorization == old(defaultAuthorization) && pathname == old(pathname)
    {
      Complete();
      var route := RouteOf(e, config.retried, config.retryCount);
      if route == RefreshToken {
        config.retried := true;
        if refreshToken.Some? && refreshToken.value != "" && refresh.Refreshed? {
          SetAuthToken(refresh.access);
          if refresh.refresh.Some? && refresh.refresh.value != "" {
            refreshToken := refresh.refresh;
          }
          config.authorization := Some("Bearer " + refresh.access);
          outcome := ResendWithToken(refresh.access);
        } else {
          ClearAuth();
          outcome := Reject;
        }
      } else if route == Backoff {
        config.retryCount := config.retryCount + 1;
        outcome := ResendAfter(BackoffDelay(config.retryCount));
      } else {
        outcome := Reject;
      }
    }
  }

  /** The error `handleApiCall` throws: its message, the response's status and body, and the error. */
  datatype ProcessedError = ProcessedError(message: string, status: Option<int>, data: Option<ErrorBody>, original: HttpError)

  /**
   * The message: the body's `detail`, else its `message`, else the error's
   * own message, else the caller's default, each taken only when non-empty.
   */
  function ErrorMessage(e: HttpError, fallback: string): (m: string)
    ensures e.body.Some? && Present(e.body.value.detail) ==> m == e.body.value.detail.value
    ensures !(e.body.Some? && Present(e.body.value.detail)) && e.body.Some? && Present(e.body.value.message) ==>
      m == e.body.value.message.value
    ensures !(e.body.Some? && (Present(e.body.value.detail) || Present(e.body.value.message))) && e.message != "" ==>
      m == e.message
    ensures fallback != "" ==> m != ""
  {
    if e.body.Some? && Present(e.body.value.detail) then e.body.value.detail.value
    else if e.body.Some? && Present(e.body.value.message) then e.body.value.message.value
    else if e.message != "" then e.message
    else fallback
  }

  /** `handleApiCall`'s catch: the processed error keeps the status, the body and the error. */
  function ProcessError(e: HttpError, fallback: string): (p: ProcessedError)
    ensures p.message == ErrorMessage(e, fallback) && p.status == e.status && p.data == e.body && p.original == e
  {
    ProcessedError(ErrorMessage(e, fallback), e.status, e.body, e)
  }

  /**
   * The stores' error text: `error.response?.data?.detail || error.message
   * || fallback`. The error `handleApiCall` throws carries no `response`,
   * so the detail path is never taken.
   */
  function StoreErrorText(e: ProcessedError, fallback: string): (t: string)
    ensures e.message != "" ==> t == e.message
    ensures e.message == "" ==> t == fallback
  {
    if e.message != "" then e.message else fallback
  }

  /** With no detail, message or error text, the caller's default is the message. */
  lemma DefaultMessageLast(e: HttpError, fallback: string)
    requires e.message == "" && (e.body.None? || (!Present(e.body.value.detail) && !Present(e.body.value.message)))
    ensures ProcessError(e, fallback).message == fallback
  {
  }
}
