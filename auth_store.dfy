/**
 * The frontend's authentication store: login with a lockout after five
 * consecutive failures that lifts 15 minutes after the last attempt,
 * registration, logout, the profile merge and the token expiry check. The
 * clock is a parameter (`now`, in milliseconds), and each API call's answer
 * is a parameter of the action that makes it.
 */
module AuthStore {
  import opened Common
  import A = ApiClient

  /** The lock lasts 15 minutes after the last attempt. */
  const LOCK_MS: int := 15 * 60 * 1000
  /** The number of consecutive failures that locks the account. */
  const MAX_ATTEMPTS: int := 5

  /** A user record: fields by name. */
  type User = map<string, Val>

  /** The store's state. */
  datatype AuthState = AuthState(
    user: Option<User>,
    token: Option<string>,
    isAuthenticated: bool,
    isLoading: bool,
    error: Option<string>,
    lastLoginTime: Option<int>,
    loginAttempts: int,
    isLocked: bool)

  /** `initialState`. */
  const INITIAL := AuthState(None, None, false, false, None, None, 0, false)

  /** The login API's answer: the tokens and user fields, or the error `handleApiCall` threw. */
  datatype LoginResponse = LoginOk(access: string, user: User) | LoginError(error: A.ProcessedError)

  /** What `login` gives its caller: the response, the lock error, or the API error rethrown. */
  datatype LoginOutcome = LoggedIn(access: string) | LockedOut(remainingMinutes: int) | LoginFailed(error: A.ProcessedError)

  /** The time since the last attempt; a missing time counts as 0 (`Date.now() - null`). */
  function Elapsed(s: AuthState, now: int): int
  {
    now - (if s.lastLoginTime.Some? then s.lastLoginTime.value else 0)
  }

  /** The account is locked and the lock has not expired. */
  predicate LockActive(s: AuthState, now: int)
  {
    s.isLocked && Elapsed(s, now) < LOCK_MS
  }

  /** `Math.ceil((lockTime - timeSinceLastAttempt) / 60000)`, for a lock that has not expired. */
  function RemainingMinutes(elapsed: int): (m: int)
    requires elapsed < LOCK_MS
    ensures m >= 1
    ensures (m - 1) * 60000 < LOCK_MS - elapsed <= m * 60000
  {
    (LOCK_MS - elapsed + 59999) / 60000
  }

  /** The text a failed login records is the API client's message with 'Login failed' as its default. */
  lemma LoginErrorIsApiMessage(e: A.HttpError)
    ensures A.StoreErrorText(A.ProcessError(e, "Login failed"), "Login failed") == A.ErrorMessage(e, "Login failed")
  {
  }

  /** `{username, ...response.user}`: the response's fields win over the username. */
  function LoggedInUser(username: string, fields: User): (u: User)
    ensures "username" in u
    ensures forall k :: k in fields ==> k in u && u[k] == fields[k]
    ensures "username" !in fields ==> u["username"] == VStr(username)
    ensures u.Keys == fields.Keys + {"username"}
  {
    map["username" := VStr(username)] + fields
  }

  /**
   * The state after `login` and what it gives the caller. An active lock
   * rejects at once, before the API is called. An expired one is lifted,
   * resetting the count. A success authenticates and clears the failures.
   * A failure counts one more attempt than the count read on entry (before
   * any lift) and locks at five.
   */
  function LoginStep(s: AuthState, username: string, now: int, resp: LoginResponse): (AuthState, LoginOutcome)
  {
    if LockActive(s, now) then (s, LockedOut(RemainingMinutes(Elapsed(s, now))))
    else
      var lifted := if s.isLocked then s.(isLocked := false, loginAttempts := 0) else s;
      match resp
      case LoginOk(access, fields) =>
        (lifted.(isAuthenticated := true, token := Some(access), isLoading := false,
                 user := Some(LoggedInUser(username, fields)), error := None, lastLoginTime := Some(now),
                 loginAttempts := 0, isLocked := false),
         LoggedIn(access))
      case LoginError(e) =>
        var attempts := s.loginAttempts + 1;
        (lifted.(isLoading := false, error := Some(A.StoreErrorText(e, "Login failed")), loginAttempts := attempts,
                 isLocked := attempts >= MAX_ATTEMPTS, lastLoginTime := Some(now)),
         LoginFailed(e))
  }

  /** While the lock is active the state does not change and the API's answer plays no part. */
  lemma LockedRejectsWithoutCall(s: AuthState, username: string, now: int, r1: LoginResponse, r2: LoginResponse)
    requires LockActive(s, now)
    ensures LoginStep(s, username, now, r1).0 == s
    ensures LoginStep(s, username, now, r1) == LoginStep(s, username, now, r2)
    ensures LoginStep(s, username, now, r1).1.LockedOut? && LoginStep(s, username, now, r1).1.remainingMinutes >= 1
  {
  }

  /** A failed login records the error and counts one attempt more; the fifth consecutive one locks. */
  lemma FailureCounts(s: AuthState, username: string, now: int, e: A.ProcessedError)
    requires !LockActive(s, now)
    ensures var t := LoginStep(s, username, now, LoginError(e)).0;
      t.loginAttempts == s.loginAttempts + 1 && t.error == Some(A.StoreErrorText(e, "Login failed")) &&
      t.lastLoginTime == Some(now) && !t.isLoading && (t.isLocked <==> s.loginAttempts + 1 >= MAX_ATTEMPTS)
  {
  }

  /** A successful login authenticates with the new token and clears the failures and the lock. */
  lemma SuccessResets(s: AuthState, username: string, now: int, access: string, fields: User)
    requires !LockActive(s, now)
    ensures var t := LoginStep(s, username, now, LoginOk(access, fields)).0;
      t.isAuthenticated && t.token == Some(access) && t.loginAttempts == 0 && !t.isLocked && t.error == None &&
      t.user == Some(LoggedInUser(username, fields))
  {
  }

  /**
   * After the lock expires, the next failure locks again at once: it adds
   * one to the count read on entry, which the lift did not reset.
   */
  lemma RelockAfterExpiry(s: AuthState, username: string, now: int, e: A.ProcessedError)
    requires s.isLocked && s.loginAttempts >= MAX_ATTEMPTS - 1 && !LockActive(s, now)
    ensures LoginStep(s, username, now, LoginError(e)).0.isLocked
    ensures LoginStep(s, username, now, LoginError(e)).0.loginAttempts == s.loginAttempts + 1
  {
  }

  /** The state after `n` failed logins at the same time, starting from `s`. */
  function Failures(s: AuthState, now: int, e: A.ProcessedError, n: nat): AuthState
  {
    if n == 0 then s else LoginStep(Failures(s, now, e, n - 1), "", now, LoginError(e)).0
  }

  /** From the initial state, failures 1 to 4 count up unlocked and the fifth locks. */
  lemma {:induction false} FifthFailureLocks(now: int, e: A.ProcessedError, n: nat)
    requires 1 <= n <= MAX_ATTEMPTS
    ensures Failures(INITIAL, now, e, n).loginAttempts == n
    ensures Failures(INITIAL, now, e, n).isLocked <==> n == MAX_ATTEMPTS
  {
    if n > 1 {
      FifthFailureLocks(now, e, n - 1);
    }
  }

  /** `{...state.user, ...userData}`: the given fields replace, the others stay; no user counts as none. */
  function MergeUser(user: Option<User>, data: User): (u: User)
    ensures u.Keys == data.Keys + (if user.Some? then user.value.Keys else {})
    ensures forall k :: k in data ==> u[k] == data[k]
    ensures user.Some? ==> forall k :: k in user.value && k !in data ==> u[k] == user.value[k]
  {
    (if user.Some? then user.value else map[]) + data
  }

  /** What decoding the token's payload gives: nothing usable, or the payload with or without `exp`. */
  datatype Payload = Unparseable | Parsed(exp: Option<real>)

  /**
   * `isTokenExpired`: expired with no token or a payload that does not
   * parse; otherwise iff `exp` is before now, in seconds. A payload without
   * `exp` compares `undefined < now`, which is false.
   */
  function TokenExpired(token: Option<string>, payload: Payload, now: int): (b: bool)
    ensures token.None? || token.value == "" ==> b
    ensures token.Some? && token.value != "" && payload.Unparseable? ==> b
    ensures token.Some? && token.value != "" && payload.Parsed? ==>
      (b <==> payload.exp.Some? && payload.exp.value * 1000.0 < now as real)
  {
    if token.None? || token.value == "" then true
    else if payload.Unparseable? then true
    else payload.exp.Some? && payload.exp.value < now as real / 1000.0
  }

  /** The registration API's answer. */
  datatype RegisterResponse = RegisterOk | RegisterError(error: A.ProcessedError)

  /** The refresh API's answer: a new access token, or a failure (also when no refresh token is stored). */
  datatype RefreshAnswer = NewAccess(access: string) | RefreshError

  class Store {
    var user: Option<User>
    var token: Option<string>
    var isAuthenticated: bool
    var isLoading: bool
    var error: Option<string>
    var lastLoginTime: Option<int>
    var loginAttempts: int
    var isLocked: bool

    function State(): AuthState
      reads this
    {
      AuthState(user, token, isAuthenticated, isLoading, error, lastLoginTime, loginAttempts, isLocked)
    }

    constructor ()
      ensures State() == INITIAL
    {
      user, token, isAuthenticated, isLoading := None, None, false, false;
      error, lastLoginTime, loginAttempts, isLocked := None, None, 0, false;
    }

    /** `set({...initialState})`. */
    method Reset()
      modifies this
      ensures State() == INITIAL
    {
      user, token, isAuthenticated, isLoading := None, None, false, false;
      error, lastLoginTime, loginAttempts, isLocked := None, None, 0, false;
    }

    /** `login`: the store moves as `LoginStep` says. */
    method Login(username: string, now: int, resp: LoginResponse) returns (outcome: LoginOutcome)
      modifies this
      ensures (State(), outcome) == LoginStep(old(State()), username, now, resp)
    {
      var state := State();
      if isLocked {
        var elapsed := now - (if lastLoginTime.Some? then lastLoginTime.value else 0);
        if elapsed < LOCK_MS {
          outcome := LockedOut((LOCK_MS - elapsed + 59999) / 60000);
          return;
        } else {
          isLocked, loginAttempts := false, 0;
        }
      }
      isLoading, error := true, None;
      match resp {
        case LoginOk(access, fields) =>
          isAuthenticated, token, isLoading := true, Some(access), false;
          user, error, lastLoginTime := Some(LoggedInUser(username, fields)), None, Some(now);
          loginAttempts, isLocked := 0, false;
          outcome := LoggedIn(access);
        case LoginError(e) =>
          var newAttempts := state.loginAttempts + 1;
          var shouldLock := newAttempts >= MAX_ATTEMPTS;
          isLoading, error := false, Some(A.StoreErrorText(e, "Login failed"));
          loginAttempts, isLocked, lastLoginTime := newAttempts, shouldLock, Some(now);
          outcome := LoginFailed(e);
      }
    }

    /** `register`: only the loading flag and the error change. */
    method Register(resp: RegisterResponse)
      modifies this
      ensures State() == old(State()).(isLoading := false,
                                       error := if resp.RegisterOk? then None
                                                else Some(A.StoreErrorText(resp.error, "Registration failed")))
    {
      isLoading, error := true, None;
      match resp {
        case RegisterOk =>
          isLoading, error := false, None;
        case RegisterError(e) =>
          isLoading, error := false, Some(A.StoreErrorText(e, "Registration failed"));
      }
    }

    /** `logout`: whatever the API answers, the store returns to its initial state. */
    method Logout()
      modifies this
      ensures State() == INITIAL
    {
      Reset();
    }

    /** `clearError`. */
    method ClearError()
      modifies this
      ensures State() == old(State()).(error := None)
    {
      error := None;
    }

    /** `updateUser`: the fields given are merged into the user. */
    method UpdateUser(data: User)
      modifies this
      ensures State() == old(State()).(user := Some(MergeUser(old(user), data)))
    {
      user := Some(MergeUser(user, data));
    }

    /** `isTokenExpired`, given what decoding the stored token gives. */
    function IsTokenExpired(payload: Payload, now: int): (b: bool)
      reads this
      ensures b == TokenExpired(token, payload, now)
    {
      TokenExpired(token, payload, now)
    }

    /** `initializeAuth`: a live token authenticates; anything else resets the store. */
    method InitializeAuth(payload: Payload, now: int)
      modifies this
      ensures !TokenExpired(old(token), payload, now) ==> State() == old(State()).(isAuthenticated := true)
      ensures TokenExpired(old(token), payload, now) ==> State() == INITIAL
    {
      if token.Some? && token.value != "" && !IsTokenExpired(payload, now) {
        isAuthenticated := true;
      } else {
        Reset();
      }
    }

    /**
     * `refreshAuth`: with no live token the refresh API is asked, and its
     * new token authenticates while a failure resets the store; a live
     * token is kept as it is.
     */
    method RefreshAuth(payload: Payload, now: int, answer: RefreshAnswer) returns (ok: bool)
      modifies this
      ensures !TokenExpired(old(token), payload, now) ==> ok && State() == old(State())
      ensures TokenExpired(old(token), payload, now) && answer.NewAccess? ==>
        ok && State() == old(State()).(token := Some(answer.access), isAuthenticated := true, error := None)
      ensures TokenExpired(old(token), payload, now) && answer.RefreshError? ==> !ok && State() == INITIAL
    {
      if token.None? || token.value == "" || IsTokenExpired(payload, now) {
        match answer {
          case NewAccess(access) =>
            token, isAuthenticated, error := Some(access), true, None;
            ok := true;
          case RefreshError =>
            Reset();
            ok := false;
        }
        return;
      }
      ok := true;
    }
  }

  /** The fields `partialize` persists: everything but the loading flag and the error. */
  datatype Persisted = Persisted(user: Option<User>, token: Option<string>, isAuthenticated: bool,
                                 lastLoginTime: Option<int>, loginAttempts: int, isLocked: bool)

  function Persist(s: AuthState): (p: Persisted)
    ensures p.user == s.user && p.token == s.token && p.isAuthenticated == s.isAuthenticated
    ensures p.lastLoginTime == s.lastLoginTime && p.loginAttempts == s.loginAttempts && p.isLocked == s.isLocked
  {
    Persisted(s.user, s.token, s.isAuthenticated, s.lastLoginTime, s.loginAttempts, s.isLocked)
  }

  /** The loading flag and the error are not persisted. */
  lemma PersistIgnoresTransient(s: AuthState, loading: bool, err: Option<string>)
    ensures Persist(s.(isLoading := loading, error := err)) == Persist(s)
  {
  }
}
