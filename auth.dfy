/** The login endpoints of src/Controller/AuthController.php, reduced to
    their decisions: the JSON login `apiLogin`, the POST branch of the form
    login `login`, and `lockoutInfo`. The lockout is checked before the
    password, and the password verifier is consulted only for a known
    user who is not locked. The verifier's verdict is a parameter; the
    user lookup's result is a parameter; the token and session handling
    are not modelled. */
module Auth {
  import opened Common
  import opened LoginAttempts
  import opened BruteForce

  /** What a login attempt comes to. */
  datatype Decision =
    | AlreadyLocked(remaining: int)  // locked before the attempt
    | UnknownUser                    // no user with that email
    | LockedNow(lockSeconds: int)    // this failure locked the account
    | WrongPassword(attemptsLeft: int)
    | Authenticated

  /** The decision, the user's lockout record afterwards, and whether the
      password verifier was consulted. */
  datatype LoginResult = LoginResult(decision: Decision, record: Option<Record>, passwordChecked: bool)

  /** The decision both login endpoints make for the user found under the
      email (`user`), whose lockout record is `rec`. */
  function Login(user: Option<UserId>, rec: Option<Record>, passwordValid: bool, now: int): (l: LoginResult)
    ensures l.passwordChecked <==> user.Some? && !AccountLocked(rec, now)
    ensures !l.passwordChecked ==> l.record == rec
    ensures user.Some? && AccountLocked(rec, now)
            ==> l.decision == AlreadyLocked(RemainingLockoutTime(rec, now).value) && l.decision.remaining > 0
    ensures user.None? ==> l.decision == UnknownUser
    ensures user.Some? && !AccountLocked(rec, now) && !passwordValid ==>
              && l.record == Some(AfterFailure(rec, now).0)
              && FailuresOf(l.record) == FailuresOf(rec) + 1
              && (l.decision.LockedNow? <==> AfterFailure(rec, now).1.None?)
              && (l.decision.LockedNow? ==> RemainingLockoutTime(l.record, now) == Some(l.decision.lockSeconds))
              && (l.decision.WrongPassword? ==> AfterFailure(rec, now).1 == Some(l.decision.attemptsLeft))
    ensures l.decision == Authenticated <==> user.Some? && !AccountLocked(rec, now) && passwordValid
    ensures l.decision == Authenticated ==> l.record == AfterSuccess(rec) && FailuresOf(l.record) == 0
  {
    if user.Some? && AccountLocked(rec, now) then
      LoginResult(AlreadyLocked(RemainingLockoutTime(rec, now).value), rec, false)
    else if user.None? then LoginResult(UnknownUser, rec, false)
    else if !passwordValid then
      var (after, left) := AfterFailure(rec, now);
      if left.None? then
        LoginResult(LockedNow(after.lockedUntil.value - now), Some(after), true)
      else LoginResult(WrongPassword(left.value), Some(after), true)
    else LoginResult(Authenticated, AfterSuccess(rec), true)
  }

  /** A locked account answers the same whatever password is sent: the
      verifier's verdict cannot leak through the response. */
  lemma LockedIgnoresPassword(user: UserId, rec: Option<Record>, now: int)
    requires AccountLocked(rec, now)
    ensures Login(Some(user), rec, true, now) == Login(Some(user), rec, false, now)
  {
  }

  // ---------------------------------------------------------------------
  // apiLogin

  /** The JSON response, by HTTP status. */
  datatype ApiResponse =
    | TooManyRequests(retryAfter: int)              // 429
    | Unauthorized(attemptsRemaining: Option<int>)  // 401 "Invalid credentials"
    | TokenIssued                                   // 200

  /** `apiLogin` as written: the failure that locks the account answers
      `retry_after` 60, whatever the lock's length. */
  function ApiResponseAsWritten(l: LoginResult): ApiResponse
  {
    match l.decision
    case AlreadyLocked(remaining) => TooManyRequests(remaining)
    case LockedNow(_) => TooManyRequests(60)
    case WrongPassword(left) => Unauthorized(Some(left))
    case UnknownUser => Unauthorized(None)
    case Authenticated => TokenIssued
  }

  /** The evidently intended response: `retry_after` is the time the lock
      just set has left, as it is for an account already locked. */
  function ApiResponseOf(l: LoginResult): ApiResponse
  {
    match l.decision
    case AlreadyLocked(remaining) => TooManyRequests(remaining)
    case LockedNow(seconds) => TooManyRequests(seconds)
    case WrongPassword(left) => Unauthorized(Some(left))
    case UnknownUser => Unauthorized(None)
    case Authenticated => TokenIssued
  }

  /** A client that waits `retry_after` seconds, and not one second less,
      finds the account unlocked. */
  lemma RetryAfterIsExact(user: Option<UserId>, rec: Option<Record>, passwordValid: bool, now: int)
    requires rec.Some? ==> Consistent(rec.value)
    ensures var l := Login(user, rec, passwordValid, now);
            ApiResponseOf(l).TooManyRequests? ==>
              var wait := ApiResponseOf(l).retryAfter;
              wait > 0 && AccountLocked(l.record, now + wait - 1) && !AccountLocked(l.record, now + wait)
  {
    if user.Some? && !AccountLocked(rec, now) && !passwordValid {
      FailureOutcome(rec, now);
    }
  }

  /** The lock that the tenth and every later failure sets lasts at least
      300 seconds, so a client that obeys the `retry_after` of 60 the
      source sends is still locked out when it comes back. */
  lemma AsWrittenRetryTooEarly(user: Option<UserId>, rec: Option<Record>, now: int)
    requires rec.Some? ==> Consistent(rec.value)
    ensures var l := Login(user, rec, false, now);
            l.decision.LockedNow? ==>
              && ApiResponseAsWritten(l) == TooManyRequests(60)
              && ApiResponseOf(l).retryAfter >= 300
              && AccountLocked(l.record, now + 60)
  {
    if user.Some? && !AccountLocked(rec, now) {
      FailureOutcome(rec, now);
      var n := FailuresOf(rec) + 1;
      if n >= FailedAttemptsThreshold {
        LockoutMonotone(n, n);
      }
    }
  }

  /** The record the service holds for the user found, if any. */
  function UserRecord(bf: BruteForceProtection, user: Option<UserId>): Option<Record>
    reads bf, bf.records.Values
  {
    if user.Some? then bf.RecordOf(user.value) else None
  }

  /** `apiLogin`: the lock check, then the password check and the failure
      count, then the reset on success. */
  method ApiLogin(bf: BruteForceProtection, user: Option<UserId>, passwordValid: bool, now: int)
    returns (response: ApiResponse, passwordChecked: bool)
    requires bf.Valid()
    modifies bf`records, bf.records.Values
    ensures bf.Valid()
    ensures var l := Login(user, old(UserRecord(bf, user)), passwordValid, now);
            && response == ApiResponseOf(l) && passwordChecked == l.passwordChecked
            && UserRecord(bf, user) == l.record
    ensures forall v: UserId :: Some(v) != user ==> bf.RecordOf(v) == old(bf.RecordOf(v))
  {
    if user.Some? && bf.IsAccountLocked(user.value, now) {
      var info := bf.GetLockoutInfo(user.value, now);
      return TooManyRequests(info.remainingTime.value), false;
    }
    if user.None? {
      return Unauthorized(None), false;
    }
    var u := user.value;
    FailureOutcome(bf.RecordOf(u), now);
    if !passwordValid {
      var remaining := bf.RecordFailedAttempt(u, now);
      if remaining.None? {
        var seconds := bf.GetRemainingLockoutTime(u, now);
        return TooManyRequests(seconds.value), true;
      }
      return Unauthorized(remaining), true;
    }
    bf.RecordSuccessfulLogin(u, now);
    return TokenIssued, true;
  }

  // ---------------------------------------------------------------------
  // login (POST)

  /** The flash message the form login shows after redirecting. */
  datatype Flash =
    | LockedFor(seconds: int)           // "Try again in %d seconds."
    | TooManyFailures                   // "Account locked for 1 minute."
    | AttemptsRemaining(n: int)         // "%d attempts remaining before lockout."
    | InvalidCredentials

  /** Where the form login redirects: back to the form, with a message
      and possibly the email as `username`, or on to the dashboard. */
  datatype FormResponse = BackToLogin(flash: Flash, username: Option<string>) | ToDashboard

  function FormResponseOf(l: LoginResult, email: Option<string>): (r: FormResponse)
    ensures r.BackToLogin? && !l.decision.AlreadyLocked? ==> r.username == email
  {
    match l.decision
    case AlreadyLocked(remaining) => BackToLogin(LockedFor(remaining), None)
    case LockedNow(_) => BackToLogin(TooManyFailures, email)
    case WrongPassword(left) => BackToLogin(AttemptsRemaining(left), email)
    case UnknownUser => BackToLogin(InvalidCredentials, email)
    case Authenticated => ToDashboard
  }

  /** The two endpoints make the same decision and differ only in how they
      render it: the form is sent to the dashboard exactly when the JSON
      login issues a token. */
  lemma FormAndApiAgree(l: LoginResult, email: Option<string>)
    ensures FormResponseOf(l, email) == ToDashboard <==> ApiResponseOf(l) == TokenIssued
    ensures ApiResponseOf(l).TooManyRequests? <==>
              FormResponseOf(l, email).BackToLogin?
              && (FormResponseOf(l, email).flash.LockedFor? || FormResponseOf(l, email).flash.TooManyFailures?)
  {
  }

  /** The POST branch of `login`, in the same order as `apiLogin`. */
  method FormLogin(bf: BruteForceProtection, email: Option<string>, user: Option<UserId>,
                   passwordValid: bool, now: int)
    returns (response: FormResponse, passwordChecked: bool)
    requires bf.Valid()
    modifies bf`records, bf.records.Values
    ensures bf.Valid()
    ensures var l := Login(user, old(UserRecord(bf, user)), passwordValid, now);
            && response == FormResponseOf(l, email) && passwordChecked == l.passwordChecked
            && UserRecord(bf, user) == l.record
    ensures forall v: UserId :: Some(v) != user ==> bf.RecordOf(v) == old(bf.RecordOf(v))
  {
    if user.Some? && bf.IsAccountLocked(user.value, now) {
      var info := bf.GetLockoutInfo(user.value, now);
      return BackToLogin(LockedFor(info.remainingTime.value), None), false;
    }
    if user.None? {
      return BackToLogin(InvalidCredentials, email), false;
    }
    var u := user.value;
    FailureOutcome(bf.RecordOf(u), now);
    if !passwordValid {
      var remaining := bf.RecordFailedAttempt(u, now);
      if remaining.None? {
        return BackToLogin(TooManyFailures, email), true;
      }
      return BackToLogin(AttemptsRemaining(remaining.value), email), true;
    }
    bf.RecordSuccessfulLogin(u, now);
    return ToDashboard, true;
  }

  // ---------------------------------------------------------------------
  // lockoutInfo

  /** The JSON response of `lockoutInfo`. */
  datatype InfoResponse =
    | UsernameRequired  // 400
    | LockStatus(isLocked: bool, remainingTime: Option<int>, failedAttempts: Option<int>)

  /** `empty($username)` on the query parameter. */
  predicate EmptyUsername(username: Option<string>)
  {
    username.None? || username.value == "" || username.value == "0"
  }

  /** What `lockoutInfo` reports for the user found under `username`. */
  function LockoutInfoResponse(username: Option<string>, user: Option<UserId>, rec: Option<Record>,
                               now: int): (r: InfoResponse)
    ensures r == UsernameRequired <==> EmptyUsername(username)
    ensures !EmptyUsername(username) && user.None? ==> r == LockStatus(false, None, None)
    ensures !EmptyUsername(username) && user.Some? ==>
              && r.isLocked == AccountLocked(rec, now)
              && r.failedAttempts == Some(FailuresOf(rec))
    ensures r.LockStatus? ==> (r.remainingTime.Some? <==> r.isLocked)
    ensures r.LockStatus? && r.isLocked ==> r.remainingTime == RemainingLockoutTime(rec, now)
                                            && r.remainingTime.value > 0
  {
    if EmptyUsername(username) then UsernameRequired
    else if user.None? then LockStatus(false, None, None)
    else
      var info := LockoutInfoOf(rec, now);
      LockStatus(info.isLocked, info.remainingTime, Some(info.failedAttempts))
  }

  /** `lockoutInfo`: a read of the service's state. */
  method LockoutInfo(bf: BruteForceProtection, username: Option<string>, user: Option<UserId>, now: int)
    returns (response: InfoResponse)
    ensures response == LockoutInfoResponse(username, user, UserRecord(bf, user), now)
  {
    if EmptyUsername(username) {
      return UsernameRequired;
    }
    if user.None? {
      return LockStatus(false, None, None);
    }
    var info := bf.GetLockoutInfo(user.value, now);
    response := LockStatus(info.isLocked, info.remainingTime, Some(info.failedAttempts));
  }
}
