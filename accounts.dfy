/** The user document of server/server.js and what POST /api/auth/login does
    to it: the failed-attempt counter, the lockUntil timestamp, and the
    decision between a session, a lock and a refusal. Times are milliseconds
    since the epoch; the password check (bcrypt.compare) is an input. */
module Accounts {
  import opened Common
  import opened Auth

  const MAX_ATTEMPTS: nat := 5
  const LOCK_MS: nat := 15 * 60 * 1000
  const MS_PER_MINUTE: nat := 60000

  datatype User = User(
    id: nat,
    email: string,
    passwordHash: string,
    role: string,
    firstName: string,
    lastName: string,
    phone: string,
    dateOfBirth: string,
    isVerified: bool,
    twoFAEnabled: bool,
    failedLoginAttempts: nat,   // an absent field reads as 0
    lockUntil: Option<nat>,     // null or absent is None
    status: Option<string>)     // written only by the admin status route

  /** The document register inserts: role 'user', not verified, no 2FA,
      no failures recorded and no lock. */
  function NewUser(id: nat, email: string, passwordHash: string, firstName: string,
                   lastName: string, phone: string, dateOfBirth: string): (r: User)
    ensures r.id == id && r.email == email && r.passwordHash == passwordHash
    ensures r.firstName == firstName && r.lastName == lastName
    ensures r.phone == phone && r.dateOfBirth == dateOfBirth
    ensures r.role == "user" && !r.isVerified && !r.twoFAEnabled
    ensures forall now :: !IsLocked(r, now) && LoginSpec(r, true, now, false).body == EmailUnverified
  {
    User(id, email, passwordHash, "user", firstName, lastName, phone, dateOfBirth,
         false, false, 0, None, None)
  }

  /** The document the Google strategy inserts for an e-mail it does not
      know: no password, role 'user', already verified, no 2FA. Unlike a
      registered user it needs no verification before a session is issued. */
  function GoogleUser(id: nat, email: string, firstName: string, lastName: string): (r: User)
    ensures r.id == id && r.email == email && r.firstName == firstName && r.lastName == lastName
    ensures r.passwordHash == "" && r.role == "user" && r.isVerified && !r.twoFAEnabled
    ensures forall now :: !IsLocked(r, now)
  {
    User(id, email, "", "user", firstName, lastName, "", "", true, false, 0, None, None)
  }

  /** The account is locked while its lockUntil lies in the future. */
  predicate IsLocked(u: User, now: nat)
  {
    u.lockUntil.Some? && u.lockUntil.value > now
  }

  /** The remaining lock time in whole minutes, rounded up. */
  function MinutesUntil(lockUntil: nat, now: nat): (m: nat)
    requires lockUntil > now
    ensures m >= 1
    ensures (m - 1) * MS_PER_MINUTE < lockUntil - now <= m * MS_PER_MINUTE
  {
    (lockUntil - now + MS_PER_MINUTE - 1) / MS_PER_MINUTE
  }

  /** The cookie lifetime: 30 days with "remember me", one day without. */
  function SessionMaxAge(rememberMe: bool): (ms: nat)
    ensures rememberMe ==> ms == 2592000000
    ensures !rememberMe ==> ms == 86400000
  {
    (if rememberMe then 30 else 1) * MS_PER_DAY
  }

  /** The response body of a login attempt. */
  datatype LoginBody =
    | SessionIssued(claims: Claims, maxAgeMs: nat)   // 200, httpOnly cookie set
    | LockedFor(minutes: nat)                        // 403 "try again in N minutes"
    | LockedOut                                      // 403 "locked ... 15 minutes"
    | BadCredentials                                 // 401 "Invalid email or password"
    | EmailUnverified                                // 401 "Please verify your email first"

  function StatusOf(b: LoginBody): int
  {
    match b
    case SessionIssued(_, _) => OK
    case LockedFor(_) => FORBIDDEN
    case LockedOut => FORBIDDEN
    case BadCredentials => UNAUTHORIZED
    case EmailUnverified => UNAUTHORIZED
  }

  datatype LoginResult = LoginResult(body: LoginBody, user: User)

  /** A login attempt against an existing user document: the new document
      and the response. passwordOk is what bcrypt.compare would say; it is
      not consulted while the account is locked. */
  function LoginSpec(u: User, passwordOk: bool, now: nat, rememberMe: bool): (r: LoginResult)
    ensures r.body.SessionIssued? <==> !IsLocked(u, now) && passwordOk && u.isVerified
    ensures StatusOf(r.body) == FORBIDDEN <==>
              IsLocked(u, now) || (!passwordOk && u.failedLoginAttempts + 1 >= MAX_ATTEMPTS)
    ensures r.body.SessionIssued? ==>
              && r.body.claims == Claims(u.id, u.email, u.role)
              && r.user.failedLoginAttempts == 0 && !IsLocked(r.user, now)
    ensures r.user == u.(failedLoginAttempts := r.user.failedLoginAttempts, lockUntil := r.user.lockUntil)
  {
    if IsLocked(u, now) then
      LoginResult(LockedFor(MinutesUntil(u.lockUntil.value, now)), u)
    else if !passwordOk then
      var attempts := u.failedLoginAttempts + 1;
      if attempts >= MAX_ATTEMPTS then
        LoginResult(LockedOut, u.(lockUntil := Some(now + LOCK_MS), failedLoginAttempts := u.failedLoginAttempts + 1))
      else
        LoginResult(BadCredentials, u.(failedLoginAttempts := attempts))
    else if !u.isVerified then
      LoginResult(EmailUnverified, u)
    else
      LoginResult(SessionIssued(Claims(u.id, u.email, u.role), SessionMaxAge(rememberMe)),
                  u.(failedLoginAttempts := 0, lockUntil := None))
  }

  /** A locked account is refused with 403 before the password is looked at,
      the document does not change, and the reported minutes round the
      remaining lock time up. */
  lemma LockedAccountRefused(u: User, ok: bool, now: nat, rememberMe: bool)
    requires IsLocked(u, now)
    ensures var r := LoginSpec(u, ok, now, rememberMe);
      && StatusOf(r.body) == FORBIDDEN
      && r.user == u
      && r == LoginSpec(u, !ok, now, rememberMe)
      && r.body.LockedFor?
      && (r.body.minutes - 1) * MS_PER_MINUTE < u.lockUntil.value - now <= r.body.minutes * MS_PER_MINUTE
  {
  }

  /** A wrong password on an unlocked account counts one more failure; the
      failure that brings the count to five or more locks the account for
      15 minutes and answers 403, every other one answers 401. Nothing else
      in the document changes. */
  lemma WrongPassword(u: User, now: nat, rememberMe: bool)
    requires !IsLocked(u, now)
    ensures var r := LoginSpec(u, false, now, rememberMe);
      && r.user.failedLoginAttempts == u.failedLoginAttempts + 1
      && (u.failedLoginAttempts + 1 >= MAX_ATTEMPTS ==>
            r.body == LockedOut && StatusOf(r.body) == FORBIDDEN && r.user.lockUntil == Some(now + LOCK_MS))
      && (u.failedLoginAttempts + 1 < MAX_ATTEMPTS ==>
            r.body == BadCredentials && StatusOf(r.body) == UNAUTHORIZED && r.user.lockUntil == u.lockUntil)
      && r.user == u.(failedLoginAttempts := r.user.failedLoginAttempts, lockUntil := r.user.lockUntil)
  {
  }

  /** The right password: a verified user gets a session carrying its id,
      email and role, and both lock fields are cleared; an unverified user is
      refused with 401 and keeps its failure count. */
  lemma RightPassword(u: User, now: nat, rememberMe: bool)
    requires !IsLocked(u, now)
    ensures var r := LoginSpec(u, true, now, rememberMe);
      && (u.isVerified ==>
            && r.body == SessionIssued(Claims(u.id, u.email, u.role), SessionMaxAge(rememberMe))
            && r.user == u.(failedLoginAttempts := 0, lockUntil := None))
      && (!u.isVerified ==> r.body == EmailUnverified && r.user == u)
  {
  }

  /** A run of consecutive wrong-password attempts at the given times. */
  function FailedRun(u: User, times: seq<nat>): (User, seq<int>)
    decreases |times|
  {
    if times == [] then (u, [])
    else
      var r := LoginSpec(u, false, times[0], false);
      var rest := FailedRun(r.user, times[1..]);
      (rest.0, [StatusOf(r.body)] + rest.1)
  }

  /** Fewer than five failures on an unlocked account: all 401, counted, no lock. */
  lemma {:induction false} FailuresBelowLimit(u: User, times: seq<nat>)
    requires u.lockUntil.None?
    requires u.failedLoginAttempts + |times| < MAX_ATTEMPTS
    ensures FailedRun(u, times).0 == u.(failedLoginAttempts := u.failedLoginAttempts + |times|)
    ensures FailedRun(u, times).1 == seq(|times|, _ => UNAUTHORIZED)
    decreases |times|
  {
    if times != [] {
      var r := LoginSpec(u, false, times[0], false);
      FailuresBelowLimit(r.user, times[1..]);
    }
  }

  /** A freshly registered account answers the first four wrong passwords
      with 401 and the fifth with 403, which locks it for 15 minutes from the
      fifth attempt, with the counter at five. */
  lemma FifthFailureLocks(u: User, times: seq<nat>)
    requires u.failedLoginAttempts == 0 && u.lockUntil.None?
    requires |times| == 5
    ensures FailedRun(u, times).1 == [UNAUTHORIZED, UNAUTHORIZED, UNAUTHORIZED, UNAUTHORIZED, FORBIDDEN]
    ensures FailedRun(u, times).0 == u.(failedLoginAttempts := 5, lockUntil := Some(times[4] + LOCK_MS))
  {
    FailuresBelowLimit(u, times[..4]);
    FailedRunSplit(u, times[..4], times[4..]);
    assert times[..4] + times[4..] == times;
  }

  lemma {:induction false} FailedRunSplit(u: User, a: seq<nat>, b: seq<nat>)
    ensures FailedRun(u, a + b).0 == FailedRun(FailedRun(u, a).0, b).0
    ensures FailedRun(u, a + b).1 == FailedRun(u, a).1 + FailedRun(FailedRun(u, a).0, b).1
    decreases |a|
  {
    if a == [] {
      assert a + b == b;
    } else {
      assert (a + b)[0] == a[0] && (a + b)[1..] == a[1..] + b;
      var r := LoginSpec(u, false, a[0], false);
      FailedRunSplit(r.user, a[1..], b);
    }
  }

  /** Once locked at time t, every attempt before t + 15 minutes, right
      password or not, is refused with 403 and a wait of 1 to 15 minutes. */
  lemma LockHoldsFifteenMinutes(u: User, t: nat, later: nat, ok: bool, rememberMe: bool)
    requires u.lockUntil == Some(t + LOCK_MS)
    requires t <= later < t + LOCK_MS
    ensures var r := LoginSpec(u, ok, later, rememberMe);
      r.user == u && r.body.LockedFor? && 1 <= r.body.minutes <= 15
  {
    var m := MinutesUntil(t + LOCK_MS, later);
  }

  /** The counter is cleared only by a successful login, so after a lock runs
      out the very next wrong password locks the account again. */
  lemma RelockAfterExpiry(u: User, now: nat, rememberMe: bool)
    requires u.failedLoginAttempts >= MAX_ATTEMPTS && !IsLocked(u, now)
    ensures var r := LoginSpec(u, false, now, rememberMe);
      && r.body == LockedOut
      && r.user.lockUntil == Some(now + LOCK_MS)
      && r.user.failedLoginAttempts == u.failedLoginAttempts + 1
  {
  }

  /** A newly registered user cannot log in until the email is verified,
      and a refused attempt of that kind changes nothing. */
  lemma NewUserMustVerify(id: nat, email: string, hash: string, f: string, l: string,
                          phone: string, dob: string, now: nat, rememberMe: bool)
    ensures var u := NewUser(id, email, hash, f, l, phone, dob);
      LoginSpec(u, true, now, rememberMe) == LoginResult(EmailUnverified, u)
  {
  }

  /** An account created through Google has no verification step: once a
      credential check passes, a session is issued straight away. Its stored
      password is empty, so which checks pass is up to the comparison. */
  lemma GoogleUserSignsInAtOnce(id: nat, email: string, f: string, l: string, now: nat, rememberMe: bool)
    ensures LoginSpec(GoogleUser(id, email, f, l), true, now, rememberMe).body ==
              SessionIssued(Claims(id, email, "user"), SessionMaxAge(rememberMe))
  {
  }
}
