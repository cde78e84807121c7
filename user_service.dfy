/** `UserService`: how an account was registered, the verification-code, email-code and
    magic-code checks, the magic-code cooldown, first-name extraction and the duplicate check
    on sign-up. Times are milliseconds since the epoch; `now` stands for `Date.now()`. */
module UserService {
  import opened StringUtil

  /** The user document fields these rules read and write. A timestamp is `None` when it is
      missing or null. */
  datatype User = User(
    name: string,
    email: Option<string>,
    authProviders: Option<seq<string>>,
    isVerificationCodeActive: bool,
    verificationCode: Option<string>,
    verificationCodeTimeStamp: Option<int>,
    isEmailVerified: bool,
    emailVerificationCode: Option<string>,
    emailVerificationCodeTimeStamp: Option<int>,
    magicCode: Option<string>,
    magicCodeTimeStamp: Option<int>,
    lastMagicCodeTimeStamp: Option<int>,
    secondLastMagicCodeTimeStamp: Option<int>)

  datatype UserError =
    | Unauthorized            // ErrorMessages.Unauthorized
    | VerificationCodeExpired // ErrorMessages.VerificationCodeExpired
    | WrongCode               // "Wrong Code"
    | EmailAlreadyVerified    // "Email Already Verified"
    | MagicCodeExpired        // ErrorMessages.MagicCodeExpired
    | CooldownActive          // "Cooldown Active"
    | AccountExists           // "The account with the provided email currently exists. ..."
    | UserMissing             // TypeError: reading a field of a user that was not found
    | MissingTimestamp        // TypeError: `getTime()` on a missing timestamp

  datatype RegisteredWith = Google | Email | Unknown

  // ---------------------------------------------------------------------------------------
  // Time arithmetic as written (real division of millisecond differences)

  /** `(now - ts) / 1000 > expireTime` */
  predicate SecondsExceed(now: int, ts: int, expireTime: int)
  {
    (now - ts) as real / 1000.0 > expireTime as real
  }

  /** `(later - earlier) / 60000 < 30` */
  predicate WithinHalfHour(later: int, earlier: int)
  {
    (later - earlier) as real / 60000.0 < 30.0
  }

  /** Both time tests are exact comparisons of integer milliseconds. */
  lemma TimeTestsInMilliseconds(a: int, b: int, expireTime: int)
    ensures SecondsExceed(a, b, expireTime) <==> a - b > 1000 * expireTime
    ensures WithinHalfHour(a, b) <==> a - b < 1800000
  {
    var d := (a - b) as real;
    assert d / 1000.0 > expireTime as real <==> d > 1000.0 * expireTime as real;
    assert d / 60000.0 < 30.0 <==> d < 1800000.0;
  }

  // ---------------------------------------------------------------------------------------
  // Registration status and first name

  /** `getUserRegisterStatus` for the user found by email, if any. */
  function RegisterStatus(user: Option<User>): (r: RegisteredWith)
    ensures r == Google <==> user.Some? && user.value.authProviders.Some?
    ensures r == Email <==> user.Some? && user.value.authProviders.None? && Truthy(user.value.email)
    ensures r == Unknown <==> user.None? || (user.value.authProviders.None? && !Truthy(user.value.email))
  {
    if user.Some? && user.value.authProviders.Some? then Google
    else if user.Some? && Truthy(user.value.email) then Email
    else Unknown
  }

  /** `name.split(" ")[0]`: the name up to its first space, or the whole name. */
  function GetFirstName(name: string): (r: string)
    ensures |r| <= |name| && r == name[..|r|]
    ensures ' ' !in r
    ensures |r| < |name| ==> name[|r|] == ' '
    ensures ' ' !in name ==> r == name
  {
    Split(name, ' ')[0]
  }

  // ---------------------------------------------------------------------------------------
  // Code checks

  /** `verifyVerificationCode`: an inactive code, then a wrong code, are refused; then a code
      older than `expireTime` seconds. */
  function VerifyVerificationCode(user: Option<User>, code: string, expireTime: int, now: int): (r: Result<(), UserError>)
    ensures r == Ok(()) <==> (user.Some? && user.value.isVerificationCodeActive
      && user.value.verificationCode == Some(code)
      && user.value.verificationCodeTimeStamp.Some?
      && now - user.value.verificationCodeTimeStamp.value <= 1000 * expireTime)
    ensures r == Err(Unauthorized) <==>
      user.None? || !user.value.isVerificationCodeActive || user.value.verificationCode != Some(code)
    ensures r == Err(VerificationCodeExpired) <==> (user.Some? && user.value.isVerificationCodeActive
      && user.value.verificationCode == Some(code)
      && user.value.verificationCodeTimeStamp.Some?
      && now - user.value.verificationCodeTimeStamp.value > 1000 * expireTime)
    ensures r == Err(MissingTimestamp) <==> (user.Some? && user.value.isVerificationCodeActive
      && user.value.verificationCode == Some(code) && user.value.verificationCodeTimeStamp.None?)
  {
    if user.None? || !user.value.isVerificationCodeActive then Err(Unauthorized)
    else if user.value.verificationCode != Some(code) then Err(Unauthorized)
    else if user.value.verificationCodeTimeStamp.None? then Err(MissingTimestamp)
    else
      var ts := user.value.verificationCodeTimeStamp.value;
      TimeTestsInMilliseconds(now, ts, expireTime);
      if SecondsExceed(now, ts, expireTime) then Err(VerificationCodeExpired) else Ok(())
  }

  /** A code exactly `expireTime` seconds old is still accepted. */
  lemma VerificationCodeBoundaryAccepted(user: User, code: string, expireTime: int)
    requires user.isVerificationCodeActive && user.verificationCode == Some(code)
    requires user.verificationCodeTimeStamp.Some?
    ensures VerifyVerificationCode(Some(user), code, expireTime,
      user.verificationCodeTimeStamp.value + 1000 * expireTime) == Ok(())
    ensures VerifyVerificationCode(Some(user), code, expireTime,
      user.verificationCodeTimeStamp.value + 1000 * expireTime + 1) == Err(VerificationCodeExpired)
  {
    var ts := user.verificationCodeTimeStamp.value;
    TimeTestsInMilliseconds(ts + 1000 * expireTime + 1, ts, expireTime);
  }

  /** `verifyUserEmailVerificationCode`: a wrong code, then an already verified email, then an
      expired code are refused; on success the email is marked verified and the code cleared. */
  function VerifyEmailCode(user: Option<User>, code: string, expireTime: int, now: int): (r: Result<User, UserError>)
    ensures r.Ok? <==> (user.Some? && user.value.emailVerificationCode == Some(code)
      && !user.value.isEmailVerified
      && user.value.emailVerificationCodeTimeStamp.Some?
      && now - user.value.emailVerificationCodeTimeStamp.value <= 1000 * expireTime)
    ensures r == Err(WrongCode) <==> user.None? || user.value.emailVerificationCode != Some(code)
    ensures r == Err(EmailAlreadyVerified) <==>
      user.Some? && user.value.emailVerificationCode == Some(code) && user.value.isEmailVerified
    ensures r == Err(VerificationCodeExpired) <==> (user.Some? && user.value.emailVerificationCode == Some(code)
      && !user.value.isEmailVerified
      && user.value.emailVerificationCodeTimeStamp.Some?
      && now - user.value.emailVerificationCodeTimeStamp.value > 1000 * expireTime)
    ensures r == Err(MissingTimestamp) <==> (user.Some? && user.value.emailVerificationCode == Some(code)
      && !user.value.isEmailVerified && user.value.emailVerificationCodeTimeStamp.None?)
    ensures r.Ok? ==> r.value == user.value.(isEmailVerified := true, emailVerificationCode := Some(""))
  {
    if user.None? || user.value.emailVerificationCode != Some(code) then Err(WrongCode)
    else if user.value.isEmailVerified then Err(EmailAlreadyVerified)
    else if user.value.emailVerificationCodeTimeStamp.None? then Err(MissingTimestamp)
    else
      var ts := user.value.emailVerificationCodeTimeStamp.value;
      TimeTestsInMilliseconds(now, ts, expireTime);
      if SecondsExceed(now, ts, expireTime) then Err(VerificationCodeExpired)
      else Ok(user.value.(isEmailVerified := true, emailVerificationCode := Some("")))
  }

  /** An email code works once: after a success every later attempt is refused, as a wrong
      code or as an already verified email. */
  lemma EmailCodeSingleUse(user: Option<User>, code: string, expireTime: int, now: int, code2: string, expireTime2: int, later: int)
    requires VerifyEmailCode(user, code, expireTime, now).Ok?
    ensures VerifyEmailCode(Some(VerifyEmailCode(user, code, expireTime, now).value), code2, expireTime2, later)
      in {Err(WrongCode), Err(EmailAlreadyVerified)}
  {
  }

  /** `verifyMagicCode`: a wrong code, then an expired code, are refused; on success the code
      and its three timestamps are cleared and the email is marked verified. */
  function VerifyMagicCode(user: Option<User>, code: string, expireTime: int, now: int): (r: Result<User, UserError>)
    ensures r.Ok? <==> (user.Some? && user.value.magicCode == Some(code)
      && user.value.magicCodeTimeStamp.Some?
      && now - user.value.magicCodeTimeStamp.value <= 1000 * expireTime)
    ensures r == Err(WrongCode) <==> user.None? || user.value.magicCode != Some(code)
    ensures r == Err(MagicCodeExpired) <==> (user.Some? && user.value.magicCode == Some(code)
      && user.value.magicCodeTimeStamp.Some?
      && now - user.value.magicCodeTimeStamp.value > 1000 * expireTime)
    ensures r == Err(MissingTimestamp) <==>
      user.Some? && user.value.magicCode == Some(code) && user.value.magicCodeTimeStamp.None?
    ensures r.Ok? ==> r.value == user.value.(magicCode := Some(""), magicCodeTimeStamp := None,
      lastMagicCodeTimeStamp := None, secondLastMagicCodeTimeStamp := None, isEmailVerified := true)
  {
    if user.None? || user.value.magicCode != Some(code) then Err(WrongCode)
    else if user.value.magicCodeTimeStamp.None? then Err(MissingTimestamp)
    else
      var ts := user.value.magicCodeTimeStamp.value;
      TimeTestsInMilliseconds(now, ts, expireTime);
      if SecondsExceed(now, ts, expireTime) then Err(MagicCodeExpired)
      else Ok(user.value.(magicCode := Some(""), magicCodeTimeStamp := None,
        lastMagicCodeTimeStamp := None, secondLastMagicCodeTimeStamp := None, isEmailVerified := true))
  }

  /** A magic code cannot be replayed: after a success every later attempt fails. */
  lemma MagicCodeSingleUse(user: Option<User>, code: string, expireTime: int, now: int, code2: string, expireTime2: int, later: int)
    requires VerifyMagicCode(user, code, expireTime, now).Ok?
    ensures VerifyMagicCode(Some(VerifyMagicCode(user, code, expireTime, now).value), code2, expireTime2, later).Err?
  {
  }

  // ---------------------------------------------------------------------------------------
  // Magic-code issue (`sendMagicCodeEmail`)

  /** The cooldown: the newest code and the one two issues before it are under 30 minutes
      apart, and the newest is under 30 minutes old. */
  predicate InCooldown(user: User, now: int)
  {
    user.magicCodeTimeStamp.Some? && user.secondLastMagicCodeTimeStamp.Some?
    && WithinHalfHour(user.magicCodeTimeStamp.value, user.secondLastMagicCodeTimeStamp.value)
    && WithinHalfHour(now, user.magicCodeTimeStamp.value)
  }

  /** `sendMagicCodeEmail` for the user found by email: refused in the cooldown, otherwise the
      (upper-cased) code is stored and the timestamps shift by one. */
  function IssueMagicCode(user: Option<User>, code: string, now: int): (r: Result<User, UserError>)
    ensures user.None? ==> r == Err(UserMissing)
    ensures user.Some? ==> (r == Err(CooldownActive) <==>
      user.value.magicCodeTimeStamp.Some? && user.value.secondLastMagicCodeTimeStamp.Some?
      && user.value.magicCodeTimeStamp.value - user.value.secondLastMagicCodeTimeStamp.value < 1800000
      && now - user.value.magicCodeTimeStamp.value < 1800000)
    ensures user.Some? ==> (r.Ok? <==> r != Err(CooldownActive))
    ensures r.Ok? ==> r.value == user.value.(magicCode := Some(Upper(code)), magicCodeTimeStamp := Some(now),
      lastMagicCodeTimeStamp := user.value.magicCodeTimeStamp,
      secondLastMagicCodeTimeStamp := user.value.lastMagicCodeTimeStamp)
  {
    if user.None? then Err(UserMissing)
    else
      var u := user.value;
      if u.magicCodeTimeStamp.Some? && u.secondLastMagicCodeTimeStamp.Some? then
        TimeTestsInMilliseconds(u.magicCodeTimeStamp.value, u.secondLastMagicCodeTimeStamp.value, 0);
        TimeTestsInMilliseconds(now, u.magicCodeTimeStamp.value, 0);
        if InCooldown(u, now) then Err(CooldownActive) else Ok(Issued(u, code, now))
      else Ok(Issued(u, code, now))
  }

  function Issued(u: User, code: string, now: int): User
  {
    u.(magicCode := Some(Upper(code)), secondLastMagicCodeTimeStamp := u.lastMagicCodeTimeStamp,
       lastMagicCodeTimeStamp := u.magicCodeTimeStamp, magicCodeTimeStamp := Some(now))
  }

  /** A user with no magic-code history can be sent three codes at any times. */
  lemma FirstThreeIssuesAllowed(u: User, c1: string, c2: string, c3: string, t1: int, t2: int, t3: int)
    requires u.magicCodeTimeStamp.None? && u.lastMagicCodeTimeStamp.None? && u.secondLastMagicCodeTimeStamp.None?
    ensures IssueMagicCode(Some(u), c1, t1).Ok?
    ensures IssueMagicCode(Some(IssueMagicCode(Some(u), c1, t1).value), c2, t2).Ok?
    ensures IssueMagicCode(Some(IssueMagicCode(Some(IssueMagicCode(Some(u), c1, t1).value), c2, t2).value), c3, t3).Ok?
  {
  }

  /** Three codes within 30 minutes refuse a fourth sent less than 30 minutes after the third. */
  lemma FourthIssueInWindowRefused(u: User, c1: string, c2: string, c3: string, c4: string, t1: int, t2: int, t3: int, t4: int)
    requires IssueMagicCode(Some(u), c1, t1).Ok?
    requires IssueMagicCode(Some(IssueMagicCode(Some(u), c1, t1).value), c2, t2).Ok?
    requires IssueMagicCode(Some(IssueMagicCode(Some(IssueMagicCode(Some(u), c1, t1).value), c2, t2).value), c3, t3).Ok?
    requires t3 - t1 < 1800000 && t4 - t3 < 1800000
    ensures IssueMagicCode(Some(IssueMagicCode(Some(IssueMagicCode(Some(IssueMagicCode(Some(u), c1, t1).value), c2, t2).value), c3, t3).value), c4, t4)
      == Err(CooldownActive)
  {
  }

  /** Once the newest code is 30 minutes old, a new code can always be sent. */
  lemma CooldownEnds(u: User, code: string, now: int)
    requires u.magicCodeTimeStamp.Some? && now - u.magicCodeTimeStamp.value >= 1800000
    ensures IssueMagicCode(Some(u), code, now).Ok?
  {
  }

  /** A freshly sent code verifies while it is not older than the expiry time. */
  lemma IssuedCodeVerifies(u: User, code: string, t: int, expireTime: int, now: int)
    requires IssueMagicCode(Some(u), code, t).Ok?
    requires now - t <= 1000 * expireTime
    ensures VerifyMagicCode(Some(IssueMagicCode(Some(u), code, t).value), Upper(code), expireTime, now).Ok?
  {
  }

  // ---------------------------------------------------------------------------------------
  // Sign-up duplicate check (`createUser`)

  /** The stored users, keyed by their (lower-case) email. */
  class UserStore {
    var users: map<string, User>

    constructor (initial: map<string, User>)
      ensures users == initial
    {
      users := initial;
    }

    /** `createUser`: lower-case the email; refuse it when a user with that email exists,
        otherwise store a new unverified user under it. */
    method CreateUser(name: string, email: string) returns (r: Result<string, UserError>)
      modifies this
      ensures Lower(email) in old(users) <==> r == Err(AccountExists)
      ensures Lower(email) !in old(users) <==> r.Ok?
      ensures r.Err? ==> users == old(users)
      ensures r.Ok? ==> r.value == Lower(email) && users == old(users)[Lower(email) := NewUser(name, Lower(email))]
    {
      var key := Lower(email);
      if key in users {
        return Err(AccountExists);
      }
      users := users[key := NewUser(name, key)];
      return Ok(key);
    }
  }

  /** The record the repository inserts for a sign-up: email not verified, no codes. */
  function NewUser(name: string, email: string): User
  {
    User(name, Some(email), None, false, None, None, false, None, None, None, None, None, None)
  }

  /** Lower-casing twice is lower-casing once, so a sign-up with the same email in any letter
      case as a stored one is refused. */
  lemma LowerIdempotent(email: string)
    ensures Lower(Lower(email)) == Lower(email)
  {
  }

  lemma SecondSignUpRefused(users: map<string, User>, name: string, email: string, email2: string)
    requires Lower(email2) == Lower(email)
    ensures Lower(email2) in users[Lower(email) := NewUser(name, Lower(email))]
  {
  }
}
