// The authentication routes of app/api/v1/auth.py: client address, e-mail
// one-time codes, registration, login, refresh, e-mail verification, password
// reset, Google sign-in and logout, over in-memory tables.
//
// Random codes, password hashing, token signing, e-mail delivery and the
// calls to Google are outside the model: the code, the hash and Google's
// answer are parameters, and a password check is the `verify` oracle.

module AuthApi {
  import opened Common
  import opened UserModel
  import opened Exceptions
  import Jwt

  /** What a route does: returns a value, raises an application exception,
      or fails with an uncaught error (a database constraint). */
  datatype AuthResult<T> = Done(value: T) | Raised(error: AppError) | Crashed

  // ---------------------------------------------------------------------
  // get_client_ip
  // ---------------------------------------------------------------------

  /** The first comma-separated entry of a non-empty X-Forwarded-For header,
      stripped; else the client host; else "unknown". */
  function ClientIp(clientHost: Option<String>, forwardedFor: Option<String>): (ip: String)
    ensures TruthyStr(forwardedFor) ==> ',' !in ip
    ensures !TruthyStr(forwardedFor) && clientHost.Some? ==> ip == clientHost.value
    ensures !TruthyStr(forwardedFor) && clientHost.None? ==> ip == "unknown"
  {
    if TruthyStr(forwardedFor) then
      var first := Split(forwardedFor.value, ',')[0];
      StripSubseq(first);
      Strip(first)
    else if clientHost.Some? then clientHost.value
    else "unknown"
  }

  /** The forwarded header wins over the connection, and only its first hop
      counts: whatever follows the first comma is ignored. */
  lemma ClientIpFirstHop(clientHost: Option<String>, first: String, rest: String)
    requires ',' !in first
    ensures ClientIp(clientHost, Some(first + "," + rest)) == Strip(first)
  {
    FindCharAfter(first, ',', rest);
    var h := first + "," + rest;
    assert h == first + [','] + rest;
    assert h[..|first|] == first;
  }

  // ---------------------------------------------------------------------
  // One-time codes
  // ---------------------------------------------------------------------

  datatype OtpPurpose = Registration | PasswordReset

  function PurposeValue(p: OtpPurpose): (v: String)
    ensures v == "registration" || v == "password_reset"
  {
    match p
    case Registration => "registration"
    case PasswordReset => "password_reset"
  }

  lemma PurposeValueInjective(a: OtpPurpose, b: OtpPurpose)
    ensures PurposeValue(a) == PurposeValue(b) <==> a == b
  {
    if a != b {
      assert PurposeValue(a)[0] != PurposeValue(b)[0];
    }
  }

  /** A row of `email_otps`: a code is used up once `verified_at` is set. */
  datatype EmailOtp = EmailOtp(id: int, email: String, code: String, purpose: OtpPurpose,
                               expiresAt: Time, verifiedAt: Option<Time>)

  /** Codes live ten minutes. */
  const OtpLifetime: int := 10 * 60

  /** An unused code for this address and purpose. */
  predicate Pending(o: EmailOtp, email: String, purpose: OtpPurpose) {
    o.email == email && o.purpose == purpose && o.verifiedAt.None?
  }

  /** The bulk update before a new code is stored: every unused code for the
      address and purpose is stamped used; every other row is untouched. */
  function Invalidate(otps: seq<EmailOtp>, email: String, purpose: OtpPurpose, now: Time): (r: seq<EmailOtp>)
    ensures |r| == |otps|
    ensures forall k :: 0 <= k < |r| ==>
              r[k] == if Pending(otps[k], email, purpose) then otps[k].(verifiedAt := Some(now)) else otps[k]
  {
    if otps == [] then []
    else
      var o := otps[0];
      [if Pending(o, email, purpose) then o.(verifiedAt := Some(now)) else o] + Invalidate(otps[1..], email, purpose, now)
  }

  /** Sending a code: earlier unused codes are invalidated and one fresh
      unused code, expiring ten minutes from now, is appended. */
  function IssueOtp(otps: seq<EmailOtp>, id: int, email: String, purpose: OtpPurpose, code: String, now: Time): (r: seq<EmailOtp>)
    ensures |r| == |otps| + 1 && r[|otps|] == EmailOtp(id, email, code, purpose, now + OtpLifetime, None)
    ensures r[..|otps|] == Invalidate(otps, email, purpose, now)
  {
    Invalidate(otps, email, purpose, now) + [EmailOtp(id, email, code, purpose, now + OtpLifetime, None)]
  }

  lemma {:induction false} InvalidateLeavesNonePending(otps: seq<EmailOtp>, email: String, purpose: OtpPurpose, now: Time)
    ensures Count(Invalidate(otps, email, purpose, now), (o: EmailOtp) => Pending(o, email, purpose)) == 0
  {
    if otps != [] {
      InvalidateLeavesNonePending(otps[1..], email, purpose, now);
      var r := Invalidate(otps, email, purpose, now);
      assert r[1..] == Invalidate(otps[1..], email, purpose, now);
    }
  }

  /** After a send exactly one unused code exists for the address and purpose. */
  lemma IssueLeavesOnePending(otps: seq<EmailOtp>, id: int, email: String, purpose: OtpPurpose, code: String, now: Time)
    ensures Count(IssueOtp(otps, id, email, purpose, code, now), (o: EmailOtp) => Pending(o, email, purpose)) == 1
  {
    var p := (o: EmailOtp) => Pending(o, email, purpose);
    InvalidateLeavesNonePending(otps, email, purpose, now);
    CountSnoc(Invalidate(otps, email, purpose, now), EmailOtp(id, email, code, purpose, now + OtpLifetime, None), p);
  }

  /** A code the verification route accepts. */
  predicate Usable(o: EmailOtp, email: String, code: String, purpose: OtpPurpose, now: Time) {
    Pending(o, email, purpose) && o.code == code && o.expiresAt > now
  }

  /** The verification query: the first usable row. */
  function FindValidOtp(otps: seq<EmailOtp>, email: String, code: String, purpose: OtpPurpose, now: Time): (r: Option<nat>)
    ensures r.Some? ==> r.value < |otps| && Usable(otps[r.value], email, code, purpose, now)
    ensures r.None? ==> forall k :: 0 <= k < |otps| ==> !Usable(otps[k], email, code, purpose, now)
  {
    FindFirst(otps, (o: EmailOtp) => Usable(o, email, code, purpose, now))
  }

  /** Once a new code is sent, only that code verifies, and only within its
      ten minutes: every earlier code for the address and purpose is dead. */
  lemma OnlyLatestCodeVerifies(otps: seq<EmailOtp>, id: int, email: String, purpose: OtpPurpose,
                               code: String, now: Time, tried: String, later: Time)
    requires FindValidOtp(IssueOtp(otps, id, email, purpose, code, now), email, tried, purpose, later).Some?
    ensures FindValidOtp(IssueOtp(otps, id, email, purpose, code, now), email, tried, purpose, later) == Some(|otps|)
    ensures tried == code && later < now + OtpLifetime
  {
    var r := IssueOtp(otps, id, email, purpose, code, now);
    var k := FindValidOtp(r, email, tried, purpose, later).value;
    if k < |otps| {
      assert false;
    }
  }

  /** Stamping one code used. */
  function MarkUsed(otps: seq<EmailOtp>, i: nat, now: Time): (r: seq<EmailOtp>)
    requires i < |otps|
    ensures |r| == |otps| && r[i].verifiedAt == Some(now) && r[i].(verifiedAt := otps[i].verifiedAt) == otps[i]
    ensures forall k :: 0 <= k < |r| && k != i ==> r[k] == otps[k]
  {
    otps[i := otps[i].(verifiedAt := Some(now))]
  }

  /** A code verifies once: after it is used the same request is refused. */
  lemma CodeUsedOnce(otps: seq<EmailOtp>, email: String, code: String, purpose: OtpPurpose, now: Time, later: Time)
    requires FindValidOtp(otps, email, code, purpose, now).Some?
    requires forall k :: 0 <= k < |otps| && k != FindValidOtp(otps, email, code, purpose, now).value ==>
               !Usable(otps[k], email, code, purpose, later)
    ensures FindValidOtp(MarkUsed(otps, FindValidOtp(otps, email, code, purpose, now).value, now), email, code, purpose, later).None?
  {
  }

  // ---------------------------------------------------------------------
  // Sessions
  // ---------------------------------------------------------------------

  /** Refresh sessions last `REFRESH_TOKEN_EXPIRE_DAYS` = 7 days. */
  const SessionLifetime: int := 7 * SecondsPerDay

  /** Revoking every open session of a user: each one whose `revoked_at` is
      null gets `now`; sessions already revoked keep their time, other
      users' sessions are untouched. */
  function RevokeOpen(sessions: seq<UserSession>, userId: int, now: Time): (r: seq<UserSession>)
    ensures |r| == |sessions|
    ensures forall k :: 0 <= k < |r| ==>
              r[k] == if sessions[k].userId == userId && sessions[k].revokedAt.None? then Revoke(sessions[k], now) else sessions[k]
  {
    if sessions == [] then []
    else
      var s := sessions[0];
      [if s.userId == userId && s.revokedAt.None? then Revoke(s, now) else s] + RevokeOpen(sessions[1..], userId, now)
  }

  /** After revocation none of the user's sessions is active at any time,
      and every other user keeps exactly the sessions that were active. */
  lemma RevokeEndsSessions(sessions: seq<UserSession>, userId: int, now: Time, t: Time)
    ensures forall k :: 0 <= k < |sessions| && sessions[k].userId == userId ==>
              !SessionActive(RevokeOpen(sessions, userId, now)[k], t)
    ensures forall k :: 0 <= k < |sessions| && sessions[k].userId != userId ==>
              (SessionActive(RevokeOpen(sessions, userId, now)[k], t) <==> SessionActive(sessions[k], t))
  {
  }

  /** Revoking twice changes nothing the second time. */
  lemma RevokeIdempotent(sessions: seq<UserSession>, userId: int, now: Time, later: Time)
    ensures RevokeOpen(RevokeOpen(sessions, userId, now), userId, later) == RevokeOpen(sessions, userId, now)
  {
    var r := RevokeOpen(sessions, userId, now);
    assert forall k :: 0 <= k < |r| ==> RevokeOpen(r, userId, later)[k] == r[k];
  }

  // ---------------------------------------------------------------------
  // Users
  // ---------------------------------------------------------------------

  /** `users.email` is unique and ids are distinct and below the next id. */
  ghost predicate UsersValid(users: seq<User>, nextUserId: int) {
    (forall k :: 0 <= k < |users| ==> users[k].id < nextUserId) &&
    Pairwise(users, (a: User, b: User) => a.email != b.email && a.id != b.id)
  }

  /** Appending a user with a fresh id and an unused address keeps the table valid. */
  lemma AddUserKeepsValid(users: seq<User>, nextUserId: int, u: User)
    requires UsersValid(users, nextUserId)
    requires u.id == nextUserId && FindUserByEmail(users, u.email).None?
    ensures UsersValid(users + [u], nextUserId + 1)
  {
    PairwiseSnoc(users, u, (a: User, b: User) => a.email != b.email && a.id != b.id);
  }

  /** Rewriting one user row without touching its address or id keeps the table valid. */
  lemma ReplaceUserKeepsValid(users: seq<User>, nextUserId: int, i: nat, u: User)
    requires UsersValid(users, nextUserId) && i < |users|
    requires u.email == users[i].email && u.id == users[i].id
    ensures UsersValid(users[i := u], nextUserId)
  {
    var t := users[i := u];
    forall a, b | 0 <= a < b < |t| ensures t[a].email != t[b].email && t[a].id != t[b].id {
      assert users[a].email != users[b].email && users[a].id != users[b].id;
    }
  }

  function IndexOfEmail(users: seq<User>, email: String): (r: Option<nat>)
    ensures r.Some? ==> r.value < |users| && users[r.value].email == email
    ensures r.None? <==> FindUserByEmail(users, email).None?
    ensures r.Some? ==> FindUserByEmail(users, email) == Some(users[r.value])
  {
    FindFirst(users, (u: User) => u.email == email)
  }

  /** A new password: the hash changes and `updated_at` is refreshed. */
  function WithPassword(u: User, passwordHash: String, now: Time): (r: User)
    ensures r.passwordHash == passwordHash && r.updatedAt == now
    ensures r.(passwordHash := u.passwordHash, updatedAt := u.updatedAt) == u
  {
    u.(passwordHash := passwordHash, updatedAt := now)
  }

  // ---------------------------------------------------------------------
  // Responses
  // ---------------------------------------------------------------------

  datatype OtpSent = OtpSent(message: String, email: String)

  const CodeSent: String := "Verification code sent to your email"
  const ResetCodeSent: String := "If an account with that email exists, we've sent a verification code"
  const BadCode: String := "Invalid or expired verification code"
  const AlreadyVerified: String := "Email already verified"
  const Verified: String := "Email verified successfully"
  const PasswordChanged: String := "Password reset successfully. You can now log in with your new password."
  const LoggedOut: String := "Logged out successfully"
  const BadRefreshToken: String := "Invalid or expired refresh token"
  const WrongRefreshType: String := "Invalid token type. Expected refresh token."
  const NoEmailFromGoogle: String := "Could not get email from Google account"
  const GoogleNotConfigured: String := "Google OAuth is not configured"

  /** `login`'s checks in order: unknown address and wrong password raise
      the same error; an unverified account is refused after the password. */
  function LoginCheck(users: seq<User>, email: String, password: String, verify: (String, String) -> bool): (r: AuthResult<User>)
    ensures r.Done? <==> FindUserByEmail(users, email).Some? && verify(password, FindUserByEmail(users, email).value.passwordHash) &&
                         IsActive(FindUserByEmail(users, email).value)
    ensures r.Done? ==> r.value == FindUserByEmail(users, email).value
    ensures r.Raised? && r.error != InvalidCredentialsError() ==> r.error == AccountInactiveError()
    ensures !r.Crashed?
  {
    match FindUserByEmail(users, email)
    case None => Raised(InvalidCredentialsError())
    case Some(u) =>
      if !verify(password, u.passwordHash) then Raised(InvalidCredentialsError())
      else if !IsActive(u) then Raised(AccountInactiveError())
      else Done(u)
  }

  /** Login does not reveal which addresses are registered: an unknown
      address and a known address with a wrong password get the same answer. */
  lemma LoginHidesUnknownEmail(users: seq<User>, unknown: String, known: String, password: String,
                               verify: (String, String) -> bool)
    requires FindUserByEmail(users, unknown).None?
    requires FindUserByEmail(users, known).Some? && !verify(password, FindUserByEmail(users, known).value.passwordHash)
    ensures LoginCheck(users, unknown, password, verify) == LoginCheck(users, known, password, verify)
  {
  }

  /** `refresh_token`: the payload must decode and be a refresh token, and
      its subject must name a user. The subject is bound as text into
      `User.id == sub`: a missing subject matches nobody, text that is not
      a number makes the database raise. */
  function RefreshUser(decoded: Option<Jwt.Payload>, users: seq<User>): (r: AuthResult<User>)
    ensures r.Done? ==> decoded.Some? && decoded.value.tokenType == Some("refresh") &&
                        Jwt.SubjectId(decoded.value) == Some(r.value.id) && r.value in users
    ensures decoded.Some? && decoded.value.tokenType == Some("access") ==>
              r == Raised(InvalidTokenError(WrongRefreshType, "refresh"))
  {
    if decoded.None? then Raised(InvalidTokenError(BadRefreshToken, "refresh"))
    else if decoded.value.tokenType != Some("refresh") then Raised(InvalidTokenError(WrongRefreshType, "refresh"))
    else if decoded.value.sub.None? then Raised(UserNotFoundError(None))
    else match Jwt.SubjectId(decoded.value)
      case None => Crashed
      case Some(id) =>
        match FindUser(users, id)
        case None => Raised(UserNotFoundError(None))
        case Some(u) => Done(u)
  }

  /** Access and refresh tokens are not interchangeable: a token the
      protected routes admit is refused here, and the other way round. */
  lemma TokenTypesDisjoint(p: Jwt.Payload, users: seq<User>)
    ensures RefreshUser(Some(p), users).Done? ==> Jwt.CurrentUser(Some(p), users).HttpError?
    ensures Jwt.CurrentUser(Some(p), users).Ok? ==> !RefreshUser(Some(p), users).Done?
  {
  }

  /** `google_login`: the consent URL, or an error when no client id is configured. */
  function GoogleLoginUrl(clientId: String, redirectUri: String): (r: AuthResult<String>)
    ensures r.Raised? <==> clientId == []
    ensures r.Done? ==> StartsWith(r.value, "https://accounts.google.com/o/oauth2/v2/auth?client_id=" + clientId + "&")
  {
    if clientId == [] then Raised(GoogleOAuthError(GoogleNotConfigured))
    else
      var prefix := "https://accounts.google.com/o/oauth2/v2/auth?client_id=" + clientId + "&";
      var url := prefix + "redirect_uri=" + redirectUri + "&response_type=code&scope=openid%20email%20profile";
      assert url[..|prefix|] == prefix;
      Done(url)
  }

  /** Google's side of the callback: a failed exchange with the message the
      route raises, or the access token and the profile Google returned. */
  datatype GoogleReply =
    | ExchangeFailed(message: String)
    | Profile(accessToken: String, googleUserId: Option<String>, email: Option<String>, name: Option<String>)

  /** The tables after the callback's linking step, and the user signed in. */
  datatype Linked = Linked(users: seq<User>, accounts: seq<OAuthAccount>, userId: int)

  /** The callback's linking step:
      an existing Google link is reused; otherwise a user with the same
      address is linked; otherwise a new verified MEMBER is created and
      linked. A missing Google id or name violates a NOT NULL column when
      the rows are written. */
  function GoogleLink(users: seq<User>, accounts: seq<OAuthAccount>, reply: GoogleReply,
                      nextUserId: int, nextAccountId: int, passwordHash: String, now: Time): (r: AuthResult<Linked>)
    ensures reply.ExchangeFailed? ==> r == Raised(GoogleOAuthError(reply.message))
    ensures reply.Profile? && !TruthyStr(reply.email) ==> r == Raised(GoogleOAuthError(NoEmailFromGoogle))
    ensures r.Done? ==> reply.Profile? && TruthyStr(reply.email) && reply.googleUserId.Some?
    ensures r.Done? && FindGoogleAccount(accounts, reply.googleUserId).Some? ==>
              r.value == Linked(users, accounts, accounts[FindGoogleAccount(accounts, reply.googleUserId).value].userId)
    ensures r.Done? && FindGoogleAccount(accounts, reply.googleUserId).None? && FindUserByEmail(users, reply.email.value).Some? ==>
              r.value == Linked(users, accounts + [OAuthAccount(nextAccountId, FindUserByEmail(users, reply.email.value).value.id,
                                                                Google, reply.googleUserId.value, now)],
                                FindUserByEmail(users, reply.email.value).value.id)
    ensures r.Done? && FindGoogleAccount(accounts, reply.googleUserId).None? && FindUserByEmail(users, reply.email.value).None? ==>
              reply.name.Some? &&
              r.value == Linked(users + [NewGoogleUser(nextUserId, reply.email.value, reply.name.value, passwordHash, now)],
                                accounts + [OAuthAccount(nextAccountId, nextUserId, Google, reply.googleUserId.value, now)],
                                nextUserId)
  {
    match reply
    case ExchangeFailed(m) => Raised(GoogleOAuthError(m))
    case Profile(_, gid, email, name) =>
      if !TruthyStr(email) then Raised(GoogleOAuthError(NoEmailFromGoogle))
      else match FindGoogleAccount(accounts, gid)
        case Some(i) => Done(Linked(users, accounts, accounts[i].userId))
        case None =>
          if gid.None? then Crashed
          else match FindUserByEmail(users, email.value)
            case Some(u) => Done(Linked(users, accounts + [OAuthAccount(nextAccountId, u.id, Google, gid.value, now)], u.id))
            case None =>
              if name.None? then Crashed
              else
                var u := NewGoogleUser(nextUserId, email.value, name.value, passwordHash, now);
                Done(Linked(users + [u], accounts + [OAuthAccount(nextAccountId, u.id, Google, gid.value, now)], u.id))
  }

  /** The Google link for an id; a missing id (`provider_user_id IS NULL`) matches nothing. */
  function FindGoogleAccount(accounts: seq<OAuthAccount>, googleUserId: Option<String>): (r: Option<nat>)
    ensures r.Some? ==> r.value < |accounts| && accounts[r.value].provider == Google &&
                        googleUserId == Some(accounts[r.value].providerUserId)
    ensures googleUserId.None? ==> r.None?
  {
    if googleUserId.None? then None
    else FindFirst(accounts, (a: OAuthAccount) => a.provider == Google && a.providerUserId == googleUserId.value)
  }

  /** A user created by Google sign-in: MEMBER, address already verified. */
  function NewGoogleUser(id: int, email: String, name: String, passwordHash: String, now: Time): (u: User)
    ensures u.id == id && u.email == email && u.role == Member && IsActive(u)
  {
    User(id, email, passwordHash, name, None, Member, Some(now), None, now, now)
  }

  /** A user created from a verified registration code: MEMBER, verified. */
  function NewVerifiedUser(id: int, email: String, name: String, passwordHash: String, now: Time): (u: User)
    ensures u.id == id && u.email == email && u.name == name && u.role == Member && IsActive(u)
  {
    User(id, email, passwordHash, name, None, Member, Some(now), None, now, now)
  }

  /** Linking never creates a second account for an address: the user signed
      in is the one already holding the address whenever there is one. */
  lemma GoogleLinkKeepsUsersValid(users: seq<User>, accounts: seq<OAuthAccount>, reply: GoogleReply,
                                  nextUserId: int, nextAccountId: int, passwordHash: String, now: Time)
    requires UsersValid(users, nextUserId)
    requires GoogleLink(users, accounts, reply, nextUserId, nextAccountId, passwordHash, now).Done?
    ensures var l := GoogleLink(users, accounts, reply, nextUserId, nextAccountId, passwordHash, now).value;
            UsersValid(l.users, if |l.users| == |users| then nextUserId else nextUserId + 1)
    ensures var l := GoogleLink(users, accounts, reply, nextUserId, nextAccountId, passwordHash, now).value;
            FindGoogleAccount(accounts, reply.googleUserId).None? && FindUserByEmail(users, reply.email.value).Some? ==>
              l.userId == FindUserByEmail(users, reply.email.value).value.id
  {
    var l := GoogleLink(users, accounts, reply, nextUserId, nextAccountId, passwordHash, now).value;
    if |l.users| != |users| {
      AddUserKeepsValid(users, nextUserId, NewGoogleUser(nextUserId, reply.email.value, reply.name.value, passwordHash, now));
    }
  }

  // ---------------------------------------------------------------------
  // The store
  // ---------------------------------------------------------------------

  class AuthStore {
    var users: seq<User>
    var otps: seq<EmailOtp>
    var sessions: seq<UserSession>
    var accounts: seq<OAuthAccount>
    var nextUserId: int
    var nextOtpId: int
    var nextSessionId: int
    var nextAccountId: int

    ghost predicate Valid()
      reads this
    {
      UsersValid(users, nextUserId)
    }

    constructor ()
      ensures Valid() && users == [] && otps == [] && sessions == [] && accounts == []
    {
      users, otps, sessions, accounts := [], [], [], [];
      nextUserId, nextOtpId, nextSessionId, nextAccountId := 1, 1, 1, 1;
    }

    /** `send_registration_otp`: a registered address is refused; otherwise
        a fresh code replaces every unused one. */
    method SendRegistrationOtp(email: String, code: String, now: Time) returns (r: AuthResult<OtpSent>)
      requires Valid()
      modifies this
      ensures Valid()
      ensures FindUserByEmail(old(users), email).Some? ==> r == Raised(EmailAlreadyExistsError()) && unchanged(this)
      ensures FindUserByEmail(old(users), email).None? ==>
                r == Done(OtpSent(CodeSent, email)) &&
                otps == IssueOtp(old(otps), old(nextOtpId), email, Registration, code, now) &&
                nextOtpId == old(nextOtpId) + 1 &&
                users == old(users) && sessions == old(sessions) && accounts == old(accounts) && nextUserId == old(nextUserId)
    {
      if FindUserByEmail(users, email).Some? {
        return Raised(EmailAlreadyExistsError());
      }
      otps := IssueOtp(otps, nextOtpId, email, Registration, code, now);
      nextOtpId := nextOtpId + 1;
      r := Done(OtpSent(CodeSent, email));
    }

    /** `verify_registration_otp`: a usable code and an unused address give
        a verified MEMBER; the code is used up. */
    method VerifyRegistrationOtp(email: String, code: String, name: String, passwordHash: String, now: Time)
      returns (r: AuthResult<User>)
      requires Valid()
      modifies this
      ensures Valid()
      ensures FindValidOtp(old(otps), email, code, Registration, now).None? ==>
                r == Raised(InvalidTokenError(BadCode, "otp")) && unchanged(this)
      ensures FindValidOtp(old(otps), email, code, Registration, now).Some? && FindUserByEmail(old(users), email).Some? ==>
                r == Raised(EmailAlreadyExistsError()) && unchanged(this)
      ensures r.Done? ==>
                FindValidOtp(old(otps), email, code, Registration, now).Some? &&
                r.value == NewVerifiedUser(old(nextUserId), email, name, passwordHash, now) &&
                users == old(users) + [r.value] && nextUserId == old(nextUserId) + 1 &&
                otps == MarkUsed(old(otps), FindValidOtp(old(otps), email, code, Registration, now).value, now) &&
                sessions == old(sessions) && accounts == old(accounts)
      ensures !r.Crashed? && (r.Raised? ==> unchanged(this))
    {
      var i := FindValidOtp(otps, email, code, Registration, now);
      if i.None? {
        return Raised(InvalidTokenError(BadCode, "otp"));
      }
      if FindUserByEmail(users, email).Some? {
        return Raised(EmailAlreadyExistsError());
      }
      var u := NewVerifiedUser(nextUserId, email, name, passwordHash, now);
      AddUserKeepsValid(users, nextUserId, u);
      otps := MarkUsed(otps, i.value, now);
      users := users + [u];
      nextUserId := nextUserId + 1;
      r := Done(u);
    }

    /** `register` (the older route): an unverified MEMBER. */
    method Register(email: String, name: String, passwordHash: String, now: Time) returns (r: AuthResult<User>)
      requires Valid()
      modifies this
      ensures Valid()
      ensures FindUserByEmail(old(users), email).Some? ==> r == Raised(EmailAlreadyExistsError()) && unchanged(this)
      ensures FindUserByEmail(old(users), email).None? ==>
                r == Done(NewUser(old(nextUserId), email, passwordHash, name, now)) &&
                users == old(users) + [r.value] && nextUserId == old(nextUserId) + 1 &&
                otps == old(otps) && sessions == old(sessions) && accounts == old(accounts)
    {
      if FindUserByEmail(users, email).Some? {
        return Raised(EmailAlreadyExistsError());
      }
      var u := NewUser(nextUserId, email, passwordHash, name, now);
      AddUserKeepsValid(users, nextUserId, u);
      users := users + [u];
      nextUserId := nextUserId + 1;
      r := Done(u);
    }

    /** `login`: on success a session lasting seven days is recorded and the
        tokens are issued for the user's id. */
    method Login(email: String, password: String, verify: (String, String) -> bool, now: Time) returns (r: AuthResult<int>)
      requires Valid()
      modifies this
      ensures Valid()
      ensures LoginCheck(old(users), email, password, verify).Raised? ==>
                r == Raised(LoginCheck(old(users), email, password, verify).error) && unchanged(this)
      ensures LoginCheck(old(users), email, password, verify).Done? ==>
                r == Done(LoginCheck(old(users), email, password, verify).value.id) &&
                sessions == old(sessions) + [UserSession(old(nextSessionId), r.value, None, None, now + SessionLifetime, now, None)] &&
                nextSessionId == old(nextSessionId) + 1 &&
                users == old(users) && otps == old(otps) && accounts == old(accounts) && nextUserId == old(nextUserId)
    {
      var c := LoginCheck(users, email, password, verify);
      if c.Raised? {
        return Raised(c.error);
      }
      var u := c.value;
      sessions := sessions + [UserSession(nextSessionId, u.id, None, None, now + SessionLifetime, now, None)];
      nextSessionId := nextSessionId + 1;
      r := Done(u.id);
    }

    /** `verify_email`: the token's address must name a user; verifying twice
        is harmless. */
    method VerifyEmail(tokenEmail: Option<String>, now: Time) returns (r: AuthResult<String>)
      requires Valid()
      modifies this
      ensures Valid()
      ensures tokenEmail.None? || tokenEmail.value == [] ==> r == Raised(InvalidVerificationTokenError()) && unchanged(this)
      ensures TruthyStr(tokenEmail) && IndexOfEmail(old(users), tokenEmail.value).None? ==>
                r == Raised(UserNotFoundError(None)) && unchanged(this)
      ensures TruthyStr(tokenEmail) && IndexOfEmail(old(users), tokenEmail.value).Some? ==>
                var i := IndexOfEmail(old(users), tokenEmail.value).value;
                if IsActive(old(users)[i]) then r == Done(AlreadyVerified) && unchanged(this)
                else r == Done(Verified) && users == old(users)[i := old(users)[i].(emailVerifiedAt := Some(now))] &&
                     otps == old(otps) && sessions == old(sessions) && accounts == old(accounts) && nextUserId == old(nextUserId)
    {
      if !TruthyStr(tokenEmail) {
        return Raised(InvalidVerificationTokenError());
      }
      var i := IndexOfEmail(users, tokenEmail.value);
      if i.None? {
        return Raised(UserNotFoundError(None));
      }
      if IsActive(users[i.value]) {
        return Done(AlreadyVerified);
      }
      ReplaceUserKeepsValid(users, nextUserId, i.value, users[i.value].(emailVerifiedAt := Some(now)));
      users := users[i.value := users[i.value].(emailVerifiedAt := Some(now))];
      r := Done(Verified);
    }

    /** `send_password_reset_otp` (and the older `forgot_password`, which
        calls it): the answer never depends on whether the address is
        registered; a code is issued only when it is. */
    method SendPasswordResetOtp(email: String, code: String, now: Time) returns (r: OtpSent)
      requires Valid()
      modifies this
      ensures Valid()
      ensures r == OtpSent(ResetCodeSent, email)
      ensures FindUserByEmail(old(users), email).None? ==> unchanged(this)
      ensures FindUserByEmail(old(users), email).Some? ==>
                otps == IssueOtp(old(otps), old(nextOtpId), email, PasswordReset, code, now) &&
                nextOtpId == old(nextOtpId) + 1 &&
                users == old(users) && sessions == old(sessions) && accounts == old(accounts) && nextUserId == old(nextUserId)
    {
      r := OtpSent(ResetCodeSent, email);
      if FindUserByEmail(users, email).None? {
        return;
      }
      otps := IssueOtp(otps, nextOtpId, email, PasswordReset, code, now);
      nextOtpId := nextOtpId + 1;
    }

    /** Setting a new password and revoking every open session of the user. */
    method SetPasswordAndRevoke(i: nat, passwordHash: String, now: Time)
      requires Valid() && i < |users|
      modifies this
      ensures Valid()
      ensures users == old(users)[i := WithPassword(old(users)[i], passwordHash, now)]
      ensures sessions == RevokeOpen(old(sessions), old(users)[i].id, now)
      ensures otps == old(otps) && accounts == old(accounts) && nextUserId == old(nextUserId)
      ensures nextOtpId == old(nextOtpId) && nextSessionId == old(nextSessionId) && nextAccountId == old(nextAccountId)
    {
      var u := WithPassword(users[i], passwordHash, now);
      ReplaceUserKeepsValid(users, nextUserId, i, u);
      sessions := RevokeOpen(sessions, users[i].id, now);
      users := users[i := u];
    }

    /** `verify_password_reset_otp`: a usable code for a registered address
        sets the password, uses the code up and ends every open session. */
    method VerifyPasswordResetOtp(email: String, code: String, passwordHash: String, now: Time) returns (r: AuthResult<String>)
      requires Valid()
      modifies this
      ensures Valid()
      ensures FindValidOtp(old(otps), email, code, PasswordReset, now).None? ==>
                r == Raised(InvalidTokenError(BadCode, "otp")) && unchanged(this)
      ensures FindValidOtp(old(otps), email, code, PasswordReset, now).Some? && IndexOfEmail(old(users), email).None? ==>
                r == Raised(UserNotFoundError(None)) && unchanged(this)
      ensures FindValidOtp(old(otps), email, code, PasswordReset, now).Some? && IndexOfEmail(old(users), email).Some? ==>
                var i := IndexOfEmail(old(users), email).value;
                r == Done(PasswordChanged) &&
                otps == MarkUsed(old(otps), FindValidOtp(old(otps), email, code, PasswordReset, now).value, now) &&
                users == old(users)[i := WithPassword(old(users)[i], passwordHash, now)] &&
                sessions == RevokeOpen(old(sessions), old(users)[i].id, now) &&
                accounts == old(accounts) && nextUserId == old(nextUserId)
    {
      var k := FindValidOtp(otps, email, code, PasswordReset, now);
      if k.None? {
        return Raised(InvalidTokenError(BadCode, "otp"));
      }
      var i := IndexOfEmail(users, email);
      if i.None? {
        return Raised(UserNotFoundError(None));
      }
      otps := MarkUsed(otps, k.value, now);
      SetPasswordAndRevoke(i.value, passwordHash, now);
      r := Done(PasswordChanged);
    }

    /** `reset_password` (the older route): the reset token's address must
        name a user; the password is set and every open session ends. */
    method ResetPassword(tokenEmail: Option<String>, passwordHash: String, now: Time) returns (r: AuthResult<String>)
      requires Valid()
      modifies this
      ensures Valid()
      ensures !TruthyStr(tokenEmail) ==> r == Raised(InvalidResetTokenError()) && unchanged(this)
      ensures TruthyStr(tokenEmail) && IndexOfEmail(old(users), tokenEmail.value).None? ==>
                r == Raised(UserNotFoundError(None)) && unchanged(this)
      ensures TruthyStr(tokenEmail) && IndexOfEmail(old(users), tokenEmail.value).Some? ==>
                var i := IndexOfEmail(old(users), tokenEmail.value).value;
                r == Done(PasswordChanged) &&
                users == old(users)[i := WithPassword(old(users)[i], passwordHash, now)] &&
                sessions == RevokeOpen(old(sessions), old(users)[i].id, now) &&
                otps == old(otps) && accounts == old(accounts) && nextUserId == old(nextUserId)
    {
      if !TruthyStr(tokenEmail) {
        return Raised(InvalidResetTokenError());
      }
      var i := IndexOfEmail(users, tokenEmail.value);
      if i.None? {
        return Raised(UserNotFoundError(None));
      }
      SetPasswordAndRevoke(i.value, passwordHash, now);
      r := Done(PasswordChanged);
    }

    /** `google_callback`: link or create, then record a seven-day session. */
    method GoogleCallback(reply: GoogleReply, passwordHash: String, now: Time) returns (r: AuthResult<int>)
      requires Valid()
      modifies this
      ensures Valid()
      ensures !GoogleLink(old(users), old(accounts), reply, old(nextUserId), old(nextAccountId), passwordHash, now).Done? ==>
                unchanged(this) && !r.Done?
      ensures GoogleLink(old(users), old(accounts), reply, old(nextUserId), old(nextAccountId), passwordHash, now).Done? ==>
                var l := GoogleLink(old(users), old(accounts), reply, old(nextUserId), old(nextAccountId), passwordHash, now).value;
                r == Done(l.userId) && users == l.users && accounts == l.accounts &&
                sessions == old(sessions) + [UserSession(old(nextSessionId), l.userId, None, None, now + SessionLifetime, now, None)] &&
                otps == old(otps)
    {
      var g := GoogleLink(users, accounts, reply, nextUserId, nextAccountId, passwordHash, now);
      match g
      case Raised(e) => return Raised(e);
      case Crashed => return Crashed;
      case Done(l) =>
        GoogleLinkKeepsUsersValid(users, accounts, reply, nextUserId, nextAccountId, passwordHash, now);
        if |l.users| != |users| {
          nextUserId := nextUserId + 1;
        }
        if |l.accounts| != |accounts| {
          nextAccountId := nextAccountId + 1;
        }
        users, accounts := l.users, l.accounts;
        sessions := sessions + [UserSession(nextSessionId, l.userId, None, None, now + SessionLifetime, now, None)];
        nextSessionId := nextSessionId + 1;
        r := Done(l.userId);
    }

    /** `logout`: every open session of the caller is revoked. */
    method Logout(userId: int, now: Time) returns (r: String)
      requires Valid()
      modifies this
      ensures Valid()
      ensures r == LoggedOut
      ensures sessions == RevokeOpen(old(sessions), userId, now)
      ensures users == old(users) && otps == old(otps) && accounts == old(accounts) && nextUserId == old(nextUserId)
    {
      sessions := RevokeOpen(sessions, userId, now);
      r := LoggedOut;
    }
  }

  // ---------------------------------------------------------------------
  // The router's imports
  // ---------------------------------------------------------------------

  /** The names the router imports from app/db/models/auth.py. */
  const AuthRouterModelImports: seq<String> := ["UserSession", "OAuthAccount", "OAuthProvider", "EmailOTP"]

  /** The classes app/db/models/auth.py defines as written. */
  const AuthModelNamesAsWritten: seq<String> := ["OAuthProvider", "OAuthAccount", "UserSession"]

  /** With the one-time-code table the routes use (`EmailOtp` above). */
  const AuthModelNames: seq<String> := AuthModelNamesAsWritten + ["EmailOTP"]

  /** As written the import fails on `EmailOTP`, so the application, which
      imports the auth router at start-up, cannot start. */
  lemma AuthRouterImportFailsAsWritten()
    ensures !ImportsResolve(AuthRouterModelImports, AuthModelNamesAsWritten)
    ensures "EmailOTP" !in AuthModelNamesAsWritten
  {
    assert AuthRouterModelImports[3] == "EmailOTP";
  }

  /** With the code table defined, every imported name resolves. */
  lemma AuthRouterImportsResolve()
    ensures ImportsResolve(AuthRouterModelImports, AuthModelNames)
  {
    assert AuthModelNames[0] == "OAuthProvider" && AuthModelNames[1] == "OAuthAccount";
    assert AuthModelNames[2] == "UserSession" && AuthModelNames[3] == "EmailOTP";
  }
}
