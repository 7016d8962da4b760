/** The `users` table (app/db/models/user.py) and the session / OAuth
    tables (app/db/models/auth.py). */
module UserModel {
  import opened Common

  datatype UserRole = Member | Mentor | Admin

  /** The string stored in the database for a role. */
  function RoleValue(r: UserRole): String {
    match r
    case Member => "member"
    case Mentor => "mentor"
    case Admin => "admin"
  }

  /** `UserRole(value)`: the role whose value is `s`, or None where Python raises ValueError. */
  function ParseRole(s: String): (r: Option<UserRole>)
    ensures r.Some? ==> RoleValue(r.value) == s
  {
    if s == "member" then Some(Member)
    else if s == "mentor" then Some(Mentor)
    else if s == "admin" then Some(Admin)
    else None
  }

  lemma ParseRoleValue(r: UserRole)
    ensures ParseRole(RoleValue(r)) == Some(r)
  {
  }

  lemma ParseRoleExactlyValues(s: String)
    ensures ParseRole(s).Some? <==> s in {"member", "mentor", "admin"}
  {
  }

  datatype User = User(
    id: int,
    email: String,
    passwordHash: String,
    name: String,
    avatarUrl: Option<String>,
    role: UserRole,
    emailVerifiedAt: Option<Time>,
    stripeCustomerId: Option<String>,
    createdAt: Time,
    updatedAt: Time)

  /** A row as inserted with the column defaults: role MEMBER, e-mail not verified. */
  function NewUser(id: int, email: String, passwordHash: String, name: String, now: Time): (u: User)
    ensures u.role == Member && !IsActive(u) && !IsAdmin(u) && !IsMentor(u)
    ensures u.id == id && u.email == email && u.name == name
  {
    User(id, email, passwordHash, name, None, Member, None, None, now, now)
  }

  /** `User.is_active`: the e-mail address has been verified. */
  predicate IsActive(u: User) { u.emailVerifiedAt.Some? }

  predicate IsAdmin(u: User) { u.role == Admin }

  predicate IsMentor(u: User) { u.role == Mentor }

  /** A user holds at most one of the two elevated roles. */
  lemma RolesExclusive(u: User)
    ensures !(IsAdmin(u) && IsMentor(u))
    ensures u.role == Member <==> !IsAdmin(u) && !IsMentor(u)
  {
  }

  /** First user whose id matches (`query(User).filter(User.id == id).first()`). */
  function FindUser(users: seq<User>, id: int): (r: Option<User>)
    ensures r.Some? ==> r.value in users && r.value.id == id
    ensures r.None? ==> forall u :: u in users ==> u.id != id
  {
    match FindFirst(users, (u: User) => u.id == id)
    case None => None
    case Some(i) => Some(users[i])
  }

  function FindUserByEmail(users: seq<User>, email: String): (r: Option<User>)
    ensures r.Some? ==> r.value in users && r.value.email == email
    ensures r.None? ==> forall u :: u in users ==> u.email != email
  {
    match FindFirst(users, (u: User) => u.email == email)
    case None => None
    case Some(i) => Some(users[i])
  }

  // ----------------------------------------------------------------------
  // app/db/models/auth.py
  // ----------------------------------------------------------------------

  /** The only OAuth provider. */
  datatype OAuthProvider = Google

  function ProviderValue(p: OAuthProvider): (v: String)
    ensures v == "google"
  {
    match p case Google => "google"
  }

  datatype OAuthAccount = OAuthAccount(
    id: int,
    userId: int,
    provider: OAuthProvider,
    providerUserId: String,
    createdAt: Time)

  datatype UserSession = UserSession(
    id: int,
    userId: int,
    ipAddress: Option<String>,
    userAgent: Option<String>,
    expiresAt: Time,
    createdAt: Time,
    revokedAt: Option<Time>)

  /** `UserSession.is_active`: not revoked and not yet expired at `now`. */
  predicate SessionActive(s: UserSession, now: Time) {
    if s.revokedAt.Some? then false else now < s.expiresAt
  }

  /** Stamping `revoked_at` on a session. */
  function Revoke(s: UserSession, now: Time): (r: UserSession)
    ensures r.revokedAt == Some(now)
    ensures r.(revokedAt := s.revokedAt) == s
  {
    s.(revokedAt := Some(now))
  }

  /** A revoked session is never active, at any time. */
  lemma RevokedNeverActive(s: UserSession, t: Time, now: Time)
    ensures !SessionActive(Revoke(s, t), now)
  {
  }

  /** Activity depends only on revocation and expiry: once expired, a session
      stays inactive whatever its creation time. */
  lemma ExpiredSessionInactive(s: UserSession, now: Time, created: Time)
    requires now >= s.expiresAt
    ensures !SessionActive(s, now) && !SessionActive(s.(createdAt := created), now)
  {
  }

  /** An active session was active at every earlier instant too. */
  lemma SessionActiveEarlier(s: UserSession, t: Time, now: Time)
    requires t <= now && SessionActive(s, now)
    ensures SessionActive(s, t)
  {
  }
}
