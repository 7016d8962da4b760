// The bearer-token admission chain of app/core/jwt.py.
//
// Decoding and signature checking are python-jose's business: the model takes
// the decoded payload as a value, None when `decode_token` returned None
// (bad signature, expired, malformed).

module Jwt {
  import opened Common
  import opened UserModel

  /** The claims the admission reads. A claim the token does not carry is
      None. python-jose refuses a non-string "sub" while decoding, so a
      present subject is text. */
  datatype Payload = Payload(tokenType: Option<String>, sub: Option<String>)

  const CouldNotValidate: String := "Could not validate credentials"
  const InvalidTokenType: String := "Invalid token type"
  const EmailNotVerified: String := "Email not verified"
  const MentorRequired: String := "Not authorized. Mentor access required."
  const AdminRequired: String := "Not authorized. Admin access required."

  const AccessType: String := "access"

  /** `int(payload["sub"])`, None when the claim is missing or not a decimal. */
  function SubjectId(p: Payload): (r: Option<int>)
    ensures r.Some? ==> p.sub.Some? && ParseInt(p.sub.value) == r
    ensures p.sub.Some? && ParseInt(p.sub.value).Some? ==> r.Some?
  {
    if p.sub.None? then None else ParseInt(p.sub.value)
  }

  /** The user a payload names, when it is an access token for a known id. */
  function PayloadUser(p: Payload, users: seq<User>): Option<User>
  {
    if p.tokenType != Some(AccessType) then None
    else match SubjectId(p)
      case None => None
      case Some(id) => FindUser(users, id)
  }

  /** `get_current_user`: every refusal is a 401; a wrong token type has
      its own detail, every other refusal the generic one. */
  function CurrentUser(decoded: Option<Payload>, users: seq<User>): (r: Outcome<User>)
    ensures r.Ok? <==> decoded.Some? && PayloadUser(decoded.value, users).Some?
    ensures r.Ok? ==> r.value in users && Some(r.value.id) == SubjectId(decoded.value)
    ensures r.HttpError? ==> r.status == 401
    ensures r.HttpError? && r.detail == InvalidTokenType <==>
              decoded.Some? && decoded.value.tokenType != Some(AccessType)
  {
    if decoded.None? then HttpError(401, CouldNotValidate)
    else if decoded.value.tokenType != Some(AccessType) then HttpError(401, InvalidTokenType)
    else match SubjectId(decoded.value)
      case None => HttpError(401, CouldNotValidate)
      case Some(id) =>
        match FindUser(users, id)
        case None => HttpError(401, CouldNotValidate)
        case Some(u) => Ok(u)
  }

  /** `get_current_active_user`: a 403 for a user whose e-mail is unverified. */
  function CurrentActiveUser(decoded: Option<Payload>, users: seq<User>): (r: Outcome<User>)
    ensures r.Ok? <==> CurrentUser(decoded, users).Ok? && IsActive(CurrentUser(decoded, users).value)
    ensures r.Ok? ==> r == CurrentUser(decoded, users)
    ensures CurrentUser(decoded, users).HttpError? ==> r == CurrentUser(decoded, users)
  {
    match CurrentUser(decoded, users)
    case HttpError(s, d) => HttpError(s, d)
    case Ok(u) => if u.emailVerifiedAt.None? then HttpError(403, EmailNotVerified) else Ok(u)
  }

  /** `get_current_mentor`: role "mentor" on top of an active user. */
  function CurrentMentor(decoded: Option<Payload>, users: seq<User>): (r: Outcome<User>)
    ensures r.Ok? <==> CurrentActiveUser(decoded, users).Ok? && CurrentActiveUser(decoded, users).value.role == Mentor
  {
    match CurrentActiveUser(decoded, users)
    case HttpError(s, d) => HttpError(s, d)
    case Ok(u) => if u.role != Mentor then HttpError(403, MentorRequired) else Ok(u)
  }

  /** `get_current_admin`: role "admin" on top of an active user. */
  function CurrentAdmin(decoded: Option<Payload>, users: seq<User>): (r: Outcome<User>)
    ensures r.Ok? <==> CurrentActiveUser(decoded, users).Ok? && CurrentActiveUser(decoded, users).value.role == Admin
  {
    match CurrentActiveUser(decoded, users)
    case HttpError(s, d) => HttpError(s, d)
    case Ok(u) => if u.role != Admin then HttpError(403, AdminRequired) else Ok(u)
  }

  /** `get_optional_current_user`: never refuses; None for missing
      credentials and for every token `get_current_user` would refuse. */
  function OptionalCurrentUser(credentials: Option<Option<Payload>>, users: seq<User>): (r: Option<User>)
    ensures credentials.None? ==> r.None?
  {
    if credentials.None? then None
    else
      var decoded := credentials.value;
      if decoded.None? then None else PayloadUser(decoded.value, users)
  }

  /** Anonymous access agrees with authenticated access: with credentials
      present, the optional dependency yields exactly the user that
      `get_current_user` admits, and None exactly where it refuses. */
  lemma OptionalAgreesWithCurrent(decoded: Option<Payload>, users: seq<User>)
    ensures OptionalCurrentUser(Some(decoded), users).Some? <==> CurrentUser(decoded, users).Ok?
    ensures CurrentUser(decoded, users).Ok? ==>
              OptionalCurrentUser(Some(decoded), users) == Some(CurrentUser(decoded, users).value)
  {
  }

  /** The chain only narrows: whoever a mentor or admin dependency admits is
      the same user the plain dependency admits, verified, with that role,
      and no caller passes both. */
  lemma AdmissionChain(decoded: Option<Payload>, users: seq<User>)
    ensures CurrentMentor(decoded, users).Ok? ==>
              CurrentUser(decoded, users) == CurrentMentor(decoded, users) &&
              IsActive(CurrentMentor(decoded, users).value) && IsMentor(CurrentMentor(decoded, users).value)
    ensures CurrentAdmin(decoded, users).Ok? ==>
              CurrentUser(decoded, users) == CurrentAdmin(decoded, users) &&
              IsActive(CurrentAdmin(decoded, users).value) && IsAdmin(CurrentAdmin(decoded, users).value)
    ensures !(CurrentMentor(decoded, users).Ok? && CurrentAdmin(decoded, users).Ok?)
  {
  }

  /** A refresh token never authenticates, whatever its subject. */
  lemma RefreshTokenRefused(sub: Option<String>, users: seq<User>)
    ensures CurrentUser(Some(Payload(Some("refresh"), sub)), users) == HttpError(401, InvalidTokenType)
    ensures OptionalCurrentUser(Some(Some(Payload(Some("refresh"), sub))), users).None?
  {
  }
}
