// The account routes of app/api/v1/users.py: profile, avatar, password,
// activity log and account deletion. The signed-in user comes from the
// token dependency, which hands the route an existing row; password
// hashing and checking are the `hash` and `verify` oracles.

module UsersApi {
  import opened Common
  import opened UserModel
  import LoungeModel
  import ChatModel
  import NoteModel
  import FileModel
  import FileService
  import AuthApi

  const UserNotFound: String := "User not found"
  const WrongPassword: String := "Incorrect current password"
  const PasswordChanged: String := "Password changed successfully"
  const AvatarFailed: String := "Failed to upload avatar"

  /** Every row with the signed-in user's id, changed by `f`; the id is the
      primary key, so that is one row. */
  function UpdateUser(users: seq<User>, userId: int, f: User -> User): (r: seq<User>)
    ensures |r| == |users|
    ensures forall k :: 0 <= k < |r| ==> r[k] == (if users[k].id == userId then f(users[k]) else users[k])
  {
    seq(|users|, k requires 0 <= k < |users| => if users[k].id == userId then f(users[k]) else users[k])
  }

  // ----------------------------------------------------------------------
  // Profile
  // ----------------------------------------------------------------------

  /** `update_current_user_profile`: a given name or avatar replaces the old
      one, `updated_at` is refreshed, nothing else changes. */
  function PatchProfile(u: User, name: Option<String>, avatarUrl: Option<String>, now: Time): (r: User)
    ensures r.name == (if name.Some? then name.value else u.name)
    ensures r.avatarUrl == (if avatarUrl.Some? then avatarUrl else u.avatarUrl)
    ensures r.updatedAt == now
    ensures r.(name := u.name, avatarUrl := u.avatarUrl, updatedAt := u.updatedAt) == u
  {
    u.(name := if name.Some? then name.value else u.name,
       avatarUrl := if avatarUrl.Some? then avatarUrl else u.avatarUrl,
       updatedAt := now)
  }

  /** An update that gives nothing only refreshes the timestamp, and a
      later update wins field by field. */
  lemma PatchProfileTwice(u: User, n1: Option<String>, a1: Option<String>, t1: Time,
                          n2: Option<String>, a2: Option<String>, t2: Time)
    ensures PatchProfile(u, None, None, t1) == u.(updatedAt := t1)
    ensures PatchProfile(PatchProfile(u, n1, a1, t1), n2, a2, t2) ==
            PatchProfile(u, if n2.Some? then n2 else n1, if a2.Some? then a2 else a1, t2)
  {
  }

  // ----------------------------------------------------------------------
  // Avatar
  // ----------------------------------------------------------------------

  const AvatarTypes: seq<String> := ["image/jpeg", "image/jpg", "image/png", "image/gif", "image/webp"]
  const AvatarExtensions: seq<String> := ["jpg", "jpeg", "png", "gif", "webp"]

  /** Why `upload_avatar` refuses a file before uploading it: first the
      declared content type, then the extension of the file name. */
  function AvatarRefusal(contentType: Option<String>, filename: Option<String>): (r: Option<String>)
    ensures r.None? <==> contentType.Some? && contentType.value in AvatarTypes &&
                         FileService.FileExtension(if filename.Some? then filename.value else "") in AvatarExtensions
    ensures (contentType.None? || contentType.value !in AvatarTypes) ==>
              r == Some("Invalid file type. Allowed types: " + Join(AvatarTypes, ", "))
  {
    if contentType.None? || contentType.value !in AvatarTypes then
      Some("Invalid file type. Allowed types: " + Join(AvatarTypes, ", "))
    else if FileService.FileExtension(if filename.Some? then filename.value else "") !in AvatarExtensions then
      Some("Invalid file extension. Allowed: " + Join(AvatarExtensions, ", "))
    else None
  }

  /** An accepted avatar is declared as an image. */
  lemma AcceptedAvatarIsImage(contentType: Option<String>, filename: Option<String>)
    requires AvatarRefusal(contentType, filename).None?
    ensures contentType.Some? && |contentType.value| > 6 && contentType.value[..6] == "image/"
  {
    var t := contentType.value;
    assert t == "image/jpeg" || t == "image/jpg" || t == "image/png" || t == "image/gif" || t == "image/webp";
  }

  // ----------------------------------------------------------------------
  // Activity
  // ----------------------------------------------------------------------

  datatype Details =
    | LoungeDetails(loungeId: int, loungeTitle: Option<String>)
    | ThreadDetails(threadId: int, threadTitle: Option<String>, threadLoungeId: Option<int>)
    | NoteDetails(noteId: int, noteTitle: String)
    | CapsuleDetails(capsuleId: int, capsuleTitle: String, unlockAt: Option<Time>)

  /** One entry of `GET /users/me/activity`. */
  datatype Activity = Activity(id: int, action: String, timestamp: Time, details: Details)

  /** A membership: joined while it lasts, else left, stamped accordingly. */
  function MembershipActivity(m: LoungeModel.Membership, lounges: seq<LoungeModel.Lounge>): (r: Activity)
    ensures m.leftAt.None? ==> r.action == "joined_lounge" && r.timestamp == m.joinedAt
    ensures m.leftAt.Some? ==> r.action == "left_lounge" && r.timestamp == m.leftAt.value
    ensures r.id == m.id && r.details.LoungeDetails? && r.details.loungeId == m.loungeId
  {
    var title := match LoungeModel.FindLounge(lounges, m.loungeId)
                 case None => None
                 case Some(i) => Some(lounges[i].title);
    if m.leftAt.None? then Activity(m.id, "joined_lounge", m.joinedAt, LoungeDetails(m.loungeId, title))
    else Activity(m.id, "left_lounge", m.leftAt.value, LoungeDetails(m.loungeId, title))
  }

  function ThreadActivity(t: ChatModel.ChatThread): Activity {
    Activity(t.id, "created_chat_thread", t.createdAt, ThreadDetails(t.id, t.title, t.loungeId))
  }

  function NoteActivity(n: NoteModel.Note): Activity {
    Activity(n.id, "created_note", n.createdAt, NoteDetails(n.id, n.title))
  }

  function CapsuleActivity(c: NoteModel.TimeCapsule): Activity {
    Activity(c.id, "created_capsule", c.createdAt, CapsuleDetails(c.id, c.title, Some(c.unlockAt)))
  }

  function Mapped<T>(rows: seq<T>, f: T -> Activity): (r: seq<Activity>)
    ensures |r| == |rows| && forall k :: 0 <= k < |rows| ==> r[k] == f(rows[k])
  {
    seq(|rows|, k requires 0 <= k < |rows| => f(rows[k]))
  }

  /** Python's `s[:n]`: a negative `n` drops that many from the end. */
  function SliceTo<T>(s: seq<T>, n: int): (r: seq<T>)
    ensures n >= 0 ==> r == Take(s, n)
    ensures n < 0 ==> |r| == Max(0, |s| + n)
    ensures r == s[..|r|]
  {
    if n >= 0 then Take(s, n) else s[..Max(0, |s| + n)]
  }

  function MembershipsOf(userId: int, ms: seq<LoungeModel.Membership>): seq<LoungeModel.Membership> {
    Filter(ms, (m: LoungeModel.Membership) => m.userId == userId)
  }

  function ThreadsOf(userId: int, ts: seq<ChatModel.ChatThread>): seq<ChatModel.ChatThread> {
    Filter(ts, (t: ChatModel.ChatThread) => t.userId == userId)
  }

  function NotesOf(userId: int, ns: seq<NoteModel.Note>): seq<NoteModel.Note> {
    Filter(ns, (n: NoteModel.Note) => n.userId == userId)
  }

  function CapsulesOf(userId: int, cs: seq<NoteModel.TimeCapsule>): seq<NoteModel.TimeCapsule> {
    Filter(cs, (c: NoteModel.TimeCapsule) => c.userId == userId)
  }

  function MembershipEntry(lounges: seq<LoungeModel.Lounge>): LoungeModel.Membership -> Activity {
    (m: LoungeModel.Membership) => MembershipActivity(m, lounges)
  }

  /** The user's rows of each relation, each cut to `limit`, in the order
      the entries are appended. */
  function Merged(userId: int, memberships: seq<LoungeModel.Membership>, lounges: seq<LoungeModel.Lounge>,
                  threads: seq<ChatModel.ChatThread>, notes: seq<NoteModel.Note>,
                  capsules: seq<NoteModel.TimeCapsule>, limit: int): seq<Activity>
  {
    Mapped(SliceTo(MembershipsOf(userId, memberships), limit), MembershipEntry(lounges)) +
    Mapped(SliceTo(ThreadsOf(userId, threads), limit), ThreadActivity) +
    Mapped(SliceTo(NotesOf(userId, notes), limit), NoteActivity) +
    Mapped(SliceTo(CapsulesOf(userId, capsules), limit), CapsuleActivity)
  }

  function ByTimestampDesc(a: Activity): Key { (a.timestamp, 0) }

  /** `activity.sort(key=timestamp, reverse=True)`, then `[:limit]`. */
  function NewestActivity(merged: seq<Activity>, limit: int): seq<Activity> {
    SliceTo(SortDesc(merged, ByTimestampDesc), limit)
  }

  /** The log is newest first, holds at most `limit` entries when `limit`
      is not negative (every entry when there are fewer), and every entry
      comes from the merged lists. */
  lemma ActivitySound(merged: seq<Activity>, limit: int)
    ensures var r := NewestActivity(merged, limit);
            (limit >= 0 ==> |r| == Min(limit, |merged|)) &&
            (forall i, j :: 0 <= i < j < |r| ==> r[i].timestamp >= r[j].timestamp) &&
            (forall k :: 0 <= k < |r| ==> r[k] in merged)
  {
    var sorted := SortDesc(merged, ByTimestampDesc);
    SortDescFacts(merged, ByTimestampDesc);
    var r := NewestActivity(merged, limit);
    forall i, j | 0 <= i < j < |r| ensures r[i].timestamp >= r[j].timestamp {
      assert r[i] == sorted[i] && r[j] == sorted[j];
      assert KeyGe(ByTimestampDesc(sorted[i]), ByTimestampDesc(sorted[j]));
    }
    forall k | 0 <= k < |r| ensures r[k] in merged {
      assert r[k] == sorted[k];
      assert sorted[k] in multiset(merged);
    }
  }

  /** Appending one relation's entries, as each `for` loop of the route does. */
  method AppendAll<T>(acc: seq<Activity>, rows: seq<T>, f: T -> Activity) returns (r: seq<Activity>)
    ensures r == acc + Mapped(rows, f)
  {
    r := acc;
    var k := 0;
    while k < |rows|
      invariant 0 <= k <= |rows|
      invariant r == acc + Mapped(rows[..k], f)
    {
      assert Mapped(rows[..k + 1], f) == Mapped(rows[..k], f) + [f(rows[k])];
      r := r + [f(rows[k])];
      k := k + 1;
    }
    assert rows[..k] == rows;
  }

  /** `get_user_activity` */
  method UserActivity(userId: int, memberships: seq<LoungeModel.Membership>, lounges: seq<LoungeModel.Lounge>,
                      threads: seq<ChatModel.ChatThread>, notes: seq<NoteModel.Note>,
                      capsules: seq<NoteModel.TimeCapsule>, limit: int) returns (r: seq<Activity>)
    ensures r == NewestActivity(Merged(userId, memberships, lounges, threads, notes, capsules, limit), limit)
  {
    var activity: seq<Activity> := [];
    activity := AppendAll(activity, SliceTo(MembershipsOf(userId, memberships), limit), MembershipEntry(lounges));
    activity := AppendAll(activity, SliceTo(ThreadsOf(userId, threads), limit), ThreadActivity);
    activity := AppendAll(activity, SliceTo(NotesOf(userId, notes), limit), NoteActivity);
    activity := AppendAll(activity, SliceTo(CapsulesOf(userId, capsules), limit), CapsuleActivity);
    assert [] + Mapped(SliceTo(MembershipsOf(userId, memberships), limit), MembershipEntry(lounges)) ==
           Mapped(SliceTo(MembershipsOf(userId, memberships), limit), MembershipEntry(lounges));
    assert activity == Merged(userId, memberships, lounges, threads, notes, capsules, limit);
    var sorted := SortDesc(activity, ByTimestampDesc);
    SortDescFacts(activity, ByTimestampDesc);
    r := SliceTo(sorted, limit);
  }

  // ----------------------------------------------------------------------
  // Account deletion
  // ----------------------------------------------------------------------

  function DeletedEmail(id: int): String { "deleted_" + IntToString(id) + "@deleted.com" }
  function DeletedName(id: int): String { "Deleted User " + IntToString(id) }

  /** The anonymised row: address, name, avatar and password are replaced;
      the ORM's `onupdate` stamps `updated_at`. */
  function Anonymise(u: User, hash: String -> String, now: Time): (r: User)
    ensures r.email == DeletedEmail(u.id) && r.name == DeletedName(u.id) && r.avatarUrl.None?
    ensures r.passwordHash == hash("deleted_" + IntToString(u.id))
    ensures r.id == u.id && r.role == u.role && r.emailVerifiedAt == u.emailVerifiedAt && r.createdAt == u.createdAt
  {
    u.(email := DeletedEmail(u.id), name := DeletedName(u.id), avatarUrl := None,
       passwordHash := hash("deleted_" + IntToString(u.id)), updatedAt := now)
  }

  /** With unique addresses, the deleted user's old address is free again
      (unless it already was the placeholder), and nobody else's changes. */
  lemma AnonymiseFreesEmail(users: seq<User>, i: nat, hash: String -> String, now: Time)
    requires i < |users|
    requires forall a, b :: 0 <= a < b < |users| ==> users[a].id != users[b].id && users[a].email != users[b].email
    requires users[i].email != DeletedEmail(users[i].id)
    ensures var t := UpdateUser(users, users[i].id, (u: User) => Anonymise(u, hash, now));
            (forall v :: v in t ==> v.email != users[i].email) &&
            (forall k :: 0 <= k < |users| && k != i ==> t[k] == users[k])
  {
    var t := UpdateUser(users, users[i].id, (u: User) => Anonymise(u, hash, now));
    forall v | v in t ensures v.email != users[i].email {
      var k :| 0 <= k < |t| && t[k] == v;
      if k != i {
        assert users[k].id != users[i].id;
        assert users[k].email != users[i].email;
      }
    }
  }

  /** Revoking the open sessions one by one: the loop of `delete_current_user`. */
  method RevokeSessions(sessions: seq<UserSession>, userId: int, now: Time) returns (r: seq<UserSession>)
    ensures r == AuthApi.RevokeOpen(sessions, userId, now)
  {
    ghost var want := AuthApi.RevokeOpen(sessions, userId, now);
    r := sessions;
    var k := 0;
    while k < |r|
      invariant 0 <= k <= |r| == |sessions| == |want|
      invariant forall j :: 0 <= j < k ==> r[j] == want[j]
      invariant forall j :: k <= j < |r| ==> r[j] == sessions[j]
    {
      if r[k].userId == userId && r[k].revokedAt.None? {
        r := r[k := Revoke(r[k], now)];
      }
      assert r[k] == want[k];
      k := k + 1;
    }
    assert r == want;
  }

  // ----------------------------------------------------------------------
  // The tables
  // ----------------------------------------------------------------------

  class AccountStore {
    var users: seq<User>
    var sessions: seq<UserSession>
    /** The `files` table and the bucket. */
    const files: FileService.FileStore

    ghost predicate Valid()
      reads this, files
    {
      files.Valid()
    }

    constructor()
      ensures Valid() && users == [] && sessions == [] && fresh(files)
    {
      users := [];
      sessions := [];
      files := new FileService.FileStore();
    }

    /** `PUT /users/me` */
    method UpdateProfile(userId: int, name: Option<String>, avatarUrl: Option<String>, now: Time) returns (r: User)
      requires FindUser(users, userId).Some?
      modifies this
      ensures r == PatchProfile(FindUser(old(users), userId).value, name, avatarUrl, now)
      ensures users == UpdateUser(old(users), userId, (u: User) => PatchProfile(u, name, avatarUrl, now))
      ensures sessions == old(sessions)
    {
      r := PatchProfile(FindUser(users, userId).value, name, avatarUrl, now);
      users := UpdateUser(users, userId, (u: User) => PatchProfile(u, name, avatarUrl, now));
    }

    /** `POST /users/me/avatar`: the type and extension checks answer 400;
        the upload service's own refusals (a ValueError) answer 400 with
        its message; a storage or link failure answers 500. On success the
        avatar is the new file's download link. */
    method UploadAvatar(userId: int, content: seq<bv8>, filename: Option<String>, contentType: Option<String>,
                        guessedType: Option<String>, date: String, uuid: String, maxMb: int,
                        allowed: seq<String>, s3Error: Option<String>,
                        presign: (String, int) -> String, s3Fails: bool, now: Time)
      returns (r: Outcome<User>)
      requires Valid() && FindUser(users, userId).Some?
      requires FileService.StoragePath("avatars", date, uuid, if filename.Some? then filename.value else "") !in files.objects
      modifies this, files
      ensures Valid()
      ensures AvatarRefusal(contentType, filename).Some? ==>
                r == HttpError(400, AvatarRefusal(contentType, filename).value) &&
                users == old(users) && files.files == old(files.files)
      ensures r.Ok? <==> AvatarRefusal(contentType, filename).None? &&
                         FileService.UploadRefusalOf(|content|, if filename.Some? then filename.value else "", maxMb, allowed).None? &&
                         s3Error.None? && !s3Fails
      ensures r.Ok? ==> r.value.avatarUrl.Some? && r.value.id == userId &&
                        users == UpdateUser(old(users), userId, (u: User) => u.(avatarUrl := r.value.avatarUrl, updatedAt := now))
      ensures r.HttpError? ==> users == old(users)
      ensures (AvatarRefusal(contentType, filename).None? &&
               FileService.UploadRefusalOf(|content|, if filename.Some? then filename.value else "", maxMb, allowed).None? &&
               (s3Error.Some? || s3Fails)) ==> r == HttpError(500, AvatarFailed)
      ensures sessions == old(sessions)
    {
      var refusal := AvatarRefusal(contentType, filename);
      if refusal.Some? {
        return HttpError(400, refusal.value);
      }
      var name := if filename.Some? then filename.value else "";
      var upload := files.UploadFile(content, name, contentType, guessedType, userId, "avatars", date, uuid,
                                     maxMb, allowed, s3Error, now);
      if upload.Failure? {
        if FileService.UploadRefusalOf(|content|, name, maxMb, allowed).Some? {
          return HttpError(400, upload.error);
        }
        return HttpError(500, AvatarFailed);
      }
      var url := files.GetFileUrl(upload.value.id, 3600, presign, s3Fails);
      if url.Failure? {
        return HttpError(500, AvatarFailed);
      }
      var u := FindUser(users, userId).value.(avatarUrl := Some(url.value), updatedAt := now);
      users := UpdateUser(users, userId, (v: User) => v.(avatarUrl := Some(url.value), updatedAt := now));
      r := Ok(u);
    }

    /** `DELETE /users/me/avatar` */
    method RemoveAvatar(userId: int, now: Time) returns (r: User)
      requires FindUser(users, userId).Some?
      modifies this
      ensures r.avatarUrl.None? && r == FindUser(old(users), userId).value.(avatarUrl := None, updatedAt := now)
      ensures users == UpdateUser(old(users), userId, (u: User) => u.(avatarUrl := None, updatedAt := now))
      ensures sessions == old(sessions)
    {
      r := FindUser(users, userId).value.(avatarUrl := None, updatedAt := now);
      users := UpdateUser(users, userId, (u: User) => u.(avatarUrl := None, updatedAt := now));
    }

    /** `PATCH /users/me/password`: a wrong current password answers 400 and
        changes nothing; otherwise the new password's hash is stored. */
    method ChangePassword(userId: int, current: String, newPassword: String, verify: (String, String) -> bool,
                          hash: String -> String, now: Time) returns (r: Outcome<String>)
      requires FindUser(users, userId).Some?
      modifies this
      ensures !verify(current, FindUser(old(users), userId).value.passwordHash) <==> r == HttpError(400, WrongPassword)
      ensures r.HttpError? ==> users == old(users)
      ensures r.Ok? ==> r.value == PasswordChanged &&
                        users == UpdateUser(old(users), userId, (u: User) => AuthApi.WithPassword(u, hash(newPassword), now))
      ensures sessions == old(sessions)
    {
      if !verify(current, FindUser(users, userId).value.passwordHash) {
        return HttpError(400, WrongPassword);
      }
      users := UpdateUser(users, userId, (u: User) => AuthApi.WithPassword(u, hash(newPassword), now));
      r := Ok(PasswordChanged);
    }

    /** `DELETE /users/me`: the row is anonymised and every open session of
        the user is revoked. */
    method DeleteAccount(userId: int, hash: String -> String, now: Time)
      requires FindUser(users, userId).Some?
      modifies this
      ensures users == UpdateUser(old(users), userId, (u: User) => Anonymise(u, hash, now))
      ensures sessions == AuthApi.RevokeOpen(old(sessions), userId, now)
    {
      users := UpdateUser(users, userId, (u: User) => Anonymise(u, hash, now));
      sessions := RevokeSessions(sessions, userId, now);
    }

    /** `GET /users/{user_id}` */
    function GetUser(userId: int): (r: Outcome<User>)
      reads this
      ensures r.HttpError? <==> forall u :: u in users ==> u.id != userId
      ensures r.HttpError? ==> r == HttpError(404, UserNotFound)
      ensures r.Ok? ==> r.value in users && r.value.id == userId
    {
      match FindUser(users, userId)
      case None => HttpError(404, UserNotFound)
      case Some(u) => Ok(u)
    }
  }

  /** After a password change, the new password is the one that checks
      against the stored hash, for any hash the check accepts. */
  lemma ChangedPasswordVerifies(users: seq<User>, userId: int, newPassword: String, verify: (String, String) -> bool,
                                hash: String -> String, now: Time)
    requires forall p :: verify(p, hash(p))
    ensures var t := UpdateUser(users, userId, (u: User) => AuthApi.WithPassword(u, hash(newPassword), now));
            forall k :: 0 <= k < |t| && t[k].id == userId ==> verify(newPassword, t[k].passwordHash)
  {
  }

  /** After deletion no open session of the user is active at any time. */
  lemma DeletionEndsSessions(sessions: seq<UserSession>, userId: int, now: Time, t: Time)
    ensures forall k :: 0 <= k < |sessions| && sessions[k].userId == userId ==>
              !SessionActive(AuthApi.RevokeOpen(sessions, userId, now)[k], t)
  {
    AuthApi.RevokeEndsSessions(sessions, userId, now, t);
  }
}
