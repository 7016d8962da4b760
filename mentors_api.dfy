// The mentor directory, mentor applications, their approval and the lounge
// categories of app/api/v1/mentors.py.
//
// Request bodies reach the handlers after their schema validation (see
// Schemas.ValidateMentorApplication and Schemas.ValidateMentorUpdate); the
// caller has already been admitted by the dependency the route names.

module MentorsApi {
  import opened Common
  import opened MentorModel
  import opened LoungeModel
  import UserModel
  import Schemas

  const MentorNotFound: String := "Mentor not found"
  const AlreadyMentor: String := "You already have a mentor profile"
  const ProfileMissing: String := "Mentor profile not found. Apply first."
  const SlugTaken: String := "Category with this slug already exists"

  /** The value of a `MentorStatus` member. */
  function StatusText(s: MentorStatus): String
  {
    match s
    case Pending => "pending"
    case Approved => "approved"
    case Disabled => "disabled"
  }

  /** The 400 detail of `approve_mentor` for a profile that is not pending. */
  function NotPending(s: MentorStatus): String
  {
    "Mentor is not pending (current status: " + StatusText(s) + ")"
  }

  // ----------------------------------------------------------------------
  // Counts shown with a profile
  // ----------------------------------------------------------------------

  /** `count(Lounge.id)` over the lounges of a mentor. */
  function LoungeCount(lounges: seq<Lounge>, mentorId: int): nat
  {
    Count(lounges, (l: Lounge) => l.mentorId == mentorId)
  }

  /** The membership's lounge (joined on `lounge_id`) belongs to the mentor. */
  predicate InMentorLounge(lounges: seq<Lounge>, loungeId: int, mentorId: int)
  {
    var i := FindLounge(lounges, loungeId);
    i.Some? && lounges[i.value].mentorId == mentorId
  }

  /** `count(LoungeMembership.id)` joined with the lounge, active memberships
      in the mentor's lounges only. */
  function MentorMemberCount(lounges: seq<Lounge>, ms: seq<Membership>, mentorId: int): nat
  {
    Count(ms, (m: Membership) => m.leftAt.None? && InMentorLounge(lounges, m.loungeId, mentorId))
  }

  /** A member who left, or a membership in another mentor's lounge, adds
      nothing to the member count. */
  lemma {:induction false} MemberCountSnoc(lounges: seq<Lounge>, ms: seq<Membership>, m: Membership, mentorId: int)
    ensures MentorMemberCount(lounges, ms + [m], mentorId) ==
              MentorMemberCount(lounges, ms, mentorId) + (if m.leftAt.None? && InMentorLounge(lounges, m.loungeId, mentorId) then 1 else 0)
    ensures MentorMemberCount(lounges, ms, mentorId) <= |ms|
  {
    CountSnoc(ms, m, (x: Membership) => x.leftAt.None? && InMentorLounge(lounges, x.loungeId, mentorId));
  }

  // ----------------------------------------------------------------------
  // GET /mentors/
  // ----------------------------------------------------------------------

  /** The status filter: the requested status, APPROVED when none is given. */
  function WantedStatus(status: Option<MentorStatus>): MentorStatus
  {
    if status.Some? then status.value else Approved
  }

  /** The search filter: a non-empty term must occur, case-insensitively,
      in the headline, the bio or the user's name. */
  predicate MatchesSearch(m: Mentor, u: UserModel.User, search: Option<String>)
  {
    !TruthyStr(search) ||
    ILikeOpt(m.headline, search.value) || ILikeOpt(m.bio, search.value) || ILike(u.name, search.value)
  }

  /** One row of the joined, filtered query: the profile has a user row,
      has the wanted status, matches the search and has at least the asked
      experience. */
  predicate Listed(m: Mentor, users: seq<UserModel.User>, status: Option<MentorStatus>,
                   search: Option<String>, minExperience: Option<int>)
  {
    UserModel.FindUser(users, m.userId).Some? &&
    m.status == WantedStatus(status) &&
    MatchesSearch(m, UserModel.FindUser(users, m.userId).value, search) &&
    (minExperience.None? || m.experienceYears >= minExperience.value)
  }

  function ListedMentors(mentors: seq<Mentor>, users: seq<UserModel.User>, status: Option<MentorStatus>,
                         search: Option<String>, minExperience: Option<int>): seq<Mentor>
  {
    Filter(mentors, (m: Mentor) => Listed(m, users, status, search, minExperience))
  }

  /** The listing holds exactly the profiles that pass every filter, in
      table order. */
  lemma ListedMentorsExact(mentors: seq<Mentor>, users: seq<UserModel.User>, status: Option<MentorStatus>,
                           search: Option<String>, minExperience: Option<int>, m: Mentor)
    ensures m in ListedMentors(mentors, users, status, search, minExperience) <==>
              m in mentors && Listed(m, users, status, search, minExperience)
  {
  }

  /** `MentorListResponse` */
  datatype MentorCard = MentorCard(
    id: int,
    userId: int,
    headline: Option<String>,
    experienceYears: int,
    status: MentorStatus,
    userName: String,
    userAvatar: Option<String>,
    totalLounges: nat)

  function Card(m: Mentor, u: UserModel.User, lounges: seq<Lounge>): (c: MentorCard)
    ensures c.id == m.id && c.status == m.status && c.totalLounges == LoungeCount(lounges, m.id)
    ensures c.experienceYears == m.experienceYears && c.userName == u.name
  {
    MentorCard(m.id, m.userId, m.headline, m.experienceYears, m.status, u.name, u.avatarUrl,
               LoungeCount(lounges, m.id))
  }

  /** `list_mentors`: filter, page with `skip`/`limit`, then one card per
      row with the mentor's lounge count. */
  method ListMentors(mentors: seq<Mentor>, users: seq<UserModel.User>, lounges: seq<Lounge>,
                     skip: nat, limit: nat, status: Option<MentorStatus>, search: Option<String>,
                     minExperience: Option<int>) returns (r: seq<MentorCard>)
    ensures var shown := Page(ListedMentors(mentors, users, status, search, minExperience), skip, limit);
            |r| == |shown| &&
            forall k :: 0 <= k < |shown| ==>
              UserModel.FindUser(users, shown[k].userId).Some? &&
              r[k] == Card(shown[k], UserModel.FindUser(users, shown[k].userId).value, lounges)
    ensures |r| <= limit
    ensures forall k :: 0 <= k < |r| ==> r[k].status == WantedStatus(status)
    ensures minExperience.Some? ==> forall k :: 0 <= k < |r| ==> r[k].experienceYears >= minExperience.value
  {
    var rows := ListedMentors(mentors, users, status, search, minExperience);
    var shown := Page(rows, skip, limit);
    assert forall k :: 0 <= k < |shown| ==> shown[k] in rows;
    assert forall k :: 0 <= k < |shown| ==> Listed(shown[k], users, status, search, minExperience);
    r := Cards(shown, users, lounges);
  }

  /** The loop of `list_mentors` that turns each listed row into a card. */
  method Cards(shown: seq<Mentor>, users: seq<UserModel.User>, lounges: seq<Lounge>) returns (r: seq<MentorCard>)
    requires forall k :: 0 <= k < |shown| ==> UserModel.FindUser(users, shown[k].userId).Some?
    ensures |r| == |shown|
    ensures forall k :: 0 <= k < |shown| ==> r[k] == Card(shown[k], UserModel.FindUser(users, shown[k].userId).value, lounges)
  {
    r := [];
    var k := 0;
    while k < |shown|
      invariant 0 <= k <= |shown| && |r| == k
      invariant forall j :: 0 <= j < k ==> r[j] == Card(shown[j], UserModel.FindUser(users, shown[j].userId).value, lounges)
    {
      var c := Card(shown[k], UserModel.FindUser(users, shown[k].userId).value, lounges);
      r := r + [c];
      k := k + 1;
    }
  }

  // ----------------------------------------------------------------------
  // GET /mentors/{mentor_id}
  // ----------------------------------------------------------------------

  /** `MentorResponse` */
  datatype MentorView = MentorView(
    mentor: Mentor,
    userName: String,
    userEmail: Option<String>,
    userAvatar: Option<String>,
    totalLounges: nat,
    totalMembers: nat)

  /** `get_mentor`: 404 for an unknown id; the user's e-mail is disclosed
      only for an approved mentor. A profile whose user row is gone fails on
      `mentor.user.name`. */
  function GetMentor(mentors: seq<Mentor>, users: seq<UserModel.User>, lounges: seq<Lounge>,
                     ms: seq<Membership>, mentorId: int): (r: Outcome<MentorView>)
    ensures FindMentor(mentors, mentorId).None? <==> r == HttpError(404, MentorNotFound)
    ensures r.Ok? ==> r.value.mentor.id == mentorId && r.value.mentor in mentors
    ensures r.Ok? ==> (r.value.userEmail.Some? <==> r.value.mentor.status == Approved)
    ensures r.Ok? ==> r.value.totalLounges == LoungeCount(lounges, mentorId) &&
                      r.value.totalMembers == MentorMemberCount(lounges, ms, mentorId)
  {
    match FindMentor(mentors, mentorId)
    case None => HttpError(404, MentorNotFound)
    case Some(i) =>
      var m := mentors[i];
      match UserModel.FindUser(users, m.userId)
      case None => HttpError(500, InternalError)
      case Some(u) =>
        Ok(MentorView(m, u.name, if m.status == Approved then Some(u.email) else None, u.avatarUrl,
                      LoungeCount(lounges, m.id), MentorMemberCount(lounges, ms, m.id)))
  }

  // ----------------------------------------------------------------------
  // POST /mentors/apply
  // ----------------------------------------------------------------------

  /** The profile `apply_as_mentor` inserts: PENDING, with the application's text. */
  function ApplicationProfile(id: int, userId: int, a: Schemas.MentorApplication, now: Time): (m: Mentor)
    ensures m.status == Pending && m.id == id && m.userId == userId
    ensures m.headline == Some(a.headline) && m.bio == Some(a.bio) && m.introVideoUrl == a.introVideoUrl
  {
    NewMentor(id, userId, Some(a.headline), Some(a.bio), a.introVideoUrl, a.experienceYears, now)
  }

  /** `apply_as_mentor` on the mentors table: a second profile for the same
      user is refused with 400. */
  function Apply(mentors: seq<Mentor>, userId: int, a: Schemas.MentorApplication, id: int, now: Time)
    : (r: Outcome<seq<Mentor>>)
    ensures r.HttpError? <==> FindMentorByUser(mentors, userId).Some?
    ensures r.HttpError? ==> r == HttpError(400, AlreadyMentor)
    ensures r.Ok? ==> r.value == mentors + [ApplicationProfile(id, userId, a, now)]
  {
    if FindMentorByUser(mentors, userId).Some? then HttpError(400, AlreadyMentor)
    else Ok(mentors + [ApplicationProfile(id, userId, a, now)])
  }

  /** Applying keeps one profile per user, and the same user cannot apply
      twice. */
  lemma ApplyKeepsOneProfilePerUser(mentors: seq<Mentor>, userId: int, a: Schemas.MentorApplication,
                                    id: int, now: Time, a2: Schemas.MentorApplication, id2: int, now2: Time)
    requires UniqueUserIds(mentors)
    requires Apply(mentors, userId, a, id, now).Ok?
    ensures UniqueUserIds(Apply(mentors, userId, a, id, now).value)
    ensures Apply(Apply(mentors, userId, a, id, now).value, userId, a2, id2, now2) == HttpError(400, AlreadyMentor)
  {
    var m := ApplicationProfile(id, userId, a, now);
    AppendKeepsUniqueUserIds(mentors, m);
    var ns := mentors + [m];
    assert ns[|mentors|].userId == userId;
  }

  // ----------------------------------------------------------------------
  // PUT /mentors/me
  // ----------------------------------------------------------------------

  /** The fields of `MentorUpdate` that are not None overwrite the profile;
      `updated_at` is set to now in every case. */
  function PatchProfile(m: Mentor, u: Schemas.MentorUpdate, now: Time): (r: Mentor)
    ensures r.id == m.id && r.userId == m.userId && r.status == m.status && r.createdAt == m.createdAt
    ensures r.updatedAt == now
    ensures r.headline == (if u.headline.Some? then u.headline else m.headline)
    ensures r.bio == (if u.bio.Some? then u.bio else m.bio)
    ensures r.introVideoUrl == (if u.introVideoUrl.Some? then u.introVideoUrl else m.introVideoUrl)
    ensures r.experienceYears == (if u.experienceYears.Some? then u.experienceYears.value else m.experienceYears)
  {
    m.(headline := if u.headline.Some? then u.headline else m.headline,
       bio := if u.bio.Some? then u.bio else m.bio,
       introVideoUrl := if u.introVideoUrl.Some? then u.introVideoUrl else m.introVideoUrl,
       experienceYears := if u.experienceYears.Some? then u.experienceYears.value else m.experienceYears,
       updatedAt := now)
  }

  /** Sending the same update twice leaves the profile as the first one did. */
  lemma PatchIdempotent(m: Mentor, u: Schemas.MentorUpdate, now: Time)
    ensures PatchProfile(PatchProfile(m, u, now), u, now) == PatchProfile(m, u, now)
  {
  }

  /** `update_mentor_profile` on the mentors table: 404 for a user without
      a profile; a pending profile may be edited as well. */
  function UpdateProfile(mentors: seq<Mentor>, userId: int, u: Schemas.MentorUpdate, now: Time)
    : (r: Outcome<seq<Mentor>>)
    ensures r.HttpError? <==> FindMentorByUser(mentors, userId).None?
    ensures r.HttpError? ==> r == HttpError(404, ProfileMissing)
    ensures r.Ok? ==> var i := FindMentorByUser(mentors, userId).value;
              r.value == mentors[i := PatchProfile(mentors[i], u, now)]
  {
    match FindMentorByUser(mentors, userId)
    case None => HttpError(404, ProfileMissing)
    case Some(i) => Ok(mentors[i := PatchProfile(mentors[i], u, now)])
  }

  /** Editing a profile changes neither its status nor whose it is, so the
      one-profile-per-user rule and every review decision survive it. */
  lemma UpdateKeepsStatusAndOwner(mentors: seq<Mentor>, userId: int, u: Schemas.MentorUpdate, now: Time)
    requires UniqueUserIds(mentors)
    requires UpdateProfile(mentors, userId, u, now).Ok?
    ensures var ns := UpdateProfile(mentors, userId, u, now).value;
            |ns| == |mentors| && UniqueUserIds(ns) &&
            forall k :: 0 <= k < |ns| ==> ns[k].status == mentors[k].status && ns[k].userId == mentors[k].userId
  {
  }

  // ----------------------------------------------------------------------
  // GET /mentors/{mentor_id}/lounges
  // ----------------------------------------------------------------------

  /** `get_mentor_lounges`: 404 for an unknown mentor, else the mentor's
      publicly listed lounges, paged. */
  function MentorLounges(mentors: seq<Mentor>, lounges: seq<Lounge>, mentorId: int, skip: nat, limit: nat)
    : (r: Outcome<seq<Lounge>>)
    ensures FindMentor(mentors, mentorId).None? <==> r.HttpError?
    ensures r.HttpError? ==> r == HttpError(404, MentorNotFound)
    ensures r.Ok? ==> |r.value| <= limit
    ensures r.Ok? ==> forall k :: 0 <= k < |r.value| ==>
              r.value[k] in lounges && r.value[k].mentorId == mentorId && r.value[k].isPublicListing
  {
    if FindMentor(mentors, mentorId).None? then HttpError(404, MentorNotFound)
    else
      var rows := Filter(lounges, (l: Lounge) => l.mentorId == mentorId && l.isPublicListing);
      var shown := Page(rows, skip, limit);
      assert forall k :: 0 <= k < |shown| ==> shown[k] in rows;
      Ok(shown)
  }

  /** A hidden lounge never shows, and on a page large enough every listed
      lounge of the mentor does. */
  lemma MentorLoungesComplete(mentors: seq<Mentor>, lounges: seq<Lounge>, mentorId: int, l: Lounge)
    requires FindMentor(mentors, mentorId).Some? && l in lounges
    ensures l in MentorLounges(mentors, lounges, mentorId, 0, |lounges|).value <==>
              l.mentorId == mentorId && l.isPublicListing
  {
    var rows := Filter(lounges, (x: Lounge) => x.mentorId == mentorId && x.isPublicListing);
    assert Page(rows, 0, |lounges|) == rows by {
      if |rows| > 0 { assert rows[0..Min(|lounges|, |rows|)] == rows; }
    }
  }

  // ----------------------------------------------------------------------
  // PATCH /mentors/{mentor_id}/approve
  // ----------------------------------------------------------------------

  /** The tables `approve_mentor` writes. */
  datatype Review = Review(mentors: seq<Mentor>, users: seq<UserModel.User>)

  /** Give the user the mentor role (every row with that id). */
  function Promote(users: seq<UserModel.User>, userId: int): (r: seq<UserModel.User>)
    ensures |r| == |users|
    ensures forall k :: 0 <= k < |r| ==>
              r[k] == (if users[k].id == userId then users[k].(role := UserModel.Mentor) else users[k])
  {
    seq(|users|, k requires 0 <= k < |users| =>
      if users[k].id == userId then users[k].(role := UserModel.Mentor) else users[k])
  }

  /** `approve_mentor`: 404 for an unknown id, 400 unless the profile is
      still pending. Approval sets APPROVED and gives the user the mentor
      role; rejection sets DISABLED. Either way `updated_at` is now. A
      missing user row fails on `user.role`. */
  function Approve(db: Review, mentorId: int, approved: bool, now: Time): (r: Outcome<Review>)
    ensures FindMentor(db.mentors, mentorId).None? <==> r == HttpError(404, MentorNotFound)
    ensures FindMentor(db.mentors, mentorId).Some? && db.mentors[FindMentor(db.mentors, mentorId).value].status != Pending ==>
              r == HttpError(400, NotPending(db.mentors[FindMentor(db.mentors, mentorId).value].status))
    ensures r.Ok? ==>
              var i := FindMentor(db.mentors, mentorId).value;
              var m := db.mentors[i];
              m.status == Pending &&
              r.value.mentors == db.mentors[i := m.(status := if approved then Approved else Disabled, updatedAt := now)] &&
              r.value.users == (if approved then Promote(db.users, m.userId) else db.users)
  {
    match FindMentor(db.mentors, mentorId)
    case None => HttpError(404, MentorNotFound)
    case Some(i) =>
      var m := db.mentors[i];
      if m.status != Pending then HttpError(400, NotPending(m.status))
      else if approved then
        if UserModel.FindUser(db.users, m.userId).None? then HttpError(500, InternalError)
        else Ok(Review(db.mentors[i := m.(status := Approved, updatedAt := now)], Promote(db.users, m.userId)))
      else Ok(Review(db.mentors[i := m.(status := Disabled, updatedAt := now)], db.users))
  }

  /** A review is final: once approved or rejected, a second review of the
      same profile is refused with 400 naming the new status. */
  lemma ReviewIsFinal(db: Review, mentorId: int, approved: bool, now: Time, again: bool, later: Time)
    requires Approve(db, mentorId, approved, now).Ok?
    ensures var db2 := Approve(db, mentorId, approved, now).value;
            Approve(db2, mentorId, again, later) ==
              HttpError(400, NotPending(if approved then Approved else Disabled))
  {
    var i := FindMentor(db.mentors, mentorId).value;
    var db2 := Approve(db, mentorId, approved, now).value;
    FindFirstAgree(db.mentors, db2.mentors, (m: Mentor) => m.id == mentorId);
  }

  /** Approval makes the directory disclose the e-mail address and gives
      the owner the mentor role that `get_current_mentor` asks for;
      rejection does neither. */
  lemma ApprovalDisclosesEmail(db: Review, lounges: seq<Lounge>, ms: seq<Membership>, mentorId: int,
                               approved: bool, now: Time)
    requires Approve(db, mentorId, approved, now).Ok?
    ensures var db2 := Approve(db, mentorId, approved, now).value;
            var v := GetMentor(db2.mentors, db2.users, lounges, ms, mentorId);
            v.Ok? ==> (v.value.userEmail.Some? <==> approved)
    ensures var db2 := Approve(db, mentorId, approved, now).value;
            var owner := db.mentors[FindMentor(db.mentors, mentorId).value].userId;
            if approved then
              UserModel.FindUser(db2.users, owner).Some? && UserModel.IsMentor(UserModel.FindUser(db2.users, owner).value)
            else db2.users == db.users
  {
    var i := FindMentor(db.mentors, mentorId).value;
    var db2 := Approve(db, mentorId, approved, now).value;
    FindFirstAgree(db.mentors, db2.mentors, (m: Mentor) => m.id == mentorId);
    var owner := db.mentors[i].userId;
    if approved {
      var j :| 0 <= j < |db.users| && db.users[j].id == owner;
      assert db2.users[j].id == owner && UserModel.IsMentor(db2.users[j]);
      ApprovedOwnerIsMentor(db2.users, owner, j);
    }
  }

  /** Promotion reaches the row lookups find: when the promoted user has a
      row, the first row with that id has the mentor role. */
  lemma ApprovedOwnerIsMentor(users: seq<UserModel.User>, owner: int, j: nat)
    requires j < |users| && users[j].id == owner
    requires forall k :: 0 <= k < |users| && users[k].id == owner ==> UserModel.IsMentor(users[k])
    ensures UserModel.FindUser(users, owner).Some? && UserModel.IsMentor(UserModel.FindUser(users, owner).value)
  {
    assert users[j] in users;
  }

  // ----------------------------------------------------------------------
  // Categories
  // ----------------------------------------------------------------------

  /** `create_category`: 400 when the slug is taken. */
  function CreateCategory(cats: seq<Category>, name: String, slug: String, id: int): (r: Outcome<seq<Category>>)
    ensures r.HttpError? <==> exists c :: c in cats && c.slug == slug
    ensures r.HttpError? ==> r == HttpError(400, SlugTaken)
    ensures r.Ok? ==> r.value == cats + [Category(id, name, slug)]
  {
    match FindFirst(cats, (c: Category) => c.slug == slug)
    case Some(i) => assert cats[i] in cats; HttpError(400, SlugTaken)
    case None => Ok(cats + [Category(id, name, slug)])
  }

  /** Category slugs stay unique however categories are created. */
  lemma {:induction false} CreateCategoryKeepsSlugsUnique(cats: seq<Category>, name: String, slug: String, id: int)
    requires UniqueSlugs(cats)
    requires CreateCategory(cats, name, slug, id).Ok?
    ensures UniqueSlugs(CreateCategory(cats, name, slug, id).value)
  {
    var ns := cats + [Category(id, name, slug)];
    forall i, j | 0 <= i < j < |ns| ensures ns[i].slug != ns[j].slug {
      if j == |cats| {
        assert ns[i] in cats;
      }
    }
  }

  // ----------------------------------------------------------------------
  // The tables the router writes
  // ----------------------------------------------------------------------

  class MentorStore {
    var mentors: seq<Mentor>
    var users: seq<UserModel.User>
    var lounges: seq<Lounge>
    var memberships: seq<Membership>
    var categories: seq<Category>
    var nextMentorId: int
    var nextCategoryId: int

    /** The UNIQUE constraints on `mentors.user_id` and `categories.slug`. */
    ghost predicate Valid()
      reads this
    {
      UniqueUserIds(mentors) && UniqueSlugs(categories)
    }

    constructor()
      ensures Valid() && mentors == [] && users == [] && categories == []
    {
      mentors := [];
      users := [];
      lounges := [];
      memberships := [];
      categories := [];
      nextMentorId := 1;
      nextCategoryId := 1;
    }

    /** `POST /mentors/apply` */
    method ApplyAsMentor(user: UserModel.User, a: Schemas.MentorApplication, now: Time)
      returns (r: Outcome<MentorView>)
      requires Valid()
      modifies this
      ensures Valid()
      ensures r.HttpError? <==> FindMentorByUser(old(mentors), user.id).Some?
      ensures r.HttpError? ==> r == HttpError(400, AlreadyMentor) && unchanged(this)
      ensures r.Ok? ==> mentors == old(mentors) + [ApplicationProfile(old(nextMentorId), user.id, a, now)] &&
                        nextMentorId == old(nextMentorId) + 1 &&
                        r.value == MentorView(ApplicationProfile(old(nextMentorId), user.id, a, now),
                                              user.name, Some(user.email), user.avatarUrl, 0, 0)
      ensures users == old(users) && lounges == old(lounges) && memberships == old(memberships) &&
              categories == old(categories)
    {
      var out := Apply(mentors, user.id, a, nextMentorId, now);
      if out.HttpError? {
        return HttpError(out.status, out.detail);
      }
      ApplyKeepsOneProfilePerUser(mentors, user.id, a, nextMentorId, now, a, nextMentorId, now);
      var m := ApplicationProfile(nextMentorId, user.id, a, now);
      mentors := out.value;
      nextMentorId := nextMentorId + 1;
      r := Ok(MentorView(m, user.name, Some(user.email), user.avatarUrl, 0, 0));
    }

    /** `PUT /mentors/me`: the response shows the caller's own e-mail
        whatever the profile's status. */
    method UpdateMentorProfile(user: UserModel.User, u: Schemas.MentorUpdate, now: Time)
      returns (r: Outcome<MentorView>)
      requires Valid()
      modifies this
      ensures Valid()
      ensures r.HttpError? <==> FindMentorByUser(old(mentors), user.id).None?
      ensures r.HttpError? ==> r == HttpError(404, ProfileMissing)
      ensures r.Ok? ==> var i := FindMentorByUser(old(mentors), user.id).value;
                        mentors == old(mentors)[i := PatchProfile(old(mentors)[i], u, now)] &&
                        r.value == MentorView(mentors[i], user.name, Some(user.email), user.avatarUrl,
                                              LoungeCount(lounges, mentors[i].id),
                                              MentorMemberCount(lounges, memberships, mentors[i].id))
      ensures r.HttpError? ==> mentors == old(mentors)
      ensures users == old(users) && lounges == old(lounges) && memberships == old(memberships) &&
              categories == old(categories) && nextMentorId == old(nextMentorId)
    {
      var out := UpdateProfile(mentors, user.id, u, now);
      if out.HttpError? {
        return HttpError(out.status, out.detail);
      }
      UpdateKeepsStatusAndOwner(mentors, user.id, u, now);
      var i := FindMentorByUser(mentors, user.id).value;
      mentors := out.value;
      r := Ok(MentorView(mentors[i], user.name, Some(user.email), user.avatarUrl,
                         LoungeCount(lounges, mentors[i].id), MentorMemberCount(lounges, memberships, mentors[i].id)));
    }

    /** `PATCH /mentors/{mentor_id}/approve`: the response shows the e-mail
        and zero counts. */
    method ApproveMentor(mentorId: int, approved: bool, now: Time) returns (r: Outcome<Mentor>)
      requires Valid()
      modifies this
      ensures Valid()
      ensures var out := Approve(Review(old(mentors), old(users)), mentorId, approved, now);
              (out.HttpError? ==> r == HttpError(out.status, out.detail) &&
                                  mentors == old(mentors) && users == old(users)) &&
              (out.Ok? ==> mentors == out.value.mentors && users == out.value.users &&
                           r.Ok? && r.value.id == mentorId &&
                           r.value.status == (if approved then Approved else Disabled))
      ensures lounges == old(lounges) && memberships == old(memberships) && categories == old(categories) &&
              nextMentorId == old(nextMentorId)
    {
      var out := Approve(Review(mentors, users), mentorId, approved, now);
      if out.HttpError? {
        return HttpError(out.status, out.detail);
      }
      var i := FindMentor(mentors, mentorId).value;
      assert UniqueUserIds(out.value.mentors) by {
        forall a, b | 0 <= a < b < |out.value.mentors|
          ensures out.value.mentors[a].userId != out.value.mentors[b].userId
        {
          assert out.value.mentors[a].userId == mentors[a].userId;
          assert out.value.mentors[b].userId == mentors[b].userId;
        }
      }
      mentors := out.value.mentors;
      users := out.value.users;
      r := Ok(mentors[i]);
    }

    /** `GET /mentors/categories/list`: every category, in table order. */
    method ListCategories() returns (r: seq<Category>)
      ensures r == categories
    {
      r := categories;
    }

    /** `POST /mentors/categories` */
    method CreateCategoryRow(name: String, slug: String) returns (r: Outcome<Category>)
      requires Valid()
      modifies this
      ensures Valid()
      ensures r.HttpError? <==> exists c :: c in old(categories) && c.slug == slug
      ensures r.HttpError? ==> r == HttpError(400, SlugTaken) && categories == old(categories) &&
                               nextCategoryId == old(nextCategoryId)
      ensures r.Ok? ==> r.value == Category(old(nextCategoryId), name, slug) &&
                        categories == old(categories) + [r.value] && nextCategoryId == old(nextCategoryId) + 1
      ensures mentors == old(mentors) && users == old(users) && lounges == old(lounges) &&
              memberships == old(memberships) && nextMentorId == old(nextMentorId)
    {
      var out := CreateCategory(categories, name, slug, nextCategoryId);
      if out.HttpError? {
        return HttpError(out.status, out.detail);
      }
      CreateCategoryKeepsSlugsUnique(categories, name, slug, nextCategoryId);
      r := Ok(Category(nextCategoryId, name, slug));
      categories := out.value;
      nextCategoryId := nextCategoryId + 1;
    }
  }
}
