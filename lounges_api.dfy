/** The lounges router (app/api/v1/lounges.py): discovery with its filters,
    the mentor's create/update/delete guards, access to private lounges,
    joining and leaving, the member list and the mentor profile. */
module LoungesApi {
  import opened Common
  import opened LoungeModel
  import opened MentorModel
  import UserModel
  import Schemas
  import BillingService
  import FileModel
  import LoungeResourceModel
  import LoungeResourceService
  import FileService

  const LoungeNotFound: String := "Lounge not found"
  const CategoryNotFound: String := "Category not found"
  const SlugTaken: String := "Lounge with this slug already exists"
  const NoMentorProfile: String := "Mentor profile not found"
  const AuthenticationRequired: String := "Authentication required"
  const PrivateLoungeDenied: String := "Access denied to private lounge"
  const MembersOnlyProfile: String := "Access denied - must be a member of this lounge"
  const MembersDenied: String := "Access denied"
  const NotOwnerUpdate: String := "You can only update your own lounges"
  const NotOwnerDelete: String := "You can only delete your own lounges"
  const AlreadyMember: String := "Already a member of this lounge"
  const LoungeFull: String := "Lounge is full"
  const InviteOnlyRefused: String := "This lounge is invite-only"
  const NotAMember: String := "Not a member of this lounge"

  // ---------------------------------------------------------------------
  // The `category_ids` query parameter
  // ---------------------------------------------------------------------

  /** A comma-separated token that `int(id.strip())` refuses: not blank and
      not a decimal literal (`int` of stripped text is `ParseLiteral` of it,
      see `ParseIntOfStripped`). */
  predicate BadToken(tok: String) {
    Strip(tok) != [] && ParseLiteral(Strip(tok)).None?
  }

  /** Some token is bad. */
  predicate AnyBad(tokens: seq<String>) {
    tokens != [] && (BadToken(tokens[0]) || AnyBad(tokens[1..]))
  }

  /** `[int(id.strip()) for id in tokens if id.strip()]`: blank tokens are
      skipped, and the comprehension raises as soon as one token is bad. */
  function ParseIds(tokens: seq<String>): (r: Option<seq<int>>)
    ensures r.None? <==> AnyBad(tokens)
    ensures r.Some? ==> |r.value| <= |tokens|
  {
    if tokens == [] then Some([])
    else
      var t := Strip(tokens[0]);
      var rest := ParseIds(tokens[1..]);
      if BadToken(tokens[0]) || rest.None? then None
      else if t == [] then rest
      else Some([ParseLiteral(t).value] + rest.value)
  }

  datatype CategoryFilter = AnyCategory | InCategories(ids: seq<int>) | OneCategory(id: int)

  /** The category part of `list_lounges`: a non-empty `category_ids` takes
      precedence over `category_id`, a bad token in it drops the category
      filter altogether, and `category_id` 0 filters nothing. */
  function CategoryFilterOf(categoryIds: Option<String>, categoryId: Option<int>): (r: CategoryFilter)
    ensures TruthyStr(categoryIds) ==> !r.OneCategory?
    ensures !TruthyStr(categoryIds) ==> (r.OneCategory? <==> Truthy(categoryId))
    ensures r.OneCategory? ==> r.id == categoryId.value
    ensures r.InCategories? ==> r.ids != []
    ensures TruthyStr(categoryIds) && AnyBad(Split(categoryIds.value, ',')) ==> r == AnyCategory
  {
    if TruthyStr(categoryIds) then
      match ParseIds(Split(categoryIds.value, ','))
      case None => AnyCategory
      case Some(ids) => if ids == [] then AnyCategory else InCategories(ids)
    else if Truthy(categoryId) then OneCategory(categoryId.value)
    else AnyCategory
  }

  /** `[str(i) for i in ids]` */
  function IdTexts(ids: seq<int>): (r: seq<String>)
    ensures |r| == |ids| && forall k :: 0 <= k < |ids| ==> r[k] == IntToString(ids[k])
  {
    seq(|ids|, k requires 0 <= k < |ids| => IntToString(ids[k]))
  }

  lemma IntToStringNoComma(i: int)
    ensures ',' !in IntToString(i)
  {
    var d := NatToString(if i < 0 then -i else i);
    assert forall k :: 0 <= k < |d| ==> d[k] != ',';
    if i < 0 {
      assert IntToString(i) == "-" + d;
    }
  }

  lemma {:induction false} ParseIdTexts(ids: seq<int>)
    ensures ParseIds(IdTexts(ids)) == Some(ids)
  {
    if ids != [] {
      var ts := IdTexts(ids);
      var t := ts[0];
      assert t == IntToString(ids[0]);
      assert ts[1..] == IdTexts(ids[1..]);
      ParseIdTexts(ids[1..]);
      StripUnchanged(t);
      ParseIntToString(ids[0]);
      assert Strip(t) == t && ParseLiteral(t) == Some(ids[0]);
      ParseIdsCons(ts);
      assert [ids[0]] + ids[1..] == ids;
    }
  }

  /** One good, non-blank token in front of the rest. */
  lemma ParseIdsCons(tokens: seq<String>)
    requires tokens != [] && Strip(tokens[0]) != [] && ParseLiteral(Strip(tokens[0])).Some?
    requires ParseIds(tokens[1..]).Some?
    ensures ParseIds(tokens) == Some([ParseLiteral(Strip(tokens[0])).value] + ParseIds(tokens[1..]).value)
  {
    assert !BadToken(tokens[0]);
  }

  /** A client that sends `",".join(str(i) for i in ids)` selects exactly
      those categories, whatever `category_id` says. */
  lemma CategoryIdsRoundTrip(ids: seq<int>, categoryId: Option<int>)
    requires ids != []
    ensures CategoryFilterOf(Some(Join(IdTexts(ids), ",")), categoryId) == InCategories(ids)
  {
    var parts := IdTexts(ids);
    forall k | 0 <= k < |parts| ensures ',' !in parts[k] {
      IntToStringNoComma(ids[k]);
    }
    JoinSplit(parts, ',');
    ParseIdTexts(ids);
    assert |parts[0]| >= 1;
    assert Join(parts, ",") != [];
  }

  // ---------------------------------------------------------------------
  // Discovery
  // ---------------------------------------------------------------------

  /** The name of a lounge's mentor as the search's outer joins see it:
      NULL when the mentor or the mentor's user row is missing. */
  function MentorName(mentors: seq<Mentor>, users: seq<UserModel.User>, mentorId: int): Option<String> {
    match FindMentor(mentors, mentorId)
    case None => None
    case Some(i) =>
      match UserModel.FindUser(users, mentors[i].userId)
      case None => None
      case Some(u) => Some(u.name)
  }

  function CategoryName(categories: seq<Category>, id: Option<int>): Option<String> {
    if id.None? then None
    else match FindFirst(categories, (c: Category) => c.id == id.value)
      case None => None
      case Some(k) => Some(categories[k].name)
  }

  /** The filters of `list_lounges`. */
  datatype LoungeQuery = LoungeQuery(category: CategoryFilter, accessType: Option<AccessType>,
                                     mentorId: Option<int>, search: Option<String>)

  predicate InCategory(f: CategoryFilter, l: Lounge) {
    match f
    case AnyCategory => true
    case InCategories(ids) => l.categoryId.Some? && l.categoryId.value in ids
    case OneCategory(id) => l.categoryId == Some(id)
  }

  /** `ilike('%search%')` on the title, the description, the mentor's name
      or the category's name. */
  predicate SearchHit(l: Lounge, mentorName: Option<String>, categoryName: Option<String>, term: String) {
    ILike(l.title, term) || ILikeOpt(l.description, term) || ILikeOpt(mentorName, term) || ILikeOpt(categoryName, term)
  }

  /** The WHERE clause of `list_lounges`: public lounges only, then each
      filter that was given (`if access_type:`, `if mentor_id:`, `if search:`). */
  predicate ListedIn(mentors: seq<Mentor>, users: seq<UserModel.User>, categories: seq<Category>,
                     q: LoungeQuery, l: Lounge) {
    l.isPublicListing &&
    InCategory(q.category, l) &&
    (q.accessType.Some? ==> l.accessType == q.accessType.value) &&
    (Truthy(q.mentorId) ==> l.mentorId == q.mentorId.value) &&
    (TruthyStr(q.search) ==>
       SearchHit(l, MentorName(mentors, users, l.mentorId), CategoryName(categories, l.categoryId), q.search.value))
  }

  /** The matching lounges, in table order (the query has no ORDER BY). */
  function ListedRows(lounges: seq<Lounge>, mentors: seq<Mentor>, users: seq<UserModel.User>,
                      categories: seq<Category>, q: LoungeQuery): (r: seq<Lounge>)
    ensures forall k :: 0 <= k < |r| ==> r[k] in lounges && ListedIn(mentors, users, categories, q, r[k])
    ensures forall k :: 0 <= k < |lounges| && ListedIn(mentors, users, categories, q, lounges[k]) ==> lounges[k] in r
  {
    Filter(lounges, (l: Lounge) => ListedIn(mentors, users, categories, q, l))
  }

  /** `if page > 1: skip = (page - 1) * limit`: a page number past the
      first overrides `skip`. */
  function ListOffset(skip: nat, page: int, limit: int): (o: nat)
    requires page >= 1 && limit >= 1
    ensures page == 1 ==> o == skip
    ensures page > 1 ==> o == (page - 1) * limit
  {
    if page > 1 then (page - 1) * limit else skip
  }

  /** One item of a listing with its live statistics. */
  datatype LoungeCard = LoungeCard(lounge: Lounge, memberCount: nat, isFull: bool,
                                   mentorName: Option<String>, categoryName: Option<String>)

  function Card(l: Lounge, ms: seq<Membership>, mentors: seq<Mentor>, users: seq<UserModel.User>,
                categories: seq<Category>): (c: LoungeCard)
    ensures c.lounge == l && c.memberCount == MemberCount(ms, l.id)
    ensures c.isFull <==> l.maxMembers.Some? && c.memberCount >= l.maxMembers.value
  {
    LoungeCard(l, MemberCount(ms, l.id), IsFull(l, ms), MentorName(mentors, users, l.mentorId),
               CategoryName(categories, l.categoryId))
  }

  datatype LoungeListing = LoungeListing(items: seq<LoungeCard>, total: nat, page: int, limit: int)

  /** An item of `GET /lounges/my`: the caller is a member of every one. */
  datatype MyLoungeCard = MyLoungeCard(lounge: Lounge, memberCount: nat)

  datatype MyLoungeListing = MyLoungeListing(items: seq<MyLoungeCard>, total: nat, page: int, limit: int)

  function LoungeIdsOf(ms: seq<Membership>): (r: seq<int>)
    ensures |r| == |ms| && forall k :: 0 <= k < |ms| ==> r[k] == ms[k].loungeId
  {
    seq(|ms|, k requires 0 <= k < |ms| => ms[k].loungeId)
  }

  /** A lounge id on the caller's page of memberships comes from one of
      the caller's active memberships. */
  lemma MembershipOfListedId(memberships: seq<Membership>, userId: int, skip: nat, limit: nat, id: int)
    requires id in LoungeIdsOf(Page(Filter(memberships, (m: Membership) => m.userId == userId && m.leftAt.None?), skip, limit))
    ensures exists m :: m in memberships && m.userId == userId && m.leftAt.None? && m.loungeId == id
  {
    var active := Filter(memberships, (m: Membership) => m.userId == userId && m.leftAt.None?);
    var mine := Page(active, skip, limit);
    var ids := LoungeIdsOf(mine);
    var i :| 0 <= i < |ids| && ids[i] == id;
    assert mine[i] == active[skip + i];
    assert mine[i] in active;
  }

  // ---------------------------------------------------------------------
  // Access
  // ---------------------------------------------------------------------

  /** `lounge.mentor.user_id == current_user.id`; None when the mentor row
      is missing, where the attribute access raises. */
  function IsLoungeMentor(mentors: seq<Mentor>, l: Lounge, userId: int): Option<bool> {
    match FindMentor(mentors, l.mentorId)
    case None => None
    case Some(i) => Some(mentors[i].userId == userId)
  }

  predicate IsActiveMember(ms: seq<Membership>, loungeId: int, userId: int) {
    FindActiveMembership(ms, loungeId, userId).Some?
  }

  /** What `GET /lounges/{id}` shows: the row, its statistics and the lounge
      prices for the Stripe prices the lounge has. */
  datatype LoungeDetail = LoungeDetail(card: LoungeCard, isMember: bool,
                                       monthlyPrice: Option<int>, yearlyPrice: Option<int>)

  /** The private-lounge guard of `get_lounge`: anonymous callers get 401,
      and callers who are neither the mentor nor an active member get 403. */
  function PrivateAccess(mentors: seq<Mentor>, ms: seq<Membership>, l: Lounge, caller: Option<int>): (r: Option<(int, String)>)
  {
    if l.isPublicListing then None
    else if caller.None? then Some((401, AuthenticationRequired))
    else match IsLoungeMentor(mentors, l, caller.value)
      case None => Some((500, InternalError))
      case Some(isMentor) =>
        if isMentor || IsActiveMember(ms, l.id, caller.value) then None
        else Some((403, PrivateLoungeDenied))
  }

  /** A private lounge is shown only to its mentor and its active members;
      a public one to everybody. */
  lemma PrivateAccessSound(mentors: seq<Mentor>, ms: seq<Membership>, l: Lounge, caller: Option<int>)
    ensures l.isPublicListing ==> PrivateAccess(mentors, ms, l, caller).None?
    ensures !l.isPublicListing && PrivateAccess(mentors, ms, l, caller).None? ==>
              caller.Some? && (IsLoungeMentor(mentors, l, caller.value) == Some(true) ||
                               IsActiveMember(ms, l.id, caller.value))
    ensures !l.isPublicListing && caller.None? ==> PrivateAccess(mentors, ms, l, caller) == Some((401, AuthenticationRequired))
    ensures (!l.isPublicListing && caller.Some? && IsLoungeMentor(mentors, l, caller.value) == Some(false) &&
             !IsActiveMember(ms, l.id, caller.value)) ==> PrivateAccess(mentors, ms, l, caller) == Some((403, PrivateLoungeDenied))
  {
  }

  /** The member-only guard of the member list, the mentor profile and the
      resources: the mentor or an active member, 403 with `detail` otherwise. */
  function MemberAccess(mentors: seq<Mentor>, ms: seq<Membership>, l: Lounge, userId: int, detail: String)
    : (r: Option<(int, String)>)
    ensures r.None? <==> IsLoungeMentor(mentors, l, userId) == Some(true) || (IsLoungeMentor(mentors, l, userId).Some? && IsActiveMember(ms, l.id, userId))
    ensures r.Some? ==> r.value == (500, InternalError) || r.value == (403, detail)
  {
    match IsLoungeMentor(mentors, l, userId)
    case None => Some((500, InternalError))
    case Some(isMentor) =>
      if isMentor || IsActiveMember(ms, l.id, userId) then None else Some((403, detail))
  }

  // ---------------------------------------------------------------------
  // The mentor profile ("More from Mentor")
  // ---------------------------------------------------------------------

  /** `[p.strip() for p in parts]` */
  /** The stripped non-blank pieces, in order. */
  function StrippedNonBlank(parts: seq<String>): (r: seq<String>)
    ensures |r| <= |parts|
    ensures forall k :: 0 <= k < |r| ==> r[k] != []
  {
    if parts == [] then []
    else
      var rest := StrippedNonBlank(parts[1..]);
      if Strip(parts[0]) == [] then rest else [Strip(parts[0])] + rest
  }

  /** Pieces without a newline give clean lines. */
  lemma {:induction false} StrippedNonBlankLines(parts: seq<String>)
    requires forall j :: 0 <= j < |parts| ==> '\n' !in parts[j]
    ensures forall k :: 0 <= k < |StrippedNonBlank(parts)| ==> CleanLine(StrippedNonBlank(parts)[k])
  {
    if parts != [] {
      var tail := parts[1..];
      assert forall j :: 0 <= j < |tail| ==> tail[j] == parts[j + 1];
      StrippedNonBlankLines(tail);
      var h := Strip(parts[0]);
      if h != [] {
        StripClean(parts[0]);
        var rest := StrippedNonBlank(tail);
        var r := [h] + rest;
        forall k | 0 <= k < |r| ensures CleanLine(r[k]) {
          if k > 0 { assert r[k] == rest[k - 1]; }
        }
      }
    }
  }

  /** `[h.strip() for h in text.split('\n') if h.strip()]` behind `if text:`. */
  function ProfileLines(text: Option<String>): (r: seq<String>)
  {
    if TruthyStr(text) then StrippedNonBlank(Split(text.value, '\n')) else []
  }

  predicate CleanLine(s: String) {
    s != [] && '\n' !in s && Strip(s) == s
  }

  /** Every line comes out non-blank, stripped and without a newline. */
  lemma ProfileLinesClean(text: Option<String>)
    ensures forall k :: 0 <= k < |ProfileLines(text)| ==> CleanLine(ProfileLines(text)[k])
  {
    if TruthyStr(text) {
      var parts := Split(text.value, '\n');
      StrippedNonBlankLines(parts);
    }
  }

  lemma StripClean(p: String)
    requires '\n' !in p && Strip(p) != []
    ensures CleanLine(Strip(p))
  {
    StripSubseq(p);
    StripIdempotent(p);
  }

  lemma {:induction false} StrippedNonBlankClean(lines: seq<String>)
    requires forall k :: 0 <= k < |lines| ==> CleanLine(lines[k])
    ensures StrippedNonBlank(lines) == lines
  {
    if lines != [] {
      StrippedNonBlankClean(lines[1..]);
      assert [lines[0]] + lines[1..] == lines;
    }
  }

  /** Lines saved one per line come back as saved. */
  lemma ProfileLinesRoundTrip(lines: seq<String>)
    requires forall k :: 0 <= k < |lines| ==> CleanLine(lines[k])
    ensures ProfileLines(Some(Join(lines, "\n"))) == lines
  {
    if lines != [] {
      JoinSplit(lines, '\n');
      assert |lines[0]| >= 1;
      assert Join(lines, "\n") != [];
      StrippedNonBlankClean(lines);
    }
  }

  /** The profile columns the route reads from `mentors`. */
  datatype ProfileColumns = ProfileColumns(
    mentorTitle: Option<String>,
    philosophy: Option<String>,
    hobbies: Option<String>,
    bookTitle: Option<String>,
    bookDescription: Option<String>,
    podcastRecTitle: Option<String>,
    podcastName: Option<String>,
    podcastYoutube: Option<String>,
    podcastSpotify: Option<String>,
    podcastApple: Option<String>,
    socialInstagram: Option<String>,
    socialTiktok: Option<String>,
    socialLinkedin: Option<String>,
    socialYoutube: Option<String>,
    quickPrompts: Option<String>)

  const NoProfileColumns := ProfileColumns(None, None, None, None, None, None, None, None, None, None,
                                           None, None, None, None, None)

  datatype MentorProfile = MentorProfile(
    mentorName: String,
    mentorAvatar: Option<String>,
    mentorTitle: Option<String>,
    philosophy: Option<String>,
    hobbies: seq<String>,
    book: Option<(Option<String>, Option<String>)>,
    podcastRecommendation: Option<Option<String>>,
    podcastName: Option<String>,
    podcastLinks: Option<(Option<String>, Option<String>, Option<String>)>,
    socialLinks: Option<(Option<String>, Option<String>, Option<String>, Option<String>)>,
    quickPrompts: seq<String>)

  /** The response body: the owner's name and avatar, the columns copied,
      the two lists parsed, and each nested object (book, podcast
      recommendation, podcast links, social links) shown only when one of
      its deciding columns is set. */
  function ProfileOf(u: UserModel.User, p: ProfileColumns): (r: MentorProfile)
    ensures r.mentorName == u.name && r.mentorAvatar == u.avatarUrl
    ensures r.mentorTitle == p.mentorTitle && r.philosophy == p.philosophy && r.podcastName == p.podcastName
    ensures r.book.Some? <==> TruthyStr(p.bookTitle)
    ensures r.book.Some? ==> r.book.value == (p.bookTitle, p.bookDescription)
    ensures r.podcastRecommendation.Some? <==> TruthyStr(p.podcastRecTitle)
    ensures r.podcastRecommendation.Some? ==> r.podcastRecommendation.value == p.podcastRecTitle
    ensures r.podcastLinks.Some? <==> TruthyStr(p.podcastYoutube) || TruthyStr(p.podcastSpotify) || TruthyStr(p.podcastApple)
    ensures r.podcastLinks.Some? ==> r.podcastLinks.value == (p.podcastYoutube, p.podcastSpotify, p.podcastApple)
    ensures r.socialLinks.Some? <==>
              TruthyStr(p.socialInstagram) || TruthyStr(p.socialTiktok) || TruthyStr(p.socialLinkedin) || TruthyStr(p.socialYoutube)
    ensures r.socialLinks.Some? ==>
              r.socialLinks.value == (p.socialInstagram, p.socialTiktok, p.socialLinkedin, p.socialYoutube)
    ensures forall k :: 0 <= k < |r.hobbies| ==> CleanLine(r.hobbies[k])
    ensures forall k :: 0 <= k < |r.quickPrompts| ==> CleanLine(r.quickPrompts[k])
  {
    ProfileLinesClean(p.hobbies);
    ProfileLinesClean(p.quickPrompts);
    MentorProfile(u.name, u.avatarUrl, p.mentorTitle, p.philosophy, ProfileLines(p.hobbies),
                  if TruthyStr(p.bookTitle) then Some((p.bookTitle, p.bookDescription)) else None,
                  if TruthyStr(p.podcastRecTitle) then Some(p.podcastRecTitle) else None,
                  p.podcastName,
                  if TruthyStr(p.podcastYoutube) || TruthyStr(p.podcastSpotify) || TruthyStr(p.podcastApple)
                  then Some((p.podcastYoutube, p.podcastSpotify, p.podcastApple)) else None,
                  if TruthyStr(p.socialInstagram) || TruthyStr(p.socialTiktok) || TruthyStr(p.socialLinkedin)
                     || TruthyStr(p.socialYoutube)
                  then Some((p.socialInstagram, p.socialTiktok, p.socialLinkedin, p.socialYoutube)) else None,
                  ProfileLines(p.quickPrompts))
  }

  /** The attributes the `Mentor` class declares (app/db/models/mentor.py). */
  const MentorAttributes: seq<String> :=
    ["id", "user_id", "headline", "bio", "intro_video_url", "experience_years", "status",
     "created_at", "updated_at", "user", "lounges", "is_active"]

  /** The first profile attribute the route reads after its guards
      (`if mentor.hobbies:`). */
  const FirstProfileRead: String := "hobbies"

  /** None of the profile attributes the route reads is declared. */
  lemma ProfileAttributesUnmapped()
    ensures FirstProfileRead !in MentorAttributes
    ensures "mentor_title" !in MentorAttributes && "quick_prompts" !in MentorAttributes
  {
  }

  // ---------------------------------------------------------------------
  // The lounge columns the ORM class does not map
  // ---------------------------------------------------------------------

  /** The keyword arguments `create_lounge` passes to `Lounge(...)`. */
  const CreateKeywords: seq<String> :=
    ["mentor_id", "title", "slug", "description", "category_id", "access_type", "plan_id",
     "max_members", "is_public_listing", "about", "brand_color"]

  /** SQLAlchemy's declarative constructor accepts only mapped attributes. */
  predicate AllMapped(names: seq<String>, mapped: seq<String>) {
    forall k :: 0 <= k < |names| ==> names[k] in mapped
  }

  /** As written, `Lounge(...)` raises TypeError on `about`, and every read
      of `lounge.about` raises AttributeError: `create_lounge`, and
      `list_lounges` and `get_lounge` on any lounge they would show, answer
      500. With the table's columns mapped, the constructor accepts every
      keyword. */
  lemma LoungeColumnsUnmappedAsWritten()
    ensures !AllMapped(CreateKeywords, LoungeOrmColumns)
    ensures "about" !in LoungeOrmColumns
    ensures AllMapped(CreateKeywords, LoungeOrmColumns + AddedLoungeColumns)
  {
    assert CreateKeywords[9] == "about";
  }

  // ---------------------------------------------------------------------
  // Writes
  // ---------------------------------------------------------------------

  ghost predicate LoungeSlugsUnique(ls: seq<Lounge>) {
    Pairwise(ls, (a: Lounge, b: Lounge) => a.slug != b.slug)
  }

  /** The store's invariant: unique slugs (the UNIQUE index), one active
      membership per user and lounge, and fresh ids above every row. */
  ghost predicate LoungeTablesValid(ls: seq<Lounge>, ms: seq<Membership>, nextLoungeId: int, nextMembershipId: int) {
    LoungeSlugsUnique(ls) &&
    BillingService.OneActiveMembership(ms) &&
    (forall k :: 0 <= k < |ls| ==> ls[k].id < nextLoungeId) &&
    (forall k :: 0 <= k < |ms| ==> ms[k].id < nextMembershipId)
  }

  /** The row `create_lounge` inserts. */
  function CreatedLounge(id: int, mentorId: int, body: Schemas.LoungeCreate, now: Time): (l: Lounge)
    ensures l.id == id && l.mentorId == mentorId && l.slug == body.slug && l.title == body.title
    ensures l.maxMembers == body.maxMembers && l.accessType == body.accessType
    ensures l.about == body.about && l.brandColor == body.brandColor && l.profileImageId.None?
  {
    Lounge(id, mentorId, body.title, body.slug, body.description, body.categoryId, body.accessType, body.planId,
           body.maxMembers, body.isPublicListing, None, now, body.about, body.brandColor, None, None, None)
  }

  lemma CreateKeepsValid(ls: seq<Lounge>, ms: seq<Membership>, nl: int, nm: int, l: Lounge)
    requires LoungeTablesValid(ls, ms, nl, nm)
    requires FindLoungeBySlug(ls, l.slug).None? && l.id == nl
    ensures LoungeTablesValid(ls + [l], ms, nl + 1, nm)
  {
    PairwiseSnoc(ls, l, (a: Lounge, b: Lounge) => a.slug != b.slug);
  }

  function CategoryExists(categories: seq<Category>, id: int): bool {
    FindFirst(categories, (c: Category) => c.id == id).Some?
  }

  /** `update_lounge`: each field the body gives replaces the stored one;
      the id, mentor, slug and creation time never change. */
  function ApplyUpdate(l: Lounge, u: Schemas.LoungeUpdate): (r: Lounge)
    ensures r.id == l.id && r.mentorId == l.mentorId && r.slug == l.slug && r.createdAt == l.createdAt
    ensures r.profileImageId == l.profileImageId && r.stripeProductId == l.stripeProductId
  {
    var title := if u.title.Some? then u.title.value else l.title;
    var description := if u.description.Some? then u.description else l.description;
    var categoryId := if u.categoryId.Some? then u.categoryId else l.categoryId;
    var accessType := if u.accessType.Some? then u.accessType.value else l.accessType;
    var planId := if u.planId.Some? then u.planId else l.planId;
    var maxMembers := if u.maxMembers.Some? then u.maxMembers else l.maxMembers;
    var isPublic := if u.isPublicListing.Some? then u.isPublicListing.value else l.isPublicListing;
    var about := if u.about.Some? then u.about else l.about;
    var brandColor := if u.brandColor.Some? then u.brandColor else l.brandColor;
    Lounge(l.id, l.mentorId, title, l.slug, description, categoryId, accessType, planId, maxMembers, isPublic,
           l.profileImageId, l.createdAt, about, brandColor, l.stripeProductId, l.stripeMonthlyPriceId,
           l.stripeYearlyPriceId)
  }

  /** A given field takes the body's value, an omitted one keeps the stored value. */
  lemma ApplyUpdateFields(l: Lounge, u: Schemas.LoungeUpdate)
    ensures ApplyUpdate(l, u).title == (if u.title.Some? then u.title.value else l.title)
    ensures ApplyUpdate(l, u).maxMembers == (if u.maxMembers.Some? then u.maxMembers else l.maxMembers)
    ensures ApplyUpdate(l, u).isPublicListing == (if u.isPublicListing.Some? then u.isPublicListing.value else l.isPublicListing)
    ensures ApplyUpdate(l, u).categoryId == (if u.categoryId.Some? then u.categoryId else l.categoryId)
    ensures ApplyUpdate(l, u).accessType == (if u.accessType.Some? then u.accessType.value else l.accessType)
  {
  }

  /** Applying the same update twice is applying it once; an empty update
      changes nothing. */
  lemma ApplyUpdateIdempotent(l: Lounge, u: Schemas.LoungeUpdate)
    ensures ApplyUpdate(ApplyUpdate(l, u), u) == ApplyUpdate(l, u)
    ensures u == Schemas.LoungeUpdate(None, None, None, None, None, None, None, None, None) ==> ApplyUpdate(l, u) == l
  {
  }

  lemma UpdateKeepsValid(ls: seq<Lounge>, ms: seq<Membership>, nl: int, nm: int, i: nat, u: Schemas.LoungeUpdate)
    requires LoungeTablesValid(ls, ms, nl, nm) && i < |ls|
    ensures LoungeTablesValid(ls[i := ApplyUpdate(ls[i], u)], ms, nl, nm)
  {
    var t := ls[i := ApplyUpdate(ls[i], u)];
    forall a, b | 0 <= a < b < |t| ensures t[a].slug != t[b].slug {
      assert t[a].slug == ls[a].slug && t[b].slug == ls[b].slug;
    }
  }

  /** The lounge table without the deleted lounge. */
  function WithoutLounge(ls: seq<Lounge>, loungeId: int): (r: seq<Lounge>)
    ensures forall l :: l in r <==> l in ls && l.id != loungeId
  {
    Filter(ls, (l: Lounge) => l.id != loungeId)
  }

  /** The membership table without the deleted lounge's memberships. */
  function WithoutLoungeMemberships(ms: seq<Membership>, loungeId: int): (r: seq<Membership>)
    ensures forall m :: m in r <==> m in ms && m.loungeId != loungeId
  {
    Filter(ms, (m: Membership) => m.loungeId != loungeId)
  }

  /** Deleting a lounge removes it and, by the `delete-orphan` cascade,
      all its memberships. */
  lemma DeleteKeepsValid(ls: seq<Lounge>, ms: seq<Membership>, nl: int, nm: int, loungeId: int)
    requires LoungeTablesValid(ls, ms, nl, nm)
    ensures LoungeTablesValid(WithoutLounge(ls, loungeId), WithoutLoungeMemberships(ms, loungeId), nl, nm)
  {
    FilterPairwise(ls, (l: Lounge) => l.id != loungeId, (a: Lounge, b: Lounge) => a.slug != b.slug);
    var rel := (a: Membership, b: Membership) =>
      a.leftAt.None? && b.leftAt.None? ==> !(a.loungeId == b.loungeId && a.userId == b.userId);
    assert Pairwise(ms, rel);
    FilterPairwise(ms, (m: Membership) => m.loungeId != loungeId, rel);
    var f := Filter(ms, (m: Membership) => m.loungeId != loungeId);
    assert Pairwise(f, rel);
  }

  /** The capacity test of `join_lounge` (`if lounge.max_members and
      member_count >= lounge.max_members`). */
  predicate JoinCapacityRefuses(l: Lounge, ms: seq<Membership>) {
    Truthy(l.maxMembers) && MemberCount(ms, l.id) >= l.maxMembers.value
  }

  /** The join refusals in the order the route tests them. */
  function JoinRefusal(l: Lounge, ms: seq<Membership>, userId: int): (r: Option<(int, String)>)
    ensures r.None? <==> !IsActiveMember(ms, l.id, userId) && !JoinCapacityRefuses(l, ms) && l.accessType != InviteOnly
    ensures IsActiveMember(ms, l.id, userId) ==> r == Some((400, AlreadyMember))
    ensures !IsActiveMember(ms, l.id, userId) && JoinCapacityRefuses(l, ms) ==> r == Some((400, LoungeFull))
    ensures !IsActiveMember(ms, l.id, userId) && !JoinCapacityRefuses(l, ms) && l.accessType == InviteOnly ==>
              r == Some((403, InviteOnlyRefused))
  {
    if IsActiveMember(ms, l.id, userId) then Some((400, AlreadyMember))
    else if JoinCapacityRefuses(l, ms) then Some((400, LoungeFull))
    else if l.accessType == InviteOnly then Some((403, InviteOnlyRefused))
    else None
  }

  /** With the caps the schemas admit (none, or at least 1), the join's
      capacity test is exactly `is_full`; a cap of 0, which only reaches
      the table around the API, reads as unlimited to the join and as full
      to `is_full`. */
  lemma JoinCapacityIsIsFull(l: Lounge, ms: seq<Membership>)
    ensures l.maxMembers.None? || l.maxMembers.value >= 1 ==> (JoinCapacityRefuses(l, ms) <==> IsFull(l, ms))
    ensures l.maxMembers == Some(0) ==> IsFull(l, ms) && !JoinCapacityRefuses(l, ms)
  {
  }

  lemma JoinKeepsValid(ls: seq<Lounge>, ms: seq<Membership>, nl: int, nm: int, loungeId: int, userId: int, now: Time)
    requires LoungeTablesValid(ls, ms, nl, nm)
    requires !IsActiveMember(ms, loungeId, userId)
    ensures LoungeTablesValid(ls, ms + [NewMembership(nm, loungeId, userId, now)], nl, nm + 1)
  {
    BillingService.EnsureMemberKeepsOne(ms, loungeId, userId, nm, now);
  }

  /** Joining then leaving gives the lounge back its member count. */
  lemma {:induction false} JoinThenLeave(ms: seq<Membership>, loungeId: int, userId: int, id: int, t0: Time, t1: Time)
    requires BillingService.OneActiveMembership(ms) && !IsActiveMember(ms, loungeId, userId)
    ensures var joined := ms + [NewMembership(id, loungeId, userId, t0)];
            MemberCount(joined, loungeId) == MemberCount(ms, loungeId) + 1 &&
            MemberCount(BillingService.EndMembership(joined, loungeId, userId, t1), loungeId) == MemberCount(ms, loungeId)
  {
    var m := NewMembership(id, loungeId, userId, t0);
    var joined := ms + [m];
    MemberCountAppend(ms, m, loungeId);
    BillingService.EnsureMemberKeepsOne(ms, loungeId, userId, id, t0);
    assert BillingService.EnsureMember(ms, loungeId, userId, id, t0) == joined;
    assert joined[|ms|] == m;
    assert FindActiveMembership(joined, loungeId, userId).Some?;
  }

  // ---------------------------------------------------------------------
  // The member list
  // ---------------------------------------------------------------------

  /** A row of `GET /lounges/{id}/members`; the e-mail only for the mentor. */
  datatype MemberView = MemberView(membership: Membership, userName: String, userEmail: Option<String>)

  /** The views of a page of memberships; None when a membership's user row
      is missing, where `user.name` raises. */
  function MemberViews(page: seq<Membership>, users: seq<UserModel.User>, isMentor: bool): (r: Option<seq<MemberView>>)
    ensures r.Some? ==> |r.value| == |page|
    ensures r.Some? ==> forall k :: 0 <= k < |page| ==> r.value[k].membership == page[k]
    ensures r.Some? ==> forall k :: 0 <= k < |page| ==> (r.value[k].userEmail.Some? <==> isMentor)
    ensures r.None? <==> exists k :: 0 <= k < |page| && UserModel.FindUser(users, page[k].userId).None?
  {
    if page == [] then Some([])
    else
      var rest := MemberViews(page[1..], users, isMentor);
      assert forall k :: 0 <= k < |page| - 1 ==> page[1..][k] == page[k + 1];
      match UserModel.FindUser(users, page[0].userId)
      case None => None
      case Some(u) =>
        if rest.None? then None
        else
          assert forall k :: 0 < k < |page| ==> page[k] == page[1..][k - 1];
          Some([MemberView(page[0], u.name, if isMentor then Some(u.email) else None)] + rest.value)
  }

  function MemberRows(ms: seq<Membership>, loungeId: int, includeLeft: bool): (r: seq<Membership>)
    ensures forall k :: 0 <= k < |r| ==> r[k] in ms && r[k].loungeId == loungeId && (includeLeft || r[k].leftAt.None?)
  {
    Filter(ms, (m: Membership) => m.loungeId == loungeId && (includeLeft || m.leftAt.None?))
  }

  // ---------------------------------------------------------------------
  // The store
  // ---------------------------------------------------------------------

  class LoungeStore {
    var lounges: seq<Lounge>
    var memberships: seq<Membership>
    var mentors: seq<Mentor>
    var categories: seq<Category>
    var users: seq<UserModel.User>
    /** The profile columns of `mentors` by mentor id. */
    var profiles: map<int, ProfileColumns>
    var nextLoungeId: int
    var nextMembershipId: int

    ghost predicate Valid()
      reads this
    {
      LoungeTablesValid(lounges, memberships, nextLoungeId, nextMembershipId)
    }

    /** `GET /lounges/`: public lounges only, filtered, counted before
        paging; a page past the first overrides `skip`. Each card carries
        the live member count and `is_full`. */
    method ListLounges(categoryIds: Option<String>, categoryId: Option<int>, accessType: Option<AccessType>,
                       search: Option<String>, mentorId: Option<int>, skip: nat, page: int, limit: int)
      returns (r: LoungeListing)
      requires page >= 1 && 1 <= limit <= 100
      ensures var q := LoungeQuery(CategoryFilterOf(categoryIds, categoryId), accessType, mentorId, search);
              var rows := ListedRows(lounges, mentors, users, categories, q);
              var shown := Page(rows, ListOffset(skip, page, limit), limit);
              r.total == |rows| && |r.items| == |shown| &&
              forall k :: 0 <= k < |shown| ==> r.items[k] == Card(shown[k], memberships, mentors, users, categories)
      ensures |r.items| <= limit && r.page == page && r.limit == limit
      ensures forall k :: 0 <= k < |r.items| ==> r.items[k].lounge in lounges && r.items[k].lounge.isPublicListing
    {
      var q := LoungeQuery(CategoryFilterOf(categoryIds, categoryId), accessType, mentorId, search);
      var rows := ListedRows(lounges, mentors, users, categories, q);
      var shown := Page(rows, ListOffset(skip, page, limit), limit);
      var items: seq<LoungeCard> := [];
      var k := 0;
      while k < |shown|
        invariant 0 <= k <= |shown| && |items| == k
        invariant forall j :: 0 <= j < k ==> items[j] == Card(shown[j], memberships, mentors, users, categories)
      {
        var card := Card(shown[k], memberships, mentors, users, categories);
        items := items + [card];
        k := k + 1;
      }
      forall j | 0 <= j < |shown| ensures shown[j] in rows {
        assert shown[j] == rows[ListOffset(skip, page, limit) + j];
      }
      r := LoungeListing(items, |rows|, page, limit);
    }

    /** `GET /lounges/my`: the caller's active memberships, paged, then the
        lounges with those ids in table order; `total` is the length of that
        page, and `page` is always 1. */
    method MyLounges(userId: int, skip: nat, limit: int) returns (r: MyLoungeListing)
      requires 1 <= limit <= 100
      ensures var mine := Page(Filter(memberships, (m: Membership) => m.userId == userId && m.leftAt.None?), skip, limit);
              var shown := Filter(lounges, (l: Lounge) => l.id in LoungeIdsOf(mine));
              |r.items| == |shown| &&
              forall k :: 0 <= k < |shown| ==> r.items[k] == MyLoungeCard(shown[k], MemberCount(memberships, shown[k].id))
      ensures r.total == |r.items| && r.page == 1 && r.limit == limit
      ensures forall k :: 0 <= k < |r.items| ==>
                r.items[k].lounge in lounges &&
                exists m :: m in memberships && m.userId == userId && m.leftAt.None? && m.loungeId == r.items[k].lounge.id
    {
      var active := Filter(memberships, (m: Membership) => m.userId == userId && m.leftAt.None?);
      var mine := Page(active, skip, limit);
      var ids := LoungeIdsOf(mine);
      var shown := Filter(lounges, (l: Lounge) => l.id in ids);
      var items: seq<MyLoungeCard> := [];
      var k := 0;
      while k < |shown|
        invariant 0 <= k <= |shown| && |items| == k
        invariant forall j :: 0 <= j < k ==> items[j] == MyLoungeCard(shown[j], MemberCount(memberships, shown[j].id))
      {
        var card := MyLoungeCard(shown[k], MemberCount(memberships, shown[k].id));
        items := items + [card];
        k := k + 1;
      }
      forall j | 0 <= j < |shown|
        ensures exists m :: m in memberships && m.userId == userId && m.leftAt.None? && m.loungeId == shown[j].id
      {
        assert shown[j].id in ids;
        MembershipOfListedId(memberships, userId, skip, limit, shown[j].id);
      }
      r := MyLoungeListing(items, |items|, 1, limit);
    }

    /** `GET /lounges/{id}`: 404 for an unknown lounge, the private-lounge
        guard, then the detail with the live statistics. */
    function GetLounge(loungeId: int, caller: Option<int>): (r: Outcome<LoungeDetail>)
      reads this
      ensures FindLounge(lounges, loungeId).None? <==> r == HttpError(404, LoungeNotFound)
      ensures FindLounge(lounges, loungeId).Some? ==>
                var l := lounges[FindLounge(lounges, loungeId).value];
                (r.HttpError? <==> PrivateAccess(mentors, memberships, l, caller).Some?) &&
                (r.HttpError? ==> (r.status, r.detail) == PrivateAccess(mentors, memberships, l, caller).value) &&
                (r.Ok? ==> r.value.card == Card(l, memberships, mentors, users, categories) &&
                           (r.value.isMember <==> caller.Some? && IsActiveMember(memberships, loungeId, caller.value)) &&
                           (r.value.monthlyPrice.Some? <==> TruthyStr(l.stripeMonthlyPriceId)) &&
                           (r.value.yearlyPrice.Some? <==> TruthyStr(l.stripeYearlyPriceId)))
    {
      match FindLounge(lounges, loungeId)
      case None => HttpError(404, LoungeNotFound)
      case Some(i) =>
        var l := lounges[i];
        match PrivateAccess(mentors, memberships, l, caller)
        case Some(e) => HttpError(e.0, e.1)
        case None =>
          Ok(LoungeDetail(Card(l, memberships, mentors, users, categories),
                          caller.Some? && IsActiveMember(memberships, loungeId, caller.value),
                          if TruthyStr(l.stripeMonthlyPriceId) then Some(BillingService.LoungeMonthlyPriceCents) else None,
                          if TruthyStr(l.stripeYearlyPriceId) then Some(BillingService.LoungeYearlyPriceCents) else None))
    }

    /** The guards of `GET /lounges/{id}/mentor-profile`, then the profile
        of the lounge's mentor. The "Mentor not found" branch after the
        guard is unreachable: the guard already dereferences the mentor. */
    function MentorProfileRoute(loungeId: int, userId: int): (r: Outcome<MentorProfile>)
      reads this
      ensures FindLounge(lounges, loungeId).None? <==> r == HttpError(404, LoungeNotFound)
      ensures r.Ok? ==> var l := lounges[FindLounge(lounges, loungeId).value];
                        MemberAccess(mentors, memberships, l, userId, MembersOnlyProfile).None?
      ensures r.HttpError? && r.status == 403 ==> r.detail == MembersOnlyProfile
      ensures r.Ok? ==>
                var l := lounges[FindLounge(lounges, loungeId).value];
                var mentor := mentors[FindMentor(mentors, l.mentorId).value];
                UserModel.FindUser(users, mentor.userId).Some?
                && r.value == ProfileOf(UserModel.FindUser(users, mentor.userId).value,
                                        if mentor.id in profiles then profiles[mentor.id] else NoProfileColumns)
      ensures FindLounge(lounges, loungeId).Some? &&
              MemberAccess(mentors, memberships, lounges[FindLounge(lounges, loungeId).value], userId, MembersOnlyProfile).None?
              ==> (r.Ok? <==> UserModel.FindUser(users, mentors[FindMentor(mentors, lounges[FindLounge(lounges, loungeId).value].mentorId).value].userId).Some?)
    {
      match FindLounge(lounges, loungeId)
      case None => HttpError(404, LoungeNotFound)
      case Some(i) =>
        var l := lounges[i];
        match MemberAccess(mentors, memberships, l, userId, MembersOnlyProfile)
        case Some(e) => HttpError(e.0, e.1)
        case None =>
          var mi := FindMentor(mentors, l.mentorId).value;
          var mentor := mentors[mi];
          match UserModel.FindUser(users, mentor.userId)
          case None => HttpError(500, InternalError)
          case Some(u) =>
            var cols := if mentor.id in profiles then profiles[mentor.id] else NoProfileColumns;
            Ok(ProfileOf(u, cols))
    }

    /** The route as written: past the guards it reads `mentor.hobbies`,
        which the `Mentor` class does not declare, so every caller the
        guards let through gets 500. */
    function MentorProfileAsWritten(loungeId: int, userId: int): (r: Outcome<MentorProfile>)
      reads this
      ensures r.HttpError?
      ensures MentorProfileRoute(loungeId, userId).Ok? ==> r == HttpError(500, InternalError)
    {
      match FindLounge(lounges, loungeId)
      case None => HttpError(404, LoungeNotFound)
      case Some(i) =>
        match MemberAccess(mentors, memberships, lounges[i], userId, MembersOnlyProfile)
        case Some(e) => HttpError(e.0, e.1)
        case None => HttpError(500, InternalError)
    }

    /** `POST /lounges/`: 403 without a mentor profile, 400 for a taken
        slug, 404 for a truthy unknown category; otherwise the lounge is
        inserted. */
    method CreateLounge(userId: int, body: Schemas.LoungeCreate, now: Time) returns (r: Outcome<Lounge>)
      requires Valid()
      modifies this
      ensures Valid()
      ensures FindMentorByUser(mentors, userId).None? ==> r == HttpError(403, NoMentorProfile)
      ensures FindMentorByUser(mentors, userId).Some? && FindLoungeBySlug(old(lounges), body.slug).Some? ==>
                r == HttpError(400, SlugTaken)
      ensures FindMentorByUser(mentors, userId).Some? && FindLoungeBySlug(old(lounges), body.slug).None? &&
              Truthy(body.categoryId) && !CategoryExists(categories, body.categoryId.value) ==>
                r == HttpError(404, CategoryNotFound)
      ensures r.Ok? <==> FindMentorByUser(mentors, userId).Some? && FindLoungeBySlug(old(lounges), body.slug).None? &&
                         (Truthy(body.categoryId) ==> CategoryExists(categories, body.categoryId.value))
      ensures r.Ok? ==> r.value == CreatedLounge(old(nextLoungeId), mentors[FindMentorByUser(mentors, userId).value].id, body, now) &&
                        lounges == old(lounges) + [r.value] && nextLoungeId == old(nextLoungeId) + 1
      ensures r.HttpError? ==> lounges == old(lounges) && nextLoungeId == old(nextLoungeId)
      ensures memberships == old(memberships) && mentors == old(mentors) && categories == old(categories)
      ensures users == old(users) && profiles == old(profiles) && nextMembershipId == old(nextMembershipId)
    {
      var mi := FindMentorByUser(mentors, userId);
      if mi.None? {
        return HttpError(403, NoMentorProfile);
      }
      if FindLoungeBySlug(lounges, body.slug).Some? {
        return HttpError(400, SlugTaken);
      }
      if Truthy(body.categoryId) && !CategoryExists(categories, body.categoryId.value) {
        return HttpError(404, CategoryNotFound);
      }
      var l := CreatedLounge(nextLoungeId, mentors[mi.value].id, body, now);
      CreateKeepsValid(lounges, memberships, nextLoungeId, nextMembershipId, l);
      lounges, nextLoungeId := lounges + [l], nextLoungeId + 1;
      r := Ok(l);
    }

    /** `PUT /lounges/{id}`: 404, then ownership (a caller without a mentor
        profile makes `mentor.id` raise), then a given category must exist;
        nothing is committed on an error. */
    method UpdateLounge(loungeId: int, userId: int, u: Schemas.LoungeUpdate) returns (r: Outcome<Lounge>)
      requires Valid()
      modifies this
      ensures Valid()
      ensures FindLounge(old(lounges), loungeId).None? <==> r == HttpError(404, LoungeNotFound)
      ensures r.Ok? ==> var i := FindLounge(old(lounges), loungeId).value;
                        FindMentorByUser(mentors, userId).Some? &&
                        old(lounges)[i].mentorId == mentors[FindMentorByUser(mentors, userId).value].id &&
                        (u.categoryId.Some? ==> CategoryExists(categories, u.categoryId.value)) &&
                        r.value == ApplyUpdate(old(lounges)[i], u) &&
                        lounges == old(lounges)[i := r.value]
      ensures r.HttpError? && r.status == 403 ==> r.detail == NotOwnerUpdate
      ensures r.HttpError? ==> lounges == old(lounges)
      ensures memberships == old(memberships) && mentors == old(mentors) && categories == old(categories)
      ensures users == old(users) && profiles == old(profiles)
      ensures nextLoungeId == old(nextLoungeId) && nextMembershipId == old(nextMembershipId)
    {
      var li := FindLounge(lounges, loungeId);
      if li.None? {
        return HttpError(404, LoungeNotFound);
      }
      var i := li.value;
      var mi := FindMentorByUser(mentors, userId);
      if mi.None? {
        return HttpError(500, InternalError);
      }
      if lounges[i].mentorId != mentors[mi.value].id {
        return HttpError(403, NotOwnerUpdate);
      }
      if u.categoryId.Some? && !CategoryExists(categories, u.categoryId.value) {
        return HttpError(404, CategoryNotFound);
      }
      var updated := ApplyUpdate(lounges[i], u);
      UpdateKeepsValid(lounges, memberships, nextLoungeId, nextMembershipId, i, u);
      lounges := lounges[i := updated];
      r := Ok(updated);
    }

    /** `DELETE /lounges/{id}`: 404, ownership, then the lounge and its
        memberships are deleted. */
    method DeleteLounge(loungeId: int, userId: int) returns (r: Outcome<()>)
      requires Valid()
      modifies this
      ensures Valid()
      ensures FindLounge(old(lounges), loungeId).None? <==> r == HttpError(404, LoungeNotFound)
      ensures r.Ok? ==> FindMentorByUser(mentors, userId).Some? &&
                        old(lounges)[FindLounge(old(lounges), loungeId).value].mentorId ==
                          mentors[FindMentorByUser(mentors, userId).value].id
      ensures r.Ok? ==> lounges == WithoutLounge(old(lounges), loungeId) &&
                        memberships == WithoutLoungeMemberships(old(memberships), loungeId)
      ensures r.HttpError? && r.status == 403 ==> r.detail == NotOwnerDelete
      ensures r.HttpError? ==> lounges == old(lounges) && memberships == old(memberships)
      ensures mentors == old(mentors) && categories == old(categories) && users == old(users) && profiles == old(profiles)
      ensures nextLoungeId == old(nextLoungeId) && nextMembershipId == old(nextMembershipId)
    {
      var li := FindLounge(lounges, loungeId);
      if li.None? {
        return HttpError(404, LoungeNotFound);
      }
      var mi := FindMentorByUser(mentors, userId);
      if mi.None? {
        return HttpError(500, InternalError);
      }
      if lounges[li.value].mentorId != mentors[mi.value].id {
        return HttpError(403, NotOwnerDelete);
      }
      DeleteKeepsValid(lounges, memberships, nextLoungeId, nextMembershipId, loungeId);
      lounges := WithoutLounge(lounges, loungeId);
      memberships := WithoutLoungeMemberships(memberships, loungeId);
      r := Ok(());
    }

    /** `POST /lounges/{id}/join`: 404, then the refusals in order, then one
        MEMBER membership for the caller. */
    method JoinLounge(loungeId: int, userId: int, now: Time) returns (r: Outcome<Membership>)
      requires Valid()
      modifies this
      ensures Valid()
      ensures FindLounge(old(lounges), loungeId).None? <==> r == HttpError(404, LoungeNotFound)
      ensures FindLounge(old(lounges), loungeId).Some? ==>
                var l := old(lounges)[FindLounge(old(lounges), loungeId).value];
                var refusal := JoinRefusal(l, old(memberships), userId);
                (r.HttpError? <==> refusal.Some?) &&
                (r.HttpError? ==> (r.status, r.detail) == refusal.value)
      ensures r.Ok? ==> r.value == NewMembership(old(nextMembershipId), loungeId, userId, now) &&
                        memberships == old(memberships) + [r.value] && nextMembershipId == old(nextMembershipId) + 1 &&
                        MemberCount(memberships, loungeId) == MemberCount(old(memberships), loungeId) + 1
      ensures r.HttpError? ==> memberships == old(memberships) && nextMembershipId == old(nextMembershipId)
      ensures lounges == old(lounges) && mentors == old(mentors) && categories == old(categories)
      ensures users == old(users) && profiles == old(profiles) && nextLoungeId == old(nextLoungeId)
    {
      var li := FindLounge(lounges, loungeId);
      if li.None? {
        return HttpError(404, LoungeNotFound);
      }
      var l := lounges[li.value];
      assert l.id == loungeId;
      var refusal := JoinRefusal(l, memberships, userId);
      if refusal.Some? {
        return HttpError(refusal.value.0, refusal.value.1);
      }
      var m := NewMembership(nextMembershipId, loungeId, userId, now);
      JoinKeepsValid(lounges, memberships, nextLoungeId, nextMembershipId, loungeId, userId, now);
      MemberCountAppend(memberships, m, loungeId);
      memberships, nextMembershipId := memberships + [m], nextMembershipId + 1;
      r := Ok(m);
    }

    /** `POST /lounges/{id}/leave`: 404 without an active membership;
        otherwise `left_at` is stamped and the row is kept. */
    method LeaveLounge(loungeId: int, userId: int, now: Time) returns (r: Outcome<()>)
      requires Valid()
      modifies this
      ensures Valid()
      ensures r.HttpError? <==> !IsActiveMember(old(memberships), loungeId, userId)
      ensures r.HttpError? ==> r == HttpError(404, NotAMember) && memberships == old(memberships)
      ensures r.Ok? ==> memberships == BillingService.EndMembership(old(memberships), loungeId, userId, now) &&
                        !IsActiveMember(memberships, loungeId, userId) &&
                        MemberCount(memberships, loungeId) == MemberCount(old(memberships), loungeId) - 1
      ensures |memberships| == |old(memberships)|
      ensures lounges == old(lounges) && mentors == old(mentors) && categories == old(categories)
      ensures users == old(users) && profiles == old(profiles)
      ensures nextLoungeId == old(nextLoungeId) && nextMembershipId == old(nextMembershipId)
    {
      if !IsActiveMember(memberships, loungeId, userId) {
        return HttpError(404, NotAMember);
      }
      var ended := BillingService.EndMembership(memberships, loungeId, userId, now);
      assert forall k :: 0 <= k < |ended| ==> ended[k].id == memberships[k].id;
      memberships := ended;
      r := Ok(());
    }

    /** `GET /lounges/{id}/members`: 404, the member-only guard, then one
        page of the lounge's memberships (active ones unless `include_left`),
        with the e-mail addresses shown to the mentor only. */
    method ListMembers(loungeId: int, userId: int, skip: nat, limit: int, includeLeft: bool)
      returns (r: Outcome<seq<MemberView>>)
      requires 1 <= limit <= 100
      ensures FindLounge(lounges, loungeId).None? <==> r == HttpError(404, LoungeNotFound)
      ensures FindLounge(lounges, loungeId).Some? ==>
                var l := lounges[FindLounge(lounges, loungeId).value];
                var access := MemberAccess(mentors, memberships, l, userId, MembersDenied);
                (access.Some? ==> r == HttpError(access.value.0, access.value.1)) &&
                (access.None? ==>
                   var views := MemberViews(Page(MemberRows(memberships, loungeId, includeLeft), skip, limit), users,
                                            IsLoungeMentor(mentors, l, userId) == Some(true));
                   (r.Ok? <==> views.Some?) && (r.Ok? ==> r.value == views.value) &&
                   (r.HttpError? ==> r == HttpError(500, InternalError)))
      ensures r.Ok? ==> |r.value| <= limit &&
                        forall k :: 0 <= k < |r.value| ==> r.value[k].membership in memberships &&
                                                           r.value[k].membership.loungeId == loungeId
    {
      var li := FindLounge(lounges, loungeId);
      if li.None? {
        return HttpError(404, LoungeNotFound);
      }
      var l := lounges[li.value];
      var access := MemberAccess(mentors, memberships, l, userId, MembersDenied);
      if access.Some? {
        return HttpError(access.value.0, access.value.1);
      }
      var isMentor := IsLoungeMentor(mentors, l, userId) == Some(true);
      var rows := MemberRows(memberships, loungeId, includeLeft);
      var page := Page(rows, skip, limit);
      var views := BuildMemberViews(page, users, isMentor);
      if views.None? {
        return HttpError(500, InternalError);
      }
      PagedMembersSound(memberships, loungeId, includeLeft, skip, limit);
      r := Ok(views.value);
    }
  }

  /** A page of member rows holds members of the lounge only. */
  lemma PagedMembersSound(ms: seq<Membership>, loungeId: int, includeLeft: bool, skip: nat, limit: nat)
    ensures var page := Page(MemberRows(ms, loungeId, includeLeft), skip, limit);
            |page| <= limit && forall j :: 0 <= j < |page| ==> page[j] in ms && page[j].loungeId == loungeId
  {
    var rows := MemberRows(ms, loungeId, includeLeft);
    var page := Page(rows, skip, limit);
    forall j | 0 <= j < |page| ensures page[j] in ms && page[j].loungeId == loungeId {
      assert page[j] == rows[skip + j];
    }
  }

  /** The loop of `get_lounge_members` over one page. */
  method BuildMemberViews(page: seq<Membership>, users: seq<UserModel.User>, isMentor: bool)
    returns (r: Option<seq<MemberView>>)
    ensures r == MemberViews(page, users, isMentor)
  {
    var views: seq<MemberView> := [];
    var k := 0;
    while k < |page|
      invariant 0 <= k <= |page|
      invariant MemberViews(page[..k], users, isMentor) == Some(views)
    {
      var u := UserModel.FindUser(users, page[k].userId);
      if u.None? {
        MemberViewsNone(page, users, isMentor, k);
        return None;
      }
      MemberViewsStep(page, users, isMentor, k);
      var view := MemberView(page[k], u.value.name, if isMentor then Some(u.value.email) else None);
      views := views + [view];
      k := k + 1;
    }
    assert page[..k] == page;
    r := Some(views);
  }

  /** A missing user anywhere in the page makes the whole list fail. */
  lemma MemberViewsNone(page: seq<Membership>, users: seq<UserModel.User>, isMentor: bool, k: nat)
    requires k < |page| && UserModel.FindUser(users, page[k].userId).None?
    ensures MemberViews(page, users, isMentor).None?
  {
  }

  /** Building the views one membership at a time. */
  lemma {:induction false} MemberViewsStep(page: seq<Membership>, users: seq<UserModel.User>, isMentor: bool, k: nat)
    requires k < |page| && UserModel.FindUser(users, page[k].userId).Some?
    requires MemberViews(page[..k], users, isMentor).Some?
    ensures var u := UserModel.FindUser(users, page[k].userId).value;
            MemberViews(page[..k + 1], users, isMentor) ==
              Some(MemberViews(page[..k], users, isMentor).value +
                   [MemberView(page[k], u.name, if isMentor then Some(u.email) else None)])
  {
    MemberViewsSnoc(page[..k], page[k], users, isMentor);
    assert page[..k + 1] == page[..k] + [page[k]];
  }

  lemma {:induction false} MemberViewsSnoc(page: seq<Membership>, m: Membership, users: seq<UserModel.User>, isMentor: bool)
    requires MemberViews(page, users, isMentor).Some? && UserModel.FindUser(users, m.userId).Some?
    ensures var u := UserModel.FindUser(users, m.userId).value;
            MemberViews(page + [m], users, isMentor) ==
              Some(MemberViews(page, users, isMentor).value + [MemberView(m, u.name, if isMentor then Some(u.email) else None)])
  {
    var t := page + [m];
    var um := UserModel.FindUser(users, m.userId).value;
    var vm := MemberView(m, um.name, if isMentor then Some(um.email) else None);
    if page == [] {
      assert t[0] == m && t[1..] == [];
      assert MemberViews(t, users, isMentor) == Some([vm] + MemberViews(t[1..], users, isMentor).value);
      assert MemberViews(t[1..], users, isMentor) == Some([]);
      assert MemberViews(page, users, isMentor).value == [];
      assert [vm] + [] == [vm] == [] + [vm];
    } else {
      assert t[0] == page[0] && t[1..] == page[1..] + [m];
      var u0 := UserModel.FindUser(users, page[0].userId).value;
      var v0 := MemberView(page[0], u0.name, if isMentor then Some(u0.email) else None);
      assert MemberViews(page, users, isMentor) == Some([v0] + MemberViews(page[1..], users, isMentor).value);
      MemberViewsSnoc(page[1..], m, users, isMentor);
      assert MemberViews(t, users, isMentor) == Some([v0] + MemberViews(t[1..], users, isMentor).value);
      var a := MemberViews(page[1..], users, isMentor).value;
      assert MemberViews(t[1..], users, isMentor) == Some(a + [vm]);
      assert [v0] + (a + [vm]) == ([v0] + a) + [vm];
    }
  }

  // ---------------------------------------------------------------------
  // The documents of a lounge
  // ---------------------------------------------------------------------

  const ResourcesDenied: String := "You must be a member of this lounge to access resources"

  /** One entry of `GET /lounges/{id}/resources`: the row, a download link,
      and the file's type, size and name. */
  datatype ResourceItem = ResourceItem(
    resource: LoungeResourceModel.LoungeResource,
    fileUrl: String,
    fileType: Option<String>,
    fileSize: int,
    fileName: Option<String>)

  /** The entry for one document. The link is asked for first, and it
      raises when the file row is gone or presigning fails, so an entry
      that exists always has its file's type and size. */
  function ResourceItemOf(x: LoungeResourceModel.LoungeResource, files: seq<FileModel.File>,
                          presign: (String, int) -> String, s3Fails: bool): (r: Result<ResourceItem>)
    ensures r.Success? <==> FileModel.FindFile(files, x.fileId).Some? && !s3Fails
    ensures r.Success? ==>
              var f := files[FileModel.FindFile(files, x.fileId).value];
              r.value.resource == x &&
              r.value.fileUrl == presign(f.storagePath, LoungeResourceService.UrlExpiration) &&
              r.value.fileType == Some(f.mimeType) && r.value.fileSize == f.sizeBytes &&
              (r.value.fileName.Some? <==> f.storagePath != []) &&
              (r.value.fileName.Some? ==> '/' !in r.value.fileName.value)
  {
    match FileService.PresignedUrl(files, x.fileId, LoungeResourceService.UrlExpiration, presign, s3Fails)
    case Failure(e) => Failure(e)
    case Success(url) =>
      match LoungeResourceModel.FileOf(x, files)
      case None => Failure(FileService.FileNotFound)
      case Some(f) =>
        Success(ResourceItem(x, url, Some(f.mimeType), f.sizeBytes,
                             if f.storagePath != [] then Some(AfterLast(f.storagePath, '/')) else None))
  }

  /** The answer of `GET /lounges/{id}/resources`. */
  datatype ResourcesPage = ResourcesPage(
    resources: seq<ResourceItem>, total: nat, page: int, pageSize: int, totalPages: nat)

  /** `get_lounge_resources` (the route): 404 for an unknown lounge, 403
      unless the caller is the mentor or an active member, then one page of
      the lounge's documents, newest first, with a link each; a document
      whose link cannot be made fails the whole request with 500. */
  method ListLoungeResources(lounges: seq<Lounge>, mentors: seq<Mentor>, memberships: seq<Membership>,
                             resources: seq<LoungeResourceModel.LoungeResource>, files: seq<FileModel.File>,
                             loungeId: int, userId: int, page: int, pageSize: int,
                             presign: (String, int) -> String, s3Fails: bool)
    returns (r: Outcome<ResourcesPage>)
    requires page >= 1 && 1 <= pageSize <= 100
    ensures FindLounge(lounges, loungeId).None? <==> r == HttpError(404, LoungeNotFound)
    ensures FindLounge(lounges, loungeId).Some? ==>
              var access := MemberAccess(mentors, memberships, lounges[FindLounge(lounges, loungeId).value],
                                         userId, ResourcesDenied);
              (access.Some? ==> r == HttpError(access.value.0, access.value.1)) &&
              (access.None? ==>
                 var listing := LoungeResourceService.LoungeResources(resources, loungeId, page, pageSize);
                 (r.Ok? <==> forall k :: 0 <= k < |listing.items| ==> ResourceItemOf(listing.items[k], files, presign, s3Fails).Success?) &&
                 (r.HttpError? ==> r == HttpError(500, InternalError)) &&
                 (r.Ok? ==> r.value.total == listing.total && r.value.totalPages == Pages(listing.total, pageSize) &&
                            |r.value.resources| == |listing.items| &&
                            forall k :: 0 <= k < |listing.items| ==>
                              r.value.resources[k] == ResourceItemOf(listing.items[k], files, presign, s3Fails).value))
    ensures r.Ok? ==> |r.value.resources| <= pageSize &&
                      forall k :: 0 <= k < |r.value.resources| ==>
                        r.value.resources[k].resource in resources && r.value.resources[k].resource.loungeId == loungeId
  {
    var li := FindLounge(lounges, loungeId);
    if li.None? {
      return HttpError(404, LoungeNotFound);
    }
    var access := MemberAccess(mentors, memberships, lounges[li.value], userId, ResourcesDenied);
    if access.Some? {
      return HttpError(access.value.0, access.value.1);
    }
    var listing := LoungeResourceService.LoungeResources(resources, loungeId, page, pageSize);
    var items: seq<ResourceItem> := [];
    var k := 0;
    while k < |listing.items|
      invariant 0 <= k <= |listing.items|
      invariant |items| == k
      invariant forall j :: 0 <= j < k ==> ResourceItemOf(listing.items[j], files, presign, s3Fails).Success? &&
                                           items[j] == ResourceItemOf(listing.items[j], files, presign, s3Fails).value
    {
      var item := ResourceItemOf(listing.items[k], files, presign, s3Fails);
      if item.Failure? {
        return HttpError(500, InternalError);
      }
      items := items + [item.value];
      k := k + 1;
    }
    r := Ok(ResourcesPage(items, listing.total, page, pageSize, Pages(listing.total, pageSize)));
  }
}
