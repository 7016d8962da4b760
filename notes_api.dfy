/** The notes router (app/api/v1/notes.py): listings, previews, sections
    and the visibility of capsule content. */
module NotesApi {
  import opened Common
  import opened NoteModel
  import opened NoteService

  // ---------------------------------------------------------------------
  // Listing
  // ---------------------------------------------------------------------

  /** `[t.strip().lower() for t in tags.split(',')]` */
  function TagQuery(tags: String): (r: seq<String>)
    ensures |r| == |Split(tags, ',')|
    ensures forall k :: 0 <= k < |r| ==> r[k] == Lower(Strip(Split(tags, ',')[k]))
  {
    var parts := Split(tags, ',');
    seq(|parts|, k requires 0 <= k < |parts| => Lower(Strip(parts[k])))
  }

  /** Every requested tag comes out lower-cased, without a comma. */
  lemma TagQueryShape(tags: String)
    ensures |TagQuery(tags)| >= 1
    ensures forall k :: 0 <= k < |TagQuery(tags)| ==> IsLowered(TagQuery(tags)[k]) && ',' !in TagQuery(tags)[k]
  {
    var parts := Split(tags, ',');
    forall k | 0 <= k < |parts| ensures IsLowered(TagQuery(tags)[k]) && ',' !in TagQuery(tags)[k] {
      LowerIsLowered(Strip(parts[k]));
      StripSubseq(parts[k]);
      LowerKeepsComma(Strip(parts[k]));
    }
  }

  lemma LowerKeepsComma(s: String)
    ensures ',' in Lower(s) ==> ',' in s
  {
    if ',' in Lower(s) {
      var k :| 0 <= k < |Lower(s)| && Lower(s)[k] == ',';
      assert LowerChar(s[k]) == ',';
    }
  }

  /** The filters of `list_notes`: the caller's notes, then the lounge, the
      pin flag and the tags when given (`if tags:` skips an empty string). */
  predicate Listed(userId: int, loungeId: Option<int>, pinnedOnly: bool, tags: Option<String>, n: Note) {
    n.userId == userId &&
    (loungeId.Some? ==> n.loungeId == loungeId) &&
    (pinnedOnly ==> n.isPinned) &&
    (tags.Some? && tags.value != [] ==> HasAllTags(n, TagQuery(tags.value)))
  }

  /** One item of the listing: the note with its preview and word count. */
  datatype NoteItem = NoteItem(note: Note, contentPreview: String, wordCount: nat)

  const NotePreviewWidth: nat := 200

  function Item(n: Note): NoteItem {
    NoteItem(n, Preview(n.content, NotePreviewWidth), WordCount(n))
  }

  function Items(ns: seq<Note>): (r: seq<NoteItem>)
    ensures |r| == |ns| && forall k :: 0 <= k < |ns| ==> r[k] == Item(ns[k])
  {
    seq(|ns|, k requires 0 <= k < |ns| => Item(ns[k]))
  }

  datatype NotePage = NotePage(items: seq<NoteItem>, total: nat, page: int, limit: int, pages: nat)

  /** The page of `list_notes`, as a function of the table. */
  function NotesPage(notes: seq<Note>, userId: int, page: int, limit: int, loungeId: Option<int>,
                     pinnedOnly: bool, tags: Option<String>): NotePage
    requires 1 <= page && 1 <= limit <= 100
  {
    var r := ListPage(notes, (n: Note) => Listed(userId, loungeId, pinnedOnly, tags, n), PinnedThenRecent, page, limit);
    NotePage(Items(r.items), r.total, page, limit, Pages(r.total, limit))
  }

  /** `list_notes`: the query is narrowed filter by filter (one pass per
      requested tag), counted, ordered and cut to the page. */
  method ListNotes(store: NoteStore, userId: int, page: int, limit: int, loungeId: Option<int>,
                   pinnedOnly: bool, tags: Option<String>) returns (r: NotePage)
    requires 1 <= page && 1 <= limit <= 100
    ensures r == NotesPage(store.notes, userId, page, limit, loungeId, pinnedOnly, tags)
  {
    var own := Filter(store.notes, (n: Note) => n.userId == userId &&
                                                (loungeId.Some? ==> n.loungeId == loungeId) &&
                                                (pinnedOnly ==> n.isPinned));
    var wanted: seq<String> := if tags.Some? && tags.value != [] then TagQuery(tags.value) else [];
    var rows := NarrowByTags(own, wanted);
    ListedRows(store.notes, userId, loungeId, pinnedOnly, tags, wanted);
    var items := Page(SortDesc(rows, PinnedThenRecent), (page - 1) * limit, limit);
    r := NotePage(Items(items), |rows|, page, limit, Pages(|rows|, limit));
  }

  /** Narrowing the caller's rows by each requested tag selects what `Listed` selects. */
  lemma ListedRows(notes: seq<Note>, userId: int, loungeId: Option<int>, pinnedOnly: bool,
                   tags: Option<String>, wanted: seq<String>)
    requires wanted == if tags.Some? && tags.value != [] then TagQuery(tags.value) else []
    ensures Filter(Filter(notes, (n: Note) => n.userId == userId && (loungeId.Some? ==> n.loungeId == loungeId) &&
                                              (pinnedOnly ==> n.isPinned)),
                   (n: Note) => HasAllTags(n, wanted))
         == Filter(notes, (n: Note) => Listed(userId, loungeId, pinnedOnly, tags, n))
  {
    FilterConj(notes,
      (n: Note) => n.userId == userId && (loungeId.Some? ==> n.loungeId == loungeId) && (pinnedOnly ==> n.isPinned),
      (n: Note) => HasAllTags(n, wanted),
      (n: Note) => Listed(userId, loungeId, pinnedOnly, tags, n));
  }

  /** Every listed note is the caller's and passes the filters; pinned notes
      come first; `pages` covers the total. */
  lemma NotesPageSound(notes: seq<Note>, userId: int, page: int, limit: int, loungeId: Option<int>,
                       pinnedOnly: bool, tags: Option<String>)
    requires 1 <= page && 1 <= limit <= 100
    ensures var p := NotesPage(notes, userId, page, limit, loungeId, pinnedOnly, tags);
      |p.items| <= limit &&
      p.total == Count(notes, (n: Note) => Listed(userId, loungeId, pinnedOnly, tags, n)) &&
      (forall k :: 0 <= k < |p.items| ==> p.items[k].note in notes && p.items[k].note.userId == userId) &&
      (forall i, j :: 0 <= i < j < |p.items| && p.items[j].note.isPinned ==> p.items[i].note.isPinned) &&
      (p.total == 0 ==> p.pages == 1) &&
      (p.total > 0 ==> (p.pages - 1) * limit < p.total <= p.pages * limit)
  {
    var r := ListPage(notes, (n: Note) => Listed(userId, loungeId, pinnedOnly, tags, n), PinnedThenRecent, page, limit);
    var p := NotesPage(notes, userId, page, limit, loungeId, pinnedOnly, tags);
    forall i, j | 0 <= i < j < |p.items| && p.items[j].note.isPinned ensures p.items[i].note.isPinned {
      assert KeyGe(PinnedThenRecent(r.items[i]), PinnedThenRecent(r.items[j]));
    }
  }

  // ---------------------------------------------------------------------
  // Single notes
  // ---------------------------------------------------------------------

  /** `GET /notes/{note_id}`: only the owner sees a note. */
  function GetNoteRoute(store: NoteStore, userId: int, id: int): (r: Outcome<NoteItem>)
    reads store
    ensures r.Ok? <==> store.OwnedNote(id, userId).Some?
    ensures r.Ok? ==> r.value.note in store.notes && r.value.note.id == id && r.value.note.userId == userId
    ensures r.HttpError? ==> r.status == 404 && r.detail == "Note not found"
  {
    match store.OwnedNote(id, userId)
    case None => HttpError(404, "Note not found")
    case Some(i) => Ok(Item(store.notes[i]))
  }

  /** The body of `PUT /notes/{note_id}`; it has no `section`. */
  datatype NoteUpdateBody = NoteUpdateBody(
    title: Option<String>,
    content: Option<String>,
    isPinned: Option<bool>,
    isIncludedInRag: Option<bool>,
    tags: Option<seq<String>>)

  function RoutePatch(b: NoteUpdateBody): NotePatch {
    NotePatch(None, b.title, b.content, b.isPinned, b.isIncludedInRag, b.tags)
  }

  /** `PUT /notes/{note_id}`: a refused update is a 404 carrying the
      service's message; the section is never changed through this route. */
  method UpdateNoteRoute(store: NoteStore, userId: int, id: int, b: NoteUpdateBody, now: Time) returns (r: Outcome<Note>)
    requires store.Valid()
    modifies store
    ensures store.Valid()
    ensures r.HttpError? <==> old(store.OwnedNote(id, userId)).None?
    ensures r.HttpError? ==> r == HttpError(404, NoteNotFound) && store.notes == old(store.notes)
    ensures r.Ok? ==> old(store.OwnedNote(id, userId)).Some?
    ensures r.Ok? ==> r.value.section == old(store.notes)[old(store.OwnedNote(id, userId)).value].section
    ensures r.Ok? ==> r.value == ApplyNotePatch(old(store.notes)[old(store.OwnedNote(id, userId)).value], RoutePatch(b), now)
  {
    var res, _ := store.UpdateNote(id, userId, RoutePatch(b), now);
    match res
    case Failure(e) => r := HttpError(404, e);
    case Success(n) => r := Ok(n);
  }

  /** `DELETE /notes/{note_id}` */
  method DeleteNoteRoute(store: NoteStore, userId: int, id: int) returns (status: int)
    requires store.Valid()
    modifies store
    ensures store.Valid()
    ensures status == 204 <==> old(store.OwnedNote(id, userId)).Some?
    ensures status == 204 || status == 404
    ensures status == 404 ==> store.notes == old(store.notes)
  {
    var res := store.DeleteNote(id, userId);
    status := if res.Success? then 204 else 404;
  }

  /** `POST /notes/search`: the preview is blank unless content is asked for. */
  function SearchItem(n: Note, includeContent: bool): (r: NoteItem)
    ensures !includeContent ==> r.contentPreview == []
    ensures includeContent ==> r == Item(n)
  {
    NoteItem(n, if includeContent then Preview(n.content, NotePreviewWidth) else [], WordCount(n))
  }

  // ---------------------------------------------------------------------
  // Sections
  // ---------------------------------------------------------------------

  predicate HasSection(userId: int, loungeId: Option<int>, n: Note) {
    n.userId == userId && n.section.Some? && n.section.value != [] &&
    (loungeId.Some? ==> n.loungeId == loungeId)
  }

  function SectionsOf(ns: seq<Note>, userId: int, loungeId: Option<int>): (r: seq<String>)
    ensures forall s :: s in r <==> exists n :: n in ns && HasSection(userId, loungeId, n) && n.section.value == s
  {
    if ns == [] then []
    else
      var rest := SectionsOf(ns[1..], userId, loungeId);
      assert forall n :: n in ns <==> n == ns[0] || n in ns[1..] by { assert ns == [ns[0]] + ns[1..]; }
      (if HasSection(userId, loungeId, ns[0]) then [ns[0].section.value] else []) + rest
  }

  /** `GET /notes/sections/list`: the distinct non-empty sections of the
      caller's notes (in the lounge, when given), ascending. */
  function Sections(notes: seq<Note>, userId: int, loungeId: Option<int>): seq<String> {
    DistinctAsc(SectionsOf(notes, userId, loungeId))
  }

  lemma SectionsExact(notes: seq<Note>, userId: int, loungeId: Option<int>)
    ensures StrictlyAscending(Sections(notes, userId, loungeId))
    ensures forall s :: s in Sections(notes, userId, loungeId) <==>
              exists n :: n in notes && HasSection(userId, loungeId, n) && n.section.value == s
    ensures [] !in Sections(notes, userId, loungeId)
  {
  }

  // ---------------------------------------------------------------------
  // Capsule responses
  // ---------------------------------------------------------------------

  datatype CapsuleView = CapsuleView(
    capsule: TimeCapsule,
    content: Option<String>,
    isUnlocked: bool,
    daysUntilUnlock: Option<nat>,
    canViewContent: bool)

  /** The response of the list and get routes: content only once UNLOCKED. */
  function ShownCapsule(c: TimeCapsule, now: Time): (v: CapsuleView)
    ensures v.content.Some? <==> c.status == Unlocked
    ensures v.content.Some? ==> v.content.value == c.content
    ensures v.isUnlocked == v.canViewContent == (c.status == Unlocked)
  {
    var open := c.status == Unlocked;
    CapsuleView(c, if open then Some(c.content) else None, open, CapsuleDaysUntilUnlock(c, now), open)
  }

  /** The response of the create and update routes: content always hidden. */
  function HiddenCapsule(c: TimeCapsule, now: Time): (v: CapsuleView)
    ensures v.content.None? && !v.isUnlocked && !v.canViewContent
  {
    CapsuleView(c, None, false, CapsuleDaysUntilUnlock(c, now), false)
  }

  /** The response of the unlock route. */
  function OpenedCapsule(c: TimeCapsule): (v: CapsuleView)
    ensures v.content == Some(c.content) && v.isUnlocked && v.canViewContent && v.daysUntilUnlock.None?
  {
    CapsuleView(c, Some(c.content), true, None, true)
  }

  /** Hiding content on create and update loses nothing: a capsule that can
      be created or updated is LOCKED, so the list and get routes would hide
      its content too, and they agree on every other field. */
  lemma HiddenAgreesWithShown(c: TimeCapsule, now: Time)
    requires c.status == Locked
    ensures HiddenCapsule(c, now) == ShownCapsule(c, now)
  {
  }

  /** `POST /notes/capsules/{id}/unlock`: what the route shows is what the
      list route shows after the unlock. */
  lemma OpenedAgreesWithShown(c: TimeCapsule, now: Time)
    requires c.status == Unlocked
    ensures OpenedCapsule(c) == ShownCapsule(c, now)
  {
  }

  /** `GET /notes/capsules/list` (without the lounge argument, see the
      findings): the caller's capsules as shown. */
  function CapsuleList(cs: seq<TimeCapsule>, userId: int, status: Option<CapsuleStatus>, now: Time): (r: seq<CapsuleView>)
    ensures |r| == |UserCapsules(cs, userId, status)|
    ensures forall k :: 0 <= k < |r| ==> r[k] == ShownCapsule(UserCapsules(cs, userId, status)[k], now)
  {
    var us := UserCapsules(cs, userId, status);
    seq(|us|, k requires 0 <= k < |us| => ShownCapsule(us[k], now))
  }

  /** No listed capsule reveals content before it is UNLOCKED. */
  lemma ListedCapsulesKeepSecrets(cs: seq<TimeCapsule>, userId: int, status: Option<CapsuleStatus>, now: Time)
    ensures forall v :: v in CapsuleList(cs, userId, status, now) && v.content.Some? ==>
              v.capsule.status == Unlocked && v.capsule in cs && v.capsule.userId == userId
  {
    UserCapsulesExact(cs, userId, status);
    var us := UserCapsules(cs, userId, status);
    forall v | v in CapsuleList(cs, userId, status, now) && v.content.Some?
      ensures v.capsule.status == Unlocked && v.capsule in cs && v.capsule.userId == userId
    {
      var k :| 0 <= k < |us| && CapsuleList(cs, userId, status, now)[k] == v;
      assert v.capsule == us[k] && us[k] in us;
    }
  }

  /** `POST /notes/capsules` with the service's own signature: a past
      unlock time is a 400 with the service's message. */
  method CreateCapsuleRoute(store: NoteStore, userId: int, title: String, content: String, unlockAt: Time, now: Time)
    returns (r: Outcome<CapsuleView>)
    requires store.Valid()
    modifies store
    ensures store.Valid()
    ensures r.HttpError? <==> unlockAt <= now
    ensures r.HttpError? ==> r == HttpError(400, UnlockNotInFuture) && store.capsules == old(store.capsules)
    ensures r.Ok? ==> r.value.content.None? && r.value.capsule.status == Locked && r.value.daysUntilUnlock.Some?
    ensures r.Ok? ==> store.capsules == old(store.capsules) + [r.value.capsule]
  {
    var res := store.CreateTimeCapsule(userId, title, content, unlockAt, now);
    match res
    case Failure(e) => r := HttpError(400, e);
    case Success(c) => r := Ok(HiddenCapsule(c, now));
  }

  // ---------------------------------------------------------------------
  // The capsule handlers
  // ---------------------------------------------------------------------

  /** The six capsule routes of the router. */
  datatype CapsuleRoute = CreateCapsule | ListCapsules | GetCapsule | UpdateCapsule | UnlockCapsule | DeleteCapsule

  /** What a step of a capsule handler can raise: a call whose keyword
      arguments do not bind, a missing attribute, the service's
      `ValueError`, or the `HTTPException(404)` of `get_capsule`. */
  datatype Raised = TypeError | AttributeError | ValueError | NotFound404

  /** How the lookup behind a route ends once its call binds: the service
      (or, for `get_capsule`, the route's own query) yields a capsule, or it
      refuses (a `ValueError` from the service, an invalid status filter in
      `list_capsules`, no row in `get_capsule`). */
  datatype Lookup = Found | Refused

  /** The keyword parameters of the service method each route calls;
      `get_capsule` calls none. */
  function ServiceParams(route: CapsuleRoute): set<String> {
    match route
    case ListCapsules => {"user_id", "db", "status"}
    case CreateCapsule => {"user_id", "title", "content", "unlock_at", "db"}
    case UpdateCapsule => {"capsule_id", "user_id", "db", "title", "content", "unlock_at"}
    case UnlockCapsule => {"capsule_id", "user_id", "db"}
    case DeleteCapsule => {"capsule_id", "user_id", "db"}
    case GetCapsule => {}
  }

  /** The keyword arguments each route passes as written: list and create
      add `lounge_id`. */
  function RouteKwargsAsWritten(route: CapsuleRoute): set<String> {
    match route
    case ListCapsules => ServiceParams(route) + {"lounge_id"}
    case CreateCapsule => ServiceParams(route) + {"lounge_id"}
    case _ => ServiceParams(route)
  }

  /** The attributes of a `TimeCapsule` row: its columns and its `user`
      relationship. */
  const CapsuleAttributes: set<String> :=
    {"id", "user_id", "title", "content", "unlock_at", "status", "created_at", "updated_at", "user"}

  /** The attributes of the capsule the response reads, as written; delete
      builds no response. */
  function ResponseReadsAsWritten(route: CapsuleRoute): set<String> {
    if route == DeleteCapsule then {} else ResponseReads(route) + {"lounge_id", "lounge"}
  }

  /** The attributes a response without the lounge fields reads. */
  function ResponseReads(route: CapsuleRoute): set<String> {
    if route == DeleteCapsule then {}
    else {"id", "user_id", "title", "content", "unlock_at", "status", "created_at", "updated_at"}
  }

  /** The first exception the handler body raises, in the order the body
      runs: binding the call, the lookup itself, then building the response. */
  function Raises(route: CapsuleRoute, kwargs: set<String>, attrs: set<String>, lookup: Lookup): Option<Raised> {
    if !(kwargs <= ServiceParams(route)) then Some(TypeError)
    else if lookup == Refused then Some(if route == GetCapsule then NotFound404 else ValueError)
    else if !(attrs <= CapsuleAttributes) then Some(AttributeError)
    else None
  }

  /** The status an exception ends in: the route's `except` clause when one
      catches it (`except Exception` in list, `except ValueError` as 400 in
      create, update and unlock and as 404 in delete), otherwise the app's
      global handler, which answers 500. */
  function CaughtStatus(route: CapsuleRoute, e: Raised): int {
    if e == NotFound404 then 404
    else if route == ListCapsules then 500
    else if e == ValueError && route == DeleteCapsule then 404
    else if e == ValueError && route != GetCapsule then 400
    else 500
  }

  function SuccessStatus(route: CapsuleRoute): int {
    if route == CreateCapsule then 201 else if route == DeleteCapsule then 204 else 200
  }

  /** The status a capsule handler answers with. */
  function Handle(route: CapsuleRoute, kwargs: set<String>, attrs: set<String>, lookup: Lookup): (status: int)
    ensures status == SuccessStatus(route) <==> Raises(route, kwargs, attrs, lookup).None?
    ensures Raises(route, kwargs, attrs, lookup) == Some(TypeError) ==> status == 500
    ensures Raises(route, kwargs, attrs, lookup) == Some(AttributeError) ==> status == 500
  {
    match Raises(route, kwargs, attrs, lookup)
    case None => SuccessStatus(route)
    case Some(e) => CaughtStatus(route, e)
  }

  function HandleAsWritten(route: CapsuleRoute, lookup: Lookup): int {
    Handle(route, RouteKwargsAsWritten(route), ResponseReadsAsWritten(route), lookup)
  }

  function HandleCorrected(route: CapsuleRoute, lookup: Lookup): int {
    Handle(route, ServiceParams(route), ResponseReads(route), lookup)
  }

  /** Whether a handler's service call commits its change before the body
      raises: update, unlock and delete commit inside the service. */
  predicate CommitsThenFails(route: CapsuleRoute, kwargs: set<String>, attrs: set<String>, lookup: Lookup) {
    route in {UpdateCapsule, UnlockCapsule, DeleteCapsule} && kwargs <= ServiceParams(route) &&
    lookup == Found && Raises(route, kwargs, attrs, lookup).Some?
  }

  lemma LoungeAttributesMissing()
    ensures "lounge_id" !in CapsuleAttributes && "lounge" !in CapsuleAttributes
    ensures forall route :: "lounge_id" !in ServiceParams(route)
  {
    assert "lounge_id"[0] == 'l' && "lounge"[0] == 'l';
    assert forall a :: a in CapsuleAttributes ==> a[0] != 'l';
    forall route ensures "lounge_id" !in ServiceParams(route) {
      assert forall a :: a in ServiceParams(route) ==> a[0] != 'l';
    }
  }

  /** As written, no capsule route but delete can succeed: list and create
      fail when the call binds, get, update and unlock when the response
      reads `capsule.lounge_id`; create answers 500 even for a past unlock
      time; update and unlock have committed their change by then. */
  lemma {:induction false} CapsuleRoutesFailAsWritten(route: CapsuleRoute, lookup: Lookup)
    ensures route != DeleteCapsule && lookup == Found ==> HandleAsWritten(route, lookup) == 500
    ensures HandleAsWritten(ListCapsules, lookup) == 500 && HandleAsWritten(CreateCapsule, lookup) == 500
    ensures HandleAsWritten(DeleteCapsule, Found) == 204 && HandleAsWritten(DeleteCapsule, Refused) == 404
    ensures HandleAsWritten(GetCapsule, Refused) == 404
    ensures route in {UpdateCapsule, UnlockCapsule} ==> HandleAsWritten(route, Refused) == 400
    ensures route in {UpdateCapsule, UnlockCapsule} ==>
              CommitsThenFails(route, RouteKwargsAsWritten(route), ResponseReadsAsWritten(route), Found)
  {
  }

  /** The corrected handlers: every route succeeds with its status when the
      lookup finds the capsule, and answers the status its `except` clause
      names when it refuses. */
  lemma {:induction false} CapsuleRoutesCorrected(route: CapsuleRoute)
    ensures HandleCorrected(route, Found) == SuccessStatus(route)
    ensures HandleCorrected(route, Refused) ==
              (if route == ListCapsules then 500
               else if route in {GetCapsule, DeleteCapsule} then 404
               else 400)
  {
    assert ResponseReads(route) <= CapsuleAttributes;
  }

  /** The corrected routes: create succeeds for every future unlock time and
      returns the hidden view. */
  lemma CreateCapsuleRouteSucceeds(c: TimeCapsule, now: Time)
    requires c.status == Locked && c.unlockAt > now
    ensures HiddenCapsule(c, now).daysUntilUnlock.Some?
    ensures HiddenCapsule(c, now) == ShownCapsule(c, now)
  {
  }

  // ---------------------------------------------------------------------
  // The notes table as declared
  // ---------------------------------------------------------------------

  /** The columns the `Note` model declares. */
  const NoteColumnsAsWritten: set<String> :=
    {"id", "user_id", "title", "content", "is_pinned", "is_included_in_rag", "tags", "created_at", "updated_at"}

  /** The columns the service and router read or write. */
  const NoteColumnsUsed: set<String> :=
    {"id", "user_id", "lounge_id", "section", "title", "content", "is_pinned", "is_included_in_rag", "tags",
     "created_at", "updated_at"}

  /** The columns the model carries (`Note` with `loungeId` and `section`). */
  const NoteColumns: set<String> := NoteColumnsAsWritten + {"lounge_id", "section"}

  lemma NoteColumnsMissingAsWritten()
    ensures "lounge_id" in NoteColumnsUsed && "lounge_id" !in NoteColumnsAsWritten
    ensures "section" in NoteColumnsUsed && "section" !in NoteColumnsAsWritten
    ensures NoteColumnsUsed <= NoteColumns
  {
    assert "lounge_id" != "id" && "lounge_id" != "user_id" && "lounge_id" != "title";
  }
}
