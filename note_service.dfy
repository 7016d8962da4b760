/** Note and time-capsule operations (app/services/note_service.py). */
module NoteService {
  import opened Common
  import opened NoteModel

  // ---------------------------------------------------------------------
  // Notes as values
  // ---------------------------------------------------------------------

  /** The arguments of `create_note`. */
  datatype NoteData = NoteData(
    loungeId: Option<int>,
    section: Option<String>,
    title: String,
    content: String,
    isPinned: bool,
    isIncludedInRag: bool,
    tags: Option<seq<String>>)

  /** `create_note`'s own default for `is_included_in_rag`. */
  const ServiceDefaultIncludedInRag: bool := true

  /** The row `create_note` stores: the given fields, with `tags or []`. */
  function NewNote(id: int, userId: int, d: NoteData, now: Time): (n: Note)
    ensures n.id == id && n.userId == userId && n.loungeId == d.loungeId && n.section == d.section
    ensures n.title == d.title && n.content == d.content
    ensures n.isPinned == d.isPinned && n.isIncludedInRag == d.isIncludedInRag
    ensures n.tags.Some? && TagList(n) == (if d.tags.Some? then d.tags.value else [])
    ensures n.createdAt == now && n.updatedAt == now
  {
    Note(id, userId, d.loungeId, d.section, d.title, d.content, d.isPinned, d.isIncludedInRag,
         Some(if d.tags.Some? then d.tags.value else []), now, now)
  }

  /** The optional arguments of `update_note`; None leaves a field alone. */
  datatype NotePatch = NotePatch(
    section: Option<String>,
    title: Option<String>,
    content: Option<String>,
    isPinned: Option<bool>,
    isIncludedInRag: Option<bool>,
    tags: Option<seq<String>>)

  const NoNoteChange: NotePatch := NotePatch(None, None, None, None, None, None)

  /** `update_note`'s field assignments; `updated_at` is always refreshed. */
  function ApplyNotePatch(n: Note, u: NotePatch, now: Time): (r: Note)
    ensures r.id == n.id && r.userId == n.userId && r.loungeId == n.loungeId && r.createdAt == n.createdAt
    ensures r.updatedAt == now
  {
    n.(section := if u.section.Some? then u.section else n.section,
       title := if u.title.Some? then u.title.value else n.title,
       content := if u.content.Some? then u.content.value else n.content,
       isPinned := if u.isPinned.Some? then u.isPinned.value else n.isPinned,
       isIncludedInRag := if u.isIncludedInRag.Some? then u.isIncludedInRag.value else n.isIncludedInRag,
       tags := if u.tags.Some? then u.tags else n.tags,
       updatedAt := now)
  }

  /** Two updates in a row are one update whose given fields win from the later. */
  function MergeNotePatch(u: NotePatch, v: NotePatch): NotePatch {
    NotePatch(
      if v.section.Some? then v.section else u.section,
      if v.title.Some? then v.title else u.title,
      if v.content.Some? then v.content else u.content,
      if v.isPinned.Some? then v.isPinned else u.isPinned,
      if v.isIncludedInRag.Some? then v.isIncludedInRag else u.isIncludedInRag,
      if v.tags.Some? then v.tags else u.tags)
  }

  /** An empty update only moves `updated_at`; repeating an update changes
      nothing more; two updates compose. */
  lemma NotePatchLaws(n: Note, u: NotePatch, v: NotePatch, t1: Time, t2: Time)
    ensures ApplyNotePatch(n, NoNoteChange, t1) == n.(updatedAt := t1)
    ensures ApplyNotePatch(ApplyNotePatch(n, u, t1), u, t2) == ApplyNotePatch(n, u, t2)
    ensures ApplyNotePatch(ApplyNotePatch(n, u, t1), v, t2) == ApplyNotePatch(n, MergeNotePatch(u, v), t2)
  {
  }

  /** The background embedding is scheduled after an update only when new
      content was given and the note (after the update) is in RAG. */
  predicate ReembedAfterUpdate(u: NotePatch, updated: Note) {
    u.content.Some? && updated.isIncludedInRag
  }

  // ---------------------------------------------------------------------
  // Search and listings
  // ---------------------------------------------------------------------

  /** `Note.tags.contains([tag])`: the tag is among the note's tags. */
  predicate HasTag(n: Note, tag: String) { tag in TagList(n) }

  predicate HasAllTags(n: Note, tags: seq<String>) { forall t :: t in tags ==> HasTag(n, t) }

  lemma AllTagsStep(tags: seq<String>, i: nat)
    requires i < |tags|
    ensures forall n :: HasAllTags(n, tags[..i + 1]) == (HasAllTags(n, tags[..i]) && HasTag(n, tags[i]))
  {
    assert tags[..i + 1] == tags[..i] + [tags[i]];
  }

  /** `for tag in tags: query = query.filter(Note.tags.contains([tag]))`:
      each pass narrows the rows to those carrying one more tag. */
  method NarrowByTags(rows: seq<Note>, tags: seq<String>) returns (out: seq<Note>)
    ensures out == Filter(rows, (n: Note) => HasAllTags(n, tags))
  {
    out := rows;
    FilterTrue(rows, (n: Note) => HasAllTags(n, tags[..0]));
    var i := 0;
    while i < |tags|
      invariant 0 <= i <= |tags|
      invariant out == Filter(rows, (n: Note) => HasAllTags(n, tags[..i]))
    {
      var tag := tags[i];
      AllTagsStep(tags, i);
      FilterConj(rows, (n: Note) => HasAllTags(n, tags[..i]), (n: Note) => HasTag(n, tag),
                 (n: Note) => HasAllTags(n, tags[..i + 1]));
      out := Filter(out, (n: Note) => HasTag(n, tag));
      i := i + 1;
    }
    assert tags[..i] == tags;
  }

  /** `if tags:` — an absent or empty tag list filters nothing. */
  predicate TagsMatch(n: Note, tags: Option<seq<String>>) {
    tags.None? || tags.value == [] || HasAllTags(n, tags.value)
  }

  predicate TextMatches(n: Note, query: String) {
    ILike(n.title, query) || ILike(n.content, query)
  }

  predicate SearchMatches(userId: int, query: String, tags: Option<seq<String>>, n: Note) {
    n.userId == userId && TagsMatch(n, tags) && TextMatches(n, query)
  }

  /** ORDER BY is_pinned DESC, updated_at DESC. */
  function PinnedThenRecent(n: Note): Key { (if n.isPinned then 1 else 0, n.updatedAt) }

  /** ORDER BY updated_at DESC. */
  function MostRecent(n: Note): Key { (n.updatedAt, 0) }

  /** What `search_notes` returns. */
  function SearchResults(notes: seq<Note>, userId: int, query: String, tags: Option<seq<String>>, limit: nat)
    : seq<Note>
  {
    Take(SortDesc(Filter(notes, (n: Note) => SearchMatches(userId, query, tags, n)), PinnedThenRecent), limit)
  }

  /** Search results are the caller's own matching notes, at most `limit`,
      pinned notes first and newest first within each group. */
  lemma SearchSound(notes: seq<Note>, userId: int, query: String, tags: Option<seq<String>>, limit: nat)
    ensures var r := SearchResults(notes, userId, query, tags, limit);
      |r| <= limit &&
      (forall n :: n in r ==> n in notes && SearchMatches(userId, query, tags, n)) &&
      SortedDesc(r, PinnedThenRecent) &&
      (forall i, j :: 0 <= i < j < |r| && r[j].isPinned ==> r[i].isPinned)
  {
    var m := Filter(notes, (n: Note) => SearchMatches(userId, query, tags, n));
    var sorted := SortDesc(m, PinnedThenRecent);
    SortDescFacts(m, PinnedThenRecent);
    var r := Take(sorted, limit);
    forall n | n in r ensures n in notes && SearchMatches(userId, query, tags, n) {
      assert n in multiset(sorted);
      assert n in multiset(m);
    }
    forall i, j | 0 <= i < j < |r| ensures KeyGe(PinnedThenRecent(r[i]), PinnedThenRecent(r[j])) {
      assert r[i] == sorted[i] && r[j] == sorted[j];
    }
  }

  /** When at most `limit` notes match, the search returns every one of them. */
  lemma SearchComplete(notes: seq<Note>, userId: int, query: String, tags: Option<seq<String>>, limit: nat)
    requires Count(notes, (n: Note) => SearchMatches(userId, query, tags, n)) <= limit
    ensures multiset(SearchResults(notes, userId, query, tags, limit))
         == multiset(Filter(notes, (n: Note) => SearchMatches(userId, query, tags, n)))
  {
    var m := Filter(notes, (n: Note) => SearchMatches(userId, query, tags, n));
    FilterCount(notes, (n: Note) => SearchMatches(userId, query, tags, n));
    var sorted := SortDesc(m, PinnedThenRecent);
    SortDescFacts(m, PinnedThenRecent);
    assert Take(sorted, limit) == sorted;
  }

  /** What `get_pinned_notes` returns. */
  function PinnedNotes(notes: seq<Note>, userId: int): seq<Note> {
    SortDesc(Filter(notes, (n: Note) => n.userId == userId && n.isPinned), MostRecent)
  }

  /** What `get_notes_by_tags` returns. */
  function NotesByTags(notes: seq<Note>, userId: int, tags: seq<String>): seq<Note> {
    SortDesc(Filter(notes, (n: Note) => n.userId == userId && HasAllTags(n, tags)), MostRecent)
  }

  /** A listing holds exactly the rows its filter selects, each once as often
      as in the table, newest first. */
  lemma ListingsExact(notes: seq<Note>, userId: int, tags: seq<String>)
    ensures multiset(PinnedNotes(notes, userId)) == multiset(Filter(notes, (n: Note) => n.userId == userId && n.isPinned))
    ensures SortedDesc(PinnedNotes(notes, userId), MostRecent)
    ensures forall n :: n in PinnedNotes(notes, userId) <==> n in notes && n.userId == userId && n.isPinned
    ensures forall n :: n in NotesByTags(notes, userId, tags) <==> n in notes && n.userId == userId && HasAllTags(n, tags)
  {
    var p := Filter(notes, (n: Note) => n.userId == userId && n.isPinned);
    var q := Filter(notes, (n: Note) => n.userId == userId && HasAllTags(n, tags));
    SortDescFacts(p, MostRecent);
    SortDescFacts(q, MostRecent);
    forall n ensures n in PinnedNotes(notes, userId) <==> n in p {
      assert n in PinnedNotes(notes, userId) <==> n in multiset(PinnedNotes(notes, userId));
      assert n in p <==> n in multiset(p);
    }
    forall n ensures n in NotesByTags(notes, userId, tags) <==> n in q {
      assert n in NotesByTags(notes, userId, tags) <==> n in multiset(NotesByTags(notes, userId, tags));
      assert n in q <==> n in multiset(q);
    }
  }

  // ---------------------------------------------------------------------
  // Time capsules as values
  // ---------------------------------------------------------------------

  /** The batch unlock of one row: due LOCKED capsules become UNLOCKED. */
  function UnlockIfDue(c: TimeCapsule, now: Time): TimeCapsule {
    if IsUnlockable(c, now) then c.(status := Unlocked, updatedAt := now) else c
  }

  function UnlockAll(cs: seq<TimeCapsule>, now: Time): (r: seq<TimeCapsule>)
    ensures |r| == |cs| && forall i :: 0 <= i < |cs| ==> r[i] == UnlockIfDue(cs[i], now)
  {
    if cs == [] then [] else [UnlockIfDue(cs[0], now)] + UnlockAll(cs[1..], now)
  }

  /** `unlock_capsules`: every row is visited; the due ones are updated in
      place and returned in table order. */
  method UnlockDue(cs: seq<TimeCapsule>, now: Time) returns (out: seq<TimeCapsule>, unlocked: seq<TimeCapsule>)
    ensures out == UnlockAll(cs, now)
    ensures unlocked == UnlockAll(Filter(cs, (c: TimeCapsule) => IsUnlockable(c, now)), now)
  {
    ghost var due := (c: TimeCapsule) => IsUnlockable(c, now);
    out, unlocked := [], [];
    var i := 0;
    while i < |cs|
      invariant 0 <= i <= |cs|
      invariant out == UnlockAll(cs[..i], now)
      invariant unlocked == UnlockAll(Filter(cs[..i], due), now)
    {
      var c := cs[i];
      var c' := UnlockIfDue(c, now);
      UnlockStep(cs, i, now, due);
      if IsUnlockable(c, now) {
        unlocked := unlocked + [c'];
      }
      out := out + [c'];
      i := i + 1;
    }
    assert cs[..i] == cs;
  }

  lemma UnlockStep(cs: seq<TimeCapsule>, i: nat, now: Time, due: TimeCapsule -> bool)
    requires i < |cs|
    requires forall c :: due(c) == IsUnlockable(c, now)
    ensures UnlockAll(cs[..i + 1], now) == UnlockAll(cs[..i], now) + [UnlockIfDue(cs[i], now)]
    ensures UnlockAll(Filter(cs[..i + 1], due), now)
         == UnlockAll(Filter(cs[..i], due), now) + (if IsUnlockable(cs[i], now) then [UnlockIfDue(cs[i], now)] else [])
  {
    assert cs[..i + 1] == cs[..i] + [cs[i]];
    FilterSnoc(cs[..i], cs[i], due);
    UnlockAllSnoc(cs[..i], cs[i], now);
    if due(cs[i]) {
      UnlockAllSnoc(Filter(cs[..i], due), cs[i], now);
    }
  }

  lemma UnlockAllSnoc(cs: seq<TimeCapsule>, c: TimeCapsule, now: Time)
    ensures UnlockAll(cs + [c], now) == UnlockAll(cs, now) + [UnlockIfDue(c, now)]
  {
    var l, r := UnlockAll(cs + [c], now), UnlockAll(cs, now) + [UnlockIfDue(c, now)];
    assert forall k :: 0 <= k < |l| ==> l[k] == r[k];
  }

  /** After the batch, no capsule is still due; capsules that were not due
      are untouched; the batch returns as many capsules as were due. */
  lemma UnlockAllEffect(cs: seq<TimeCapsule>, now: Time)
    ensures forall c :: c in UnlockAll(cs, now) ==> !IsUnlockable(c, now)
    ensures forall i :: 0 <= i < |cs| && !IsUnlockable(cs[i], now) ==> UnlockAll(cs, now)[i] == cs[i]
    ensures forall i :: 0 <= i < |cs| && IsUnlockable(cs[i], now) ==>
              UnlockAll(cs, now)[i] == cs[i].(status := Unlocked, updatedAt := now)
    ensures |UnlockAll(Filter(cs, (c: TimeCapsule) => IsUnlockable(c, now)), now)|
         == Count(cs, (c: TimeCapsule) => IsUnlockable(c, now))
  {
    FilterCount(cs, (c: TimeCapsule) => IsUnlockable(c, now));
  }

  /** Running the batch again at the same time unlocks nothing more. */
  lemma UnlockIdempotent(cs: seq<TimeCapsule>, now: Time)
    ensures UnlockAll(UnlockAll(cs, now), now) == UnlockAll(cs, now)
    ensures Filter(UnlockAll(cs, now), (c: TimeCapsule) => IsUnlockable(c, now)) == []
  {
    var out := UnlockAll(cs, now);
    UnlockAllEffect(cs, now);
    FilterCount(out, (c: TimeCapsule) => IsUnlockable(c, now));
    CountNone(out, (c: TimeCapsule) => IsUnlockable(c, now));
  }

  lemma {:induction false} CountNone<T>(s: seq<T>, p: T -> bool)
    requires forall x :: x in s ==> !p(x)
    ensures Count(s, p) == 0
  {
    if s != [] {
      assert forall x :: x in s[1..] ==> x in s;
      CountNone(s[1..], p);
    }
  }

  /** The batch never touches EXPIRED capsules and never locks one again. */
  lemma UnlockKeepsStatusOrder(cs: seq<TimeCapsule>, now: Time, i: int)
    requires 0 <= i < |cs|
    ensures cs[i].status == Expired ==> UnlockAll(cs, now)[i] == cs[i]
    ensures cs[i].status == Unlocked ==> UnlockAll(cs, now)[i].status == Unlocked
    ensures UnlockAll(cs, now)[i].status == Locked ==> cs[i].status == Locked && now < cs[i].unlockAt
  {
  }

  /** The fields `update_capsule` may change. */
  datatype CapsulePatch = CapsulePatch(title: Option<String>, content: Option<String>, unlockAt: Option<Time>)

  function ApplyCapsulePatch(c: TimeCapsule, u: CapsulePatch, now: Time): (r: TimeCapsule)
    ensures r.id == c.id && r.userId == c.userId && r.status == c.status && r.createdAt == c.createdAt
    ensures r.updatedAt == now
  {
    c.(title := if u.title.Some? then u.title.value else c.title,
       content := if u.content.Some? then u.content.value else c.content,
       unlockAt := if u.unlockAt.Some? then u.unlockAt.value else c.unlockAt,
       updatedAt := now)
  }

  /** `get_capsule_days_until_unlock`: None unless LOCKED, then the whole
      days left, never negative. */
  function CapsuleDaysUntilUnlock(c: TimeCapsule, now: Time): (r: Option<nat>)
    ensures r.Some? <==> c.status == Locked
    ensures r.Some? && c.unlockAt <= now ==> r.value == 0
    ensures r.Some? && c.unlockAt > now ==> r.value * SecondsPerDay <= c.unlockAt - now < (r.value + 1) * SecondsPerDay
  {
    if c.status != Locked then None else Some(Max(0, DaysOf(c.unlockAt - now)))
  }

  /** The service's figure and the model property `days_until_unlock` agree
      on LOCKED capsules; elsewhere the property says 0 where the service
      says None. */
  lemma DaysUntilUnlockAgree(c: TimeCapsule, now: Time)
    ensures CapsuleDaysUntilUnlock(c, now).Some? ==> CapsuleDaysUntilUnlock(c, now).value == DaysUntilUnlock(c, now)
    ensures CapsuleDaysUntilUnlock(c, now).None? ==> DaysUntilUnlock(c, now) == 0
  {
  }

  /** What `get_user_capsules` returns: the caller's capsules, optionally of
      one status, soonest unlock first. */
  function SoonestFirst(c: TimeCapsule): Key { (-c.unlockAt, 0) }

  predicate CapsuleSelected(userId: int, status: Option<CapsuleStatus>, c: TimeCapsule) {
    c.userId == userId && (status.Some? ==> c.status == status.value)
  }

  function UserCapsules(cs: seq<TimeCapsule>, userId: int, status: Option<CapsuleStatus>): seq<TimeCapsule> {
    SortDesc(Filter(cs, (c: TimeCapsule) => CapsuleSelected(userId, status, c)), SoonestFirst)
  }

  lemma UserCapsulesExact(cs: seq<TimeCapsule>, userId: int, status: Option<CapsuleStatus>)
    ensures forall c :: c in UserCapsules(cs, userId, status) <==> c in cs && CapsuleSelected(userId, status, c)
    ensures forall i, j :: 0 <= i < j < |UserCapsules(cs, userId, status)| ==>
              UserCapsules(cs, userId, status)[i].unlockAt <= UserCapsules(cs, userId, status)[j].unlockAt
  {
    var f := Filter(cs, (c: TimeCapsule) => CapsuleSelected(userId, status, c));
    SortDescFacts(f, SoonestFirst);
    var r := UserCapsules(cs, userId, status);
    forall c ensures c in r <==> c in f {
      assert c in r <==> c in multiset(r);
      assert c in f <==> c in multiset(f);
    }
    forall i, j | 0 <= i < j < |r| ensures r[i].unlockAt <= r[j].unlockAt {
      assert KeyGe(SoonestFirst(r[i]), SoonestFirst(r[j]));
    }
  }

  const NoteNotFound: String := "Note not found or access denied"
  const CapsuleNotFound: String := "Time capsule not found or access denied"
  const UnlockNotInFuture: String := "Unlock date must be in the future"
  const AlreadyUnlocked: String := "Capsule is already unlocked"
  const NotYetDue: String := "Cannot unlock capsule before its scheduled time"
  const CapsuleNotLocked: String := "Cannot update unlocked capsule"

  // ---------------------------------------------------------------------
  // The tables
  // ---------------------------------------------------------------------

  class NoteStore {
    var notes: seq<Note>
    var capsules: seq<TimeCapsule>
    /** The next primary key (one sequence stands for both tables'). */
    var nextId: int

    ghost predicate Valid()
      reads this
    {
      (forall n :: n in notes ==> n.id < nextId) &&
      (forall c :: c in capsules ==> c.id < nextId)
    }

    constructor ()
      ensures Valid() && notes == [] && capsules == [] && nextId == 1
    {
      notes, capsules, nextId := [], [], 1;
    }

    /** The row `Note.id == id, Note.user_id == userId` selects. */
    function OwnedNote(id: int, userId: int): (r: Option<nat>)
      reads this
      ensures r.Some? ==> r.value < |notes| && notes[r.value].id == id && notes[r.value].userId == userId
      ensures r.None? <==> forall n :: n in notes ==> !(n.id == id && n.userId == userId)
    {
      FindFirst(notes, (n: Note) => n.id == id && n.userId == userId)
    }

    function OwnedCapsule(id: int, userId: int): (r: Option<nat>)
      reads this
      ensures r.Some? ==> r.value < |capsules| && capsules[r.value].id == id && capsules[r.value].userId == userId
      ensures r.None? <==> forall c :: c in capsules ==> !(c.id == id && c.userId == userId)
    {
      FindFirst(capsules, (c: TimeCapsule) => c.id == id && c.userId == userId)
    }

    /** `create_note`: the row is stored; an embedding is scheduled when the
        note is in RAG. */
    method CreateNote(userId: int, d: NoteData, now: Time) returns (n: Note, embeddingScheduled: bool)
      requires Valid()
      modifies this
      ensures Valid()
      ensures n == NewNote(old(nextId), userId, d, now) && notes == old(notes) + [n]
      ensures forall x :: x in old(notes) ==> x.id != n.id
      ensures embeddingScheduled == d.isIncludedInRag
      ensures OwnedNote(n.id, userId) == Some(|old(notes)|)
      ensures capsules == old(capsules) && nextId == old(nextId) + 1
    {
      n := NewNote(nextId, userId, d, now);
      FindFirstSnoc(notes, n, (x: Note) => x.id == n.id && x.userId == userId);
      notes := notes + [n];
      nextId := nextId + 1;
      embeddingScheduled := d.isIncludedInRag;
    }

    /** `update_note`: a missing or foreign note is refused; otherwise the
        given fields change and `updated_at` moves. */
    method UpdateNote(id: int, userId: int, u: NotePatch, now: Time) returns (r: Result<Note>, embeddingScheduled: bool)
      requires Valid()
      modifies this
      ensures Valid()
      ensures r.Failure? <==> old(OwnedNote(id, userId)).None?
      ensures r.Failure? ==> r.error == NoteNotFound && notes == old(notes) && !embeddingScheduled
      ensures r.Success? ==> old(OwnedNote(id, userId)).Some?
      ensures r.Success? ==> r.value == ApplyNotePatch(old(notes)[old(OwnedNote(id, userId)).value], u, now)
      ensures r.Success? ==> notes == old(notes)[old(OwnedNote(id, userId)).value := r.value]
      ensures r.Success? ==> embeddingScheduled == ReembedAfterUpdate(u, r.value)
      ensures capsules == old(capsules) && nextId == old(nextId)
    {
      match OwnedNote(id, userId)
      case None =>
        r, embeddingScheduled := Failure(NoteNotFound), false;
      case Some(i) =>
        var n := ApplyNotePatch(notes[i], u, now);
        notes := notes[i := n];
        assert forall x :: x in notes ==> x in old(notes) || x == n;
        r, embeddingScheduled := Success(n), ReembedAfterUpdate(u, n);
    }

    /** `delete_note` */
    method DeleteNote(id: int, userId: int) returns (r: Result<bool>)
      requires Valid()
      modifies this
      ensures Valid()
      ensures r.Failure? <==> old(OwnedNote(id, userId)).None?
      ensures r.Failure? ==> r.error == NoteNotFound && notes == old(notes)
      ensures r.Success? ==> r.value && old(OwnedNote(id, userId)).Some?
      ensures r.Success? ==> notes == RemoveAt(old(notes), old(OwnedNote(id, userId)).value)
      ensures capsules == old(capsules) && nextId == old(nextId)
    {
      match OwnedNote(id, userId)
      case None =>
        r := Failure(NoteNotFound);
      case Some(i) =>
        notes := RemoveAt(notes, i);
        r := Success(true);
    }

    /** `search_notes`: the caller's notes, narrowed tag by tag, then by the
        text, pinned first and newest first, at most `limit`. */
    method SearchNotes(userId: int, query: String, tags: Option<seq<String>>, limit: nat) returns (r: seq<Note>)
      ensures r == SearchResults(notes, userId, query, tags, limit)
    {
      var own := Filter(notes, (n: Note) => n.userId == userId);
      var rows := own;
      if tags.Some? && tags.value != [] {
        rows := NarrowByTags(own, tags.value);
      } else {
        FilterTrue(own, (n: Note) => TagsMatch(n, tags));
      }
      FilterConj(notes, (n: Note) => n.userId == userId, (n: Note) => TagsMatch(n, tags),
                 (n: Note) => n.userId == userId && TagsMatch(n, tags));
      FilterExt(own, (n: Note) => TagsMatch(n, tags), (n: Note) => HasAllTags(n, if tags.Some? then tags.value else []));
      var hits := Filter(rows, (n: Note) => TextMatches(n, query));
      FilterConj(notes, (n: Note) => n.userId == userId && TagsMatch(n, tags), (n: Note) => TextMatches(n, query),
                 (n: Note) => SearchMatches(userId, query, tags, n));
      r := Take(SortDesc(hits, PinnedThenRecent), limit);
    }

    /** `get_notes_by_tags` */
    method GetNotesByTags(userId: int, tags: seq<String>) returns (r: seq<Note>)
      ensures r == NotesByTags(notes, userId, tags)
    {
      var own := Filter(notes, (n: Note) => n.userId == userId);
      var rows := NarrowByTags(own, tags);
      FilterConj(notes, (n: Note) => n.userId == userId, (n: Note) => HasAllTags(n, tags),
                 (n: Note) => n.userId == userId && HasAllTags(n, tags));
      r := SortDesc(rows, MostRecent);
    }

    /** `create_time_capsule`: the unlock time must lie in the future; the
        capsule starts LOCKED. */
    method CreateTimeCapsule(userId: int, title: String, content: String, unlockAt: Time, now: Time)
      returns (r: Result<TimeCapsule>)
      requires Valid()
      modifies this
      ensures Valid()
      ensures r.Failure? <==> unlockAt <= now
      ensures r.Failure? ==> r.error == UnlockNotInFuture && capsules == old(capsules) && nextId == old(nextId)
      ensures r.Success? ==> r.value == TimeCapsule(old(nextId), userId, title, content, unlockAt, Locked, now, now)
      ensures r.Success? ==> capsules == old(capsules) + [r.value] && nextId == old(nextId) + 1
      ensures r.Success? ==> forall c :: c in old(capsules) ==> c.id != r.value.id
      ensures notes == old(notes)
    {
      if unlockAt <= now {
        r := Failure(UnlockNotInFuture);
      } else {
        var c := TimeCapsule(nextId, userId, title, content, unlockAt, Locked, now, now);
        capsules := capsules + [c];
        nextId := nextId + 1;
        r := Success(c);
      }
    }

    /** `unlock_capsules` */
    method UnlockCapsules(now: Time) returns (unlocked: seq<TimeCapsule>)
      requires Valid()
      modifies this
      ensures Valid()
      ensures capsules == UnlockAll(old(capsules), now)
      ensures unlocked == UnlockAll(Filter(old(capsules), (c: TimeCapsule) => IsUnlockable(c, now)), now)
      ensures notes == old(notes) && nextId == old(nextId)
    {
      var out;
      out, unlocked := UnlockDue(capsules, now);
      assert forall k :: 0 <= k < |out| ==> out[k].id == capsules[k].id;
      assert forall c :: c in out ==> exists k :: 0 <= k < |out| && out[k] == c;
      capsules := out;
    }

    /** `unlock_single_capsule`: refused for a missing or foreign capsule,
        one already UNLOCKED, or one not yet due. An EXPIRED capsule that is
        due is unlocked. */
    method UnlockSingleCapsule(id: int, userId: int, now: Time) returns (r: Result<TimeCapsule>)
      requires Valid()
      modifies this
      ensures Valid()
      ensures old(OwnedCapsule(id, userId)).None? ==> r == Failure(CapsuleNotFound)
      ensures old(OwnedCapsule(id, userId)).Some? ==>
        var c := old(capsules)[old(OwnedCapsule(id, userId)).value];
        (c.status == Unlocked ==> r == Failure(AlreadyUnlocked)) &&
        (c.status != Unlocked && c.unlockAt > now ==> r == Failure(NotYetDue)) &&
        (r.Success? <==> c.status != Unlocked && c.unlockAt <= now)
      ensures r.Failure? ==> capsules == old(capsules)
      ensures r.Success? ==> (old(OwnedCapsule(id, userId)).Some? &&
        r.value == old(capsules)[old(OwnedCapsule(id, userId)).value].(status := Unlocked, updatedAt := now) &&
        capsules == old(capsules)[old(OwnedCapsule(id, userId)).value := r.value])
      ensures notes == old(notes) && nextId == old(nextId)
    {
      match OwnedCapsule(id, userId)
      case None =>
        r := Failure(CapsuleNotFound);
      case Some(i) =>
        var c := capsules[i];
        if c.status == Unlocked {
          r := Failure(AlreadyUnlocked);
        } else if c.unlockAt > now {
          r := Failure(NotYetDue);
        } else {
          var u := c.(status := Unlocked, updatedAt := now);
          capsules := capsules[i := u];
          assert forall x :: x in capsules ==> x in old(capsules) || x == u;
          r := Success(u);
        }
    }

    /** `update_capsule`: only a LOCKED capsule may change, and a new unlock
        time must lie in the future; a refused update changes nothing. */
    method UpdateCapsule(id: int, userId: int, u: CapsulePatch, now: Time) returns (r: Result<TimeCapsule>)
      requires Valid()
      modifies this
      ensures Valid()
      ensures old(OwnedCapsule(id, userId)).None? ==> r == Failure(CapsuleNotFound)
      ensures old(OwnedCapsule(id, userId)).Some? ==>
        var c := old(capsules)[old(OwnedCapsule(id, userId)).value];
        (c.status != Locked ==> r == Failure(CapsuleNotLocked)) &&
        (c.status == Locked && u.unlockAt.Some? && u.unlockAt.value <= now ==> r == Failure(UnlockNotInFuture)) &&
        (r.Success? <==> c.status == Locked && (u.unlockAt.Some? ==> u.unlockAt.value > now))
      ensures r.Failure? ==> capsules == old(capsules)
      ensures r.Success? ==> (old(OwnedCapsule(id, userId)).Some? &&
        r.value == ApplyCapsulePatch(old(capsules)[old(OwnedCapsule(id, userId)).value], u, now) &&
        capsules == old(capsules)[old(OwnedCapsule(id, userId)).value := r.value])
      ensures notes == old(notes) && nextId == old(nextId)
    {
      match OwnedCapsule(id, userId)
      case None =>
        r := Failure(CapsuleNotFound);
      case Some(i) =>
        var c := capsules[i];
        if c.status != Locked {
          r := Failure(CapsuleNotLocked);
        } else if u.unlockAt.Some? && u.unlockAt.value <= now {
          r := Failure(UnlockNotInFuture);
        } else {
          var c' := ApplyCapsulePatch(c, u, now);
          capsules := capsules[i := c'];
          assert forall x :: x in capsules ==> x in old(capsules) || x == c';
          r := Success(c');
        }
    }

    /** `delete_capsule`: any status may be deleted by its owner. */
    method DeleteCapsule(id: int, userId: int) returns (r: Result<bool>)
      requires Valid()
      modifies this
      ensures Valid()
      ensures r.Failure? <==> old(OwnedCapsule(id, userId)).None?
      ensures r.Failure? ==> r.error == CapsuleNotFound && capsules == old(capsules)
      ensures r.Success? ==> r.value && old(OwnedCapsule(id, userId)).Some?
      ensures r.Success? ==> capsules == RemoveAt(old(capsules), old(OwnedCapsule(id, userId)).value)
      ensures notes == old(notes) && nextId == old(nextId)
    {
      match OwnedCapsule(id, userId)
      case None =>
        r := Failure(CapsuleNotFound);
      case Some(i) =>
        capsules := RemoveAt(capsules, i);
        r := Success(true);
    }
  }
}
