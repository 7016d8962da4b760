/** Notes and time capsules (app/db/models/note.py). The services and the
    notes router also read and write `lounge_id` and `section` on notes; the
    record carries them so that those operations can be stated. */
module NoteModel {
  import opened Common

  datatype Note = Note(
    id: int,
    userId: int,
    loungeId: Option<int>,
    section: Option<String>,
    title: String,
    content: String,
    isPinned: bool,
    isIncludedInRag: bool,
    tags: Option<seq<String>>,
    createdAt: Time,
    updatedAt: Time)

  /** The column default of `is_included_in_rag` on the model; the service and
      the request schema default it to true instead. */
  const ModelDefaultIncludedInRag: bool := false

  /** `Note.tag_list`: the stored tags, or [] when NULL or empty. */
  function TagList(n: Note): (r: seq<String>)
    ensures n.tags.None? ==> r == []
    ensures n.tags.Some? ==> r == n.tags.value
  {
    if n.tags.Some? && n.tags.value != [] then n.tags.value else []
  }

  /** `Note.word_count`: the number of whitespace-separated words. */
  function WordCount(n: Note): nat {
    |SplitWs(n.content)|
  }

  /** Every word is a non-empty run, so there are never more words than characters. */
  lemma {:induction false} WordsBoundedByLength(s: String)
    ensures |SplitWs(s)| <= |s|
    decreases |s|
  {
    if s != [] {
      if IsSpace(s[0]) {
        WordsBoundedByLength(s[1..]);
      } else {
        WordsBoundedByLength(s[WordLen(s)..]);
      }
    }
  }

  /** Content made only of whitespace has no words. */
  lemma BlankNoteHasNoWords(n: Note)
    requires AllSpace(n.content)
    ensures WordCount(n) == 0
  {
    SplitWsOfSpaces(n.content);
  }

  datatype CapsuleStatus = Locked | Unlocked | Expired

  datatype TimeCapsule = TimeCapsule(
    id: int,
    userId: int,
    title: String,
    content: String,
    unlockAt: Time,
    status: CapsuleStatus,
    createdAt: Time,
    updatedAt: Time)

  /** `TimeCapsule.is_unlockable`: locked and due. */
  predicate IsUnlockable(c: TimeCapsule, now: Time) {
    c.status == Locked && now >= c.unlockAt
  }

  /** `TimeCapsule.days_until_unlock`: 0 unless LOCKED, else whole days left, never negative. */
  function DaysUntilUnlock(c: TimeCapsule, now: Time): (d: nat)
    ensures c.status != Locked ==> d == 0
    ensures c.status == Locked && c.unlockAt >= now ==>
              d * SecondsPerDay <= c.unlockAt - now < (d + 1) * SecondsPerDay
  {
    if c.status != Locked then 0 else Max(0, DaysOf(c.unlockAt - now))
  }

  /** A locked capsule that is unlockable has 0 days left; the converse fails
      only within the last day before `unlock_at`. */
  lemma UnlockableHasNoDaysLeft(c: TimeCapsule, now: Time)
    requires IsUnlockable(c, now)
    ensures DaysUntilUnlock(c, now) == 0
  {
  }
}
