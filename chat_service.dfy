/** Chat threads, messages, the AI's conversation history and the keyword
    retrieval over the user's notes (app/services/chat_service.py). */
module ChatService {
  import opened Common
  import opened ChatModel
  import opened LoungeModel
  import opened NoteModel

  const NotALoungeMember: String := "User is not a member of this lounge"
  const ThreadNotFound: String := "Thread not found or access denied"
  const ThreadArchived: String := "Cannot send messages to archived thread"

  // ---------------------------------------------------------------------
  // Thread titles
  // ---------------------------------------------------------------------

  /** `if not title:` — an absent and an empty title both get a default. */
  predicate Blank(title: Option<String>) { title.None? || title.value == [] }

  const DefaultTitlePrefix: String := "Conversation "

  /** `f"Conversation {thread_count + 1}"` */
  function DefaultTitle(threadCount: nat): String {
    DefaultTitlePrefix + NatToString(threadCount + 1)
  }

  /** The number of threads the user owns (`func.count(ChatThread.id)`). */
  function UserThreadCount(threads: seq<ChatThread>, userId: int): nat {
    Count(threads, (t: ChatThread) => t.userId == userId)
  }

  /** The title `create_thread` stores. */
  function ThreadTitle(title: Option<String>, threadCount: nat): Option<String> {
    if Blank(title) then Some(DefaultTitle(threadCount)) else title
  }

  /** A default title ends in the decimal number of the thread, one more
      than the threads the user had; so two default titles differ exactly
      when the counts they were made from differ. */
  lemma DefaultTitleNumber(n: nat, m: nat)
    ensures StartsWith(DefaultTitle(n), DefaultTitlePrefix)
    ensures ParseInt(DefaultTitle(n)[|DefaultTitlePrefix|..]) == Some(n + 1)
    ensures DefaultTitle(n) == DefaultTitle(m) <==> n == m
  {
    DefaultTitleSplit(n);
    DefaultTitleSplit(m);
    ParseIntToString(n + 1);
    ParseIntToString(m + 1);
  }

  lemma DefaultTitleSplit(n: nat)
    ensures StartsWith(DefaultTitle(n), DefaultTitlePrefix)
    ensures DefaultTitle(n)[|DefaultTitlePrefix|..] == IntToString(n + 1)
  {
    var p := DefaultTitlePrefix;
    var d := NatToString(n + 1);
    assert DefaultTitle(n) == p + d;
    assert (p + d)[..|p|] == p;
    assert (p + d)[|p|..] == d;
  }

  /** Each new thread of a user raises the count the next default title is
      numbered from, so back-to-back untitled threads get different titles. */
  lemma NextDefaultTitleDiffers(threads: seq<ChatThread>, t: ChatThread)
    ensures UserThreadCount(threads + [t], t.userId) == UserThreadCount(threads, t.userId) + 1
    ensures DefaultTitle(UserThreadCount(threads + [t], t.userId)) != DefaultTitle(UserThreadCount(threads, t.userId))
  {
    CountSnoc(threads, t, (x: ChatThread) => x.userId == t.userId);
    DefaultTitleNumber(UserThreadCount(threads + [t], t.userId), UserThreadCount(threads, t.userId));
  }

  // ---------------------------------------------------------------------
  // Conversation history
  // ---------------------------------------------------------------------

  /** One `{"role": ..., "content": ...}` entry handed to the AI. */
  datatype Turn = Turn(role: String, content: String)

  const HistoryLimit: nat := 20

  /** A message's entry: users speak as "user", the AI as "assistant";
      mentor messages are skipped. */
  function TurnOf(m: ChatMessage): seq<Turn> {
    match m.senderType
    case UserSender => [Turn("user", m.content)]
    case AiSender => [Turn("assistant", m.content)]
    case MentorSender => []
  }

  predicate Spoken(m: ChatMessage) { m.senderType != MentorSender }

  function Turns(ms: seq<ChatMessage>): seq<Turn>
    decreases |ms|
  {
    if ms == [] then [] else Turns(ms[..|ms| - 1]) + TurnOf(ms[|ms| - 1])
  }

  /** The last `n` elements, in their order. */
  function Last<T>(s: seq<T>, n: nat): (r: seq<T>)
    ensures |r| == Min(n, |s|)
  {
    s[|s| - Min(n, |s|)..]
  }

  /** `order_by(created_at.desc()).limit(limit)` reversed: the thread's latest
      `limit` messages in chronological order, turned into entries. */
  function History(msgs: seq<ChatMessage>, threadId: int, limit: nat): seq<Turn> {
    Turns(Last(ThreadMessages(msgs, threadId), limit))
  }

  /** `_get_conversation_history`: the loop over the latest messages. */
  method ConversationHistory(msgs: seq<ChatMessage>, threadId: int, limit: nat) returns (history: seq<Turn>)
    ensures history == History(msgs, threadId, limit)
  {
    var recent := Last(ThreadMessages(msgs, threadId), limit);
    history := [];
    var i := 0;
    while i < |recent|
      invariant 0 <= i <= |recent|
      invariant history == Turns(recent[..i])
    {
      assert recent[..i + 1][..i] == recent[..i];
      history := history + TurnOf(recent[i]);
      i := i + 1;
    }
    assert recent[..i] == recent;
  }

  /** There is one entry per user or AI message, every entry has the role
      "user" or "assistant", and each entry carries the content of a message
      of that sender, in the messages' order. */
  lemma {:induction false} TurnsShape(ms: seq<ChatMessage>)
    ensures |Turns(ms)| == Count(ms, Spoken)
    ensures forall k :: 0 <= k < |Turns(ms)| ==> Turns(ms)[k].role == "user" || Turns(ms)[k].role == "assistant"
    ensures forall k :: 0 <= k < |Turns(ms)| ==> SaidIn(ms, Turns(ms)[k])
  {
    TurnsCount(ms);
    TurnsRoles(ms);
    TurnsSaid(ms);
  }

  lemma {:induction false} TurnsCount(ms: seq<ChatMessage>)
    ensures |Turns(ms)| == Count(ms, Spoken)
    decreases |ms|
  {
    if ms != [] {
      var init := ms[..|ms| - 1];
      var m := ms[|ms| - 1];
      TurnsCount(init);
      assert ms == init + [m];
      CountSnoc(init, m, Spoken);
    }
  }

  lemma {:induction false} TurnsRoles(ms: seq<ChatMessage>)
    ensures forall k :: 0 <= k < |Turns(ms)| ==> Turns(ms)[k].role == "user" || Turns(ms)[k].role == "assistant"
    decreases |ms|
  {
    if ms != [] {
      TurnsRoles(ms[..|ms| - 1]);
    }
  }

  lemma {:induction false} TurnsSaid(ms: seq<ChatMessage>)
    ensures forall k :: 0 <= k < |Turns(ms)| ==> SaidIn(ms, Turns(ms)[k])
    decreases |ms|
  {
    if ms != [] {
      var init := ms[..|ms| - 1];
      var m := ms[|ms| - 1];
      TurnsSaid(init);
      assert ms == init + [m];
      var t := Turns(ms);
      forall k | 0 <= k < |t| ensures SaidIn(ms, t[k]) {
        if k < |Turns(init)| {
          assert t[k] == Turns(init)[k];
          SaidInGrows(init, ms, t[k]);
        } else {
          assert t[k] == TurnOf(m)[0];
          assert m in ms;
        }
      }
    }
  }

  /** Some user or AI message of `ms` has the entry's content, and it is a
      user message exactly when the entry's role is "user". */
  ghost predicate SaidIn(ms: seq<ChatMessage>, t: Turn) {
    exists m :: m in ms && Spoken(m) && m.content == t.content && (m.senderType == UserSender <==> t.role == "user")
  }

  lemma SaidInGrows(ms: seq<ChatMessage>, ms': seq<ChatMessage>, t: Turn)
    requires SaidIn(ms, t) && forall m :: m in ms ==> m in ms'
    ensures SaidIn(ms', t)
  {
    var m :| m in ms && Spoken(m) && m.content == t.content && (m.senderType == UserSender <==> t.role == "user");
    assert m in ms';
  }

  /** The history holds at most `limit` entries; a thread no longer than the
      limit is handed over whole. */
  lemma HistoryBounds(msgs: seq<ChatMessage>, threadId: int, limit: nat)
    ensures |History(msgs, threadId, limit)| <= limit
    ensures |ThreadMessages(msgs, threadId)| <= limit ==>
              History(msgs, threadId, limit) == Turns(ThreadMessages(msgs, threadId))
  {
    var recent := Last(ThreadMessages(msgs, threadId), limit);
    TurnsShape(recent);
    if |ThreadMessages(msgs, threadId)| <= limit {
      assert recent == ThreadMessages(msgs, threadId);
    }
  }

  // ---------------------------------------------------------------------
  // Keyword retrieval over the user's notes
  // ---------------------------------------------------------------------

  const RagTopK: nat := 3
  const RagContentWidth: nat := 500
  const RagSeparator: String := "\n\n---\n\n"

  /** `query.lower().split()` */
  function QueryWords(query: String): seq<String> { SplitWs(Lower(query)) }

  /** `(note.title + " " + note.content).lower()` */
  function Haystack(n: Note): String { Lower(n.title + " " + n.content) }

  /** `sum(1 for word in words if word in content_lower)`: repeated words
      count once per occurrence. */
  function NoteScore(query: String, n: Note): nat {
    Count(QueryWords(query), (w: String) => Contains(Haystack(n), w))
  }

  /** The score of one note, word by word. */
  method ScoreNote(query: String, n: Note) returns (score: nat)
    ensures score == NoteScore(query, n)
    ensures score <= |QueryWords(query)|
  {
    var words := QueryWords(query);
    var hay := Haystack(n);
    var hit := (w: String) => Contains(hay, w);
    score := 0;
    var i := 0;
    while i < |words|
      invariant 0 <= i <= |words|
      invariant score == Count(words[..i], hit)
    {
      assert words[..i + 1] == words[..i] + [words[i]];
      CountSnoc(words[..i], words[i], hit);
      if Contains(hay, words[i]) {
        score := score + 1;
      }
      i := i + 1;
    }
    assert words[..i] == words;
  }

  datatype Scored = Scored(note: Note, score: nat)

  /** The `(note, score)` pairs with a positive score, in table order. */
  function Relevant(notes: seq<Note>, query: String): seq<Scored>
    decreases |notes|
  {
    if notes == [] then []
    else
      var n := notes[|notes| - 1];
      Relevant(notes[..|notes| - 1], query) + (if NoteScore(query, n) > 0 then [Scored(n, NoteScore(query, n))] else [])
  }

  /** A pair is relevant exactly when it is a note with its true, positive score. */
  lemma {:induction false} RelevantExact(notes: seq<Note>, query: String, x: Scored)
    ensures x in Relevant(notes, query) <==> x.note in notes && x.score == NoteScore(query, x.note) && x.score > 0
    decreases |notes|
  {
    if notes != [] {
      var init := notes[..|notes| - 1];
      RelevantExact(init, query, x);
      assert notes == init + [notes[|notes| - 1]];
    }
  }

  /** `sort(key=lambda x: x[1], reverse=True)` */
  function ByScore(s: Scored): Key { (s.score, 0) }

  /** `relevant_notes[:top_k]` after the sort. */
  function TopNotes(notes: seq<Note>, query: String): seq<Scored> {
    Take(SortDesc(Relevant(notes, query), ByScore), RagTopK)
  }

  /** `f"Note: {note.title}\n{note.content[:500]}"` */
  function Snippet(n: Note): String {
    "Note: " + n.title + "\n" + Take(n.content, RagContentWidth)
  }

  function Snippets(top: seq<Scored>): (r: seq<String>)
    ensures |r| == |top|
    decreases |top|
  {
    if top == [] then [] else Snippets(top[..|top| - 1]) + [Snippet(top[|top| - 1].note)]
  }

  /** The notes considered: the user's, with `is_included_in_rag`. */
  function RagCandidates(notes: seq<Note>, userId: int): seq<Note> {
    Filter(notes, (n: Note) => n.userId == userId && n.isIncludedInRag)
  }

  /** `_get_rag_context`. `embeddingFails` stands for `create_embedding`
      raising (its result is otherwise unused); the handler returns None. */
  function RagContext(notes: seq<Note>, userId: int, query: String, embeddingFails: bool): Option<String> {
    var candidates := RagCandidates(notes, userId);
    if candidates == [] || embeddingFails then None
    else
      var top := TopNotes(candidates, query);
      if top == [] then None else Some(Join(Snippets(top), RagSeparator))
  }

  /** The scoring loop: each candidate with its score, kept when positive. */
  method ScoreCandidates(candidates: seq<Note>, query: String) returns (relevant: seq<Scored>)
    ensures relevant == Relevant(candidates, query)
  {
    relevant := [];
    var i := 0;
    while i < |candidates|
      invariant 0 <= i <= |candidates|
      invariant relevant == Relevant(candidates[..i], query)
    {
      assert candidates[..i + 1][..i] == candidates[..i];
      var score := ScoreNote(query, candidates[i]);
      if score > 0 {
        relevant := relevant + [Scored(candidates[i], score)];
      }
      i := i + 1;
    }
    assert candidates[..i] == candidates;
  }

  /** The loop building `context_parts`. */
  method SnippetParts(top: seq<Scored>) returns (parts: seq<String>)
    ensures parts == Snippets(top)
  {
    parts := [];
    var j := 0;
    while j < |top|
      invariant 0 <= j <= |top|
      invariant parts == Snippets(top[..j])
    {
      assert top[..j + 1][..j] == top[..j];
      parts := parts + [Snippet(top[j].note)];
      j := j + 1;
    }
    assert top[..j] == top;
  }

  /** `_get_rag_context` step by step: score each candidate, sort, keep the
      top three, then join their snippets. */
  method GetRagContext(notes: seq<Note>, userId: int, query: String, embeddingFails: bool)
    returns (context: Option<String>)
    ensures context == RagContext(notes, userId, query, embeddingFails)
  {
    var candidates := RagCandidates(notes, userId);
    if candidates == [] || embeddingFails {
      return None;
    }
    var relevant := ScoreCandidates(candidates, query);
    var top := Take(SortDesc(relevant, ByScore), RagTopK);
    if top == [] {
      return None;
    }
    var parts := SnippetParts(top);
    context := Some(Join(parts, RagSeparator));
  }

  /** The top notes are at most three relevant notes, best first, and no
      relevant note left out scores higher than any note kept. */
  lemma TopNotesAreBest(notes: seq<Note>, query: String)
    ensures |TopNotes(notes, query)| <= RagTopK
    ensures forall x :: x in TopNotes(notes, query) ==> x in Relevant(notes, query)
    ensures forall i, j :: 0 <= i < j < |TopNotes(notes, query)| ==>
              TopNotes(notes, query)[i].score >= TopNotes(notes, query)[j].score
    ensures forall x :: x in Relevant(notes, query) && x !in TopNotes(notes, query) ==>
              |TopNotes(notes, query)| == RagTopK && forall y :: y in TopNotes(notes, query) ==> y.score >= x.score
  {
    var rel := Relevant(notes, query);
    var sorted := SortDesc(rel, ByScore);
    SortDescFacts(rel, ByScore);
    var top := TopNotes(notes, query);
    assert top == sorted[..|top|];
    forall x | x in top ensures x in rel {
      assert x in sorted;
      assert x in multiset(sorted);
    }
    forall i, j | 0 <= i < j < |top| ensures top[i].score >= top[j].score {
      assert KeyGe(ByScore(sorted[i]), ByScore(sorted[j]));
    }
    forall x | x in rel && x !in top
      ensures |top| == RagTopK && forall y :: y in top ==> y.score >= x.score
    {
      assert x in multiset(sorted);
      var k :| 0 <= k < |sorted| && sorted[k] == x;
      assert k >= |top|;
      forall y | y in top ensures y.score >= x.score {
        var j :| 0 <= j < |top| && top[j] == y;
        assert KeyGe(ByScore(sorted[j]), ByScore(sorted[k]));
      }
    }
  }

  /** No pair is relevant exactly when no note shares a word with the query. */
  lemma RelevantEmptyIff(notes: seq<Note>, query: String)
    ensures Relevant(notes, query) == [] <==> forall n :: n in notes ==> NoteScore(query, n) == 0
  {
    var rel := Relevant(notes, query);
    if exists n :: n in notes && NoteScore(query, n) > 0 {
      var n :| n in notes && NoteScore(query, n) > 0;
      RelevantExact(notes, query, Scored(n, NoteScore(query, n)));
    } else if rel != [] {
      RelevantExact(notes, query, rel[0]);
    }
  }

  /** The branches of `_get_rag_context` that return None. */
  lemma RagContextNoneCases(notes: seq<Note>, userId: int, query: String, embeddingFails: bool)
    ensures RagContext(notes, userId, query, embeddingFails).None? <==>
              RagCandidates(notes, userId) == [] || embeddingFails || Relevant(RagCandidates(notes, userId), query) == []
  {
    var candidates := RagCandidates(notes, userId);
    if !embeddingFails && candidates != [] {
      assert |SortDesc(Relevant(candidates, query), ByScore)| == |Relevant(candidates, query)|;
    }
  }

  /** There is no context exactly when the embedding call fails or none of
      the user's RAG notes shares a word with the query. */
  lemma RagContextNoneIff(notes: seq<Note>, userId: int, query: String, embeddingFails: bool)
    ensures RagContext(notes, userId, query, embeddingFails).None? <==>
              embeddingFails ||
              forall n :: n in notes && n.userId == userId && n.isIncludedInRag ==> NoteScore(query, n) == 0
  {
    var candidates := RagCandidates(notes, userId);
    RagContextNoneCases(notes, userId, query, embeddingFails);
    RelevantEmptyIff(candidates, query);
    forall n | n in notes && n.userId == userId && n.isIncludedInRag ensures n in candidates {
      var k :| 0 <= k < |notes| && notes[k] == n;
    }
  }

  // ---------------------------------------------------------------------
  // The tables
  // ---------------------------------------------------------------------

  /** What `send_message` returns: the user's message and the AI's, if any. */
  datatype Sent = Sent(user: ChatMessage, ai: Option<ChatMessage>)

  /** The user's message as inserted. */
  function UserMessage(id: int, threadId: int, userId: int, content: String, now: Time): ChatMessage {
    ChatMessage(id, threadId, UserSender, Some(userId), None, content, now, None)
  }

  /** The AI's message as inserted: no user, and the model's reply. */
  function AiMessage(id: int, threadId: int, content: String, now: Time): ChatMessage {
    ChatMessage(id, threadId, AiSender, None, None, content, now, None)
  }

  /** `update_thread`'s assignments: a None argument leaves the field alone. */
  function ApplyThreadPatch(t: ChatThread, title: Option<String>, status: Option<ThreadStatus>): (r: ChatThread)
    ensures r.id == t.id && r.userId == t.userId && r.loungeId == t.loungeId && r.createdAt == t.createdAt
  {
    t.(title := if title.Some? then title else t.title,
       status := if status.Some? then status.value else t.status)
  }

  /** An empty update changes nothing, an update is idempotent, and the later
      of two updates wins on the fields it gives. */
  lemma ThreadPatchLaws(t: ChatThread, a: Option<String>, s: Option<ThreadStatus>,
                        b: Option<String>, u: Option<ThreadStatus>)
    ensures ApplyThreadPatch(t, None, None) == t
    ensures ApplyThreadPatch(ApplyThreadPatch(t, a, s), a, s) == ApplyThreadPatch(t, a, s)
    ensures ApplyThreadPatch(ApplyThreadPatch(t, a, s), b, u) ==
              ApplyThreadPatch(t, if b.Some? then b else a, if u.Some? then u else s)
  {
  }

  /** The model's answer to the history and the retrieved context; `reply`
      stands for `generate_chat_response` and None for it raising. */
  function AiAnswer(msgs: seq<ChatMessage>, threadId: int, userId: int, content: String, useRag: bool,
                    notes: seq<Note>, embeddingFails: bool,
                    reply: (seq<Turn>, Option<String>) -> Option<String>): Option<String>
  {
    reply(History(msgs, threadId, HistoryLimit),
          if useRag then RagContext(notes, userId, content, embeddingFails) else None)
  }

  /** The body of the `try` in `send_message`, up to the model's call. */
  method GenerateAnswer(msgs: seq<ChatMessage>, threadId: int, userId: int, content: String, useRag: bool,
                        notes: seq<Note>, embeddingFails: bool,
                        reply: (seq<Turn>, Option<String>) -> Option<String>)
    returns (answer: Option<String>)
    ensures answer == AiAnswer(msgs, threadId, userId, content, useRag, notes, embeddingFails, reply)
  {
    var history := ConversationHistory(msgs, threadId, HistoryLimit);
    var context: Option<String> := None;
    if useRag {
      context := GetRagContext(notes, userId, content, embeddingFails);
    }
    answer := reply(history, context);
  }

  /** The rows a successful `send_message` inserts, in order. */
  function Added(sent: Sent): seq<ChatMessage> {
    [sent.user] + (if sent.ai.Some? then [sent.ai.value] else [])
  }

  /** `send_message` past its checks: the user's message with key `nextId`,
      then, when asked and when the model answers, the AI's with the next key. */
  method Exchange(msgs: seq<ChatMessage>, nextId: int, threadId: int, userId: int, content: String,
                  generateAi: bool, useRag: bool, notes: seq<Note>, embeddingFails: bool,
                  reply: (seq<Turn>, Option<String>) -> Option<String>, now: Time)
    returns (sent: Sent)
    ensures sent.user == UserMessage(nextId, threadId, userId, content, now)
    ensures sent.ai.Some? <==>
              generateAi && AiAnswer(msgs + [sent.user], threadId, userId, content, useRag, notes, embeddingFails, reply).Some?
    ensures sent.ai.Some? ==>
              sent.ai.value == AiMessage(nextId + 1, threadId,
                AiAnswer(msgs + [sent.user], threadId, userId, content, useRag, notes, embeddingFails, reply).value, now)
  {
    var user := UserMessage(nextId, threadId, userId, content, now);
    var ai: Option<ChatMessage> := None;
    if generateAi {
      var answer := GenerateAnswer(msgs + [user], threadId, userId, content, useRag, notes, embeddingFails, reply);
      if answer.Some? {
        ai := Some(AiMessage(nextId + 1, threadId, answer.value, now));
      }
    }
    sent := Sent(user, ai);
  }

  class ChatStore {
    var threads: seq<ChatThread>
    var messages: seq<ChatMessage>
    /** The next primary key (one sequence stands for both tables'). */
    var nextId: int

    ghost predicate Valid()
      reads this
    {
      (forall t :: t in threads ==> t.id < nextId) &&
      (forall m :: m in messages ==> m.id < nextId) &&
      (forall i, j :: 0 <= i < j < |threads| ==> threads[i].id != threads[j].id)
    }

    constructor ()
      ensures Valid() && threads == [] && messages == [] && nextId == 1
    {
      threads, messages, nextId := [], [], 1;
    }

    /** The row `ChatThread.id == id, ChatThread.user_id == userId` selects. */
    function OwnedThread(id: int, userId: int): (r: Option<nat>)
      reads this
      ensures r.Some? ==> r.value < |threads| && threads[r.value].id == id && threads[r.value].userId == userId
      ensures r.None? <==> forall t :: t in threads ==> !(t.id == id && t.userId == userId)
    {
      FindFirst(threads, (t: ChatThread) => t.id == id && t.userId == userId)
    }

    /** Why `send_message` refuses, if it does. */
    function SendRefusal(threadId: int, userId: int): (r: Option<String>)
      reads this
      ensures r == Some(ThreadNotFound) <==> OwnedThread(threadId, userId).None?
      ensures r == Some(ThreadArchived) <==>
                OwnedThread(threadId, userId).Some? && threads[OwnedThread(threadId, userId).value].status == Archived
      ensures r.Some? ==> r == Some(ThreadNotFound) || r == Some(ThreadArchived)
    {
      match OwnedThread(threadId, userId)
      case None => Some(ThreadNotFound)
      case Some(i) => if threads[i].status == Archived then Some(ThreadArchived) else None
    }

    /** `create_thread`: a truthy lounge must have an active membership of
        the user; an absent or empty title becomes "Conversation n". */
    method CreateThread(userId: int, memberships: seq<Membership>, loungeId: Option<int>,
                        title: Option<String>, now: Time) returns (r: Result<ChatThread>)
      requires Valid()
      modifies this
      ensures Valid()
      ensures r.Failure? <==> Truthy(loungeId) && FindActiveMembership(memberships, loungeId.value, userId).None?
      ensures r.Failure? ==> r.error == NotALoungeMember && threads == old(threads) && nextId == old(nextId)
      ensures r.Success? ==>
                r.value == NewThread(old(nextId), userId, loungeId,
                                     ThreadTitle(title, UserThreadCount(old(threads), userId)), now)
      ensures r.Success? ==> threads == old(threads) + [r.value] && nextId == old(nextId) + 1
      ensures r.Success? ==> OwnedThread(r.value.id, userId) == Some(|old(threads)|)
      ensures messages == old(messages)
    {
      if Truthy(loungeId) && FindActiveMembership(memberships, loungeId.value, userId).None? {
        return Failure(NotALoungeMember);
      }
      var t := NewThread(nextId, userId, loungeId, ThreadTitle(title, UserThreadCount(threads, userId)), now);
      FindFirstSnoc(threads, t, (x: ChatThread) => x.id == t.id && x.userId == userId);
      threads := threads + [t];
      nextId := nextId + 1;
      r := Success(t);
    }

    /** `send_message`: the thread must be the caller's and open; the user's
        message is stored first; then, when asked, the AI is given the
        history (which now ends with that message) and, when asked, the
        retrieved notes. `reply` stands for the model: None is a failure,
        which is logged and leaves the user's message alone. */
    method SendMessage(threadId: int, userId: int, content: String, generateAi: bool, useRag: bool,
                       notes: seq<Note>, embeddingFails: bool,
                       reply: (seq<Turn>, Option<String>) -> Option<String>, now: Time)
      returns (r: Result<Sent>)
      requires Valid()
      modifies this
      ensures Valid()
      ensures r.Failure? <==> old(SendRefusal(threadId, userId)).Some?
      ensures r.Failure? ==> r.error == old(SendRefusal(threadId, userId)).value
      ensures r.Failure? ==> messages == old(messages) && nextId == old(nextId)
      ensures r.Success? ==> r.value.user == UserMessage(old(nextId), threadId, userId, content, now)
      ensures r.Success? ==> (r.value.ai.Some? <==>
                generateAi && AiAnswer(old(messages) + [r.value.user], threadId, userId, content, useRag,
                                       notes, embeddingFails, reply).Some?)
      ensures r.Success? && r.value.ai.Some? ==>
                r.value.ai.value == AiMessage(old(nextId) + 1, threadId,
                  AiAnswer(old(messages) + [r.value.user], threadId, userId, content, useRag,
                           notes, embeddingFails, reply).value, now)
      ensures r.Success? ==> messages == old(messages) + Added(r.value) && nextId == old(nextId) + |Added(r.value)|
      ensures threads == old(threads)
    {
      var refusal := SendRefusal(threadId, userId);
      if refusal.Some? {
        return Failure(refusal.value);
      }
      var sent := Exchange(messages, nextId, threadId, userId, content, generateAi, useRag, notes, embeddingFails,
                           reply, now);
      var added := Added(sent);
      assert forall m :: m in added ==> m.id <= nextId + 1;
      messages := messages + added;
      nextId := nextId + |added|;
      r := Success(sent);
    }

    /** `get_thread_messages`: the caller's thread's messages, oldest first,
        `offset(skip).limit(limit)`. */
    method GetThreadMessages(threadId: int, userId: int, skip: nat, limit: nat)
      returns (r: Result<seq<ChatMessage>>)
      ensures r.Failure? <==> OwnedThread(threadId, userId).None?
      ensures r.Failure? ==> r.error == ThreadNotFound
      ensures r.Success? ==> r.value == Page(ThreadMessages(messages, threadId), skip, limit)
      ensures r.Success? ==> |r.value| <= limit && forall m :: m in r.value ==> m in messages && m.threadId == threadId
    {
      if OwnedThread(threadId, userId).None? {
        return Failure(ThreadNotFound);
      }
      var all := ThreadMessages(messages, threadId);
      r := Success(Page(all, skip, limit));
      forall m | m in r.value ensures m in messages && m.threadId == threadId {
        var k :| 0 <= k < |r.value| && r.value[k] == m;
        assert m == all[skip + k];
      }
    }

    /** `update_thread`: the caller's thread takes the given title and status. */
    method UpdateThread(threadId: int, userId: int, title: Option<String>, status: Option<ThreadStatus>)
      returns (r: Result<ChatThread>)
      requires Valid()
      modifies this
      ensures Valid()
      ensures r.Failure? <==> old(OwnedThread(threadId, userId)).None?
      ensures r.Failure? ==> r.error == ThreadNotFound && threads == old(threads)
      ensures r.Success? ==> old(OwnedThread(threadId, userId)).Some?
      ensures r.Success? ==> r.value == ApplyThreadPatch(old(threads)[old(OwnedThread(threadId, userId)).value], title, status)
      ensures r.Success? ==> threads == old(threads)[old(OwnedThread(threadId, userId)).value := r.value]
      ensures messages == old(messages) && nextId == old(nextId)
    {
      match OwnedThread(threadId, userId)
      case None =>
        r := Failure(ThreadNotFound);
      case Some(i) =>
        var t := ApplyThreadPatch(threads[i], title, status);
        threads := threads[i := t];
        r := Success(t);
    }

    /** `delete_thread`: the caller's thread goes, and its messages with it
        (the relationship's delete-orphan cascade); other threads keep theirs. */
    method DeleteThread(threadId: int, userId: int) returns (r: Result<bool>)
      requires Valid()
      modifies this
      ensures Valid()
      ensures r.Failure? <==> old(OwnedThread(threadId, userId)).None?
      ensures r.Failure? ==> r.error == ThreadNotFound && threads == old(threads) && messages == old(messages)
      ensures r.Success? ==> r.value && old(OwnedThread(threadId, userId)).Some?
      ensures r.Success? ==> threads == RemoveAt(old(threads), old(OwnedThread(threadId, userId)).value)
      ensures r.Success? ==> OwnedThread(threadId, userId).None?
      ensures r.Success? ==> ThreadMessages(messages, threadId) == []
      ensures r.Success? ==> forall other :: other != threadId ==>
                ThreadMessages(messages, other) == ThreadMessages(old(messages), other)
      ensures nextId == old(nextId)
    {
      match OwnedThread(threadId, userId)
      case None =>
        r := Failure(ThreadNotFound);
      case Some(i) =>
        var old_threads := threads;
        var old_messages := messages;
        var keep := (m: ChatMessage) => m.threadId != threadId;
        threads := RemoveAt(threads, i);
        messages := Filter(messages, keep);
        forall a, b | 0 <= a < b < |threads| ensures threads[a].id != threads[b].id {
          var a' := if a < i then a else a + 1;
          var b' := if b < i then b else b + 1;
          assert threads[a] == old_threads[a'] && threads[b] == old_threads[b'];
        }
        forall t | t in threads ensures !(t.id == threadId && t.userId == userId) {
          var k :| 0 <= k < |threads| && threads[k] == t;
          var k' := if k < i then k else k + 1;
          assert t == old_threads[k'] && k' != i;
        }
        forall other | other != threadId
          ensures ThreadMessages(messages, other) == ThreadMessages(old_messages, other)
        {
          ThreadMessagesUnaffected(old_messages, keep, other);
        }
        ThreadMessagesGone(old_messages, threadId);
        r := Success(true);
    }
  }

  /** Dropping rows of other threads leaves a thread's messages as they were. */
  lemma ThreadMessagesUnaffected(msgs: seq<ChatMessage>, keep: ChatMessage -> bool, threadId: int)
    requires forall m: ChatMessage :: m.threadId == threadId ==> keep(m)
    ensures ThreadMessages(Filter(msgs, keep), threadId) == ThreadMessages(msgs, threadId)
  {
    FilterConj(msgs, keep, (m: ChatMessage) => m.threadId == threadId, (m: ChatMessage) => m.threadId == threadId);
  }

  /** Dropping a thread's rows leaves it no messages. */
  lemma ThreadMessagesGone(msgs: seq<ChatMessage>, threadId: int)
    ensures ThreadMessages(Filter(msgs, (m: ChatMessage) => m.threadId != threadId), threadId) == []
  {
  }
}
