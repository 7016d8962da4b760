/** The chat router (app/api/v1/chat.py): thread listing, the message views
    with sender names, reply previews and attachment flags, the AI sender's
    name and avatar, and the routes over the chat store and the file store. */
module ChatApi {
  import opened Common
  import opened ChatModel
  import opened ChatService
  import opened FileService
  import LoungeModel
  import MentorModel
  import UserModel
  import FileModel
  import NoteModel
  import KnowledgeBaseApi

  const AiCoach := "AI Coach"
  const ReplyPreviewWidth: nat := 100
  const TypeRefused := "File type not allowed"
  const SendPrefix := "Error processing message: "
  const UploadPrefix := "Error uploading file: "
  const MaxContentLength: nat := 10000

  // ---------------------------------------------------------------------
  // Thread listing
  // ---------------------------------------------------------------------

  /** The value stored for a thread status. */
  function StatusValue(s: ThreadStatus): (v: String)
    ensures v == "open" <==> s == Open
  {
    match s
    case Open => "open"
    case Archived => "archived"
  }

  predicate OwnedBy(userId: int, t: ChatThread) { t.userId == userId }

  /** `if lounge_id:` skips the filter for an absent or zero id. */
  predicate InLounge(loungeId: Option<int>, t: ChatThread) { !Truthy(loungeId) || t.loungeId == loungeId }

  /** `if status:` skips the filter for an absent or empty string; a string
      that is no status value matches nothing. */
  predicate HasStatus(status: Option<String>, t: ChatThread) {
    status.None? || status.value == [] || StatusValue(t.status) == status.value
  }

  predicate ThreadListed(userId: int, loungeId: Option<int>, status: Option<String>, t: ChatThread) {
    OwnedBy(userId, t) && InLounge(loungeId, t) && HasStatus(status, t)
  }

  /** `order_by(ChatThread.created_at.desc())` */
  function ByCreatedDesc(t: ChatThread): Key { (t.createdAt, 0) }

  /** One entry of the listing (`ChatThreadResponse`). */
  datatype ThreadSummary = ThreadSummary(
    thread: ChatThread,
    messageCount: nat,
    lastMessageAt: Option<Time>,
    loungeTitle: Option<String>)

  /** `thread.lounge.title if thread.lounge else None` */
  function LoungeTitle(loungeId: Option<int>, lounges: seq<LoungeModel.Lounge>): (r: Option<String>)
    ensures r.Some? ==> loungeId.Some? && exists l :: l in lounges && l.id == loungeId.value && l.title == r.value
  {
    if loungeId.None? then None
    else match LoungeModel.FindLounge(lounges, loungeId.value)
      case None => None
      case Some(i) => assert lounges[i] in lounges; Some(lounges[i].title)
  }

  /** The message count and the time of the newest message, or None when the
      thread has no message. */
  function Summary(t: ChatThread, msgs: seq<ChatMessage>, lounges: seq<LoungeModel.Lounge>): ThreadSummary {
    var n := MessageCount(msgs, t.id);
    ThreadSummary(t, n, if n == 0 then None else Some(LastMessageAt(t, msgs)), LoungeTitle(t.loungeId, lounges))
  }

  function Summaries(ts: seq<ChatThread>, msgs: seq<ChatMessage>, lounges: seq<LoungeModel.Lounge>)
    : (r: seq<ThreadSummary>)
    ensures |r| == |ts| && forall k :: 0 <= k < |ts| ==> r[k] == Summary(ts[k], msgs, lounges)
  {
    seq(|ts|, k requires 0 <= k < |ts| => Summary(ts[k], msgs, lounges))
  }

  /** The threads `list_threads` returns, before their summaries. */
  function ListedThreads(threads: seq<ChatThread>, userId: int, loungeId: Option<int>, status: Option<String>,
                         skip: nat, limit: nat): seq<ChatThread>
  {
    Page(SortDesc(Filter(threads, (t: ChatThread) => ThreadListed(userId, loungeId, status, t)), ByCreatedDesc),
         skip, limit)
  }

  /** `list_threads`, as a function of the tables. */
  function ThreadList(threads: seq<ChatThread>, msgs: seq<ChatMessage>, lounges: seq<LoungeModel.Lounge>,
                      userId: int, loungeId: Option<int>, status: Option<String>, skip: nat, limit: nat)
    : seq<ThreadSummary>
  {
    Summaries(ListedThreads(threads, userId, loungeId, status, skip, limit), msgs, lounges)
  }

  /** The query of `list_threads`, narrowed one filter at a time. */
  method QueryThreads(threads: seq<ChatThread>, userId: int, loungeId: Option<int>, status: Option<String>)
    returns (rows: seq<ChatThread>)
    ensures rows == Filter(threads, (t: ChatThread) => ThreadListed(userId, loungeId, status, t))
  {
    rows := Filter(threads, (t: ChatThread) => OwnedBy(userId, t));
    if Truthy(loungeId) {
      rows := Filter(rows, (t: ChatThread) => InLounge(loungeId, t));
    } else {
      FilterTrue(rows, (t: ChatThread) => InLounge(loungeId, t));
    }
    FilterConj(threads, (t: ChatThread) => OwnedBy(userId, t), (t: ChatThread) => InLounge(loungeId, t),
               (t: ChatThread) => OwnedBy(userId, t) && InLounge(loungeId, t));
    if status.Some? && status.value != [] {
      rows := Filter(rows, (t: ChatThread) => HasStatus(status, t));
    } else {
      FilterTrue(rows, (t: ChatThread) => HasStatus(status, t));
    }
    FilterConj(threads, (t: ChatThread) => OwnedBy(userId, t) && InLounge(loungeId, t),
               (t: ChatThread) => HasStatus(status, t),
               (t: ChatThread) => ThreadListed(userId, loungeId, status, t));
  }

  /** The loop of `list_threads` over the page: one summary per thread. */
  method Summarize(page: seq<ChatThread>, msgs: seq<ChatMessage>, lounges: seq<LoungeModel.Lounge>)
    returns (r: seq<ThreadSummary>)
    ensures r == Summaries(page, msgs, lounges)
  {
    r := [];
    var i := 0;
    while i < |page|
      invariant 0 <= i <= |page|
      invariant |r| == i && forall k :: 0 <= k < i ==> r[k] == Summary(page[k], msgs, lounges)
    {
      var t := page[i];
      var count := MessageCount(msgs, t.id);
      var last := if count == 0 then None else Some(LastMessageAt(t, msgs));
      var summary := ThreadSummary(t, count, last, LoungeTitle(t.loungeId, lounges));
      assert summary == Summary(page[i], msgs, lounges);
      r := r + [summary];
      i := i + 1;
    }
  }

  /** `list_threads`: the caller's threads, narrowed by lounge and status when
      given, newest first, one page, each with its statistics. */
  method ListThreads(store: ChatStore, lounges: seq<LoungeModel.Lounge>, userId: int, skip: nat, limit: nat,
                     loungeId: Option<int>, status: Option<String>) returns (r: seq<ThreadSummary>)
    requires 1 <= limit <= 100
    ensures r == ThreadList(store.threads, store.messages, lounges, userId, loungeId, status, skip, limit)
  {
    var rows := QueryThreads(store.threads, userId, loungeId, status);
    var page := Page(SortDesc(rows, ByCreatedDesc), skip, limit);
    r := Summarize(page, store.messages, lounges);
  }

  /** Only the caller's threads are listed, filtered as asked, newest first,
      at most `limit` of them; the first page holds every match when they fit. */
  lemma ThreadListSound(threads: seq<ChatThread>, msgs: seq<ChatMessage>, lounges: seq<LoungeModel.Lounge>,
                        userId: int, loungeId: Option<int>, status: Option<String>, skip: nat, limit: nat)
    ensures var r := ThreadList(threads, msgs, lounges, userId, loungeId, status, skip, limit);
      |r| <= limit &&
      (forall k :: 0 <= k < |r| ==> r[k].thread in threads && r[k].thread.userId == userId &&
                                    ThreadListed(userId, loungeId, status, r[k].thread)) &&
      (forall i, j :: 0 <= i < j < |r| ==> r[i].thread.createdAt >= r[j].thread.createdAt)
    ensures skip == 0 && Count(threads, (t: ChatThread) => ThreadListed(userId, loungeId, status, t)) <= limit ==>
      forall t :: t in threads && ThreadListed(userId, loungeId, status, t) ==>
        t in ListedThreads(threads, userId, loungeId, status, skip, limit)
  {
    var p := (t: ChatThread) => ThreadListed(userId, loungeId, status, t);
    var page := ListedThreads(threads, userId, loungeId, status, skip, limit);
    ListPageFacts(threads, p, ByCreatedDesc, skip, limit);
    assert forall i, j :: 0 <= i < j < |page| ==> KeyGe(ByCreatedDesc(page[i]), ByCreatedDesc(page[j]));
    if skip == 0 && Count(threads, p) <= limit {
      FirstPageComplete(threads, p, ByCreatedDesc, limit);
    }
  }

  /** A listed thread's `last_message_at` is absent exactly when it has no
      message, and is otherwise the model's `last_message_at`, the newest
      message time. */
  lemma SummaryFacts(t: ChatThread, msgs: seq<ChatMessage>, lounges: seq<LoungeModel.Lounge>)
    ensures Summary(t, msgs, lounges).lastMessageAt.None? <==> forall m :: m in msgs ==> m.threadId != t.id
    ensures Summary(t, msgs, lounges).lastMessageAt.Some? ==>
              Summary(t, msgs, lounges).lastMessageAt.value == LastMessageAt(t, msgs) &&
              (forall m :: m in msgs && m.threadId == t.id ==> m.createdAt <= LastMessageAt(t, msgs)) &&
              exists m :: m in msgs && m.threadId == t.id && m.createdAt == LastMessageAt(t, msgs)
  {
    LastMessageAtIsLatest(t, msgs);
    var ms := ThreadMessages(msgs, t.id);
    if exists m :: m in msgs && m.threadId == t.id {
      var m :| m in msgs && m.threadId == t.id;
      assert m in ms;
    }
    if ms != [] {
      assert ms[0] in msgs && ms[0].threadId == t.id;
    }
  }

  // ---------------------------------------------------------------------
  // Message views
  // ---------------------------------------------------------------------

  /** `sender_name` and `sender_avatar` of a message. */
  datatype Sender = Sender(name: Option<String>, avatar: Option<String>)

  /** A user message names its author when `user_id` is set and found; an AI
      message is "AI Coach"; a mentor message is anonymous. */
  function SenderOf(m: ChatMessage, users: seq<UserModel.User>): Sender {
    if m.senderType == UserSender && Truthy(m.userId) then
      match UserModel.FindUser(users, m.userId.value)
      case None => Sender(None, None)
      case Some(u) => Sender(Some(u.name), u.avatarUrl)
    else if m.senderType == AiSender then Sender(Some(AiCoach), None)
    else Sender(None, None)
  }

  lemma SenderOfCases(m: ChatMessage, users: seq<UserModel.User>)
    ensures m.senderType == AiSender ==> SenderOf(m, users) == Sender(Some(AiCoach), None)
    ensures m.senderType == MentorSender ==> SenderOf(m, users) == Sender(None, None)
    ensures m.senderType == UserSender ==>
              (SenderOf(m, users).name.Some? <==> Truthy(m.userId) && exists u :: u in users && u.id == m.userId.value)
    ensures m.senderType == UserSender && SenderOf(m, users).name.Some? ==>
              exists u :: u in users && u.id == m.userId.value &&
                          SenderOf(m, users) == Sender(Some(u.name), u.avatarUrl)
  {
    if m.senderType == UserSender && Truthy(m.userId) {
      var found := UserModel.FindUser(users, m.userId.value);
      if found.Some? {
        assert found.value in users;
      }
    }
  }

  /** `ReplyToInfo`: the quoted message's id, preview, sender name and type. */
  datatype ReplyInfo = ReplyInfo(id: int, content: String, senderName: Option<String>, senderType: SenderType)

  function FindMessage(msgs: seq<ChatMessage>, id: int): (r: Option<ChatMessage>)
    ensures r.Some? ==> r.value in msgs && r.value.id == id
    ensures r.None? ==> forall m :: m in msgs ==> m.id != id
  {
    match FindFirst(msgs, (m: ChatMessage) => m.id == id)
    case None => None
    case Some(i) => Some(msgs[i])
  }

  /** `reply_to_info` when `msg.reply_to_id and msg.reply_to`. */
  function ReplyTo(m: ChatMessage, msgs: seq<ChatMessage>, users: seq<UserModel.User>): (r: Option<ReplyInfo>)
  {
    if !Truthy(m.replyToId) then None
    else match FindMessage(msgs, m.replyToId.value)
      case None => None
      case Some(q) => Some(ReplyInfo(q.id, Preview(q.content, ReplyPreviewWidth), SenderOf(q, users).name, q.senderType))
  }

  /** The reply block names the quoted message and previews it: the content
      gains "..." after its first 100 characters exactly when it is longer. */
  lemma ReplyToFacts(m: ChatMessage, msgs: seq<ChatMessage>, users: seq<UserModel.User>)
    ensures ReplyTo(m, msgs, users).Some? <==>
              Truthy(m.replyToId) && exists q :: q in msgs && q.id == m.replyToId.value
    ensures ReplyTo(m, msgs, users).Some? ==>
              var r := ReplyTo(m, msgs, users).value;
              r.id == m.replyToId.value && |r.content| <= ReplyPreviewWidth + 3 &&
              exists q :: q in msgs && q.id == r.id && r.senderType == q.senderType &&
                          r.senderName == SenderOf(q, users).name &&
                          (|q.content| > ReplyPreviewWidth <==>
                             |q.content| >= ReplyPreviewWidth && r.content == q.content[..ReplyPreviewWidth] + "...") &&
                          (|q.content| <= ReplyPreviewWidth ==> r.content == q.content)
  {
    if Truthy(m.replyToId) {
      var found := FindMessage(msgs, m.replyToId.value);
      if found.Some? {
        var q := found.value;
        PreviewShape(q.content, ReplyPreviewWidth);
        ReplyPreviewIff(q.content);
      }
    }
  }

  /** The preview gets its ellipsis exactly when the text exceeds the width. */
  lemma ReplyPreviewIff(c: String)
    ensures |c| > ReplyPreviewWidth <==>
              |c| >= ReplyPreviewWidth && Preview(c, ReplyPreviewWidth) == c[..ReplyPreviewWidth] + "..."
  {
    if |c| >= ReplyPreviewWidth && Preview(c, ReplyPreviewWidth) == c[..ReplyPreviewWidth] + "..." {
      assert |Preview(c, ReplyPreviewWidth)| == ReplyPreviewWidth + 3;
    }
  }

  /** `len(msg.attachments) if msg.attachments else 0` */
  function AttachmentCount(atts: seq<MessageAttachment>, messageId: int): nat {
    Count(atts, (a: MessageAttachment) => a.messageId == messageId)
  }

  /** One `MessageResponse`. */
  datatype MessageView = MessageView(
    message: ChatMessage,
    senderName: Option<String>,
    senderAvatar: Option<String>,
    replyTo: Option<ReplyInfo>,
    hasAttachments: bool,
    attachmentCount: nat)

  function ViewOf(m: ChatMessage, msgs: seq<ChatMessage>, atts: seq<MessageAttachment>,
                  users: seq<UserModel.User>): MessageView
  {
    var sender := SenderOf(m, users);
    var n := AttachmentCount(atts, m.id);
    MessageView(m, sender.name, sender.avatar, ReplyTo(m, msgs, users), n > 0, n)
  }

  /** `has_attachments` holds exactly when the count is positive, which is the
      model's `has_attachments`: some attachment row points at the message. */
  lemma ViewAttachments(m: ChatMessage, msgs: seq<ChatMessage>, atts: seq<MessageAttachment>,
                        users: seq<UserModel.User>)
    ensures ViewOf(m, msgs, atts, users).hasAttachments <==> ViewOf(m, msgs, atts, users).attachmentCount > 0
    ensures ViewOf(m, msgs, atts, users).hasAttachments <==> HasAttachments(atts, m.id)
    ensures ViewOf(m, msgs, atts, users).hasAttachments <==> exists a :: a in atts && a.messageId == m.id
  {
    HasAttachmentsIff(atts, m.id);
  }

  function Views(ms: seq<ChatMessage>, msgs: seq<ChatMessage>, atts: seq<MessageAttachment>,
                 users: seq<UserModel.User>): (r: seq<MessageView>)
    ensures |r| == |ms| && forall k :: 0 <= k < |ms| ==> r[k] == ViewOf(ms[k], msgs, atts, users)
  {
    seq(|ms|, k requires 0 <= k < |ms| => ViewOf(ms[k], msgs, atts, users))
  }

  /** The loop of `get_thread` over the page of messages. */
  method BuildViews(ms: seq<ChatMessage>, msgs: seq<ChatMessage>, atts: seq<MessageAttachment>,
                    users: seq<UserModel.User>) returns (r: seq<MessageView>)
    ensures r == Views(ms, msgs, atts, users)
  {
    r := [];
    var i := 0;
    while i < |ms|
      invariant 0 <= i <= |ms|
      invariant |r| == i && forall k :: 0 <= k < i ==> r[k] == ViewOf(ms[k], msgs, atts, users)
    {
      var m := ms[i];
      var sender := SenderOf(m, users);
      var n := AttachmentCount(atts, m.id);
      r := r + [MessageView(m, sender.name, sender.avatar, ReplyTo(m, msgs, users), n > 0, n)];
      i := i + 1;
    }
  }

  /** `ChatHistoryResponse` */
  datatype ThreadHistory = ThreadHistory(thread: ThreadSummary, messages: seq<MessageView>, total: nat)

  function FindThread(threads: seq<ChatThread>, id: int): (r: Option<ChatThread>)
    ensures r.Some? ==> r.value in threads && r.value.id == id
    ensures r.None? ==> forall t :: t in threads ==> t.id != id
  {
    match FindFirst(threads, (t: ChatThread) => t.id == id)
    case None => None
    case Some(i) => Some(threads[i])
  }

  /** The history `get_thread` answers for a thread it found. The thread
      block carries the total as its count and no `last_message_at`. */
  function HistoryOf(t: ChatThread, msgs: seq<ChatMessage>, atts: seq<MessageAttachment>,
                     users: seq<UserModel.User>, lounges: seq<LoungeModel.Lounge>, skip: nat, limit: nat)
    : ThreadHistory
  {
    var total := MessageCount(msgs, t.id);
    ThreadHistory(ThreadSummary(t, total, None, LoungeTitle(t.loungeId, lounges)),
                  Views(Page(ThreadMessages(msgs, t.id), skip, limit), msgs, atts, users), total)
  }

  /** `get_thread`: 404 unless the caller owns the thread, else one page of
      its messages in time order with their views. */
  method GetThreadRoute(store: ChatStore, atts: seq<MessageAttachment>, users: seq<UserModel.User>,
                        lounges: seq<LoungeModel.Lounge>, threadId: int, userId: int, skip: nat, limit: nat)
    returns (r: Outcome<ThreadHistory>)
    requires 1 <= limit <= 100
    ensures r.HttpError? <==> store.OwnedThread(threadId, userId).None?
    ensures r.HttpError? ==> r.status == 404 && r.detail == ThreadNotFound
    ensures r.Ok? ==> (FindThread(store.threads, threadId).Some? &&
              r.value == HistoryOf(FindThread(store.threads, threadId).value, store.messages, atts, users, lounges,
                                   skip, limit))
  {
    var page := store.GetThreadMessages(threadId, userId, skip, limit);
    if page.Failure? {
      return HttpError(404, page.error);
    }
    var owned := store.OwnedThread(threadId, userId).value;
    assert store.threads[owned] in store.threads;
    var t := FindThread(store.threads, threadId).value;
    var total := MessageCount(store.messages, threadId);
    var views := BuildViews(page.value, store.messages, atts, users);
    r := Ok(ThreadHistory(ThreadSummary(t, total, None, LoungeTitle(t.loungeId, lounges)), views, total));
  }

  /** The page holds at most `limit` of the thread's messages in time order,
      the total counts all of them, and the thread block never carries a
      `last_message_at`. */
  lemma HistoryOfSound(t: ChatThread, msgs: seq<ChatMessage>, atts: seq<MessageAttachment>,
                       users: seq<UserModel.User>, lounges: seq<LoungeModel.Lounge>, skip: nat, limit: nat)
    ensures var h := HistoryOf(t, msgs, atts, users, lounges, skip, limit);
      |h.messages| <= limit &&
      h.total == |ThreadMessages(msgs, t.id)| && h.thread.messageCount == h.total &&
      h.thread.lastMessageAt.None? &&
      (forall k :: 0 <= k < |h.messages| ==> h.messages[k].message in msgs && h.messages[k].message.threadId == t.id) &&
      (forall i, j :: 0 <= i < j < |h.messages| ==> h.messages[i].message.createdAt <= h.messages[j].message.createdAt)
  {
    var all := ThreadMessages(msgs, t.id);
    var page := Page(all, skip, limit);
    forall k | 0 <= k < |page| ensures page[k] in msgs && page[k].threadId == t.id {
      assert page[k] == all[skip + k];
    }
    forall i, j | 0 <= i < j < |page| ensures page[i].createdAt <= page[j].createdAt {
      assert page[i] == all[skip + i] && page[j] == all[skip + j];
    }
  }

  // ---------------------------------------------------------------------
  // The AI sender
  // ---------------------------------------------------------------------

  function FileRow(files: seq<FileModel.File>, id: int): (r: Option<FileModel.File>)
    ensures r.Some? ==> r.value in files && r.value.id == id
    ensures r.None? ==> forall f :: f in files ==> f.id != id
  {
    match FileModel.FindFile(files, id)
    case None => None
    case Some(i) => Some(files[i])
  }

  /** `not value` for an optional string. */
  predicate Falsy(s: Option<String>) { s.None? || s.value == [] }

  /** The profile image path of the thread's lounge, if it has one. */
  function LoungeImagePath(loungeId: Option<int>, lounges: seq<LoungeModel.Lounge>, files: seq<FileModel.File>)
    : (r: Option<String>)
  {
    if loungeId.None? then None
    else match LoungeModel.FindLounge(lounges, loungeId.value)
      case None => None
      case Some(i) =>
        if lounges[i].profileImageId.None? then None
        else match FileRow(files, lounges[i].profileImageId.value)
          case None => None
          case Some(f) => Some(f.storagePath)
  }

  /** Name and avatar of the AI in the thread's lounge: the mentor's name
      (`or "AI Coach"`) and avatar, the avatar falling back to the lounge's
      profile image path. */
  function AiSenderOf(thread: Option<ChatThread>, lounges: seq<LoungeModel.Lounge>,
                      mentors: seq<MentorModel.Mentor>, users: seq<UserModel.User>, files: seq<FileModel.File>)
    : Sender
  {
    if thread.None? || thread.value.loungeId.None? || LoungeModel.FindLounge(lounges, thread.value.loungeId.value).None?
    then Sender(Some(AiCoach), None)
    else
      var mentorUser := KnowledgeBaseApi.MentorUser(thread.value.loungeId, lounges, mentors, users);
      var name := if mentorUser.Some? && mentorUser.value.name != [] then mentorUser.value.name else AiCoach;
      var avatar := if mentorUser.Some? then mentorUser.value.avatarUrl else None;
      var image := LoungeImagePath(thread.value.loungeId, lounges, files);
      Sender(Some(name), if Falsy(avatar) && image.Some? then image else avatar)
  }

  /** The AI always has a non-empty name, which is "AI Coach" or the name of
      the user behind the lounge's mentor; an avatar is the mentor user's own
      when that one is set, else the lounge's profile image path. */
  lemma AiSenderFacts(thread: Option<ChatThread>, lounges: seq<LoungeModel.Lounge>,
                      mentors: seq<MentorModel.Mentor>, users: seq<UserModel.User>, files: seq<FileModel.File>)
    ensures var s := AiSenderOf(thread, lounges, mentors, users, files);
      s.name.Some? && s.name.value != [] &&
      (s.name.value != AiCoach ==> (thread.Some? &&
         KnowledgeBaseApi.MentorUser(thread.value.loungeId, lounges, mentors, users).Some? &&
         s.name.value == KnowledgeBaseApi.MentorUser(thread.value.loungeId, lounges, mentors, users).value.name))
    ensures var s := AiSenderOf(thread, lounges, mentors, users, files);
      thread.Some? && KnowledgeBaseApi.MentorUser(thread.value.loungeId, lounges, mentors, users).Some? &&
      !Falsy(KnowledgeBaseApi.MentorUser(thread.value.loungeId, lounges, mentors, users).value.avatarUrl) ==>
        s.avatar == KnowledgeBaseApi.MentorUser(thread.value.loungeId, lounges, mentors, users).value.avatarUrl
    ensures var s := AiSenderOf(thread, lounges, mentors, users, files);
      s.avatar.Some? && s.avatar.value != [] ==>
        thread.Some? &&
        ((KnowledgeBaseApi.MentorUser(thread.value.loungeId, lounges, mentors, users).Some? &&
          s.avatar == KnowledgeBaseApi.MentorUser(thread.value.loungeId, lounges, mentors, users).value.avatarUrl) ||
         s.avatar == LoungeImagePath(thread.value.loungeId, lounges, files))
  {
    assert AiCoach != [];
    if thread.Some? && thread.value.loungeId.Some? && LoungeModel.FindLounge(lounges, thread.value.loungeId.value).None? {
      assert KnowledgeBaseApi.MentorUser(thread.value.loungeId, lounges, mentors, users).None?;
    }
  }

  // ---------------------------------------------------------------------
  // Sending
  // ---------------------------------------------------------------------

  /** `MessageCreate.content`: between 1 and 10000 characters, else FastAPI
      answers 422 before the handler runs. */
  predicate ValidContent(content: String) { 1 <= |content| <= MaxContentLength }

  const ValidationFailed := "Request body failed validation"

  /** As written, `send_message` reads `message_data.reply_to_id`, which
      `MessageCreate` does not declare: the attribute error is caught by the
      route's `except Exception` and every valid request ends in a 500, before
      the service is called. */
  function SendMessageRouteAsWritten(content: String): (r: Outcome<seq<MessageView>>)
  {
    if !ValidContent(content) then HttpError(422, ValidationFailed)
    else HttpError(500, SendPrefix + "'MessageCreate' object has no attribute 'reply_to_id'")
  }

  /** No request to the send route as written ever succeeds. */
  lemma SendMessageRouteAlwaysFailsAsWritten(content: String)
    ensures SendMessageRouteAsWritten(content).HttpError?
    ensures ValidContent(content) ==> SendMessageRouteAsWritten(content).status == 500
    ensures ValidContent("Hello") && SendMessageRouteAsWritten("Hello").status == 500
  {
    assert |"Hello"| == 5;
  }

  /** The user message's view: the caller's own name and avatar, no reply
      block, no attachments. */
  function UserView(m: ChatMessage, caller: UserModel.User): MessageView {
    MessageView(m, Some(caller.name), caller.avatarUrl, None, false, 0)
  }

  function AiView(m: ChatMessage, ai: Sender): MessageView {
    MessageView(m, ai.name, ai.avatar, None, false, 0)
  }

  /** `send_message` with the service called by its own signature: a 422 for
      an invalid body, a 400 carrying the service's refusal, else the user
      message's view followed by the AI message's view when one was made. */
  method SendMessageRoute(store: ChatStore, caller: UserModel.User, threadId: int, content: String, generateAi: bool,
                          lounges: seq<LoungeModel.Lounge>, mentors: seq<MentorModel.Mentor>,
                          users: seq<UserModel.User>, files: seq<FileModel.File>, notes: seq<NoteModel.Note>,
                          embeddingFails: bool, reply: (seq<Turn>, Option<String>) -> Option<String>, now: Time)
    returns (r: Outcome<seq<MessageView>>)
    requires store.Valid()
    modifies store
    ensures store.Valid()
    ensures !ValidContent(content) ==> r == HttpError(422, ValidationFailed)
    ensures ValidContent(content) ==>
              (r.HttpError? <==> old(store.SendRefusal(threadId, caller.id)).Some?)
    ensures ValidContent(content) && r.HttpError? ==>
              r.status == 400 && r.detail == old(store.SendRefusal(threadId, caller.id)).value
    ensures r.HttpError? ==> store.messages == old(store.messages)
    ensures r.Ok? ==> (1 <= |r.value| <= 2 &&
              r.value[0] == UserView(UserMessage(old(store.nextId), threadId, caller.id, content, now), caller) &&
              store.messages == old(store.messages) + seq(|r.value|, k requires 0 <= k < |r.value| => r.value[k].message))
    ensures r.Ok? && |r.value| == 2 ==>
              r.value[1].message.senderType == AiSender &&
              r.value[1] == AiView(r.value[1].message,
                                   AiSenderOf(FindThread(store.threads, threadId), lounges, mentors, users, files))
    ensures r.Ok? ==> (|r.value| == 2 <==>
              generateAi && AiAnswer(old(store.messages) + [r.value[0].message], threadId, caller.id, content, true,
                                     notes, embeddingFails, reply).Some?)
    ensures store.threads == old(store.threads)
  {
    if !ValidContent(content) {
      return HttpError(422, ValidationFailed);
    }
    var sent := store.SendMessage(threadId, caller.id, content, generateAi, true, notes, embeddingFails, reply, now);
    if sent.Failure? {
      return HttpError(400, sent.error);
    }
    var ai := AiSenderOf(FindThread(store.threads, threadId), lounges, mentors, users, files);
    var views := [UserView(sent.value.user, caller)];
    if sent.value.ai.Some? {
      views := views + [AiView(sent.value.ai.value, ai)];
    }
    r := Ok(views);
  }

  // ---------------------------------------------------------------------
  // Files
  // ---------------------------------------------------------------------

  /** As written, the 400 raised for a refused type inside the route's `try`
      is caught by its own `except Exception` and re-raised as a 500 whose
      detail is the text of the first exception. */
  function UploadTypeCheckAsWritten(filename: String, allowed: seq<String>): (r: Option<Outcome<FileModel.File>>)
  {
    if ValidateFileType(filename, allowed) then None
    else Some(HttpError(500, UploadPrefix + "400: " + TypeRefused))
  }

  /** A disallowed type such as ".exe" gets a 500 as written. */
  lemma UploadTypeRefusalIs500AsWritten()
    ensures UploadTypeCheckAsWritten("setup.exe", ["pdf", "txt"]) == Some(HttpError(500, UploadPrefix + "400: " + TypeRefused))
  {
    FileExtensionShape("setup", "exe");
    assert Lower("exe") == "exe";
  }

  /** `upload_file` as evidently intended: a refused type is a 400 "File type
      not allowed", an oversized file a 400 with the service's message, a
      storage failure a 500; otherwise the stored file. */
  method UploadRoute(store: FileStore, content: seq<bv8>, filename: String, declaredType: Option<String>,
                     guessedType: Option<String>, userId: int, date: String, uuid: String, maxMb: int,
                     allowed: seq<String>, s3Error: Option<String>, now: Time) returns (r: Outcome<FileModel.File>)
    requires store.Valid()
    requires StoragePath(DefaultFolder, date, uuid, filename) !in store.objects
    modifies store
    ensures store.Valid()
    ensures !ValidateFileType(filename, allowed) ==> r == HttpError(400, TypeRefused)
    ensures ValidateFileType(filename, allowed) && |content| > Config.MaxFileSizeBytes(maxMb) ==>
              r.HttpError? && r.status == 400
    ensures ValidateFileType(filename, allowed) && |content| <= Config.MaxFileSizeBytes(maxMb) ==>
              (r.Ok? <==> s3Error.None?)
    ensures r.HttpError? && r.status == 500 ==> r.detail == UploadPrefix + StoragePrefix + s3Error.value
    ensures r.HttpError? ==> store.files == old(store.files) && store.objects == old(store.objects)
    ensures r.Ok? ==> (r.value.storagePath == StoragePath(DefaultFolder, date, uuid, filename) &&
              r.value.ownerUserId == userId && r.value.sizeBytes == |content| &&
              store.files == old(store.files) + [r.value])
  {
    if !ValidateFileType(filename, allowed) {
      return HttpError(400, TypeRefused);
    }
    var res := store.UploadFile(content, filename, declaredType, guessedType, userId, DefaultFolder, date, uuid,
                                maxMb, allowed, s3Error, now);
    if res.Success? {
      return Ok(res.value);
    }
    if UploadRefusalOf(|content|, filename, maxMb, allowed).Some? {
      return HttpError(400, res.error);
    }
    r := HttpError(500, UploadPrefix + res.error);
  }

  /** A refused type is a client error in the intended route and a server
      error in the route as written. */
  lemma UploadTypeRefusalStatuses(filename: String, allowed: seq<String>)
    requires !ValidateFileType(filename, allowed)
    ensures UploadTypeCheckAsWritten(filename, allowed).value.status == 500
  {
  }

  /** `GET /files/{file_id}/url`: a missing file is a 404; a failing presign
      raises a plain exception that reaches the application handler (500). */
  function FileUrlRoute(store: FileStore, fileId: int, presign: (String, int) -> String, s3Fails: bool)
    : (r: Outcome<String>)
    reads store
    ensures r == HttpError(404, FileNotFound) <==> store.GetFileInfo(fileId).None?
    ensures r == HttpError(500, InternalError) <==> store.GetFileInfo(fileId).Some? && s3Fails
    ensures r.Ok? ==> r.value == presign(store.GetFileInfo(fileId).value.storagePath, 3600)
  {
    match store.GetFileUrl(fileId, 3600, presign, s3Fails)
    case Success(url) => Ok(url)
    case Failure(e) => if e == FileNotFound then HttpError(404, e) else HttpError(500, InternalError)
  }

  // ---------------------------------------------------------------------
  // Thread changes
  // ---------------------------------------------------------------------

  /** A service error as the route's HTTP answer. */
  function AsHttp<T>(r: Result<T>, status: int): (o: Outcome<T>)
    ensures o.Ok? <==> r.Success?
    ensures o.Ok? ==> o.value == r.value
    ensures o.HttpError? ==> o.status == status && o.detail == r.error
  {
    match r
    case Success(v) => Ok(v)
    case Failure(e) => HttpError(status, e)
  }

  /** `create_thread`: a refused lounge is a 400; the new thread has no
      messages yet. */
  method CreateThreadRoute(store: ChatStore, memberships: seq<LoungeModel.Membership>, userId: int,
                           loungeId: Option<int>, title: Option<String>, lounges: seq<LoungeModel.Lounge>, now: Time)
    returns (r: Outcome<ThreadSummary>)
    requires store.Valid()
    modifies store
    ensures store.Valid()
    ensures r.HttpError? <==>
              Truthy(loungeId) && LoungeModel.FindActiveMembership(memberships, loungeId.value, userId).None?
    ensures r.HttpError? ==> r.status == 400 && r.detail == NotALoungeMember && store.threads == old(store.threads)
    ensures r.Ok? ==> (r.value.messageCount == 0 && r.value.lastMessageAt.None? &&
              store.threads == old(store.threads) + [r.value.thread] &&
              r.value.loungeTitle == LoungeTitle(loungeId, lounges))
  {
    var created := store.CreateThread(userId, memberships, loungeId, title, now);
    if created.Failure? {
      return HttpError(400, created.error);
    }
    r := Ok(ThreadSummary(created.value, 0, None, LoungeTitle(created.value.loungeId, lounges)));
  }

  /** `update_thread` and `delete_thread`: a missing or foreign thread is a 404. */
  method UpdateThreadRoute(store: ChatStore, threadId: int, userId: int, title: Option<String>,
                           status: Option<ThreadStatus>, lounges: seq<LoungeModel.Lounge>)
    returns (r: Outcome<ThreadSummary>)
    requires store.Valid()
    modifies store
    ensures store.Valid()
    ensures r.HttpError? <==> old(store.OwnedThread(threadId, userId)).None?
    ensures r.HttpError? ==> r.status == 404 && r.detail == ThreadNotFound && store.threads == old(store.threads)
    ensures r.Ok? ==> (r.value.thread == ApplyThreadPatch(old(store.threads)[old(store.OwnedThread(threadId, userId)).value],
                                                          title, status) &&
              r.value.messageCount == MessageCount(store.messages, threadId) && r.value.lastMessageAt.None?)
  {
    var updated := store.UpdateThread(threadId, userId, title, status);
    if updated.Failure? {
      return HttpError(404, updated.error);
    }
    r := Ok(ThreadSummary(updated.value, MessageCount(store.messages, threadId), None,
                          LoungeTitle(updated.value.loungeId, lounges)));
  }

  method DeleteThreadRoute(store: ChatStore, threadId: int, userId: int) returns (r: Outcome<bool>)
    requires store.Valid()
    modifies store
    ensures store.Valid()
    ensures r.HttpError? <==> old(store.OwnedThread(threadId, userId)).None?
    ensures r.HttpError? ==> r.status == 404 && r.detail == ThreadNotFound && store.threads == old(store.threads)
    ensures r.Ok? ==> store.OwnedThread(threadId, userId).None? && ThreadMessages(store.messages, threadId) == []
  {
    var deleted := store.DeleteThread(threadId, userId);
    r := AsHttp(deleted, 404);
  }

  // ---------------------------------------------------------------------
  // The router's imports
  // ---------------------------------------------------------------------

  /** The names the router imports from the chat schema module. */
  const ChatRouterImports: seq<String> := [
    "ChatThreadCreate", "ChatThreadUpdate", "ChatThreadResponse", "MessageCreate", "MessageUpdate",
    "MessageResponse", "ReplyToInfo", "FileUploadResponse", "AIResponseRequest", "ChatHistoryResponse"]

  /** The classes the chat schema module defines as written. */
  const ChatSchemaNamesAsWritten: seq<String> := [
    "ChatThreadCreate", "ChatThreadUpdate", "ChatThreadResponse", "MessageCreate", "MessageResponse",
    "FileUploadResponse", "AIResponseRequest", "ChatHistoryResponse"]

  /** With the two classes the router needs: `ReplyToInfo` (the `ReplyInfo`
      block above) and `MessageUpdate`, the body of the edit route. */
  const ChatSchemaNames: seq<String> := ChatSchemaNamesAsWritten + ["MessageUpdate", "ReplyToInfo"]

  /** As written the import fails on `MessageUpdate` (and `ReplyToInfo`), so
      the application, which imports the chat router at start-up, cannot start. */
  lemma ChatRouterImportFailsAsWritten()
    ensures !ImportsResolve(ChatRouterImports, ChatSchemaNamesAsWritten)
    ensures "MessageUpdate" !in ChatSchemaNamesAsWritten && "ReplyToInfo" !in ChatSchemaNamesAsWritten
  {
    assert ChatRouterImports[4] == "MessageUpdate";
  }

  /** With the two classes defined, every imported name resolves. */
  lemma ChatRouterImportsResolve()
    ensures ImportsResolve(ChatRouterImports, ChatSchemaNames)
  {
    forall k | 0 <= k < |ChatRouterImports| ensures ChatRouterImports[k] in ChatSchemaNames {
      if k == 4 { assert ChatSchemaNames[8] == "MessageUpdate"; }
      else if k == 6 { assert ChatSchemaNames[9] == "ReplyToInfo"; }
      else if k < 4 { assert ChatSchemaNames[k] == ChatRouterImports[k]; }
      else if k == 5 { assert ChatSchemaNames[4] == ChatRouterImports[k]; }
      else { assert ChatSchemaNames[k - 2] == ChatRouterImports[k]; }
    }
  }
}
