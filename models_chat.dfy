/** Chat threads, messages and attachments (app/db/models/chat.py). */
module ChatModel {
  import opened Common

  datatype ThreadStatus = Open | Archived
  datatype SenderType = UserSender | AiSender | MentorSender

  datatype ChatThread = ChatThread(
    id: int,
    userId: int,
    loungeId: Option<int>,
    title: Option<String>,
    status: ThreadStatus,
    createdAt: Time)

  datatype ChatMessage = ChatMessage(
    id: int,
    threadId: int,
    senderType: SenderType,
    userId: Option<int>,
    replyToId: Option<int>,
    content: String,
    createdAt: Time,
    editedAt: Option<Time>)

  datatype MessageAttachment = MessageAttachment(id: int, messageId: int, fileId: int)

  /** A thread row as inserted with the column defaults. */
  function NewThread(id: int, userId: int, loungeId: Option<int>, title: Option<String>, now: Time): (t: ChatThread)
    ensures t.status == Open && t.userId == userId && t.loungeId == loungeId && t.title == title
  {
    ChatThread(id, userId, loungeId, title, Open, now)
  }

  /** Ascending by creation time. */
  function ByCreatedAsc(m: ChatMessage): Key { (-m.createdAt, 0) }

  /** `ChatThread.messages`: the thread's messages, `order_by=ChatMessage.created_at`. */
  function ThreadMessages(msgs: seq<ChatMessage>, threadId: int): (r: seq<ChatMessage>)
    ensures forall i :: 0 <= i < |r| ==> r[i].threadId == threadId && r[i] in msgs
    ensures forall i, j :: 0 <= i < j < |r| ==> r[i].createdAt <= r[j].createdAt
    ensures forall m :: m in msgs && m.threadId == threadId ==> m in r
  {
    var mine := Filter(msgs, (m: ChatMessage) => m.threadId == threadId);
    var r := SortDesc(mine, ByCreatedAsc);
    SortDescFacts(mine, ByCreatedAsc);
    forall m | m in r ensures m in mine && m.threadId == threadId {
      assert m in multiset(r);
    }
    forall m | m in mine ensures m in r {
      assert m in multiset(mine);
    }
    forall i, j | 0 <= i < j < |r| ensures r[i].createdAt <= r[j].createdAt {
      assert KeyGe(ByCreatedAsc(r[i]), ByCreatedAsc(r[j]));
    }
    r
  }

  /** `ChatThread.message_count` */
  function MessageCount(msgs: seq<ChatMessage>, threadId: int): nat {
    |ThreadMessages(msgs, threadId)|
  }

  /** `ChatThread.last_message_at`: the last message's time, or the thread's own creation time. */
  function LastMessageAt(t: ChatThread, msgs: seq<ChatMessage>): Time {
    var ms := ThreadMessages(msgs, t.id);
    if ms != [] then ms[|ms| - 1].createdAt else t.createdAt
  }

  /** `last_message_at` is the latest creation time among the thread's messages,
      and is the thread's own creation time exactly when it has none. */
  lemma LastMessageAtIsLatest(t: ChatThread, msgs: seq<ChatMessage>)
    ensures forall m :: m in msgs && m.threadId == t.id ==> m.createdAt <= LastMessageAt(t, msgs)
    ensures (forall m :: m in msgs ==> m.threadId != t.id) ==> LastMessageAt(t, msgs) == t.createdAt
    ensures (exists m :: m in msgs && m.threadId == t.id) ==>
              exists m :: m in msgs && m.threadId == t.id && m.createdAt == LastMessageAt(t, msgs)
  {
    forall m | m in msgs && m.threadId == t.id ensures m.createdAt <= LastMessageAt(t, msgs) {
      LastMessageAtBounds(t, msgs, m);
    }
    if exists m :: m in msgs && m.threadId == t.id {
      var m :| m in msgs && m.threadId == t.id;
      LastMessageAtAttained(t, msgs, m);
    }
  }

  lemma LastMessageAtBounds(t: ChatThread, msgs: seq<ChatMessage>, m: ChatMessage)
    requires m in msgs && m.threadId == t.id
    ensures m.createdAt <= LastMessageAt(t, msgs)
  {
    var ms := ThreadMessages(msgs, t.id);
    assert m in ms;
    var k :| 0 <= k < |ms| && ms[k] == m;
    var last := |ms| - 1;
    assert LastMessageAt(t, msgs) == ms[last].createdAt;
    if k < last {
      assert ms[k].createdAt <= ms[last].createdAt;
    }
  }

  lemma LastMessageAtAttained(t: ChatThread, msgs: seq<ChatMessage>, m: ChatMessage)
    requires m in msgs && m.threadId == t.id
    ensures exists m' :: m' in msgs && m'.threadId == t.id && m'.createdAt == LastMessageAt(t, msgs)
  {
    var ms := ThreadMessages(msgs, t.id);
    assert m in ms;
    var w := ms[|ms| - 1];
    assert w in msgs && w.threadId == t.id && w.createdAt == LastMessageAt(t, msgs);
  }

  /** `ChatMessage.has_attachments` */
  predicate HasAttachments(atts: seq<MessageAttachment>, messageId: int) {
    Count(atts, (a: MessageAttachment) => a.messageId == messageId) > 0
  }

  lemma {:induction false} HasAttachmentsIff(atts: seq<MessageAttachment>, messageId: int)
    ensures HasAttachments(atts, messageId) <==> exists a :: a in atts && a.messageId == messageId
  {
    var p := (a: MessageAttachment) => a.messageId == messageId;
    FilterCount(atts, p);
    var f := Filter(atts, p);
    if exists a :: a in atts && a.messageId == messageId {
      var a :| a in atts && a.messageId == messageId;
      var k :| 0 <= k < |atts| && atts[k] == a;
      assert atts[k] in f;
    }
    if |f| > 0 {
      assert f[0] in atts && f[0].messageId == messageId;
    }
  }
}
