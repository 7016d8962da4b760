// In-app notifications of app/api/v1/notifications.py: the caller's list,
// the unread badge, marking read, deleting, and the development route that
// creates one.

module NotificationsApi {
  import opened Common
  import opened MiscModel

  const NotificationNotFound: String := "Notification not found"

  /** The stored value of a `NotificationChannel` member. */
  function ChannelValue(c: NotificationChannel): String
  {
    match c
    case Email => "email"
    case InApp => "in_app"
  }

  /** `NotificationChannel(v)`: None where Python raises ValueError. */
  function ParseChannel(v: String): (r: Option<NotificationChannel>)
    ensures r.Some? <==> v == "email" || v == "in_app"
    ensures r.Some? ==> ChannelValue(r.value) == v
  {
    if v == "email" then Some(Email)
    else if v == "in_app" then Some(InApp)
    else None
  }

  // ----------------------------------------------------------------------
  // GET /notifications/
  // ----------------------------------------------------------------------

  /** The filters of `list_notifications`: the caller's own rows, unread
      ones when asked, and the given channel when one is given. The channel
      is compared as text, so a value that names no channel matches no row. */
  predicate Listed(n: Notification, userId: int, unreadOnly: bool, channel: Option<String>)
  {
    n.userId == userId && (!unreadOnly || n.readAt.None?) &&
    (!TruthyStr(channel) || ChannelValue(n.channel) == channel.value)
  }

  /** `order_by(Notification.created_at.desc())` */
  function ByCreatedDesc(n: Notification): Key { (n.createdAt, 0) }

  /** The rows `list_notifications` returns: filtered, newest first, one page. */
  function Shown(ns: seq<Notification>, userId: int, unreadOnly: bool, channel: Option<String>,
                 skip: nat, limit: nat): seq<Notification>
  {
    Page(SortDesc(Filter(ns, (n: Notification) => Listed(n, userId, unreadOnly, channel)), ByCreatedDesc),
         skip, limit)
  }

  /** Only the caller's matching notifications are listed, newest first, at
      most `limit`; when every match fits on the first page, every match is
      listed. */
  lemma ShownSound(ns: seq<Notification>, userId: int, unreadOnly: bool, channel: Option<String>,
                   skip: nat, limit: nat)
    ensures var r := Shown(ns, userId, unreadOnly, channel, skip, limit);
      |r| <= limit &&
      (forall k :: 0 <= k < |r| ==> r[k] in ns && r[k].userId == userId && Listed(r[k], userId, unreadOnly, channel)) &&
      (forall i, j :: 0 <= i < j < |r| ==> r[i].createdAt >= r[j].createdAt)
    ensures skip == 0 && Count(ns, (n: Notification) => Listed(n, userId, unreadOnly, channel)) <= limit ==>
      forall n :: n in ns && Listed(n, userId, unreadOnly, channel) ==> n in Shown(ns, userId, unreadOnly, channel, skip, limit)
  {
    var p := (n: Notification) => Listed(n, userId, unreadOnly, channel);
    ListPageFacts(ns, p, ByCreatedDesc, skip, limit);
    var page := Shown(ns, userId, unreadOnly, channel, skip, limit);
    forall i, j | 0 <= i < j < |page| ensures page[i].createdAt >= page[j].createdAt {
      assert KeyGe(ByCreatedDesc(page[i]), ByCreatedDesc(page[j]));
    }
    if skip == 0 && Count(ns, p) <= limit {
      FirstPageComplete(ns, p, ByCreatedDesc, limit);
    }
  }

  /** `NotificationResponse` with its two computed flags. */
  datatype NotificationView = NotificationView(notification: Notification, isRead: bool, isSent: bool)

  /** `list_notifications`: one response per listed row. */
  method ListNotifications(ns: seq<Notification>, userId: int, skip: nat, limit: nat, unreadOnly: bool,
                           channel: Option<String>) returns (r: seq<NotificationView>)
    ensures var shown := Shown(ns, userId, unreadOnly, channel, skip, limit);
            |r| == |shown| && forall k :: 0 <= k < |r| ==> r[k].notification == shown[k]
    ensures forall k :: 0 <= k < |r| ==>
              (r[k].isRead <==> r[k].notification.readAt.Some?) && (r[k].isSent <==> r[k].notification.sentAt.Some?)
    ensures unreadOnly ==> forall k :: 0 <= k < |r| ==> !r[k].isRead
  {
    var shown := Shown(ns, userId, unreadOnly, channel, skip, limit);
    ShownSound(ns, userId, unreadOnly, channel, skip, limit);
    r := [];
    var k := 0;
    while k < |shown|
      invariant 0 <= k <= |shown| && |r| == k
      invariant forall j :: 0 <= j < k ==> r[j] == NotificationView(shown[j], IsRead(shown[j]), IsSent(shown[j]))
    {
      r := r + [NotificationView(shown[k], IsRead(shown[k]), IsSent(shown[k]))];
      k := k + 1;
    }
  }

  // ----------------------------------------------------------------------
  // GET /notifications/unread/count
  // ----------------------------------------------------------------------

  /** The badge counts only unread in-app notifications of the caller. */
  predicate CountsAsUnread(n: Notification, userId: int)
  {
    n.userId == userId && n.channel == InApp && n.readAt.None?
  }

  function UnreadCount(ns: seq<Notification>, userId: int): nat
  {
    Count(ns, (n: Notification) => CountsAsUnread(n, userId))
  }

  // ----------------------------------------------------------------------
  // POST /notifications/mark-read and /notifications/mark-all-read
  // ----------------------------------------------------------------------

  /** The rows the two routes select: the caller's unread rows, restricted
      to the given ids for `mark-read` (`ids` is None for `mark-all-read`). */
  predicate Selected(n: Notification, userId: int, ids: Option<seq<int>>)
  {
    n.userId == userId && n.readAt.None? && (ids.None? || n.id in ids.value)
  }

  /** A selected row gets `read_at` and status READ; any other is left alone. */
  function MarkRow(n: Notification, userId: int, ids: Option<seq<int>>, now: Time): Notification
  {
    if Selected(n, userId, ids) then n.(readAt := Some(now), status := Read) else n
  }

  /** The table after marking. */
  function Marked(ns: seq<Notification>, userId: int, ids: Option<seq<int>>, now: Time): (r: seq<Notification>)
    ensures |r| == |ns|
    ensures forall k :: 0 <= k < |r| ==> r[k] == MarkRow(ns[k], userId, ids, now)
  {
    seq(|ns|, k requires 0 <= k < |ns| => MarkRow(ns[k], userId, ids, now))
  }

  /** The loop shared by both routes, over the table in place. */
  method MarkRead(ns: seq<Notification>, userId: int, ids: Option<seq<int>>, now: Time)
    returns (r: seq<Notification>)
    ensures r == Marked(ns, userId, ids, now)
  {
    r := ns;
    var k := 0;
    while k < |r|
      invariant 0 <= k <= |r| && |r| == |ns|
      invariant forall j :: 0 <= j < k ==> r[j] == MarkRow(ns[j], userId, ids, now)
      invariant forall j :: k <= j < |r| ==> r[j] == ns[j]
    {
      if Selected(r[k], userId, ids) {
        r := r[k := r[k].(readAt := Some(now), status := Read)];
      }
      k := k + 1;
    }
  }

  /** Marking touches only the caller's rows, never un-reads a row, and
      keeps a read row's first `read_at`, so marking again changes nothing. */
  lemma MarkedOnlyOwnAndIdempotent(ns: seq<Notification>, userId: int, ids: Option<seq<int>>, now: Time, later: Time)
    ensures var r := Marked(ns, userId, ids, now);
            forall k :: 0 <= k < |ns| && ns[k].userId != userId ==> r[k] == ns[k]
    ensures var r := Marked(ns, userId, ids, now);
            forall k :: 0 <= k < |ns| && ns[k].readAt.Some? ==> r[k] == ns[k]
    ensures Marked(Marked(ns, userId, ids, now), userId, ids, later) == Marked(ns, userId, ids, now)
  {
  }

  /** After `mark-all-read` the caller's badge shows zero, and every other
      user's badge is unchanged. */
  lemma MarkAllClearsBadge(ns: seq<Notification>, userId: int, now: Time, other: int)
    requires other != userId
    ensures UnreadCount(Marked(ns, userId, None, now), userId) == 0
    ensures UnreadCount(Marked(ns, userId, None, now), other) == UnreadCount(ns, other)
  {
    var r := Marked(ns, userId, None, now);
    CountNone(r, (n: Notification) => CountsAsUnread(n, userId));
    CountAgree(r, ns, (n: Notification) => CountsAsUnread(n, other));
  }

  /** `mark-read` with a list of ids lowers the badge by at most the number
      of unread in-app rows it names, and never raises it. */
  lemma MarkReadLowersBadge(ns: seq<Notification>, userId: int, ids: seq<int>, now: Time)
    ensures UnreadCount(Marked(ns, userId, Some(ids), now), userId) <= UnreadCount(ns, userId)
    ensures (forall k :: 0 <= k < |ns| && CountsAsUnread(ns[k], userId) ==> ns[k].id !in ids) ==>
              UnreadCount(Marked(ns, userId, Some(ids), now), userId) == UnreadCount(ns, userId)
  {
    MarkedCountMono(ns, userId, Some(ids), now);
    if forall k :: 0 <= k < |ns| && CountsAsUnread(ns[k], userId) ==> ns[k].id !in ids {
      CountAgree(Marked(ns, userId, Some(ids), now), ns, (n: Notification) => CountsAsUnread(n, userId));
    }
  }

  lemma {:induction false} MarkedCountMono(ns: seq<Notification>, userId: int, ids: Option<seq<int>>, now: Time)
    ensures UnreadCount(Marked(ns, userId, ids, now), userId) <= UnreadCount(ns, userId)
  {
    if ns != [] {
      MarkedCountMono(ns[1..], userId, ids, now);
      assert Marked(ns, userId, ids, now)[1..] == Marked(ns[1..], userId, ids, now);
    }
  }

  // ----------------------------------------------------------------------
  // DELETE /notifications/{notification_id}
  // ----------------------------------------------------------------------

  /** `delete_notification`: 404 unless the row exists and is the caller's,
      so nobody deletes another user's notification. */
  function DeleteRow(ns: seq<Notification>, userId: int, id: int): (r: Outcome<seq<Notification>>)
    ensures r.HttpError? <==> forall n :: n in ns ==> !(n.id == id && n.userId == userId)
    ensures r.HttpError? ==> r == HttpError(404, NotificationNotFound)
    ensures r.Ok? ==> |r.value| == |ns| - 1 && forall n :: n in ns && n.userId != userId ==> n in r.value
    ensures r.Ok? ==> forall n :: n in r.value ==> n in ns
  {
    match FindFirst(ns, (n: Notification) => n.id == id && n.userId == userId)
    case None => HttpError(404, NotificationNotFound)
    case Some(i) =>
      var r := RemoveAt(ns, i);
      assert forall n :: n in ns && n.userId != userId ==> n in r by {
        forall n | n in ns && n.userId != userId ensures n in r {
          var j :| 0 <= j < |ns| && ns[j] == n;
          if j < i { assert r[j] == n; } else { assert j != i; assert r[j - 1] == n; }
        }
      }
      Ok(r)
  }

  // ----------------------------------------------------------------------
  // POST /notifications/test
  // ----------------------------------------------------------------------

  /** `create_test_notification`: an unknown channel raises ValueError
      inside the handler, a 500. The row is created SENT, sent now. */
  function CreateTest(id: int, userId: int, kind: String, channel: String, now: Time): (r: Outcome<Notification>)
    ensures r.Ok? <==> channel == "email" || channel == "in_app"
    ensures r.HttpError? ==> r == HttpError(500, InternalError)
    ensures r.Ok? ==> r.value.userId == userId && r.value.status == Sent && IsSent(r.value) &&
                      !IsRead(r.value) && ChannelValue(r.value.channel) == channel
  {
    match ParseChannel(channel)
    case None => HttpError(500, InternalError)
    case Some(c) => Ok(Notification(id, userId, kind, c, Sent, Some(now), None, now))
  }

  // ----------------------------------------------------------------------
  // The notifications table
  // ----------------------------------------------------------------------

  class NotificationStore {
    var notifications: seq<Notification>
    var nextId: int

    constructor()
      ensures notifications == [] && nextId == 1
    {
      notifications := [];
      nextId := 1;
    }

    /** `POST /notifications/mark-read` */
    method MarkSelectedRead(userId: int, ids: seq<int>, now: Time)
      modifies this
      ensures notifications == Marked(old(notifications), userId, Some(ids), now)
      ensures nextId == old(nextId)
    {
      notifications := MarkRead(notifications, userId, Some(ids), now);
    }

    /** `POST /notifications/mark-all-read` */
    method MarkAllRead(userId: int, now: Time)
      modifies this
      ensures notifications == Marked(old(notifications), userId, None, now)
      ensures UnreadCount(notifications, userId) == 0
      ensures nextId == old(nextId)
    {
      notifications := MarkRead(notifications, userId, None, now);
      MarkAllClearsBadge(old(notifications), userId, now, userId + 1);
    }

    /** `DELETE /notifications/{notification_id}` */
    method DeleteNotification(userId: int, id: int) returns (r: Outcome<()>)
      modifies this
      ensures var out := DeleteRow(old(notifications), userId, id);
              (out.HttpError? ==> r == HttpError(out.status, out.detail) && notifications == old(notifications)) &&
              (out.Ok? ==> r == Ok(()) && notifications == out.value)
      ensures nextId == old(nextId)
    {
      var out := DeleteRow(notifications, userId, id);
      if out.HttpError? {
        return HttpError(out.status, out.detail);
      }
      notifications := out.value;
      r := Ok(());
    }

    /** `POST /notifications/test` */
    method CreateTestNotification(userId: int, kind: String, channel: String, now: Time)
      returns (r: Outcome<NotificationView>)
      modifies this
      ensures var out := CreateTest(old(nextId), userId, kind, channel, now);
              (out.HttpError? ==> r == HttpError(out.status, out.detail) && notifications == old(notifications) &&
                                  nextId == old(nextId)) &&
              (out.Ok? ==> notifications == old(notifications) + [out.value] && nextId == old(nextId) + 1 &&
                           r == Ok(NotificationView(out.value, false, true)))
    {
      var out := CreateTest(nextId, userId, kind, channel, now);
      if out.HttpError? {
        return HttpError(out.status, out.detail);
      }
      notifications := notifications + [out.value];
      nextId := nextId + 1;
      r := Ok(NotificationView(out.value, false, true));
    }
  }
}
