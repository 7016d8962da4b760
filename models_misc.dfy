/** Notifications, static pages, FAQs and compliance requests as declared in
    app/db/models/misc.py. */
module MiscModel {
  import opened Common

  datatype NotificationChannel = Email | InApp
  datatype NotificationStatus = Queued | Sent | Read

  /** The stored values of NotificationStatus: exactly three. */
  function NotificationStatusValue(s: NotificationStatus): String {
    match s
    case Queued => "queued"
    case Sent => "sent"
    case Read => "read"
  }

  /** `NotificationStatus(v)`: None where Python raises ValueError. */
  function ParseNotificationStatus(v: String): (r: Option<NotificationStatus>)
    ensures r.Some? ==> NotificationStatusValue(r.value) == v
  {
    if v == "queued" then Some(Queued)
    else if v == "sent" then Some(Sent)
    else if v == "read" then Some(Read)
    else None
  }

  /** The enumeration has exactly the values queued, sent and read. */
  lemma NotificationStatusValues(v: String, s: NotificationStatus)
    ensures ParseNotificationStatus(v).Some? <==> v in {"queued", "sent", "read"}
    ensures ParseNotificationStatus(NotificationStatusValue(s)) == Some(s)
  {
  }

  datatype Notification = Notification(
    id: int,
    userId: int,
    kind: String,
    channel: NotificationChannel,
    status: NotificationStatus,
    sentAt: Option<Time>,
    readAt: Option<Time>,
    createdAt: Time)

  function NewNotification(id: int, userId: int, kind: String, channel: NotificationChannel, now: Time): (n: Notification)
    ensures n.status == Queued && !IsRead(n) && !IsSent(n)
    ensures n.userId == userId && n.channel == channel
  {
    Notification(id, userId, kind, channel, Queued, None, None, now)
  }

  /** `Notification.is_read` */
  predicate IsRead(n: Notification) { n.readAt.Some? }

  /** `Notification.is_sent` */
  predicate IsSent(n: Notification) { n.sentAt.Some? }

  datatype StaticPage = StaticPage(
    id: int,
    slug: String,
    title: String,
    content: String,
    isPublished: bool,
    updatedAt: Time)

  datatype Faq = Faq(id: int, category: String, question: String, answer: String, sortOrder: int)

  datatype RequestType = Export | Delete
  datatype RequestStatus = Pending | Processing | Done | Rejected

  datatype ComplianceRequest = ComplianceRequest(id: int, userId: int, requestType: RequestType,
                                                 status: RequestStatus, createdAt: Time)

  function NewComplianceRequest(id: int, userId: int, t: RequestType, now: Time): (c: ComplianceRequest)
    ensures c.status == Pending && !IsComplete(c)
  {
    ComplianceRequest(id, userId, t, Pending, now)
  }

  /** `ComplianceRequest.is_complete`: DONE or REJECTED. */
  predicate IsComplete(c: ComplianceRequest) { c.status == Done || c.status == Rejected }

  /** A request is complete exactly when it has left the two working states. */
  lemma CompleteIffFinished(c: ComplianceRequest)
    ensures IsComplete(c) <==> c.status !in {Pending, Processing}
  {
  }
}
