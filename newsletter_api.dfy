// Newsletter subscriptions: app/db/models/newsletter.py and the two public
// routes of app/api/v1/newsletter.py.

module NewsletterApi {
  import opened Common
  import AuthApi

  datatype SubscriberStatus = Active | Unsubscribed

  /** A `newsletter_subscribers` row. */
  datatype Subscriber = Subscriber(
    id: int,
    email: String,
    status: SubscriberStatus,
    subscribedAt: Time,
    unsubscribedAt: Option<Time>,
    ipAddress: Option<String>,
    source: String)

  const DefaultSource: String := "footer"

  const AlreadySubscribed: String := "You're already subscribed to our newsletter!"
  const Resubscribed: String := "Welcome back! You've been resubscribed to our newsletter."
  const Subscribed: String := "Thank you for subscribing! You'll be the first to know about new features and updates."
  const NotOnList: String := "Email not found in our newsletter list"
  const AlreadyUnsubscribed: String := "You've already been unsubscribed from our newsletter."
  const UnsubscribedNow: String := "You've been successfully unsubscribed from our newsletter."

  /** The UNIQUE constraint on `newsletter_subscribers.email`. */
  ghost predicate UniqueEmails(subs: seq<Subscriber>) {
    forall i, j :: 0 <= i < j < |subs| ==> subs[i].email != subs[j].email
  }

  function FindSubscriber(subs: seq<Subscriber>, email: String): (r: Option<nat>)
    ensures r.Some? ==> r.value < |subs| && subs[r.value].email == email
    ensures r.None? ==> forall s :: s in subs ==> s.email != email
  {
    FindFirst(subs, (s: Subscriber) => s.email == email)
  }

  /** The address recorded with a new subscriber: the first hop of a
      non-empty X-Forwarded-For header, else the connection's host, else
      nothing. */
  function SubscriberIp(clientHost: Option<String>, forwardedFor: Option<String>): (r: Option<String>)
    ensures !TruthyStr(forwardedFor) ==> r == clientHost
    ensures TruthyStr(forwardedFor) ==> r.Some? && ',' !in r.value
  {
    if TruthyStr(forwardedFor) then Some(AuthApi.ClientIp(clientHost, forwardedFor)) else clientHost
  }

  /** The reply of both routes: `success` is always true. */
  datatype Reply = Reply(success: bool, message: String)

  /** `subscribe_newsletter` on the table. The address is lower-cased; a
      known active address changes nothing; a known unsubscribed one is
      reactivated with a fresh `subscribed_at`; a new one is inserted. */
  function Subscribe(subs: seq<Subscriber>, email: String, source: String, clientHost: Option<String>,
                     forwardedFor: Option<String>, id: int, now: Time): (r: (Reply, seq<Subscriber>))
    ensures r.0.success
    ensures |r.1| >= |subs|
    ensures FindSubscriber(r.1, Lower(email)).Some? &&
            r.1[FindSubscriber(r.1, Lower(email)).value].status == Active
    ensures forall k :: 0 <= k < |subs| && subs[k].email != Lower(email) ==> r.1[k] == subs[k]
    ensures (FindSubscriber(subs, Lower(email)).Some? && subs[FindSubscriber(subs, Lower(email)).value].status == Active)
              ==> r == (Reply(true, AlreadySubscribed), subs)
    ensures (FindSubscriber(subs, Lower(email)).Some? && subs[FindSubscriber(subs, Lower(email)).value].status == Unsubscribed)
              ==> var i := FindSubscriber(subs, Lower(email)).value;
                  r.0 == Reply(true, Resubscribed) && |r.1| == |subs|
                  && r.1[i] == subs[i].(status := Active, unsubscribedAt := None, subscribedAt := now)
                  && forall k :: 0 <= k < |subs| && k != i ==> r.1[k] == subs[k]
    ensures FindSubscriber(subs, Lower(email)).None? ==>
              r == (Reply(true, Subscribed),
                    subs + [Subscriber(id, Lower(email), Active, now, None, SubscriberIp(clientHost, forwardedFor), source)])
  {
    var key := Lower(email);
    match FindSubscriber(subs, key)
    case Some(i) =>
      if subs[i].status == Active then (Reply(true, AlreadySubscribed), subs)
      else
        var t := subs[i := subs[i].(status := Active, unsubscribedAt := None, subscribedAt := now)];
        FindFirstAgree(subs, t, (s: Subscriber) => s.email == key);
        (Reply(true, Resubscribed), t)
    case None =>
      var t := subs + [Subscriber(id, key, Active, now, None, SubscriberIp(clientHost, forwardedFor), source)];
      assert t[|subs|].email == key;
      (Reply(true, Subscribed), t)
  }

  /** Subscribing again answers "already subscribed" and changes nothing,
      whatever the case of the address. */
  lemma SubscribeIdempotent(subs: seq<Subscriber>, email: String, email2: String, source: String,
                            source2: String, clientHost: Option<String>, forwardedFor: Option<String>,
                            id: int, id2: int, now: Time, later: Time)
    requires Lower(email2) == Lower(email)
    ensures var t := Subscribe(subs, email, source, clientHost, forwardedFor, id, now).1;
            Subscribe(t, email2, source2, clientHost, forwardedFor, id2, later) == (Reply(true, AlreadySubscribed), t)
  {
  }

  /** Subscribing keeps the addresses unique and stores them lower-cased. */
  lemma SubscribeKeepsEmailsUnique(subs: seq<Subscriber>, email: String, source: String, clientHost: Option<String>,
                                   forwardedFor: Option<String>, id: int, now: Time)
    requires UniqueEmails(subs)
    ensures UniqueEmails(Subscribe(subs, email, source, clientHost, forwardedFor, id, now).1)
    ensures |Subscribe(subs, email, source, clientHost, forwardedFor, id, now).1| ==
              |subs| + (if FindSubscriber(subs, Lower(email)).None? then 1 else 0)
  {
    var key := Lower(email);
    var t := Subscribe(subs, email, source, clientHost, forwardedFor, id, now).1;
    if FindSubscriber(subs, key).None? {
      forall i, j | 0 <= i < j < |t| ensures t[i].email != t[j].email {
        if j == |subs| { assert t[i] in subs; }
      }
    }
  }

  /** `unsubscribe_newsletter` on the table: 404 for an unknown address. */
  function Unsubscribe(subs: seq<Subscriber>, email: String, now: Time): (r: Outcome<(Reply, seq<Subscriber>)>)
    ensures r.HttpError? <==> FindSubscriber(subs, Lower(email)).None?
    ensures r.HttpError? ==> r == HttpError(404, NotOnList)
    ensures r.Ok? ==> |r.value.1| == |subs| &&
                      r.value.1[FindSubscriber(subs, Lower(email)).value].status == Unsubscribed
    ensures r.Ok? ==> forall k :: 0 <= k < |subs| && subs[k].email != Lower(email) ==> r.value.1[k] == subs[k]
  {
    var key := Lower(email);
    match FindSubscriber(subs, key)
    case None => HttpError(404, NotOnList)
    case Some(i) =>
      if subs[i].status == Unsubscribed then Ok((Reply(true, AlreadyUnsubscribed), subs))
      else Ok((Reply(true, UnsubscribedNow), subs[i := subs[i].(status := Unsubscribed, unsubscribedAt := Some(now))]))
  }

  /** Leaving and coming back: after unsubscribing, subscribing again
      reactivates the same row, clears `unsubscribed_at`, and inserts
      nothing. */
  lemma ResubscribeRoundTrip(subs: seq<Subscriber>, email: String, source: String, clientHost: Option<String>,
                             forwardedFor: Option<String>, id: int, now: Time, later: Time)
    requires Unsubscribe(subs, email, now).Ok?
    ensures var t := Unsubscribe(subs, email, now).value.1;
            var i := FindSubscriber(subs, Lower(email)).value;
            var u := Subscribe(t, email, source, clientHost, forwardedFor, id, later);
            u.0 == Reply(true, Resubscribed) && |u.1| == |subs| &&
            u.1[i] == subs[i].(status := Active, unsubscribedAt := None, subscribedAt := later)
  {
    var key := Lower(email);
    var i := FindSubscriber(subs, key).value;
    var t := Unsubscribe(subs, email, now).value.1;
    FindFirstAgree(subs, t, (s: Subscriber) => s.email == key);
  }

  class NewsletterStore {
    var subscribers: seq<Subscriber>
    var nextId: int

    ghost predicate Valid()
      reads this
    {
      UniqueEmails(subscribers)
    }

    constructor()
      ensures Valid() && subscribers == [] && nextId == 1
    {
      subscribers := [];
      nextId := 1;
    }

    /** `POST /newsletter/subscribe` */
    method SubscribeRoute(email: String, source: String, clientHost: Option<String>, forwardedFor: Option<String>,
                          now: Time) returns (r: Reply)
      requires Valid()
      modifies this
      ensures Valid()
      ensures (r, subscribers) == Subscribe(old(subscribers), email, source, clientHost, forwardedFor, old(nextId), now)
      ensures nextId == old(nextId) + (if |subscribers| > |old(subscribers)| then 1 else 0)
    {
      var out := Subscribe(subscribers, email, source, clientHost, forwardedFor, nextId, now);
      SubscribeKeepsEmailsUnique(subscribers, email, source, clientHost, forwardedFor, nextId, now);
      if |out.1| > |subscribers| {
        nextId := nextId + 1;
      }
      subscribers := out.1;
      r := out.0;
    }

    /** `POST /newsletter/unsubscribe` */
    method UnsubscribeRoute(email: String, now: Time) returns (r: Outcome<Reply>)
      requires Valid()
      modifies this
      ensures Valid()
      ensures var out := Unsubscribe(old(subscribers), email, now);
              (out.HttpError? ==> r == HttpError(out.status, out.detail) && subscribers == old(subscribers)) &&
              (out.Ok? ==> r == Ok(out.value.0) && subscribers == out.value.1)
      ensures nextId == old(nextId)
    {
      var out := Unsubscribe(subscribers, email, now);
      if out.HttpError? {
        return HttpError(out.status, out.detail);
      }
      assert UniqueEmails(out.value.1) by {
        forall i, j | 0 <= i < j < |out.value.1| ensures out.value.1[i].email != out.value.1[j].email {
          assert out.value.1[i].email == subscribers[i].email && out.value.1[j].email == subscribers[j].email;
        }
      }
      subscribers := out.value.1;
      r := Ok(out.value.0);
    }
  }
}
