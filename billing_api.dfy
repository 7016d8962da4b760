/** The billing router (app/api/v1/billing.py): the plan listing with its
    price text, checkout, the current subscription with its renewal days,
    cancellation, the portal, payment history, invoices and the Stripe
    webhook. */
module BillingApi {
  import opened Common
  import opened BillingModel
  import opened BillingService
  import UserModel

  const CheckoutRoutePrefix: String := "Error creating checkout: "
  const CancelRoutePrefix: String := "Error canceling subscription: "
  const PortalRoutePrefix: String := "Error creating portal session: "
  const InvoicesRoutePrefix: String := "Error fetching invoices: "
  const WebhookFailed: String := "Webhook processing failed"
  const InvalidPayload: String := "Invalid payload"
  const InvalidSignature: String := "Invalid signature"
  /** What Python says when `subscription.plan` is None and `.name` is read. */
  const NoPlanAttribute: String := "'NoneType' object has no attribute 'name'"

  // ---------------------------------------------------------------------
  // Amounts as text
  // ---------------------------------------------------------------------

  function TwoDigits(d: nat): (s: String)
    requires d < 100
    ensures |s| == 2 && AllDigits(s) && DigitsValue(s) == d
  {
    var s := [DigitChar(d / 10), DigitChar(d % 10)];
    var first := s[..1];
    assert first[..0] == [];
    assert DigitsValue(first) == d / 10;
    assert s[..|s| - 1] == first;
    s
  }

  /** `f"{cents / 100:.2f}"`: the whole units, a point and two digits, with
      a leading minus for a negative amount. */
  function CentsText(cents: int): String {
    var a := if cents < 0 then -cents else cents;
    (if cents < 0 then "-" else "") + NatToString(a / 100) + "." + TwoDigits(a % 100)
  }

  /** Reading the text back gives the amount: the digits before the point
      are the whole units, the two after it the cents. */
  lemma {:induction false} CentsTextValue(cents: nat)
    ensures var s := CentsText(cents);
            |s| >= 4 && s[|s| - 3] == '.' && AllDigits(s[..|s| - 3]) && AllDigits(s[|s| - 2..])
            && DigitsValue(s[..|s| - 3]) * 100 + DigitsValue(s[|s| - 2..]) == cents
  {
    var w := NatToString(cents / 100);
    var f := TwoDigits(cents % 100);
    var s := CentsText(cents);
    assert s == w + "." + f;
    assert s[..|s| - 3] == w;
    assert s[|s| - 2..] == f;
    DigitsValueOfNat(cents / 100);
  }

  /** A negative amount is its opposite with a minus in front. */
  lemma CentsTextNegative(cents: int)
    requires cents < 0
    ensures CentsText(cents) == "-" + CentsText(-cents)
  {
  }

  /** The stored value of a billing interval. */
  function IntervalName(i: BillingInterval): (s: String)
    ensures s == "monthly" <==> i == MonthlyInterval
  {
    match i
    case MonthlyInterval => "monthly"
    case YearlyInterval => "yearly"
  }

  /** `price_display` of a plan: "$25.00/monthly". */
  function PriceDisplay(p: SubscriptionPlan): String {
    "$" + CentsText(p.priceCents) + "/" + IntervalName(p.interval)
  }

  /** `amount_display` of a payment: "$12.50 USD". */
  function AmountDisplay(p: Payment): String {
    "$" + CentsText(p.amountCents) + " " + p.currency
  }

  /** The price text starts with the dollar sign and ends with the interval. */
  lemma PriceDisplayShape(p: SubscriptionPlan)
    ensures StartsWith(PriceDisplay(p), "$")
    ensures EndsWith(PriceDisplay(p), "/" + IntervalName(p.interval))
  {
    var d := PriceDisplay(p);
    var tail := "/" + IntervalName(p.interval);
    assert d == "$" + (CentsText(p.priceCents) + tail);
    assert d == ("$" + CentsText(p.priceCents)) + tail;
    assert d[|d| - |tail|..] == tail;
  }

  // ---------------------------------------------------------------------
  // Plans
  // ---------------------------------------------------------------------

  datatype PlanView = PlanView(plan: SubscriptionPlan, intervalName: String, priceDisplay: String)

  function ViewOfPlan(p: SubscriptionPlan): PlanView {
    PlanView(p, IntervalName(p.interval), PriceDisplay(p))
  }

  /** `list_plans`: one view per active plan, in the table's order. */
  method ListPlansRoute(plans: seq<SubscriptionPlan>) returns (r: seq<PlanView>)
    ensures |r| == |ActivePlans(plans)|
    ensures forall k :: 0 <= k < |r| ==> r[k] == ViewOfPlan(ActivePlans(plans)[k])
    ensures forall k :: 0 <= k < |r| ==> r[k].plan in plans && r[k].plan.isActive
  {
    var active := ActivePlans(plans);
    r := [];
    var k := 0;
    while k < |active|
      invariant 0 <= k <= |active|
      invariant |r| == k
      invariant forall j :: 0 <= j < k ==> r[j] == ViewOfPlan(active[j])
    {
      var v := ViewOfPlan(active[k]);
      r := r + [v];
      k := k + 1;
    }
    forall k | 0 <= k < |r| ensures r[k].plan in plans && r[k].plan.isActive {
      assert r[k].plan == active[k];
      assert active[k] in active;
    }
  }

  // ---------------------------------------------------------------------
  // Checkout and portal
  // ---------------------------------------------------------------------

  /** `create_checkout`: the service's refusals (ValueError) are 400s with
      their message; a Stripe failure is a 500. */
  function CheckoutRoute(users: seq<UserModel.User>, plans: seq<SubscriptionPlan>, subs: seq<Subscription>,
                         userId: int, planId: int, loungeId: Option<int>, successUrl: String, cancelUrl: String,
                         stripe: CheckoutRequest -> Result<CheckoutSession>): (r: Outcome<CheckoutSession>)
    ensures r.HttpError? && r.status == 400 <==> CheckoutRefusal(users, plans, subs, userId, planId).Some?
    ensures r.HttpError? && r.status == 400 ==> Some(r.detail) == CheckoutRefusal(users, plans, subs, userId, planId)
    ensures r.HttpError? && r.status != 400 ==>
              r.status == 500 && StartsWith(r.detail, CheckoutRoutePrefix + CheckoutFailed)
    ensures r.Ok? ==>
              stripe(PlanCheckoutRequest(plans[FindActivePlan(plans, planId).value], userId, planId, loungeId,
                                         successUrl, cancelUrl)) == Success(r.value)
  {
    match CreateCheckoutSession(users, plans, subs, userId, planId, loungeId, successUrl, cancelUrl, stripe)
    case Done(session) => Ok(session)
    case Rejected(reason) => HttpError(400, reason)
    case Raised(message) =>
      assert StartsWith(CheckoutRoutePrefix + message, CheckoutRoutePrefix + CheckoutFailed) by {
        assert (CheckoutRoutePrefix + message)[..|CheckoutRoutePrefix + CheckoutFailed|]
            == CheckoutRoutePrefix + message[..|CheckoutFailed|];
      }
      HttpError(500, CheckoutRoutePrefix + message)
  }

  /** `create_portal_session`: every failure, the unknown user included, is
      a 500 carrying the service's message. */
  function PortalRoute(users: seq<UserModel.User>, userId: int, stripe: Result<String>): (r: Outcome<String>)
    ensures r.Ok? <==> (exists u :: u in users && u.id == userId) && stripe.Success?
    ensures r.Ok? ==> r.value == stripe.value
    ensures r.HttpError? ==> r.status == 500
    ensures (forall u :: u in users ==> u.id != userId) ==> r == HttpError(500, PortalRoutePrefix + UserNotFound)
  {
    match CreatePortalSession(users, userId, stripe)
    case Done(url) => Ok(url)
    case Rejected(reason) => HttpError(500, PortalRoutePrefix + reason)
    case Raised(message) => HttpError(500, PortalRoutePrefix + message)
  }

  // ---------------------------------------------------------------------
  // The current subscription
  // ---------------------------------------------------------------------

  datatype SubscriptionView = SubscriptionView(
    subscription: Subscription,
    planName: String,
    planPriceCents: int,
    intervalName: String,
    isActive: bool,
    daysUntilRenewal: Option<int>)

  /** `subscription.plan`: the plan row the subscription points at. */
  function PlanById(plans: seq<SubscriptionPlan>, planId: int): (r: Option<SubscriptionPlan>)
    ensures r.Some? ==> r.value in plans && r.value.id == planId
    ensures r.None? ==> forall p :: p in plans ==> p.id != planId
  {
    match FindFirst(plans, (p: SubscriptionPlan) => p.id == planId)
    case None => None
    case Some(i) => Some(plans[i])
  }

  /** `max(0, delta.days)`: whole days to the renewal, floored, never negative. */
  function RenewalDays(renewsAt: Time, now: Time): (d: int)
    ensures d >= 0
    ensures renewsAt - now >= 0 ==> d * SecondsPerDay <= renewsAt - now < (d + 1) * SecondsPerDay
    ensures renewsAt - now < SecondsPerDay ==> d == 0
  {
    Max(0, DaysOf(renewsAt - now))
  }

  /** `get_subscription`: None without an active subscription; a missing
      plan row makes `plan.name` raise, which the application answers with
      a 500. */
  function GetSubscriptionRoute(subs: seq<Subscription>, plans: seq<SubscriptionPlan>, userId: int, now: Time)
    : (r: Outcome<Option<SubscriptionView>>)
  {
    match UserSubscription(subs, userId)
    case None => Ok(None)
    case Some(i) =>
      var s := subs[i];
      match PlanById(plans, s.planId)
      case None => HttpError(500, InternalError)
      case Some(p) =>
        Ok(Some(SubscriptionView(s, p.name, p.priceCents, IntervalName(p.interval), StatusIsActive(s.status),
                                 Some(RenewalDays(s.renewsAt, now)))))
  }

  /** The route shows the user's active subscription, always as active, and
      its renewal days agree with the model's `days_until_renewal`. */
  lemma GetSubscriptionAgrees(subs: seq<Subscription>, plans: seq<SubscriptionPlan>, userId: int, now: Time)
    ensures GetSubscriptionRoute(subs, plans, userId, now) == Ok(None) <==>
              forall s :: s in subs ==> !ActiveSubscriptionOf(s, userId)
    ensures GetSubscriptionRoute(subs, plans, userId, now).HttpError? ==>
              UserSubscription(subs, userId).Some?
              && forall p :: p in plans ==> p.id != subs[UserSubscription(subs, userId).value].planId
    ensures var r := GetSubscriptionRoute(subs, plans, userId, now);
            r.Ok? && r.value.Some? ==>
              var v := r.value.value;
              v.subscription in subs && v.subscription.userId == userId
              && v.isActive
              && v.daysUntilRenewal == Some(SubscriptionDaysUntilRenewal(v.subscription, now) as int)
  {
    match UserSubscription(subs, userId)
    case None =>
    case Some(i) =>
      assert subs[i] in subs;
  }

  // ---------------------------------------------------------------------
  // Cancellation
  // ---------------------------------------------------------------------

  /** `cancel_subscription`: no active subscription is a 404, a Stripe
      failure a 500; the answer reports the subscription as inactive and
      leaves the renewal days out. */
  method CancelRoute(store: BillingStore, userId: int, immediate: bool, stripeError: Option<String>, now: Time)
    returns (r: Outcome<SubscriptionView>)
    requires store.Valid()
    modifies store
    ensures store.Valid()
    ensures r == HttpError(404, NoActiveSubscription) <==> UserSubscription(old(store.subscriptions), userId).None?
    ensures r.Ok? ==> !r.value.isActive && r.value.daysUntilRenewal.None?
    ensures r.Ok? ==> r.value.subscription.userId == userId && r.value.subscription in store.subscriptions
    ensures r.Ok? && !immediate ==>
              StatusIsActive(r.value.subscription.status)
              && r.value.subscription.canceledAt == Some(r.value.subscription.renewsAt)
    ensures r.Ok? && immediate ==> r.value.subscription.status == Canceled
    ensures r.HttpError? ==> r.status == 404 || (r.status == 500 && StartsWith(r.detail, CancelRoutePrefix))
    ensures store.plans == old(store.plans) && store.payments == old(store.payments)
  {
    var res := store.CancelSubscription(userId, immediate, stripeError, now);
    match res
    case Rejected(reason) =>
      r := HttpError(404, reason);
    case Raised(message) =>
      r := HttpError(500, CancelRoutePrefix + message);
    case Done(s) =>
      var i := UserSubscription(old(store.subscriptions), userId).value;
      assert store.subscriptions[i] == s;
      match PlanById(store.plans, s.planId)
      case None =>
        r := HttpError(500, CancelRoutePrefix + NoPlanAttribute);
      case Some(p) =>
        r := Ok(SubscriptionView(s, p.name, p.priceCents, IntervalName(p.interval), false, None));
  }

  // ---------------------------------------------------------------------
  // Payment history
  // ---------------------------------------------------------------------

  datatype PaymentView = PaymentView(payment: Payment, amountDisplay: String)

  /** `list_payments`: the user's history, newest first, each with its
      amount as text. */
  method ListPaymentsRoute(payments: seq<Payment>, userId: int, limit: nat) returns (r: seq<PaymentView>)
    ensures |r| == |PaymentHistory(payments, userId, limit)| && |r| <= limit
    ensures forall k :: 0 <= k < |r| ==>
              r[k].payment == PaymentHistory(payments, userId, limit)[k]
              && r[k].amountDisplay == AmountDisplay(r[k].payment)
    ensures forall k :: 0 <= k < |r| ==> r[k].payment in payments && r[k].payment.userId == userId
  {
    var history := PaymentHistory(payments, userId, limit);
    r := [];
    var k := 0;
    while k < |history|
      invariant 0 <= k <= |history|
      invariant |r| == k
      invariant forall j :: 0 <= j < k ==> r[j] == PaymentView(history[j], AmountDisplay(history[j]))
    {
      var v := PaymentView(history[k], AmountDisplay(history[k]));
      r := r + [v];
      k := k + 1;
    }
    forall k | 0 <= k < |r| ensures r[k].payment in payments && r[k].payment.userId == userId {
      assert history[k] in history;
    }
  }

  // ---------------------------------------------------------------------
  // Invoices
  // ---------------------------------------------------------------------

  datatype Invoice = Invoice(
    id: String,
    number: Option<String>,
    amountDue: int,
    amountPaid: int,
    currency: String,
    status: Option<String>,
    created: Time,
    invoicePdf: Option<String>,
    hostedInvoiceUrl: Option<String>)

  /** What `stripe.Invoice.list` gives back. */
  datatype InvoiceListing = Listed(invoices: seq<Invoice>) | InvalidRequest(message: String) | StripeFailed(message: String)

  /** A real Stripe subscription id starts with "sub_" and has at least 20
      characters; anything else is taken for a placeholder. */
  predicate LooksLikeStripeId(id: String) { StartsWith(id, "sub_") && |id| >= 20 }

  /** One entry of the answer: the invoice with its currency upper-cased. */
  function InvoiceView(i: Invoice): Invoice { i.(currency := Upper(i.currency)) }

  /** `list_invoices`: nothing without an active subscription with a real
      Stripe id, nothing when Stripe refuses the request, a 500 for any other
      Stripe failure, else the invoices Stripe lists. */
  method ListInvoicesRoute(subs: seq<Subscription>, userId: int, limit: int,
                           stripe: (String, int) -> InvoiceListing) returns (r: Outcome<seq<Invoice>>)
    ensures UserSubscription(subs, userId).None? ==> r == Ok([])
    ensures (UserSubscription(subs, userId).Some? &&
             !LooksLikeStripeId(subs[UserSubscription(subs, userId).value].stripeSubscriptionId)) ==> r == Ok([])
    ensures (UserSubscription(subs, userId).Some? &&
             LooksLikeStripeId(subs[UserSubscription(subs, userId).value].stripeSubscriptionId)) ==>
              var listing := stripe(subs[UserSubscription(subs, userId).value].stripeSubscriptionId, limit);
              (listing.InvalidRequest? ==> r == Ok([]))
              && (listing.StripeFailed? ==> r == HttpError(500, InvoicesRoutePrefix + listing.message))
              && (listing.Listed? ==>
                    r.Ok? && |r.value| == |listing.invoices|
                    && forall k :: 0 <= k < |r.value| ==>
                         r.value[k].id == listing.invoices[k].id
                         && r.value[k].amountDue == listing.invoices[k].amountDue
                         && r.value[k].amountPaid == listing.invoices[k].amountPaid
                         && r.value[k].currency == Upper(listing.invoices[k].currency)
                         && r.value[k] == InvoiceView(listing.invoices[k]))
  {
    var found := UserSubscription(subs, userId);
    if found.None? || subs[found.value].stripeSubscriptionId == [] {
      return Ok([]);
    }
    var id := subs[found.value].stripeSubscriptionId;
    if !StartsWith(id, "sub_") || |id| < 20 {
      return Ok([]);
    }
    match stripe(id, limit)
    case InvalidRequest(_) =>
      r := Ok([]);
    case StripeFailed(message) =>
      r := HttpError(500, InvoicesRoutePrefix + message);
    case Listed(invoices) =>
      var views := [];
      var k := 0;
      while k < |invoices|
        invariant 0 <= k <= |invoices|
        invariant |views| == k
        invariant forall j :: 0 <= j < k ==> views[j] == InvoiceView(invoices[j])
      {
        var v := InvoiceView(invoices[k]);
        views := views + [v];
        k := k + 1;
      }
      r := Ok(views);
  }

  // ---------------------------------------------------------------------
  // The webhook
  // ---------------------------------------------------------------------

  /** The `data.object` of an event, in the shapes the handlers read. */
  datatype StripeObject =
    | SessionObject(session: CheckoutSessionObject)
    | SubscriptionObject(subscription: StripeSubscription)
    | IntentObject(intent: PaymentIntent)
    | OtherObject

  /** What `stripe.Webhook.construct_event` makes of a request. */
  datatype Delivery =
    | BadPayload
    | BadSignature
    | Delivered(kind: String, data: StripeObject)

  const CheckoutCompletedKind: String := "checkout.session.completed"
  const SubscriptionUpdatedKind: String := "customer.subscription.updated"
  const SubscriptionDeletedKind: String := "customer.subscription.deleted"
  const PaymentSucceededKind: String := "payment_intent.succeeded"

  datatype Handler =
    | PlanCheckoutHandler
    | LoungeCheckoutHandler
    | PlanUpdateHandler
    | LoungeUpdateHandler
    | PaymentHandler

  /** The handlers `stripe_webhook` runs for an event type as written. */
  function HandlersAsWritten(kind: String): seq<Handler> {
    if kind == CheckoutCompletedKind then [PlanCheckoutHandler]
    else if kind == SubscriptionUpdatedKind || kind == SubscriptionDeletedKind then [PlanUpdateHandler]
    else if kind == PaymentSucceededKind then [PaymentHandler]
    else []
  }

  /** As written no lounge handler is ever run, whatever the event. */
  lemma NoLoungeHandlerAsWritten(kind: String)
    ensures LoungeCheckoutHandler !in HandlersAsWritten(kind)
    ensures LoungeUpdateHandler !in HandlersAsWritten(kind)
  {
  }

  /** A lounge checkout's session carries `subscription_type: lounge`. */
  predicate IsLoungeSession(s: CheckoutSessionObject) {
    "subscription_type" in s.metadata && s.metadata["subscription_type"] == "lounge"
  }

  /** The handlers the webhook runs as evidently intended: a lounge
      checkout goes to the lounge handler, and a subscription change is
      applied to whichever table holds the Stripe id. */
  function Handlers(kind: String, data: StripeObject): (r: seq<Handler>)
    ensures kind != CheckoutCompletedKind ==> r == HandlersAsWritten(kind) || r == [PlanUpdateHandler, LoungeUpdateHandler]
  {
    if kind == CheckoutCompletedKind then
      if data.SessionObject? && IsLoungeSession(data.session) then [LoungeCheckoutHandler]
      else [PlanCheckoutHandler]
    else if kind == SubscriptionUpdatedKind || kind == SubscriptionDeletedKind then
      [PlanUpdateHandler, LoungeUpdateHandler]
    else HandlersAsWritten(kind)
  }

  /** The session of a lounge checkout, as the lounge checkout route builds it. */
  function LoungeSession(userId: int, loungeId: int, planType: String, subscriptionId: String): CheckoutSessionObject {
    CheckoutSessionObject(LoungeCheckoutMetadata(userId, loungeId, planType), subscriptionId)
  }

  /** As written a completed lounge checkout reaches the plan handler, which
      cannot read a plan id from its metadata: the handler raises, no lounge
      subscription is written and the webhook answers 500. */
  lemma LoungeCheckoutLostAsWritten(userId: int, loungeId: int, planType: String, subscriptionId: String,
                                    subs: seq<Subscription>, retrieved: Result<StripeSubscription>, id: int)
    ensures HandlersAsWritten(CheckoutCompletedKind) == [PlanCheckoutHandler]
    ensures PlanCheckoutRow(subs, LoungeSession(userId, loungeId, planType, subscriptionId), retrieved, id).Failure?
  {
    PlanHandlerRejectsLoungeMetadata(userId, loungeId, planType);
  }

  /** Routed as intended, the same session reaches the lounge handler, which
      reads back the user, the lounge and the plan the checkout was made for. */
  lemma LoungeCheckoutRouted(userId: int, loungeId: int, planType: String, subscriptionId: String)
    requires planType == "monthly" || planType == "yearly"
    ensures Handlers(CheckoutCompletedKind, SessionObject(LoungeSession(userId, loungeId, planType, subscriptionId)))
            == [LoungeCheckoutHandler]
    ensures ParseLoungeCheckout(LoungeSession(userId, loungeId, planType, subscriptionId).metadata)
            == Some(LoungeCheckoutIds(userId, loungeId, PlanTypeOf(planType)))
  {
    LoungeCheckoutRoundTrip(userId, loungeId, planType);
    var m := LoungeCheckoutMetadata(userId, loungeId, planType);
    assert "subscription_type" in m && m["subscription_type"] == "lounge";
  }

  /** As written, a bad payload or signature raises a 400 inside the route's
      `try`; its `except Exception` turns it into a 500. */
  function VerifyAsWritten(d: Delivery): (r: Option<Outcome<String>>)
    ensures r.Some? <==> !d.Delivered?
  {
    if d.Delivered? then None else Some(HttpError(500, WebhookFailed))
  }

  /** A forged request is answered like a failure of ours, which Stripe retries. */
  lemma BadSignatureIs500AsWritten()
    ensures VerifyAsWritten(BadSignature) == Some(HttpError(500, WebhookFailed))
    ensures VerifyAsWritten(BadPayload) == Some(HttpError(500, WebhookFailed))
  {
  }

  const WebhookAccepted: String := "success"

  /** `stripe_webhook` as evidently intended: a bad payload or signature is a
      400; a handler that raises is a 500; any other event is acknowledged.
      `retrieved` is Stripe's answer to the subscription lookup a checkout
      handler makes. */
  method StripeWebhook(store: BillingStore, d: Delivery, retrieved: Result<StripeSubscription>,
                       users: seq<UserModel.User>, now: Time)
    returns (r: Outcome<String>)
    requires store.Valid()
    modifies store
    ensures store.Valid()
    ensures d == BadPayload ==> r == HttpError(400, InvalidPayload)
    ensures d == BadSignature ==> r == HttpError(400, InvalidSignature)
    ensures r.HttpError? ==> r.status == 400 || r == HttpError(500, WebhookFailed)
    ensures r.Ok? ==> r.value == WebhookAccepted
    ensures !d.Delivered? || Handlers(d.kind, d.data) == [] ==>
              store.subscriptions == old(store.subscriptions) && store.payments == old(store.payments)
              && store.loungeSubscriptions == old(store.loungeSubscriptions)
              && store.memberships == old(store.memberships)
    ensures d.Delivered? && Handlers(d.kind, d.data) == [] ==> r == Ok(WebhookAccepted)
    ensures d.Delivered? && Handlers(d.kind, d.data) == [LoungeCheckoutHandler] ==>
              (r.Ok? <==>
                 LoungeCheckoutRow(old(store.loungeSubscriptions), d.data.session, retrieved, old(store.nextId), now).Success?)
              && (r.Ok? ==>
                    store.loungeSubscriptions ==
                      old(store.loungeSubscriptions)
                      + [LoungeCheckoutRow(old(store.loungeSubscriptions), d.data.session, retrieved,
                                           old(store.nextId), now).value])
              && store.subscriptions == old(store.subscriptions)
    ensures d.Delivered? && Handlers(d.kind, d.data) == [PlanCheckoutHandler] && d.data.SessionObject? ==>
              (r.Ok? <==> PlanCheckoutRow(old(store.subscriptions), d.data.session, retrieved, old(store.nextId)).Success?)
              && (r.Ok? ==>
                    store.subscriptions ==
                      old(store.subscriptions)
                      + [PlanCheckoutRow(old(store.subscriptions), d.data.session, retrieved, old(store.nextId)).value.0])
              && store.loungeSubscriptions == old(store.loungeSubscriptions)
    ensures d.Delivered? && Handlers(d.kind, d.data) == [PlanUpdateHandler, LoungeUpdateHandler] &&
            d.data.SubscriptionObject? ==>
              r == Ok(WebhookAccepted)
              && store.subscriptions == UpdateSubscriptions(old(store.subscriptions), d.data.subscription)
              && (store.loungeSubscriptions, store.memberships) ==
                   UpdateLoungeSubscriptions(old(store.loungeSubscriptions), old(store.memberships),
                                             d.data.subscription, now)
    ensures d.Delivered? && Handlers(d.kind, d.data) == [PaymentHandler] ==> r == Ok(WebhookAccepted)
    ensures d.Delivered? && Handlers(d.kind, d.data) != [] && d.data.OtherObject? ==>
              r == HttpError(500, WebhookFailed) || Handlers(d.kind, d.data) == [PaymentHandler]
  {
    if d == BadPayload {
      return HttpError(400, InvalidPayload);
    }
    if d == BadSignature {
      return HttpError(400, InvalidSignature);
    }
    var handlers := Handlers(d.kind, d.data);
    if handlers == [LoungeCheckoutHandler] {
      var res := store.HandleLoungeCheckoutCompleted(d.data.session, retrieved, now);
      r := if res.Success? then Ok(WebhookAccepted) else HttpError(500, WebhookFailed);
    } else if handlers == [PlanCheckoutHandler] {
      if !d.data.SessionObject? {
        return HttpError(500, WebhookFailed);
      }
      var res := store.HandleCheckoutCompleted(d.data.session, retrieved, now);
      r := if res.Success? then Ok(WebhookAccepted) else HttpError(500, WebhookFailed);
    } else if handlers == [PlanUpdateHandler, LoungeUpdateHandler] {
      if !d.data.SubscriptionObject? {
        return HttpError(500, WebhookFailed);
      }
      var _ := store.HandleSubscriptionUpdated(d.data.subscription);
      var _ := store.HandleLoungeSubscriptionUpdated(d.data.subscription, now);
      r := Ok(WebhookAccepted);
    } else if handlers == [PaymentHandler] {
      if d.data.IntentObject? {
        var _ := store.HandlePaymentSucceeded(d.data.intent, users, now);
      }
      r := Ok(WebhookAccepted);
    } else {
      r := Ok(WebhookAccepted);
    }
  }
}
