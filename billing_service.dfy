/** Stripe billing (app/services/billing_service.py): plan subscriptions,
    per-lounge subscriptions, and the payments Stripe reports. Stripe is
    outside the model; each call into it is a parameter holding what it
    returned or the error it raised. */
module BillingService {
  import opened Common
  import opened BillingModel
  import opened LoungeModel
  import UserModel

  // ---------------------------------------------------------------------
  // Outcomes and messages
  // ---------------------------------------------------------------------

  /** How a service call ends: with a value, with a `ValueError` (which the
      routers answer with 400 or 404), or with any other exception (500). */
  datatype Attempt<T> = Done(value: T) | Rejected(reason: String) | Raised(message: String)

  const UserNotFound: String := "User not found"
  const PlanNotFound: String := "Plan not found or inactive"
  const AlreadySubscribed: String := "User already has an active subscription"
  const NoActiveSubscription: String := "No active subscription found"
  const LoungeNotFound: String := "Lounge not found"
  const NotAPaidLounge: String := "Lounge is not a paid lounge"
  const NoStripeProduct: String := "Lounge does not have Stripe product configured"
  const InvalidPlanType: String := "Invalid plan type. Must be 'monthly' or 'yearly'"
  const AlreadySubscribedToLounge: String := "User already has an active subscription to this lounge"
  const NoActiveLoungeSubscription: String := "No active subscription found for this lounge"
  const AlreadyYearly: String := "Subscription is already on yearly plan. Cannot downgrade to monthly."
  const NoYearlyPrice: String := "Lounge does not have yearly price configured"

  const CheckoutFailed: String := "Failed to create checkout session: "
  const PortalFailed: String := "Failed to create portal session: "
  const CancelFailed: String := "Failed to cancel subscription: "
  const UpgradeFailed: String := "Failed to upgrade subscription: "
  const ProductFailed: String := "Failed to create Stripe product for lounge: "

  /** Stand-ins for exceptions whose text the model does not reproduce: a
      missing or unparsable metadata value or Stripe field (KeyError,
      ValueError, TypeError), and an insert the database refuses (a
      duplicate unique column or a NULL in a NOT NULL one). */
  const MalformedEvent: String := "malformed Stripe object"
  const RowRefused: String := "row refused by the database"

  function MissingPrice(planType: String): String {
    "Lounge does not have " + planType + " price configured"
  }

  // ---------------------------------------------------------------------
  // Stripe status names
  // ---------------------------------------------------------------------

  /** The name Stripe gives each status the model keeps. */
  function StripeStatusName(s: SubscriptionStatus): String {
    match s
    case Trialing => "trialing"
    case Active => "active"
    case PastDue => "past_due"
    case Canceled => "canceled"
  }

  /** `status_map.get(subscription.get('status'), CANCELED)`: "unpaid" counts
      as past due, and any status the map does not list, or none, as canceled. */
  function StatusMap(status: Option<String>): (s: SubscriptionStatus)
    ensures s == Active <==> status == Some("active")
    ensures s == Trialing <==> status == Some("trialing")
    ensures s == PastDue <==> status == Some("past_due") || status == Some("unpaid")
    ensures s == Canceled <==>
              !(status.Some? && status.value in {"active", "trialing", "past_due", "unpaid"})
    ensures StatusIsActive(s) <==> status == Some("active") || status == Some("trialing")
  {
    if status == Some("active") then Active
    else if status == Some("trialing") then Trialing
    else if status == Some("past_due") || status == Some("unpaid") then PastDue
    else Canceled
  }

  /** Every status the model keeps comes back from its Stripe name. */
  lemma StatusMapRoundTrip(s: SubscriptionStatus)
    ensures StatusMap(Some(StripeStatusName(s))) == s
  {
  }

  // ---------------------------------------------------------------------
  // Stripe objects
  // ---------------------------------------------------------------------

  type Metadata = map<String, String>

  /** A Stripe subscription, as `Subscription.retrieve` returns it or as a
      `customer.subscription.*` event carries it. Newer Stripe versions
      nest the period in a `current_period` object (`periodStart`,
      `periodEnd`, both None when the object is absent); older ones have
      the top-level `current_period_start` and `current_period_end`.
      `priceId` is `items.data[0].price.id`, None when it is missing. */
  datatype StripeSubscription = StripeSubscription(
    id: String,
    status: Option<String>,
    priceId: Option<String>,
    periodStart: Option<int>,
    periodEnd: Option<int>,
    currentPeriodStart: Option<int>,
    currentPeriodEnd: Option<int>,
    canceledAt: Option<int>)

  /** A `checkout.session.completed` event's session. */
  datatype CheckoutSessionObject = CheckoutSessionObject(metadata: Metadata, subscriptionId: String)

  /** A `payment_intent.succeeded` event's intent. */
  datatype PaymentIntent = PaymentIntent(id: String, customer: Option<String>, amount: int, currency: String)

  /** What `checkout.Session.create` is asked for, and what it answers. */
  datatype CheckoutRequest = CheckoutRequest(priceId: String, successUrl: String, cancelUrl: String, metadata: Metadata)
  datatype CheckoutSession = CheckoutSession(sessionId: String, checkoutUrl: String, expiresAt: Time)

  const SessionIdQuery: String := "?session_id={CHECKOUT_SESSION_ID}"

  /** The renewal date an update carries: the nested period's end when it
      is truthy, else the top-level field. */
  function PeriodEnd(s: StripeSubscription): Option<int> {
    if Truthy(s.periodEnd) then s.periodEnd else s.currentPeriodEnd
  }

  // ---------------------------------------------------------------------
  // Checkout metadata
  // ---------------------------------------------------------------------

  /** `metadata` of a plan checkout session: ids as decimal strings, an
      absent or zero lounge as "". */
  function PlanCheckoutMetadata(userId: int, planId: int, loungeId: Option<int>): Metadata {
    map["user_id" := IntToString(userId),
        "plan_id" := IntToString(planId),
        "lounge_id" := if Truthy(loungeId) then IntToString(loungeId.value) else ""]
  }

  datatype PlanCheckoutIds = PlanCheckoutIds(userId: int, planId: int, loungeId: Option<int>)

  function MetaInt(m: Metadata, key: String): Option<int> {
    if key in m then ParseInt(m[key]) else None
  }

  /** `handle_checkout_completed` reading the metadata back: `int()` of the
      user and plan ids (a missing key or a non-number raises), and of the
      lounge id unless that is missing or "". */
  function ParsePlanCheckout(m: Metadata): (r: Option<PlanCheckoutIds>)
    ensures r.Some? ==> "user_id" in m && "plan_id" in m
    ensures r.Some? ==> ParseInt(m["user_id"]) == Some(r.value.userId) && ParseInt(m["plan_id"]) == Some(r.value.planId)
    ensures r.Some? && r.value.loungeId.None? ==> "lounge_id" !in m || m["lounge_id"] == ""
  {
    var lounge := if "lounge_id" in m then m["lounge_id"] else "";
    if MetaInt(m, "user_id").None? || MetaInt(m, "plan_id").None? then None
    else if lounge == [] then Some(PlanCheckoutIds(MetaInt(m, "user_id").value, MetaInt(m, "plan_id").value, None))
    else match ParseInt(lounge)
      case None => None
      case Some(l) => Some(PlanCheckoutIds(MetaInt(m, "user_id").value, MetaInt(m, "plan_id").value, Some(l)))
  }

  /** What the checkout session writes, the webhook reads back; a lounge id
      of 0 is dropped on the way, as `if lounge_id:` drops it. */
  lemma PlanCheckoutRoundTrip(userId: int, planId: int, loungeId: Option<int>)
    ensures ParsePlanCheckout(PlanCheckoutMetadata(userId, planId, loungeId))
            == Some(PlanCheckoutIds(userId, planId, if Truthy(loungeId) then loungeId else None))
  {
    var m := PlanCheckoutMetadata(userId, planId, loungeId);
    ParseIntToString(userId);
    ParseIntToString(planId);
    assert MetaInt(m, "user_id") == Some(userId);
    assert MetaInt(m, "plan_id") == Some(planId);
    if Truthy(loungeId) {
      ParseIntToString(loungeId.value);
      assert m["lounge_id"] == IntToString(loungeId.value) != [];
    } else {
      assert m["lounge_id"] == "";
    }
  }

  /** `metadata` of a lounge checkout session. */
  function LoungeCheckoutMetadata(userId: int, loungeId: int, planType: String): Metadata {
    map["user_id" := IntToString(userId),
        "lounge_id" := IntToString(loungeId),
        "plan_type" := planType,
        "subscription_type" := "lounge"]
  }

  /** 'monthly' is the monthly plan; any other string is the yearly one. */
  function PlanTypeOf(name: String): (p: LoungePlanType)
    ensures p == Monthly <==> name == "monthly"
  {
    if name == "monthly" then Monthly else Yearly
  }

  function PlanTypeName(p: LoungePlanType): String {
    match p
    case Monthly => "monthly"
    case Yearly => "yearly"
  }

  datatype LoungeCheckoutIds = LoungeCheckoutIds(userId: int, loungeId: int, planType: LoungePlanType)

  /** `handle_lounge_checkout_completed` reading the metadata back. */
  function ParseLoungeCheckout(m: Metadata): (r: Option<LoungeCheckoutIds>)
    ensures r.Some? ==> "plan_type" in m && r.value.planType == PlanTypeOf(m["plan_type"])
    ensures r.Some? ==> MetaInt(m, "user_id") == Some(r.value.userId) && MetaInt(m, "lounge_id") == Some(r.value.loungeId)
  {
    if MetaInt(m, "user_id").None? || MetaInt(m, "lounge_id").None? || "plan_type" !in m then None
    else Some(LoungeCheckoutIds(MetaInt(m, "user_id").value, MetaInt(m, "lounge_id").value, PlanTypeOf(m["plan_type"])))
  }

  /** A lounge checkout for 'monthly' or 'yearly' comes back as that plan. */
  lemma LoungeCheckoutRoundTrip(userId: int, loungeId: int, planType: String)
    requires planType == "monthly" || planType == "yearly"
    ensures ParseLoungeCheckout(LoungeCheckoutMetadata(userId, loungeId, planType))
            == Some(LoungeCheckoutIds(userId, loungeId, PlanTypeOf(planType)))
    ensures PlanTypeName(PlanTypeOf(planType)) == planType
  {
    LoungeMetadataReadBack(userId, loungeId, planType);
  }

  lemma LoungeMetadataReadBack(userId: int, loungeId: int, planType: String)
    ensures var m := LoungeCheckoutMetadata(userId, loungeId, planType);
            MetaInt(m, "user_id") == Some(userId) && MetaInt(m, "lounge_id") == Some(loungeId) &&
            "plan_type" in m && m["plan_type"] == planType
  {
    var m := LoungeCheckoutMetadata(userId, loungeId, planType);
    ParseIntToString(userId);
    ParseIntToString(loungeId);
    assert m["user_id"] == IntToString(userId);
    assert m["lounge_id"] == IntToString(loungeId);
  }

  /** A lounge session carries no plan id, so the plan handler cannot read it. */
  lemma PlanHandlerRejectsLoungeMetadata(userId: int, loungeId: int, planType: String)
    ensures ParsePlanCheckout(LoungeCheckoutMetadata(userId, loungeId, planType)).None?
  {
    var m := LoungeCheckoutMetadata(userId, loungeId, planType);
    assert "plan_id" !in m;
  }

  // ---------------------------------------------------------------------
  // Plan checkout
  // ---------------------------------------------------------------------

  predicate IsActivePlan(p: SubscriptionPlan, planId: int) { p.id == planId && p.isActive }

  /** `get_active_plans` */
  function ActivePlans(plans: seq<SubscriptionPlan>): (r: seq<SubscriptionPlan>)
    ensures forall p :: p in r <==> p in plans && p.isActive
  {
    Filter(plans, (p: SubscriptionPlan) => p.isActive)
  }

  function FindActivePlan(plans: seq<SubscriptionPlan>, planId: int): (r: Option<nat>)
    ensures r.Some? ==> r.value < |plans| && IsActivePlan(plans[r.value], planId)
    ensures r.None? <==> forall p :: p in plans ==> !IsActivePlan(p, planId)
  {
    FindFirst(plans, (p: SubscriptionPlan) => IsActivePlan(p, planId))
  }

  predicate ActiveSubscriptionOf(s: Subscription, userId: int) { s.userId == userId && StatusIsActive(s.status) }

  /** `get_user_subscription`: the user's first ACTIVE or TRIALING subscription. */
  function UserSubscription(subs: seq<Subscription>, userId: int): (r: Option<nat>)
    ensures r.Some? ==> r.value < |subs| && ActiveSubscriptionOf(subs[r.value], userId)
    ensures r.None? <==> forall s :: s in subs ==> !ActiveSubscriptionOf(s, userId)
  {
    FindFirst(subs, (s: Subscription) => ActiveSubscriptionOf(s, userId))
  }

  /** Why `create_checkout_session` refuses, checked in its order: the user,
      then an active plan, then no subscription already active. */
  function CheckoutRefusal(users: seq<UserModel.User>, plans: seq<SubscriptionPlan>, subs: seq<Subscription>,
                           userId: int, planId: int): (r: Option<String>)
    ensures r == Some(UserNotFound) <==> forall u :: u in users ==> u.id != userId
    ensures r == Some(PlanNotFound) <==>
              (exists u :: u in users && u.id == userId) && forall p :: p in plans ==> !IsActivePlan(p, planId)
    ensures r == Some(AlreadySubscribed) <==>
              (exists u :: u in users && u.id == userId) && (exists p :: p in plans && IsActivePlan(p, planId))
              && exists s :: s in subs && ActiveSubscriptionOf(s, userId)
    ensures r.None? <==>
              (exists u :: u in users && u.id == userId) && (exists p :: p in plans && IsActivePlan(p, planId))
              && forall s :: s in subs ==> !ActiveSubscriptionOf(s, userId)
  {
    if UserModel.FindUser(users, userId).None? then Some(UserNotFound)
    else if FindActivePlan(plans, planId).None? then Some(PlanNotFound)
    else if UserSubscription(subs, userId).Some? then Some(AlreadySubscribed)
    else None
  }

  function PlanCheckoutRequest(plan: SubscriptionPlan, userId: int, planId: int, loungeId: Option<int>,
                               successUrl: String, cancelUrl: String): CheckoutRequest {
    CheckoutRequest(plan.stripePriceId, successUrl + SessionIdQuery, cancelUrl,
                    PlanCheckoutMetadata(userId, planId, loungeId))
  }

  /** `create_checkout_session`. `stripe` answers for the customer and
      session calls together; a Stripe error becomes a plain exception. */
  function CreateCheckoutSession(users: seq<UserModel.User>, plans: seq<SubscriptionPlan>, subs: seq<Subscription>,
                                 userId: int, planId: int, loungeId: Option<int>,
                                 successUrl: String, cancelUrl: String,
                                 stripe: CheckoutRequest -> Result<CheckoutSession>): (r: Attempt<CheckoutSession>)
    ensures r.Rejected? <==> CheckoutRefusal(users, plans, subs, userId, planId).Some?
    ensures r.Rejected? ==> Some(r.reason) == CheckoutRefusal(users, plans, subs, userId, planId)
    ensures !r.Rejected? ==> FindActivePlan(plans, planId).Some?
    ensures r.Done? ==>
              stripe(PlanCheckoutRequest(plans[FindActivePlan(plans, planId).value], userId, planId, loungeId,
                                         successUrl, cancelUrl)) == Success(r.value)
    ensures r.Raised? ==>
              stripe(PlanCheckoutRequest(plans[FindActivePlan(plans, planId).value], userId, planId, loungeId,
                                         successUrl, cancelUrl)).Failure?
              && StartsWith(r.message, CheckoutFailed)
  {
    match CheckoutRefusal(users, plans, subs, userId, planId)
    case Some(reason) => Rejected(reason)
    case None =>
      var req := PlanCheckoutRequest(plans[FindActivePlan(plans, planId).value], userId, planId, loungeId,
                                     successUrl, cancelUrl);
      match stripe(req)
      case Success(session) => Done(session)
      case Failure(e) => Raised(CheckoutFailed + e)
  }

  /** `create_portal_session`: the user must exist; the portal URL comes
      from Stripe, whose errors become plain exceptions. */
  function CreatePortalSession(users: seq<UserModel.User>, userId: int, stripe: Result<String>): (r: Attempt<String>)
    ensures r.Rejected? <==> forall u :: u in users ==> u.id != userId
    ensures r.Rejected? ==> r.reason == UserNotFound
    ensures r.Done? ==> stripe == Success(r.value)
    ensures r.Raised? ==> stripe.Failure? && r.message == PortalFailed + stripe.error
  {
    if UserModel.FindUser(users, userId).None? then Rejected(UserNotFound)
    else match stripe
      case Success(url) => Done(url)
      case Failure(e) => Raised(PortalFailed + e)
  }

  // ---------------------------------------------------------------------
  // Payment history
  // ---------------------------------------------------------------------

  function PaymentKey(p: Payment): Key { (p.createdAt, 0) }

  /** `get_payment_history`: the user's payments, newest first, at most `limit`. */
  function PaymentHistory(payments: seq<Payment>, userId: int, limit: nat): (r: seq<Payment>)
    ensures |r| <= limit
    ensures forall p :: p in r ==> p in payments && p.userId == userId
    ensures SortedDesc(r, PaymentKey)
  {
    if limit == 0 then []
    else ListPage(payments, (p: Payment) => p.userId == userId, PaymentKey, 1, limit).items
  }

  /** With room for all of them, the history holds every payment of the user. */
  lemma PaymentHistoryComplete(payments: seq<Payment>, userId: int, limit: nat)
    requires limit >= |payments| && limit >= 1
    ensures multiset(PaymentHistory(payments, userId, limit)) == multiset(Filter(payments, (p: Payment) => p.userId == userId))
  {
    var mine := (p: Payment) => p.userId == userId;
    CountMono(payments, mine, (p: Payment) => true);
    CountAll(payments, (p: Payment) => true);
    FirstPageHasAll(payments, mine, PaymentKey, limit);
  }

  // ---------------------------------------------------------------------
  // Per-lounge pricing
  // ---------------------------------------------------------------------

  const LoungeMonthlyPriceCents: int := 2500
  const LoungeYearlyPriceCents: int := 24000

  datatype PriceRequest = PriceRequest(amountCents: int, currency: String, interval: String, metadata: Metadata)
  datatype ProductRequest = ProductRequest(name: String, description: String, metadata: Metadata,
                                           monthly: PriceRequest, yearly: PriceRequest)
  datatype LoungeStripeIds = LoungeStripeIds(productId: String, monthlyPriceId: String, yearlyPriceId: String)

  /** The product and the two recurring prices `create_lounge_stripe_product` asks for. */
  function LoungeProductRequest(loungeId: int, title: String, slug: String): (r: ProductRequest)
    ensures r.monthly.amountCents == PriceCents(Monthly) && r.yearly.amountCents == PriceCents(Yearly)
    ensures r.monthly.interval == "month" && r.yearly.interval == "year"
    ensures "plan_type" in r.monthly.metadata && r.monthly.metadata["plan_type"] == PlanTypeName(Monthly)
    ensures "plan_type" in r.yearly.metadata && r.yearly.metadata["plan_type"] == PlanTypeName(Yearly)
    ensures StartsWith(r.name, "Lounge: ") && EndsWith(r.name, title)
  {
    var lid := IntToString(loungeId);
    ProductRequest(
      "Lounge: " + title,
      "Subscription to " + title + " lounge",
      map["lounge_id" := lid, "lounge_slug" := slug, "type" := "lounge_subscription"],
      PriceRequest(LoungeMonthlyPriceCents, "usd", "month", map["lounge_id" := lid, "plan_type" := "monthly"]),
      PriceRequest(LoungeYearlyPriceCents, "usd", "year", map["lounge_id" := lid, "plan_type" := "yearly"]))
  }

  /** `create_lounge_stripe_product`: the three Stripe ids, or the wrapped error. */
  function CreateLoungeStripeProduct(loungeId: int, title: String, slug: String,
                                     stripe: ProductRequest -> Result<LoungeStripeIds>): (r: Attempt<LoungeStripeIds>)
    ensures !r.Rejected?
    ensures r.Done? <==> stripe(LoungeProductRequest(loungeId, title, slug)).Success?
    ensures r.Done? ==> r.value == stripe(LoungeProductRequest(loungeId, title, slug)).value
    ensures r.Raised? ==> r.message == ProductFailed + stripe(LoungeProductRequest(loungeId, title, slug)).error
  {
    match stripe(LoungeProductRequest(loungeId, title, slug))
    case Success(ids) => Done(ids)
    case Failure(e) => Raised(ProductFailed + e)
  }

  // ---------------------------------------------------------------------
  // Lounge checkout
  // ---------------------------------------------------------------------

  predicate ActiveLoungeSubscriptionOf(s: LoungeSubscription, userId: int, loungeId: int) {
    s.userId == userId && s.loungeId == loungeId && StatusIsActive(s.status)
  }

  /** `get_user_lounge_subscription`: the first ACTIVE or TRIALING one. */
  function UserLoungeSubscription(subs: seq<LoungeSubscription>, userId: int, loungeId: int): (r: Option<nat>)
    ensures r.Some? ==> r.value < |subs| && ActiveLoungeSubscriptionOf(subs[r.value], userId, loungeId)
    ensures r.None? <==> forall s :: s in subs ==> !ActiveLoungeSubscriptionOf(s, userId, loungeId)
  {
    FindFirst(subs, (s: LoungeSubscription) => ActiveLoungeSubscriptionOf(s, userId, loungeId))
  }

  /** `get_user_lounge_subscriptions`: all of the user's, or, unless
      `includeCanceled`, only ACTIVE and TRIALING ones, so a PAST_DUE
      subscription is left out as well as a canceled one. */
  function UserLoungeSubscriptions(subs: seq<LoungeSubscription>, userId: int, includeCanceled: bool)
    : (r: seq<LoungeSubscription>)
    ensures forall s :: s in r <==> s in subs && s.userId == userId && (includeCanceled || StatusIsActive(s.status))
  {
    if includeCanceled then Filter(subs, (s: LoungeSubscription) => s.userId == userId)
    else Filter(subs, (s: LoungeSubscription) => s.userId == userId && StatusIsActive(s.status))
  }

  /** The price a valid plan type selects; None for any other plan type. */
  function SelectedPrice(l: Lounge, planType: String): Option<Option<String>> {
    if planType == "monthly" then Some(l.stripeMonthlyPriceId)
    else if planType == "yearly" then Some(l.stripeYearlyPriceId)
    else None
  }

  /** The checks of `create_lounge_checkout_session`, in its order; on
      success, the Stripe price the session is for. */
  function LoungeCheckoutPrice(users: seq<UserModel.User>, lounges: seq<Lounge>, subs: seq<LoungeSubscription>,
                               userId: int, loungeId: int, planType: String): (r: Result<String>)
    ensures r == Failure(UserNotFound) <==> forall u :: u in users ==> u.id != userId
    ensures (exists u :: u in users && u.id == userId) ==>
              (r == Failure(LoungeNotFound) <==> forall l :: l in lounges ==> l.id != loungeId)
    ensures r.Success? <==>
              (exists u :: u in users && u.id == userId) && FindLounge(lounges, loungeId).Some?
              && var l := lounges[FindLounge(lounges, loungeId).value];
                 l.accessType == Paid && TruthyStr(l.stripeProductId)
                 && (planType == "monthly" || planType == "yearly")
                 && TruthyStr(SelectedPrice(l, planType).value)
                 && forall s :: s in subs ==> !ActiveLoungeSubscriptionOf(s, userId, loungeId)
    ensures r.Success? ==>
              var l := lounges[FindLounge(lounges, loungeId).value];
              Some(r.value) == (if planType == "monthly" then l.stripeMonthlyPriceId else l.stripeYearlyPriceId)
    ensures r.Failure? ==>
              r.error in {UserNotFound, LoungeNotFound, NotAPaidLounge, NoStripeProduct, InvalidPlanType,
                          MissingPrice(planType), AlreadySubscribedToLounge}
  {
    if UserModel.FindUser(users, userId).None? then Failure(UserNotFound)
    else match FindLounge(lounges, loungeId)
      case None => Failure(LoungeNotFound)
      case Some(i) =>
        var l := lounges[i];
        if l.accessType != Paid then Failure(NotAPaidLounge)
        else if !TruthyStr(l.stripeProductId) then Failure(NoStripeProduct)
        else match SelectedPrice(l, planType)
          case None => Failure(InvalidPlanType)
          case Some(price) =>
            if !TruthyStr(price) then Failure(MissingPrice(planType))
            else if UserLoungeSubscription(subs, userId, loungeId).Some? then Failure(AlreadySubscribedToLounge)
            else Success(price.value)
  }

  /** `create_lounge_checkout_session` */
  function CreateLoungeCheckoutSession(users: seq<UserModel.User>, lounges: seq<Lounge>, subs: seq<LoungeSubscription>,
                                       userId: int, loungeId: int, planType: String,
                                       successUrl: String, cancelUrl: String,
                                       stripe: CheckoutRequest -> Result<CheckoutSession>): (r: Attempt<CheckoutSession>)
    ensures r.Rejected? <==> LoungeCheckoutPrice(users, lounges, subs, userId, loungeId, planType).Failure?
    ensures r.Rejected? ==> r.reason == LoungeCheckoutPrice(users, lounges, subs, userId, loungeId, planType).error
    ensures !r.Rejected? ==>
              var req := CheckoutRequest(LoungeCheckoutPrice(users, lounges, subs, userId, loungeId, planType).value,
                                         successUrl + SessionIdQuery, cancelUrl,
                                         LoungeCheckoutMetadata(userId, loungeId, planType));
              (r.Done? ==> stripe(req) == Success(r.value))
              && (r.Raised? ==> stripe(req).Failure? && r.message == CheckoutFailed + stripe(req).error)
  {
    match LoungeCheckoutPrice(users, lounges, subs, userId, loungeId, planType)
    case Failure(e) => Rejected(e)
    case Success(price) =>
      var req := CheckoutRequest(price, successUrl + SessionIdQuery, cancelUrl,
                                 LoungeCheckoutMetadata(userId, loungeId, planType));
      match stripe(req)
      case Success(session) => Done(session)
      case Failure(e) => Raised(CheckoutFailed + e)
  }

  /** `create_lounge_checkout_session` when the `Lounge` class maps the
      columns `mapped`: past the user, lounge and paid checks it reads
      `lounge.stripe_product_id`, which raises AttributeError when that
      column is not mapped; otherwise it is the session above. */
  function LoungeCheckoutMapped(mapped: seq<String>, users: seq<UserModel.User>, lounges: seq<Lounge>,
                                subs: seq<LoungeSubscription>, userId: int, loungeId: int, planType: String,
                                successUrl: String, cancelUrl: String,
                                stripe: CheckoutRequest -> Result<CheckoutSession>): (r: Attempt<CheckoutSession>)
    ensures StripeProductColumn in mapped ==>
              r == CreateLoungeCheckoutSession(users, lounges, subs, userId, loungeId, planType,
                                               successUrl, cancelUrl, stripe)
    ensures StripeProductColumn !in mapped ==>
              !r.Done?
              && (r.Raised? <==>
                    UserModel.FindUser(users, userId).Some? && FindLounge(lounges, loungeId).Some?
                    && lounges[FindLounge(lounges, loungeId).value].accessType == Paid)
              && (r.Raised? ==> r.message == NoLoungeAttribute(StripeProductColumn))
              && (r.Rejected? ==>
                    Failure(r.reason) == LoungeCheckoutPrice(users, lounges, subs, userId, loungeId, planType)
                    && r.reason in {UserNotFound, LoungeNotFound, NotAPaidLounge})
  {
    if UserModel.FindUser(users, userId).None? then Rejected(UserNotFound)
    else match FindLounge(lounges, loungeId)
      case None => Rejected(LoungeNotFound)
      case Some(i) =>
        if lounges[i].accessType != Paid then Rejected(NotAPaidLounge)
        else if StripeProductColumn !in mapped then Raised(NoLoungeAttribute(StripeProductColumn))
        else CreateLoungeCheckoutSession(users, lounges, subs, userId, loungeId, planType, successUrl, cancelUrl, stripe)
  }

  /** As written no lounge checkout ever reaches Stripe: every request for
      a paid lounge by a known user raises; with the added columns mapped
      the checkout is `CreateLoungeCheckoutSession`. */
  lemma LoungeCheckoutRaisesAsWritten(users: seq<UserModel.User>, lounges: seq<Lounge>, subs: seq<LoungeSubscription>,
                                      userId: int, loungeId: int, planType: String,
                                      successUrl: String, cancelUrl: String,
                                      stripe: CheckoutRequest -> Result<CheckoutSession>)
    ensures var r := LoungeCheckoutMapped(LoungeOrmColumns, users, lounges, subs, userId, loungeId, planType,
                                          successUrl, cancelUrl, stripe);
            !r.Done? && (r.Raised? <==> LoungeCheckoutPrice(users, lounges, subs, userId, loungeId, planType)
                                          !in {Failure(UserNotFound), Failure(LoungeNotFound), Failure(NotAPaidLounge)})
    ensures LoungeCheckoutMapped(LoungeOrmColumns + AddedLoungeColumns, users, lounges, subs, userId, loungeId,
                                 planType, successUrl, cancelUrl, stripe)
            == CreateLoungeCheckoutSession(users, lounges, subs, userId, loungeId, planType, successUrl, cancelUrl, stripe)
  {
    StripeColumnsUnmapped();
  }

  /** The period a completed lounge checkout records: the nested period
      when its start is truthy, else the top-level fields; when neither has
      a start, from `now` for 30 days (monthly) or 365 (yearly). None when
      a start is found without an end (`fromtimestamp(None)` raises). */
  function LoungePeriod(s: StripeSubscription, plan: LoungePlanType, now: Time): (r: Option<(Time, Time)>)
    ensures !Truthy(s.periodStart) && !Truthy(s.currentPeriodStart) ==>
              r == Some((now, now + (if plan == Yearly then 365 else 30) * SecondsPerDay))
    ensures Truthy(s.periodStart) ==> (r.Some? <==> s.periodEnd.Some?)
    ensures r.Some? && Truthy(s.periodStart) ==> r.value == (s.periodStart.value, s.periodEnd.value)
  {
    var (start, end) := if Truthy(s.periodStart) then (s.periodStart, s.periodEnd)
                        else (s.currentPeriodStart, s.currentPeriodEnd);
    if !Truthy(start) then Some((now, now + (if plan == Yearly then 365 else 30) * SecondsPerDay))
    else if end.None? then None
    else Some((start.value, end.value))
  }

  /** A lounge subscription recorded with the fallback period reports 30
      or 365 days to renewal at the moment it is recorded. */
  lemma FallbackPeriodDays(s: StripeSubscription, plan: LoungePlanType, now: Time)
    requires !Truthy(s.periodStart) && !Truthy(s.currentPeriodStart)
    ensures DaysUntilRenewal(Active, LoungePeriod(s, plan, now).value.1, now) == (if plan == Yearly then 365 else 30)
  {
    var d := if plan == Yearly then 365 else 30;
    assert LoungePeriod(s, plan, now).value.1 - now == d * SecondsPerDay;
    assert DaysOf(d * SecondsPerDay) == d;
  }

  // ---------------------------------------------------------------------
  // Subscription lifecycle fields
  // ---------------------------------------------------------------------

  /** The fields a Stripe update rewrites, shared by both subscription kinds. */
  datatype Lifecycle = Lifecycle(status: SubscriptionStatus, renewsAt: Time, canceledAt: Option<Time>)

  /** `handle_subscription_updated` / `handle_lounge_subscription_updated`
      on one row: the mapped status; the renewal date and the cancellation
      date only when the event carries truthy ones. */
  function ApplyEvent(l: Lifecycle, e: StripeSubscription): (r: Lifecycle)
    ensures r.status == StatusMap(e.status)
    ensures !Truthy(PeriodEnd(e)) ==> r.renewsAt == l.renewsAt
    ensures !Truthy(e.canceledAt) ==> r.canceledAt == l.canceledAt
  {
    Lifecycle(StatusMap(e.status),
              if Truthy(PeriodEnd(e)) then PeriodEnd(e).value else l.renewsAt,
              if Truthy(e.canceledAt) then e.canceledAt else l.canceledAt)
  }

  /** Stripe delivers events at least once; a repeated event changes nothing more. */
  lemma ApplyEventIdempotent(l: Lifecycle, e: StripeSubscription)
    ensures ApplyEvent(ApplyEvent(l, e), e) == ApplyEvent(l, e)
  {
  }

  function LifecycleOf(s: Subscription): Lifecycle { Lifecycle(s.status, s.renewsAt, s.canceledAt) }

  function WithLifecycle(s: Subscription, l: Lifecycle): Subscription {
    s.(status := l.status, renewsAt := l.renewsAt, canceledAt := l.canceledAt)
  }

  function LoungeLifecycleOf(s: LoungeSubscription): Lifecycle { Lifecycle(s.status, s.renewsAt, s.canceledAt) }

  function WithLoungeLifecycle(s: LoungeSubscription, l: Lifecycle): LoungeSubscription {
    s.(status := l.status, renewsAt := l.renewsAt, canceledAt := l.canceledAt)
  }

  function FindByStripeId(subs: seq<Subscription>, id: String): (r: Option<nat>)
    ensures r.Some? ==> r.value < |subs| && subs[r.value].stripeSubscriptionId == id
    ensures r.None? <==> forall i :: 0 <= i < |subs| ==> subs[i].stripeSubscriptionId != id
  {
    FindFirst(subs, (s: Subscription) => s.stripeSubscriptionId == id)
  }

  function FindLoungeByStripeId(subs: seq<LoungeSubscription>, id: String): (r: Option<nat>)
    ensures r.Some? ==> r.value < |subs| && subs[r.value].stripeSubscriptionId == id
    ensures r.None? <==> forall i :: 0 <= i < |subs| ==> subs[i].stripeSubscriptionId != id
  {
    FindFirst(subs, (s: LoungeSubscription) => s.stripeSubscriptionId == id)
  }

  /** `handle_subscription_updated` on the table: the row with the event's
      Stripe id takes the event; without one nothing changes. */
  function UpdateSubscriptions(subs: seq<Subscription>, e: StripeSubscription): (r: seq<Subscription>)
    ensures FindByStripeId(subs, e.id).None? ==> r == subs
    ensures |r| == |subs|
    ensures forall k :: 0 <= k < |r| && subs[k].stripeSubscriptionId != e.id ==> r[k] == subs[k]
    ensures forall k :: 0 <= k < |r| ==>
              (r[k].id == subs[k].id && r[k].stripeSubscriptionId == subs[k].stripeSubscriptionId
               && r[k].userId == subs[k].userId && r[k].planId == subs[k].planId)
  {
    match FindByStripeId(subs, e.id)
    case None => subs
    case Some(i) => subs[i := WithLifecycle(subs[i], ApplyEvent(LifecycleOf(subs[i]), e))]
  }

  /** Delivering the same update twice leaves the table as delivering it once. */
  lemma UpdateSubscriptionsIdempotent(subs: seq<Subscription>, e: StripeSubscription)
    ensures UpdateSubscriptions(UpdateSubscriptions(subs, e), e) == UpdateSubscriptions(subs, e)
  {
    var once := UpdateSubscriptions(subs, e);
    FindFirstAgree(subs, once, (s: Subscription) => s.stripeSubscriptionId == e.id);
    match FindByStripeId(subs, e.id)
    case None =>
    case Some(i) =>
      ApplyEventIdempotent(LifecycleOf(subs[i]), e);
      assert once[i] == WithLifecycle(subs[i], ApplyEvent(LifecycleOf(subs[i]), e));
      assert LifecycleOf(once[i]) == ApplyEvent(LifecycleOf(subs[i]), e);
  }

  // ---------------------------------------------------------------------
  // Memberships
  // ---------------------------------------------------------------------

  predicate ActiveMembershipOf(m: Membership, loungeId: int, userId: int) {
    m.loungeId == loungeId && m.userId == userId && m.leftAt.None?
  }

  /** No user holds two active memberships of one lounge: every handler
      that adds one first looks for an active one. */
  ghost predicate OneActiveMembership(ms: seq<Membership>) {
    forall i, j :: 0 <= i < j < |ms| && ms[i].leftAt.None? && ms[j].leftAt.None? ==>
      !(ms[i].loungeId == ms[j].loungeId && ms[i].userId == ms[j].userId)
  }

  /** Adds a MEMBER membership unless the user already has an active one. */
  function EnsureMember(ms: seq<Membership>, loungeId: int, userId: int, id: int, now: Time): (r: seq<Membership>)
    ensures FindActiveMembership(ms, loungeId, userId).Some? ==> r == ms
    ensures FindActiveMembership(ms, loungeId, userId).None? ==> r == ms + [NewMembership(id, loungeId, userId, now)]
    ensures FindActiveMembership(r, loungeId, userId).Some?
  {
    if FindActiveMembership(ms, loungeId, userId).Some? then ms
    else
      var m := NewMembership(id, loungeId, userId, now);
      assert (ms + [m])[|ms|] == m;
      ms + [m]
  }

  /** Adding a membership only where none is active keeps one per user and lounge. */
  lemma EnsureMemberKeepsOne(ms: seq<Membership>, loungeId: int, userId: int, id: int, now: Time)
    requires OneActiveMembership(ms)
    ensures OneActiveMembership(EnsureMember(ms, loungeId, userId, id, now))
  {
  }

  /** Stamps `left_at` on the user's active membership, if there is one. */
  function EndMembership(ms: seq<Membership>, loungeId: int, userId: int, now: Time): (r: seq<Membership>)
    ensures |r| == |ms|
    ensures forall k :: 0 <= k < |r| && !ActiveMembershipOf(ms[k], loungeId, userId) ==> r[k] == ms[k]
    ensures forall k :: 0 <= k < |r| ==> r[k] == ms[k] || r[k] == ms[k].(leftAt := Some(now))
    ensures OneActiveMembership(ms) ==> FindActiveMembership(r, loungeId, userId).None?
    ensures OneActiveMembership(ms) ==> OneActiveMembership(r)
    ensures FindActiveMembership(ms, loungeId, userId).Some? ==>
              MemberCount(r, loungeId) == MemberCount(ms, loungeId) - 1
  {
    match FindActiveMembership(ms, loungeId, userId)
    case None => ms
    case Some(i) =>
      var r := ms[i := ms[i].(leftAt := Some(now))];
      LeavingDecrementsCount(ms, i, now);
      assert forall k :: 0 <= k < |r| && k != i ==> r[k] == ms[k];
      r
  }

  // ---------------------------------------------------------------------
  // Lounge subscription updates
  // ---------------------------------------------------------------------

  /** `handle_lounge_subscription_updated` on both tables: the row with the
      event's Stripe id takes the event, and when that moves it into
      CANCELED from another status, the subscriber's active membership of
      the lounge ends. */
  function UpdateLoungeSubscriptions(subs: seq<LoungeSubscription>, ms: seq<Membership>,
                                     e: StripeSubscription, now: Time): (r: (seq<LoungeSubscription>, seq<Membership>))
    ensures FindLoungeByStripeId(subs, e.id).None? ==> r == (subs, ms)
    ensures |r.0| == |subs|
    ensures forall k :: 0 <= k < |subs| && subs[k].stripeSubscriptionId != e.id ==> r.0[k] == subs[k]
    ensures forall k :: 0 <= k < |subs| ==>
              r.0[k].id == subs[k].id && r.0[k].stripeSubscriptionId == subs[k].stripeSubscriptionId
              && r.0[k].userId == subs[k].userId && r.0[k].loungeId == subs[k].loungeId
              && r.0[k].planType == subs[k].planType && r.0[k].stripePriceId == subs[k].stripePriceId
    ensures FindLoungeByStripeId(subs, e.id).Some? ==>
              var i := FindLoungeByStripeId(subs, e.id).value;
              r.0[i].status == StatusMap(e.status)
              && r.1 == (if StatusMap(e.status) == Canceled && subs[i].status != Canceled
                         then EndMembership(ms, subs[i].loungeId, subs[i].userId, now) else ms)
  {
    match FindLoungeByStripeId(subs, e.id)
    case None => (subs, ms)
    case Some(i) =>
      var s := subs[i];
      var updated := WithLoungeLifecycle(s, ApplyEvent(LoungeLifecycleOf(s), e));
      var ms' := if updated.status == Canceled && s.status != Canceled
                 then EndMembership(ms, s.loungeId, s.userId, now) else ms;
      (subs[i := updated], ms')
  }

  /** A repeated lounge event changes nothing more: in particular a second
      cancellation event does not end a membership taken up since. */
  lemma UpdateLoungeSubscriptionsIdempotent(subs: seq<LoungeSubscription>, ms: seq<Membership>,
                                            e: StripeSubscription, now: Time, later: Time)
    ensures var once := UpdateLoungeSubscriptions(subs, ms, e, now);
            UpdateLoungeSubscriptions(once.0, once.1, e, later) == once
  {
    var once := UpdateLoungeSubscriptions(subs, ms, e, now);
    FindFirstAgree(subs, once.0, (s: LoungeSubscription) => s.stripeSubscriptionId == e.id);
    match FindLoungeByStripeId(subs, e.id)
    case None =>
    case Some(i) =>
      ApplyEventIdempotent(LoungeLifecycleOf(subs[i]), e);
      assert LoungeLifecycleOf(once.0[i]) == ApplyEvent(LoungeLifecycleOf(subs[i]), e);
      assert once.0[i := WithLoungeLifecycle(once.0[i], ApplyEvent(LoungeLifecycleOf(once.0[i]), e))] == once.0;
  }

  // ---------------------------------------------------------------------
  // The tables
  // ---------------------------------------------------------------------

  ghost predicate DistinctStripeIds(subs: seq<Subscription>) {
    forall i, j :: 0 <= i < j < |subs| ==> subs[i].stripeSubscriptionId != subs[j].stripeSubscriptionId
  }

  ghost predicate DistinctLoungeStripeIds(subs: seq<LoungeSubscription>) {
    forall i, j :: 0 <= i < j < |subs| ==> subs[i].stripeSubscriptionId != subs[j].stripeSubscriptionId
  }

  lemma AppendFreshStripeId(subs: seq<Subscription>, s: Subscription)
    requires DistinctStripeIds(subs) && FindByStripeId(subs, s.stripeSubscriptionId).None?
    ensures DistinctStripeIds(subs + [s])
  {
  }

  lemma AppendFreshLoungeStripeId(subs: seq<LoungeSubscription>, s: LoungeSubscription)
    requires DistinctLoungeStripeIds(subs) && FindLoungeByStripeId(subs, s.stripeSubscriptionId).None?
    ensures DistinctLoungeStripeIds(subs + [s])
  {
  }

  ghost predicate DistinctPaymentIds(ps: seq<Payment>) {
    forall i, j :: 0 <= i < j < |ps| ==> ps[i].providerPaymentId != ps[j].providerPaymentId
  }

  /** The rows `handle_checkout_completed` writes, or why it raises: the
      metadata must parse, Stripe must answer with the top-level period
      fields, and the Stripe id must be new (the column is unique). */
  function PlanCheckoutRow(subs: seq<Subscription>, session: CheckoutSessionObject,
                           retrieved: Result<StripeSubscription>, id: int): (r: Result<(Subscription, Option<int>)>)
    ensures r.Success? <==>
              ParsePlanCheckout(session.metadata).Some? && retrieved.Success?
              && retrieved.value.currentPeriodStart.Some? && retrieved.value.currentPeriodEnd.Some?
              && FindByStripeId(subs, session.subscriptionId).None?
    ensures r.Success? ==>
              var ids := ParsePlanCheckout(session.metadata).value;
              var s := retrieved.value;
              r.value.0 == Subscription(id, ids.userId, ids.planId, session.subscriptionId, Active,
                                        s.currentPeriodStart.value, s.currentPeriodEnd.value, None)
              && r.value.1 == ids.loungeId
  {
    var ids := ParsePlanCheckout(session.metadata);
    if ids.None? then Failure(MalformedEvent)
    else if retrieved.Failure? then Failure(retrieved.error)
    else
      var s := retrieved.value;
      if s.currentPeriodStart.None? || s.currentPeriodEnd.None? then Failure(MalformedEvent)
      else if FindByStripeId(subs, session.subscriptionId).Some? then Failure(RowRefused)
      else Success((Subscription(id, ids.value.userId, ids.value.planId, session.subscriptionId, Active,
                                 s.currentPeriodStart.value, s.currentPeriodEnd.value, None), ids.value.loungeId))
  }

  /** The row `handle_lounge_checkout_completed` writes, or why it raises:
      the metadata must parse, Stripe must answer, a price id must be found
      (the column is NOT NULL), the period must be readable, and the Stripe
      id must be new. */
  function LoungeCheckoutRow(subs: seq<LoungeSubscription>, session: CheckoutSessionObject,
                             retrieved: Result<StripeSubscription>, id: int, now: Time): (r: Result<LoungeSubscription>)
    ensures r.Success? <==>
              ParseLoungeCheckout(session.metadata).Some? && retrieved.Success?
              && retrieved.value.priceId.Some?
              && LoungePeriod(retrieved.value, ParseLoungeCheckout(session.metadata).value.planType, now).Some?
              && FindLoungeByStripeId(subs, session.subscriptionId).None?
    ensures r.Success? ==>
              var ids := ParseLoungeCheckout(session.metadata).value;
              var period := LoungePeriod(retrieved.value, ids.planType, now).value;
              r.value == LoungeSubscription(id, ids.userId, ids.loungeId, ids.planType, session.subscriptionId,
                                            retrieved.value.priceId.value, Active, period.0, period.1, None)
  {
    var ids := ParseLoungeCheckout(session.metadata);
    if ids.None? then Failure(MalformedEvent)
    else if retrieved.Failure? then Failure(retrieved.error)
    else
      var s := retrieved.value;
      var period := LoungePeriod(s, ids.value.planType, now);
      if period.None? then Failure(MalformedEvent)
      else if s.priceId.None? || FindLoungeByStripeId(subs, session.subscriptionId).Some? then Failure(RowRefused)
      else Success(LoungeSubscription(id, ids.value.userId, ids.value.loungeId, ids.value.planType, session.subscriptionId,
                                      s.priceId.value, Active, period.value.0, period.value.1, None))
  }

  /** Every id is below the next one to hand out; the unique Stripe ids are
      unique; no user is an active member of a lounge twice. */
  ghost predicate TablesValid(subs: seq<Subscription>, lsubs: seq<LoungeSubscription>, pays: seq<Payment>,
                              ms: seq<Membership>, nextId: int) {
    (forall i :: 0 <= i < |subs| ==> subs[i].id < nextId)
    && (forall i :: 0 <= i < |lsubs| ==> lsubs[i].id < nextId)
    && (forall i :: 0 <= i < |pays| ==> pays[i].id < nextId)
    && (forall i :: 0 <= i < |ms| ==> ms[i].id < nextId)
    && DistinctStripeIds(subs)
    && DistinctLoungeStripeIds(lsubs)
    && DistinctPaymentIds(pays)
    && OneActiveMembership(ms)
  }

  /** Rewriting a lounge subscription in place, keeping its id and Stripe id,
      keeps the tables valid. */
  lemma LoungeRewriteKeepsValid(subs: seq<Subscription>, lsubs: seq<LoungeSubscription>, pays: seq<Payment>,
                                ms: seq<Membership>, nextId: int, i: nat, u: LoungeSubscription)
    requires TablesValid(subs, lsubs, pays, ms, nextId)
    requires i < |lsubs| && u.id == lsubs[i].id && u.stripeSubscriptionId == lsubs[i].stripeSubscriptionId
    ensures TablesValid(subs, lsubs[i := u], pays, ms, nextId)
  {
  }

  /** A completed plan checkout keeps the tables valid. */
  lemma PlanCheckoutKeepsValid(subs: seq<Subscription>, lsubs: seq<LoungeSubscription>, pays: seq<Payment>,
                               ms: seq<Membership>, nextId: int, sub: Subscription, lounge: Option<int>, now: Time,
                               ms': seq<Membership>)
    requires TablesValid(subs, lsubs, pays, ms, nextId)
    requires sub.id == nextId && FindByStripeId(subs, sub.stripeSubscriptionId).None?
    requires ms' == if Truthy(lounge) then EnsureMember(ms, lounge.value, sub.userId, nextId + 1, now) else ms
    ensures TablesValid(subs + [sub], lsubs, pays, ms', nextId + 2)
  {
    AppendFreshStripeId(subs, sub);
    if Truthy(lounge) {
      EnsureMemberKeepsOne(ms, lounge.value, sub.userId, nextId + 1, now);
    }
  }

  /** A completed lounge checkout keeps the tables valid. */
  lemma LoungeCheckoutKeepsValid(subs: seq<Subscription>, lsubs: seq<LoungeSubscription>, pays: seq<Payment>,
                                 ms: seq<Membership>, nextId: int, sub: LoungeSubscription, now: Time)
    requires TablesValid(subs, lsubs, pays, ms, nextId)
    requires sub.id == nextId && FindLoungeByStripeId(lsubs, sub.stripeSubscriptionId).None?
    ensures TablesValid(subs, lsubs + [sub], pays, EnsureMember(ms, sub.loungeId, sub.userId, nextId + 1, now),
                        nextId + 2)
  {
    AppendFreshLoungeStripeId(lsubs, sub);
    EnsureMemberKeepsOne(ms, sub.loungeId, sub.userId, nextId + 1, now);
  }

  /** The tables after `handle_checkout_completed`. */
  method CompletePlanCheckout(subs: seq<Subscription>, lsubs: seq<LoungeSubscription>, pays: seq<Payment>,
                              ms: seq<Membership>, nextId: int, session: CheckoutSessionObject,
                              retrieved: Result<StripeSubscription>, now: Time)
    returns (r: Result<Subscription>, subs': seq<Subscription>, ms': seq<Membership>, nextId': int)
    requires TablesValid(subs, lsubs, pays, ms, nextId)
    ensures TablesValid(subs', lsubs, pays, ms', nextId')
    ensures r.Success? <==> PlanCheckoutRow(subs, session, retrieved, nextId).Success?
    ensures r.Failure? ==> subs' == subs && ms' == ms && nextId' == nextId
    ensures r.Success? ==> r.value == PlanCheckoutRow(subs, session, retrieved, nextId).value.0
    ensures r.Success? ==> subs' == subs + [r.value] && nextId' == nextId + 2
    ensures r.Success? ==>
              var lounge := PlanCheckoutRow(subs, session, retrieved, nextId).value.1;
              ms' == (if Truthy(lounge) then EnsureMember(ms, lounge.value, r.value.userId, nextId + 1, now) else ms)
  {
    var row := PlanCheckoutRow(subs, session, retrieved, nextId);
    if row.Failure? {
      return Failure(row.error), subs, ms, nextId;
    }
    var sub := row.value.0;
    var lounge := row.value.1;
    ms' := if Truthy(lounge) then EnsureMember(ms, lounge.value, sub.userId, nextId + 1, now) else ms;
    PlanCheckoutKeepsValid(subs, lsubs, pays, ms, nextId, sub, lounge, now, ms');
    r, subs', nextId' := Success(sub), subs + [sub], nextId + 2;
  }

  /** The tables after `handle_lounge_checkout_completed`. */
  method CompleteLoungeCheckout(subs: seq<Subscription>, lsubs: seq<LoungeSubscription>, pays: seq<Payment>,
                                ms: seq<Membership>, nextId: int, session: CheckoutSessionObject,
                                retrieved: Result<StripeSubscription>, now: Time)
    returns (r: Result<LoungeSubscription>, lsubs': seq<LoungeSubscription>, ms': seq<Membership>, nextId': int)
    requires TablesValid(subs, lsubs, pays, ms, nextId)
    ensures TablesValid(subs, lsubs', pays, ms', nextId')
    ensures r.Success? <==> LoungeCheckoutRow(lsubs, session, retrieved, nextId, now).Success?
    ensures r.Failure? ==> lsubs' == lsubs && ms' == ms && nextId' == nextId
    ensures r.Success? ==>
              r.value == LoungeCheckoutRow(lsubs, session, retrieved, nextId, now).value
              && lsubs' == lsubs + [r.value] && nextId' == nextId + 2
              && ms' == EnsureMember(ms, r.value.loungeId, r.value.userId, nextId + 1, now)
  {
    var row := LoungeCheckoutRow(lsubs, session, retrieved, nextId, now);
    if row.Failure? {
      return Failure(row.error), lsubs, ms, nextId;
    }
    var sub := row.value;
    ms' := EnsureMember(ms, sub.loungeId, sub.userId, nextId + 1, now);
    LoungeCheckoutKeepsValid(subs, lsubs, pays, ms, nextId, sub, now);
    r, lsubs', nextId' := Success(sub), lsubs + [sub], nextId + 2;
  }

  /** The billing tables as the service sees them. One id sequence stands
      for every table's primary key. */
  // ----------------------------------------------------------------------
  // payment_intent.succeeded

  /** The user whose stored Stripe customer id is the intent's customer. */
  function CustomerUser(users: seq<UserModel.User>, customer: String): (r: Option<UserModel.User>)
    ensures r.Some? ==> r.value in users && r.value.stripeCustomerId == Some(customer)
    ensures r.None? ==> forall u :: u in users ==> u.stripeCustomerId != Some(customer)
  {
    match FindFirst(users, (u: UserModel.User) => u.stripeCustomerId == Some(customer))
    case None => None
    case Some(i) => Some(users[i])
  }

  /** The row `handle_payment_succeeded` builds for a given user. */
  function SucceededPayment(id: int, userId: int, intent: PaymentIntent, now: Time): Payment
  {
    Payment(id, userId, Stripe, intent.id, intent.amount, Upper(intent.currency), Succeeded, now)
  }

  /** Whether MySQL accepts inserting `p`: `payments.user_id` references
      `users.id` (models/billing.py:140) and `provider_payment_id` is unique
      (line 142). */
  predicate PaymentInsertAccepted(payments: seq<Payment>, users: seq<UserModel.User>, p: Payment)
  {
    UserModel.FindUser(users, p.userId).Some?
    && forall q :: q in payments ==> q.providerPaymentId != p.providerPaymentId
  }

  /** The payment `handle_payment_succeeded` commits as written: the row is
      built for user 0, and an insert MySQL refuses raises an IntegrityError
      that the handler logs and swallows, so nothing is committed then. */
  function RecordPaymentAsWritten(payments: seq<Payment>, users: seq<UserModel.User>, intent: PaymentIntent,
                                  id: int, now: Time): (r: Option<Payment>)
    ensures r.Some? ==> r.value.userId == 0 && UserModel.FindUser(users, 0).Some?
    ensures r.Some? <==> TruthyStr(intent.customer) && PaymentInsertAccepted(payments, users, SucceededPayment(id, 0, intent, now))
  {
    if !TruthyStr(intent.customer) then None
    else
      var p := SucceededPayment(id, 0, intent, now);
      if PaymentInsertAccepted(payments, users, p) then Some(p) else None
  }

  /** The payment committed as intended: linked to the user who carries the
      intent's Stripe customer id. A customer no user carries, or an intent
      already recorded, commits nothing. */
  function RecordPayment(payments: seq<Payment>, users: seq<UserModel.User>, intent: PaymentIntent,
                         id: int, now: Time): (r: Option<Payment>)
    ensures r.Some? <==>
              TruthyStr(intent.customer) && CustomerUser(users, intent.customer.value).Some?
              && forall q :: q in payments ==> q.providerPaymentId != intent.id
    ensures r.Some? ==>
              r.value == SucceededPayment(id, CustomerUser(users, intent.customer.value).value.id, intent, now)
              && PaymentInsertAccepted(payments, users, r.value)
    ensures r.Some? ==> exists u :: u in users && u.id == r.value.userId && u.stripeCustomerId == intent.customer
  {
    if !TruthyStr(intent.customer) then None
    else match CustomerUser(users, intent.customer.value)
      case None => None
      case Some(u) =>
        var p := SucceededPayment(id, u.id, intent, now);
        if forall q :: q in payments ==> q.providerPaymentId != intent.id then
          assert u in users;
          Some(p)
        else None
  }

  /** Users' ids come from an auto-increment column and start at 1, so the
      row for user 0 is always refused and, as written, no payment is ever
      recorded; the intended handler records it for the customer's user. */
  lemma PaymentLostAsWritten(payments: seq<Payment>, users: seq<UserModel.User>, intent: PaymentIntent,
                             id: int, now: Time)
    requires forall u :: u in users ==> u.id >= 1
    ensures RecordPaymentAsWritten(payments, users, intent, id, now) == None
    ensures TruthyStr(intent.customer) && CustomerUser(users, intent.customer.value).Some?
            && (forall q :: q in payments ==> q.providerPaymentId != intent.id)
            ==> RecordPayment(payments, users, intent, id, now).Some?
  {
  }

  class BillingStore {
    var plans: seq<SubscriptionPlan>
    var subscriptions: seq<Subscription>
    var payments: seq<Payment>
    var loungeSubscriptions: seq<LoungeSubscription>
    var memberships: seq<Membership>
    var nextId: int

    ghost predicate Valid()
      reads this
    {
      TablesValid(subscriptions, loungeSubscriptions, payments, memberships, nextId)
    }

    constructor (plans: seq<SubscriptionPlan>, memberships: seq<Membership>)
      requires OneActiveMembership(memberships)
      ensures Valid()
      ensures this.plans == plans && this.memberships == memberships
      ensures subscriptions == [] && payments == [] && loungeSubscriptions == []
    {
      this.plans := plans;
      this.memberships := memberships;
      subscriptions, payments, loungeSubscriptions := [], [], [];
      var top := 1;
      var k := 0;
      while k < |memberships|
        invariant 0 <= k <= |memberships|
        invariant top >= 1 && forall j :: 0 <= j < k ==> memberships[j].id < top
      {
        if memberships[k].id >= top { top := memberships[k].id + 1; }
        k := k + 1;
      }
      nextId := top;
    }

    /** `handle_checkout_completed`: an ACTIVE subscription for the metadata's
        user and plan, and, for a truthy lounge id, a MEMBER membership
        unless the user already has an active one. */
    method HandleCheckoutCompleted(session: CheckoutSessionObject, retrieved: Result<StripeSubscription>, now: Time)
      returns (r: Result<Subscription>)
      requires Valid()
      modifies this
      ensures Valid()
      ensures r.Success? <==> PlanCheckoutRow(old(subscriptions), session, retrieved, old(nextId)).Success?
      ensures r.Failure? ==>
                subscriptions == old(subscriptions) && memberships == old(memberships) && nextId == old(nextId)
      ensures r.Success? ==> r.value == PlanCheckoutRow(old(subscriptions), session, retrieved, old(nextId)).value.0
      ensures r.Success? ==> r.value.status == Active && subscriptions == old(subscriptions) + [r.value]
      ensures r.Success? ==>
                var lounge := PlanCheckoutRow(old(subscriptions), session, retrieved, old(nextId)).value.1;
                memberships == (if Truthy(lounge)
                                then EnsureMember(old(memberships), lounge.value, r.value.userId, old(nextId) + 1, now)
                                else old(memberships))
      ensures plans == old(plans) && payments == old(payments) && loungeSubscriptions == old(loungeSubscriptions)
    {
      var subs, ms, next;
      r, subs, ms, next := CompletePlanCheckout(subscriptions, loungeSubscriptions, payments, memberships, nextId,
                                                session, retrieved, now);
      subscriptions, memberships, nextId := subs, ms, next;
    }

    /** `handle_subscription_updated`: an unknown Stripe id changes nothing. */
    method HandleSubscriptionUpdated(e: StripeSubscription) returns (found: bool)
      requires Valid()
      modifies this
      ensures Valid()
      ensures found <==> FindByStripeId(old(subscriptions), e.id).Some?
      ensures subscriptions == UpdateSubscriptions(old(subscriptions), e)
      ensures found ==> subscriptions[FindByStripeId(old(subscriptions), e.id).value].status == StatusMap(e.status)
      ensures plans == old(plans) && payments == old(payments) && loungeSubscriptions == old(loungeSubscriptions)
      ensures memberships == old(memberships) && nextId == old(nextId)
    {
      found := FindByStripeId(subscriptions, e.id).Some?;
      subscriptions := UpdateSubscriptions(subscriptions, e);
    }

    /** `handle_payment_succeeded`, corrected: a SUCCEEDED Stripe payment
        with the currency upper-cased, recorded against the user who carries
        the intent's customer id. Without a customer, without such a user or
        for an intent already recorded, nothing is recorded. */
    method HandlePaymentSucceeded(intent: PaymentIntent, users: seq<UserModel.User>, now: Time) returns (recorded: bool)
      requires Valid()
      modifies this
      ensures Valid()
      ensures recorded <==> RecordPayment(old(payments), users, intent, old(nextId), now).Some?
      ensures recorded ==>
                payments == old(payments) + [RecordPayment(old(payments), users, intent, old(nextId), now).value]
                && nextId == old(nextId) + 1
      ensures !recorded ==> payments == old(payments) && nextId == old(nextId)
      ensures TruthyStr(intent.customer) && CustomerUser(users, intent.customer.value).Some? ==>
                exists p :: p in payments && p.providerPaymentId == intent.id
      ensures plans == old(plans) && subscriptions == old(subscriptions)
      ensures loungeSubscriptions == old(loungeSubscriptions) && memberships == old(memberships)
    {
      if !TruthyStr(intent.customer) {
        return false;
      }
      var owner := CustomerUser(users, intent.customer.value);
      if owner.None? {
        return false;
      }
      var dup := FindFirst(payments, (p: Payment) => p.providerPaymentId == intent.id);
      if dup.Some? {
        assert payments[dup.value] in payments;
        return false;
      }
      var p := SucceededPayment(nextId, owner.value.id, intent, now);
      assert p == RecordPayment(payments, users, intent, nextId, now).value;
      assert p in payments + [p];
      payments := payments + [p];
      nextId := nextId + 1;
      recorded := true;
    }

    /** `cancel_subscription`: the user's active subscription is canceled in
        Stripe (when it has a Stripe id), then either marked CANCELED now or
        left active with `canceled_at` set to its renewal date. */
    method CancelSubscription(userId: int, immediate: bool, stripeError: Option<String>, now: Time)
      returns (r: Attempt<Subscription>)
      requires Valid()
      modifies this
      ensures Valid()
      ensures r.Rejected? <==> UserSubscription(old(subscriptions), userId).None?
      ensures r.Rejected? ==> r.reason == NoActiveSubscription
      ensures r.Raised? <==>
                UserSubscription(old(subscriptions), userId).Some?
                && old(subscriptions)[UserSubscription(old(subscriptions), userId).value].stripeSubscriptionId != []
                && stripeError.Some?
      ensures r.Raised? ==> r.message == CancelFailed + stripeError.value
      ensures !r.Done? ==> subscriptions == old(subscriptions)
      ensures r.Done? ==>
                var i := UserSubscription(old(subscriptions), userId).value;
                var s := old(subscriptions)[i];
                r.value == (if immediate then s.(status := Canceled, canceledAt := Some(now))
                            else s.(canceledAt := Some(s.renewsAt)))
                && subscriptions == old(subscriptions)[i := r.value]
      ensures r.Done? && immediate ==> !StatusIsActive(r.value.status)
      ensures r.Done? && !immediate ==> StatusIsActive(r.value.status) && r.value.canceledAt == Some(r.value.renewsAt)
      ensures plans == old(plans) && payments == old(payments) && loungeSubscriptions == old(loungeSubscriptions)
      ensures memberships == old(memberships) && nextId == old(nextId)
    {
      var found := UserSubscription(subscriptions, userId);
      if found.None? {
        return Rejected(NoActiveSubscription);
      }
      var i := found.value;
      var s := subscriptions[i];
      if s.stripeSubscriptionId != [] && stripeError.Some? {
        return Raised(CancelFailed + stripeError.value);
      }
      var c := if immediate then s.(status := Canceled, canceledAt := Some(now)) else s.(canceledAt := Some(s.renewsAt));
      subscriptions := subscriptions[i := c];
      r := Done(c);
    }

    /** `handle_lounge_checkout_completed`: an ACTIVE lounge subscription
        for the metadata's user, lounge and plan, and a MEMBER membership
        unless the user already has an active one. */
    method HandleLoungeCheckoutCompleted(session: CheckoutSessionObject, retrieved: Result<StripeSubscription>, now: Time)
      returns (r: Result<LoungeSubscription>)
      requires Valid()
      modifies this
      ensures Valid()
      ensures r.Success? <==> LoungeCheckoutRow(old(loungeSubscriptions), session, retrieved, old(nextId), now).Success?
      ensures r.Failure? ==>
                loungeSubscriptions == old(loungeSubscriptions) && memberships == old(memberships) && nextId == old(nextId)
      ensures r.Success? ==>
                r.value == LoungeCheckoutRow(old(loungeSubscriptions), session, retrieved, old(nextId), now).value
                && loungeSubscriptions == old(loungeSubscriptions) + [r.value]
                && memberships == EnsureMember(old(memberships), r.value.loungeId, r.value.userId, old(nextId) + 1, now)
      ensures r.Success? ==>
                (StatusIsActive(r.value.status) && FindActiveMembership(memberships, r.value.loungeId, r.value.userId).Some?)
      ensures plans == old(plans) && subscriptions == old(subscriptions) && payments == old(payments)
    {
      var lsubs, ms, next;
      r, lsubs, ms, next := CompleteLoungeCheckout(subscriptions, loungeSubscriptions, payments, memberships, nextId,
                                                   session, retrieved, now);
      loungeSubscriptions, memberships, nextId := lsubs, ms, next;
    }

    /** `handle_lounge_subscription_updated` */
    method HandleLoungeSubscriptionUpdated(e: StripeSubscription, now: Time) returns (found: bool)
      requires Valid()
      modifies this
      ensures Valid()
      ensures found <==> FindLoungeByStripeId(old(loungeSubscriptions), e.id).Some?
      ensures (loungeSubscriptions, memberships) ==
                UpdateLoungeSubscriptions(old(loungeSubscriptions), old(memberships), e, now)
      ensures found && StatusMap(e.status) == Canceled ==>
                var s := loungeSubscriptions[FindLoungeByStripeId(old(loungeSubscriptions), e.id).value];
                FindActiveMembership(memberships, s.loungeId, s.userId).None?
                || old(loungeSubscriptions)[FindLoungeByStripeId(old(loungeSubscriptions), e.id).value].status == Canceled
      ensures plans == old(plans) && subscriptions == old(subscriptions) && payments == old(payments)
      ensures nextId == old(nextId)
    {
      found := FindLoungeByStripeId(loungeSubscriptions, e.id).Some?;
      var r := UpdateLoungeSubscriptions(loungeSubscriptions, memberships, e, now);
      loungeSubscriptions, memberships := r.0, r.1;
    }

    /** `cancel_lounge_subscription`: like `cancel_subscription`, for one
        lounge; an immediate cancellation also ends the membership. */
    method CancelLoungeSubscription(userId: int, loungeId: int, immediate: bool, stripeError: Option<String>, now: Time)
      returns (r: Attempt<LoungeSubscription>)
      requires Valid()
      modifies this
      ensures Valid()
      ensures r.Rejected? <==> UserLoungeSubscription(old(loungeSubscriptions), userId, loungeId).None?
      ensures r.Rejected? ==> r.reason == NoActiveLoungeSubscription
      ensures r.Raised? <==>
                UserLoungeSubscription(old(loungeSubscriptions), userId, loungeId).Some?
                && old(loungeSubscriptions)[UserLoungeSubscription(old(loungeSubscriptions), userId, loungeId).value]
                     .stripeSubscriptionId != []
                && stripeError.Some?
      ensures r.Raised? ==> r.message == CancelFailed + stripeError.value
      ensures !r.Done? ==> loungeSubscriptions == old(loungeSubscriptions) && memberships == old(memberships)
      ensures r.Done? ==>
                var i := UserLoungeSubscription(old(loungeSubscriptions), userId, loungeId).value;
                var s := old(loungeSubscriptions)[i];
                r.value == (if immediate then s.(status := Canceled, canceledAt := Some(now))
                            else s.(canceledAt := Some(s.renewsAt)))
                && loungeSubscriptions == old(loungeSubscriptions)[i := r.value]
                && memberships == (if immediate then EndMembership(old(memberships), loungeId, userId, now)
                                   else old(memberships))
      ensures r.Done? && immediate ==> FindActiveMembership(memberships, loungeId, userId).None?
      ensures r.Done? && !immediate ==> StatusIsActive(r.value.status)
      ensures plans == old(plans) && subscriptions == old(subscriptions) && payments == old(payments)
      ensures nextId == old(nextId)
    {
      var found := UserLoungeSubscription(loungeSubscriptions, userId, loungeId);
      if found.None? {
        return Rejected(NoActiveLoungeSubscription);
      }
      var i := found.value;
      var s := loungeSubscriptions[i];
      if s.stripeSubscriptionId != [] && stripeError.Some? {
        return Raised(CancelFailed + stripeError.value);
      }
      var c := if immediate then s.(status := Canceled, canceledAt := Some(now)) else s.(canceledAt := Some(s.renewsAt));
      loungeSubscriptions := loungeSubscriptions[i := c];
      if immediate {
        memberships := EndMembership(memberships, loungeId, userId, now);
      }
      r := Done(c);
    }

    /** `upgrade_lounge_subscription`: moves an active monthly subscription
        to the lounge's yearly price. `stripe` is the subscription Stripe
        returns after the change. */
    method UpgradeLoungeSubscription(userId: int, loungeId: int, lounges: seq<Lounge>, stripe: Result<StripeSubscription>)
      returns (r: Attempt<LoungeSubscription>)
      requires Valid()
      modifies this
      ensures Valid()
      ensures r.Rejected? <==> UpgradeRefusal(old(loungeSubscriptions), lounges, userId, loungeId).Some?
      ensures r.Rejected? ==> Some(r.reason) == UpgradeRefusal(old(loungeSubscriptions), lounges, userId, loungeId)
      ensures r.Raised? <==> UpgradeRefusal(old(loungeSubscriptions), lounges, userId, loungeId).None? && stripe.Failure?
      ensures r.Raised? ==> r.message == UpgradeFailed + stripe.error
      ensures !r.Done? ==> loungeSubscriptions == old(loungeSubscriptions)
      ensures r.Done? ==>
                var i := UserLoungeSubscription(old(loungeSubscriptions), userId, loungeId).value;
                var s := old(loungeSubscriptions)[i];
                var l := lounges[FindLounge(lounges, loungeId).value];
                s.planType == Monthly && r.value.planType == Yearly
                && Some(r.value.stripePriceId) == l.stripeYearlyPriceId
                && r.value.status == s.status && r.value.stripeSubscriptionId == s.stripeSubscriptionId
                && r.value.renewsAt == (if Truthy(PeriodEnd(stripe.value)) then PeriodEnd(stripe.value).value else s.renewsAt)
                && loungeSubscriptions == old(loungeSubscriptions)[i := r.value]
      ensures r.Done? ==> PriceCents(r.value.planType) == LoungeYearlyPriceCents
      ensures r.Done? ==> UpgradeRefusal(loungeSubscriptions, lounges, userId, loungeId) == Some(AlreadyYearly)
      ensures plans == old(plans) && subscriptions == old(subscriptions) && payments == old(payments)
      ensures memberships == old(memberships) && nextId == old(nextId)
    {
      var refusal := UpgradeRefusal(loungeSubscriptions, lounges, userId, loungeId);
      if refusal.Some? {
        return Rejected(refusal.value);
      }
      if stripe.Failure? {
        return Raised(UpgradeFailed + stripe.error);
      }
      var i := UserLoungeSubscription(loungeSubscriptions, userId, loungeId).value;
      var s := loungeSubscriptions[i];
      var l := lounges[FindLounge(lounges, loungeId).value];
      var end := PeriodEnd(stripe.value);
      var u := s.(planType := Yearly, stripePriceId := l.stripeYearlyPriceId.value,
                  renewsAt := if Truthy(end) then end.value else s.renewsAt);
      var before := loungeSubscriptions;
      LoungeRewriteKeepsValid(subscriptions, before, payments, memberships, nextId, i, u);
      loungeSubscriptions := loungeSubscriptions[i := u];
      FindFirstAgree(before, loungeSubscriptions,
                     (x: LoungeSubscription) => ActiveLoungeSubscriptionOf(x, userId, loungeId));
      r := Done(u);
    }
  }

  /** The checks of `upgrade_lounge_subscription` when the `Lounge` class
      maps the columns `mapped`: `Done` when the request goes on to Stripe.
      Reading `lounge.stripe_yearly_price_id` raises AttributeError when
      that column is not mapped. */
  function UpgradeChecksMapped(mapped: seq<String>, subs: seq<LoungeSubscription>, lounges: seq<Lounge>,
                               userId: int, loungeId: int): (r: Attempt<()>)
    ensures StripeYearlyPriceColumn in mapped ==>
              (r.Done? <==> UpgradeRefusal(subs, lounges, userId, loungeId).None?) && !r.Raised?
    ensures r.Rejected? ==> Some(r.reason) == UpgradeRefusal(subs, lounges, userId, loungeId)
    ensures StripeYearlyPriceColumn !in mapped ==>
              !r.Done?
              && (r.Raised? <==>
                    UserLoungeSubscription(subs, userId, loungeId).Some?
                    && subs[UserLoungeSubscription(subs, userId, loungeId).value].planType == Monthly
                    && FindLounge(lounges, loungeId).Some?)
              && (r.Raised? ==> r.message == NoLoungeAttribute(StripeYearlyPriceColumn))
  {
    match UserLoungeSubscription(subs, userId, loungeId)
    case None => Rejected(NoActiveLoungeSubscription)
    case Some(i) =>
      if subs[i].planType == Yearly then Rejected(AlreadyYearly)
      else match FindLounge(lounges, loungeId)
        case None => Rejected(LoungeNotFound)
        case Some(j) =>
          if StripeYearlyPriceColumn !in mapped then
            assert subs[i].planType == Monthly;
            assert UserLoungeSubscription(subs, userId, loungeId).value == i;
            Raised(NoLoungeAttribute(StripeYearlyPriceColumn))
          else if !TruthyStr(lounges[j].stripeYearlyPriceId) then Rejected(NoYearlyPrice)
          else Done(())
  }

  /** As written no upgrade ever reaches Stripe: a monthly subscription to
      an existing lounge raises; with the added columns mapped the checks
      are `UpgradeRefusal`'s. */
  lemma UpgradeRaisesAsWritten(subs: seq<LoungeSubscription>, lounges: seq<Lounge>, userId: int, loungeId: int)
    ensures var r := UpgradeChecksMapped(LoungeOrmColumns, subs, lounges, userId, loungeId);
            !r.Done? && (r.Raised? <==> UpgradeRefusal(subs, lounges, userId, loungeId) in {None, Some(NoYearlyPrice)})
    ensures var r := UpgradeChecksMapped(LoungeOrmColumns + AddedLoungeColumns, subs, lounges, userId, loungeId);
            (r.Done? <==> UpgradeRefusal(subs, lounges, userId, loungeId).None?) && !r.Raised?
  {
    StripeColumnsUnmapped();
  }

  /** Why `upgrade_lounge_subscription` refuses, in its order: no active
      subscription, already yearly, no lounge, no yearly price. */
  function UpgradeRefusal(subs: seq<LoungeSubscription>, lounges: seq<Lounge>, userId: int, loungeId: int)
    : (r: Option<String>)
    ensures r == Some(NoActiveLoungeSubscription) <==> UserLoungeSubscription(subs, userId, loungeId).None?
    ensures r.None? <==>
              UserLoungeSubscription(subs, userId, loungeId).Some?
              && subs[UserLoungeSubscription(subs, userId, loungeId).value].planType == Monthly
              && FindLounge(lounges, loungeId).Some?
              && TruthyStr(lounges[FindLounge(lounges, loungeId).value].stripeYearlyPriceId)
    ensures r.Some? ==> r.value in {NoActiveLoungeSubscription, AlreadyYearly, LoungeNotFound, NoYearlyPrice}
  {
    match UserLoungeSubscription(subs, userId, loungeId)
    case None => Some(NoActiveLoungeSubscription)
    case Some(i) =>
      if subs[i].planType == Yearly then Some(AlreadyYearly)
      else match FindLounge(lounges, loungeId)
        case None => Some(LoungeNotFound)
        case Some(j) =>
          if !TruthyStr(lounges[j].stripeYearlyPriceId) then Some(NoYearlyPrice)
          else
            assert subs[i].planType == Monthly;
            assert UserLoungeSubscription(subs, userId, loungeId).Some?;
            assert FindLounge(lounges, loungeId).value == j;
            None
  }
}
