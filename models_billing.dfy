/** Plans, subscriptions, payments and per-lounge subscriptions
    (app/db/models/billing.py). Only the computed properties carry logic. */
module BillingModel {
  import opened Common

  datatype BillingInterval = MonthlyInterval | YearlyInterval
  datatype LoungePlanType = Monthly | Yearly
  datatype SubscriptionStatus = Trialing | Active | PastDue | Canceled
  datatype PaymentProvider = Stripe | Klarna | Afterpay
  datatype PaymentStatus = PaymentPending | Succeeded | Failed

  datatype SubscriptionPlan = SubscriptionPlan(
    id: int,
    name: String,
    slug: String,
    stripePriceId: String,
    priceCents: int,
    interval: BillingInterval,
    isActive: bool)

  datatype Subscription = Subscription(
    id: int,
    userId: int,
    planId: int,
    stripeSubscriptionId: String,
    status: SubscriptionStatus,
    startedAt: Time,
    renewsAt: Time,
    canceledAt: Option<Time>)

  datatype Payment = Payment(
    id: int,
    userId: int,
    provider: PaymentProvider,
    providerPaymentId: String,
    amountCents: int,
    currency: String,
    status: PaymentStatus,
    createdAt: Time)

  datatype LoungeSubscription = LoungeSubscription(
    id: int,
    userId: int,
    loungeId: int,
    planType: LoungePlanType,
    stripeSubscriptionId: String,
    stripePriceId: String,
    status: SubscriptionStatus,
    startedAt: Time,
    renewsAt: Time,
    canceledAt: Option<Time>)

  /** `SubscriptionStatus.value` */
  function StatusValue(s: SubscriptionStatus): (v: String)
    ensures StatusIsActive(s) <==> v == "active" || v == "trialing"
  {
    match s
    case Trialing => "trialing"
    case Active => "active"
    case PastDue => "past_due"
    case Canceled => "canceled"
  }

  /** `is_active` of both subscription kinds: TRIALING or ACTIVE. */
  predicate StatusIsActive(s: SubscriptionStatus) { s == Trialing || s == Active }

  /** `max(0, (renews_at - now).days)` when active, else 0. */
  function DaysUntilRenewal(status: SubscriptionStatus, renewsAt: Time, now: Time): (d: nat)
    ensures !StatusIsActive(status) ==> d == 0
    ensures StatusIsActive(status) && renewsAt - now >= 0 ==>
              d * SecondsPerDay <= renewsAt - now < (d + 1) * SecondsPerDay
    ensures StatusIsActive(status) && renewsAt - now < SecondsPerDay ==> d == 0
  {
    if !StatusIsActive(status) then 0 else Max(0, DaysOf(renewsAt - now))
  }

  function SubscriptionDaysUntilRenewal(s: Subscription, now: Time): nat {
    DaysUntilRenewal(s.status, s.renewsAt, now)
  }

  function LoungeSubscriptionDaysUntilRenewal(s: LoungeSubscription, now: Time): nat {
    DaysUntilRenewal(s.status, s.renewsAt, now)
  }

  /** Prices of the per-lounge plans, in cents. */
  const MonthlyPriceCents: int := 2500
  const YearlyPriceCents: int := 24000

  /** `LoungeSubscription.price_cents` */
  function PriceCents(p: LoungePlanType): (c: int)
    ensures c == (if p == Monthly then MonthlyPriceCents else YearlyPriceCents)
    ensures c > 0
  {
    if p == Monthly then 2500 else 24000
  }

  /** A yearly plan costs less than twelve monthly payments. */
  lemma YearlyIsCheaper()
    ensures PriceCents(Yearly) < 12 * PriceCents(Monthly)
  {
  }

  /** Defaults applied on insert. */
  function NewSubscription(id: int, userId: int, planId: int, stripeId: String, now: Time, renewsAt: Time): (s: Subscription)
    ensures s.status == Trialing && StatusIsActive(s.status) && s.canceledAt.None?
    ensures s.userId == userId && s.planId == planId && s.stripeSubscriptionId == stripeId
  {
    Subscription(id, userId, planId, stripeId, Trialing, now, renewsAt, None)
  }

  function NewPayment(id: int, userId: int, provider: PaymentProvider, providerId: String, amount: int, now: Time): (p: Payment)
    ensures p.status == PaymentPending && p.currency == "USD"
    ensures p.userId == userId && p.amountCents == amount
  {
    Payment(id, userId, provider, providerId, amount, "USD", PaymentPending, now)
  }

  function NewLoungeSubscription(id: int, userId: int, loungeId: int, plan: LoungePlanType,
                                 stripeId: String, priceId: String, now: Time, renewsAt: Time): (s: LoungeSubscription)
    ensures s.status == Active && StatusIsActive(s.status) && s.canceledAt.None?
    ensures s.userId == userId && s.loungeId == loungeId && s.planType == plan
  {
    LoungeSubscription(id, userId, loungeId, plan, stripeId, priceId, Active, now, renewsAt, None)
  }

  /** An active subscription reports 0 days exactly when renewal is less than a day away. */
  lemma DaysUntilRenewalZeroIffDue(status: SubscriptionStatus, renewsAt: Time, now: Time)
    requires StatusIsActive(status)
    ensures DaysUntilRenewal(status, renewsAt, now) == 0 <==> renewsAt - now < SecondsPerDay
  {
  }
}
