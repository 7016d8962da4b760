/** Lounges and lounge memberships (app/db/models/lounge.py). */
module LoungeModel {
  import opened Common

  datatype AccessType = Free | Paid | InviteOnly
  datatype MembershipRole = MemberRole | CoMentor

  /** A lounge row. `about`, `brand_color` and the three Stripe columns are
      added by migrations 007 and 013 and used by the services, although the
      ORM class does not declare them. */
  datatype Lounge = Lounge(
    id: int,
    mentorId: int,
    title: String,
    slug: String,
    description: Option<String>,
    categoryId: Option<int>,
    accessType: AccessType,
    planId: Option<int>,
    maxMembers: Option<int>,
    isPublicListing: bool,
    profileImageId: Option<int>,
    createdAt: Time,
    about: Option<String>,
    brandColor: Option<String>,
    stripeProductId: Option<String>,
    stripeMonthlyPriceId: Option<String>,
    stripeYearlyPriceId: Option<String>)

  /** The columns the `Lounge` class maps. */
  const LoungeOrmColumns: seq<String> :=
    ["id", "mentor_id", "title", "slug", "description", "category_id", "access_type", "plan_id",
     "max_members", "is_public_listing", "profile_image_id", "created_at"]

  /** The columns migrations 007 and 013 add to the `lounges` table. */
  const AddedLoungeColumns: seq<String> :=
    ["stripe_product_id", "stripe_monthly_price_id", "stripe_yearly_price_id", "about", "brand_color"]

  const StripeProductColumn: String := "stripe_product_id"
  const StripeYearlyPriceColumn: String := "stripe_yearly_price_id"

  /** The message of the AttributeError raised by reading an attribute the
      `Lounge` class does not map. */
  function NoLoungeAttribute(name: String): String {
    "'Lounge' object has no attribute '" + name + "'"
  }

  /** None of the three Stripe columns is mapped; all are once the added
      columns are. */
  lemma StripeColumnsUnmapped()
    ensures StripeProductColumn !in LoungeOrmColumns && StripeYearlyPriceColumn !in LoungeOrmColumns
    ensures "stripe_monthly_price_id" !in LoungeOrmColumns
    ensures StripeProductColumn in LoungeOrmColumns + AddedLoungeColumns
    ensures StripeYearlyPriceColumn in LoungeOrmColumns + AddedLoungeColumns
    ensures "stripe_monthly_price_id" in LoungeOrmColumns + AddedLoungeColumns
  {
    assert (LoungeOrmColumns + AddedLoungeColumns)[12] == StripeProductColumn;
    assert (LoungeOrmColumns + AddedLoungeColumns)[13] == "stripe_monthly_price_id";
    assert (LoungeOrmColumns + AddedLoungeColumns)[14] == StripeYearlyPriceColumn;
  }

  /** A lounge row as inserted with the column defaults. */
  function NewLounge(id: int, mentorId: int, title: String, slug: String, now: Time): (l: Lounge)
    ensures l.accessType == Free && l.isPublicListing && l.maxMembers.None?
    ensures l.id == id && l.mentorId == mentorId && l.slug == slug
  {
    Lounge(id, mentorId, title, slug, None, None, Free, None, None, true, None, now,
           None, None, None, None, None)
  }

  datatype Membership = Membership(
    id: int,
    loungeId: int,
    userId: int,
    role: MembershipRole,
    joinedAt: Time,
    leftAt: Option<Time>)

  /** A membership row as inserted with the column defaults: role MEMBER, active. */
  function NewMembership(id: int, loungeId: int, userId: int, now: Time): (m: Membership)
    ensures m.role == MemberRole && IsActiveMembership(m)
    ensures m.loungeId == loungeId && m.userId == userId && m.joinedAt == now
  {
    Membership(id, loungeId, userId, MemberRole, now, None)
  }

  /** `LoungeMembership.is_active`: the member has not left. */
  predicate IsActiveMembership(m: Membership) { m.leftAt.None? }

  predicate ActiveIn(m: Membership, loungeId: int) {
    m.loungeId == loungeId && m.leftAt.None?
  }

  /** `Lounge.member_count`: the lounge's memberships that have not been left. */
  function MemberCount(memberships: seq<Membership>, loungeId: int): (n: nat)
    ensures n <= |memberships|
  {
    Count(memberships, (m: Membership) => ActiveIn(m, loungeId))
  }

  /** `Lounge.is_full`: never full without a cap, else full once the cap is reached. */
  predicate IsFull(l: Lounge, memberships: seq<Membership>) {
    if l.maxMembers.None? then false else MemberCount(memberships, l.id) >= l.maxMembers.value
  }

  lemma {:induction false} MemberCountAppend(ms: seq<Membership>, m: Membership, loungeId: int)
    ensures MemberCount(ms + [m], loungeId) == MemberCount(ms, loungeId) + (if ActiveIn(m, loungeId) then 1 else 0)
  {
    if ms == [] {
      assert ms + [m] == [m];
    } else {
      assert (ms + [m])[1..] == ms[1..] + [m];
      MemberCountAppend(ms[1..], m, loungeId);
    }
  }

  /** Members of other lounges and memberships already left do not count. */
  lemma {:induction false} MemberCountIgnoresOthers(ms: seq<Membership>, m: Membership, loungeId: int)
    requires m.loungeId != loungeId || m.leftAt.Some?
    ensures MemberCount(ms + [m], loungeId) == MemberCount(ms, loungeId)
  {
    MemberCountAppend(ms, m, loungeId);
  }

  /** A cap of zero makes a lounge full even with no members; only a missing
      cap means "unlimited". */
  lemma ZeroCapIsFull(l: Lounge, ms: seq<Membership>)
    requires l.maxMembers == Some(0)
    ensures IsFull(l, ms)
  {
  }

  /** Stamping `left_at` on a membership removes it from the count without deleting the row. */
  lemma {:induction false} LeavingDecrementsCount(ms: seq<Membership>, i: nat, now: Time)
    requires i < |ms| && ms[i].leftAt.None?
    ensures MemberCount(ms[i := ms[i].(leftAt := Some(now))], ms[i].loungeId)
            == MemberCount(ms, ms[i].loungeId) - 1
  {
    var lid := ms[i].loungeId;
    if i == 0 {
      assert ms[i := ms[i].(leftAt := Some(now))][1..] == ms[1..];
    } else {
      assert ms[i := ms[i].(leftAt := Some(now))][1..] == ms[1..][i - 1 := ms[i].(leftAt := Some(now))];
      LeavingDecrementsCount(ms[1..], i - 1, now);
    }
  }

  /** Deleting a mentor deletes their lounges (`cascade="all, delete-orphan"` on
      `Mentor.lounges`); other lounges are kept in order. */
  function CascadeDeleteMentor(lounges: seq<Lounge>, mentorId: int): (r: seq<Lounge>)
    ensures forall l :: l in r ==> l in lounges && l.mentorId != mentorId
    ensures forall l :: l in lounges && l.mentorId != mentorId ==> l in r
  {
    Filter(lounges, (l: Lounge) => l.mentorId != mentorId)
  }

  function FindLounge(ls: seq<Lounge>, id: int): (r: Option<nat>)
    ensures r.Some? ==> r.value < |ls| && ls[r.value].id == id
    ensures r.None? ==> forall l :: l in ls ==> l.id != id
  {
    FindFirst(ls, (l: Lounge) => l.id == id)
  }

  function FindLoungeBySlug(ls: seq<Lounge>, slug: String): (r: Option<nat>)
    ensures r.Some? ==> r.value < |ls| && ls[r.value].slug == slug
    ensures r.None? ==> forall l :: l in ls ==> l.slug != slug
  {
    FindFirst(ls, (l: Lounge) => l.slug == slug)
  }

  /** The active membership of a user in a lounge, if any. */
  function FindActiveMembership(ms: seq<Membership>, loungeId: int, userId: int): (r: Option<nat>)
    ensures r.Some? ==> r.value < |ms| && ms[r.value].loungeId == loungeId
                        && ms[r.value].userId == userId && ms[r.value].leftAt.None?
    ensures r.None? ==> forall m :: m in ms ==> !(m.loungeId == loungeId && m.userId == userId && m.leftAt.None?)
  {
    FindFirst(ms, (m: Membership) => m.loungeId == loungeId && m.userId == userId && m.leftAt.None?)
  }
}
