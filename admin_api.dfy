// The admin dashboard of app/api/v1/admin.py: platform statistics, the user
// list and its role and delete actions, the activity and revenue reports,
// pending mentor applications and the CSV export of the users table. The
// admin check is the token dependency (Jwt.CurrentAdmin); every route here
// receives the signed-in admin's id and the current time.

module AdminApi {
  import opened Common
  import opened UserModel
  import Calendar
  import Csv
  import MentorModel
  import LoungeModel
  import NoteModel
  import ChatModel
  import BillingModel

  type Payment = BillingModel.Payment
  type Subscription = BillingModel.Subscription

  const UserNotFound: String := "User not found"
  const CannotDeleteSelf: String := "Cannot delete yourself"

  function InvalidRole(role: String): String { "Invalid role: " + role }

  // ----------------------------------------------------------------------
  // Aggregates
  // ----------------------------------------------------------------------

  /** `SUM(amount_cents)` over the payments `p` selects, `or 0`: an empty sum
      (SQL NULL) and a zero sum both give 0. */
  function SumCents(ps: seq<Payment>, p: Payment -> bool): int
  {
    if ps == [] then 0 else (if p(ps[0]) then ps[0].amountCents else 0) + SumCents(ps[1..], p)
  }

  /** Summing over a payment appended at the end. */
  lemma {:induction false} SumCentsSnoc(ps: seq<Payment>, x: Payment, p: Payment -> bool)
    ensures SumCents(ps + [x], p) == SumCents(ps, p) + (if p(x) then x.amountCents else 0)
  {
    if ps != [] {
      assert (ps + [x])[1..] == ps[1..] + [x];
      SumCentsSnoc(ps[1..], x, p);
    }
  }

  /** Two disjoint conditions sum to what their disjunction sums to. */
  lemma {:induction false} SumCentsSplit(ps: seq<Payment>, p: Payment -> bool, q: Payment -> bool, pq: Payment -> bool)
    requires forall x :: pq(x) == (p(x) || q(x)) && !(p(x) && q(x))
    ensures SumCents(ps, p) + SumCents(ps, q) == SumCents(ps, pq)
  {
    if ps != [] {
      SumCentsSplit(ps[1..], p, q, pq);
    }
  }

  /** Two disjoint conditions count what their disjunction counts. */
  lemma {:induction false} CountSplit<T>(s: seq<T>, p: T -> bool, q: T -> bool, pq: T -> bool)
    requires forall x :: pq(x) == (p(x) || q(x)) && !(p(x) && q(x))
    ensures Count(s, p) + Count(s, q) == Count(s, pq)
  {
    if s != [] {
      CountSplit(s[1..], p, q, pq);
    }
  }

  /** The distinct ids of a table of users are no more than its rows. */
  lemma {:induction false} UserIdsCard(users: seq<User>)
    ensures |set u | u in users :: u.id| <= |users|
  {
    if users != [] {
      UserIdsCard(users[1..]);
      var all := set u | u in users :: u.id;
      var rest := set u | u in users[1..] :: u.id;
      assert all <= {users[0].id} + rest by {
        forall id | id in all ensures id in {users[0].id} + rest {
          var u :| u in users && u.id == id;
          if u != users[0] {
            var k :| 0 <= k < |users| && users[k] == u;
            assert users[1..][k - 1] == u;
          }
        }
      }
      SubsetCard(all, {users[0].id} + rest);
    }
  }

  // ----------------------------------------------------------------------
  // GET /admin/stats
  // ----------------------------------------------------------------------

  datatype SystemStats = SystemStats(
    totalUsers: nat,
    totalMentors: nat,
    totalLounges: nat,
    totalSubscriptions: nat,
    totalRevenueCents: int,
    activeUsers30d: nat,
    newUsers7d: nat,
    userGrowthRate: real,
    revenueGrowthRate: real)

  predicate Succeeded(p: Payment) { p.status == BillingModel.Succeeded }

  /** `Subscription.status IN (ACTIVE, TRIALING)` */
  predicate Live(s: Subscription) { BillingModel.StatusIsActive(s.status) }

  function CreatedSince(since: Time): User -> bool {
    (u: User) => u.createdAt >= since
  }

  /** `COUNT(DISTINCT chat_messages.user_id)` over the messages since
      `since`: NULL senders (AI replies) are not counted. */
  function MessageSenders(messages: seq<ChatModel.ChatMessage>, since: Time): set<int> {
    set m | m in messages && m.createdAt >= since && m.userId.Some? :: m.userId.value
  }

  /** `get_system_stats`: table sizes, live subscriptions, succeeded revenue,
      distinct senders of the last 30 days and sign-ups of the last 7; both
      growth rates are the constant 0.0. */
  function SystemStatsOf(users: seq<User>, mentors: seq<MentorModel.Mentor>, lounges: seq<LoungeModel.Lounge>,
                         subs: seq<Subscription>, payments: seq<Payment>, messages: seq<ChatModel.ChatMessage>,
                         now: Time): (r: SystemStats)
    ensures r.totalUsers == |users| && r.totalMentors == |mentors| && r.totalLounges == |lounges|
    ensures r.totalSubscriptions <= |subs| && r.newUsers7d <= |users|
    ensures r.userGrowthRate == 0.0 && r.revenueGrowthRate == 0.0
  {
    SystemStats(
      |users|, |mentors|, |lounges|,
      Count(subs, Live),
      SumCents(payments, Succeeded),
      |MessageSenders(messages, now - 30 * SecondsPerDay)|,
      Count(users, CreatedSince(now - 7 * SecondsPerDay)),
      0.0, 0.0)
  }

  /** Only succeeded payments count toward revenue: a pending or failed
      payment leaves the total as it was, a succeeded one adds its amount. */
  lemma StatsRevenueSucceededOnly(users: seq<User>, mentors: seq<MentorModel.Mentor>, lounges: seq<LoungeModel.Lounge>,
                                  subs: seq<Subscription>, payments: seq<Payment>, messages: seq<ChatModel.ChatMessage>,
                                  now: Time, x: Payment)
    ensures SystemStatsOf(users, mentors, lounges, subs, payments + [x], messages, now).totalRevenueCents ==
            SystemStatsOf(users, mentors, lounges, subs, payments, messages, now).totalRevenueCents +
            (if x.status == BillingModel.Succeeded then x.amountCents else 0)
  {
    SumCentsSnoc(payments, x, Succeeded);
  }

  /** Active users are distinct senders: never more than the messages of
      the window, and, since every sender is a user (foreign key), never
      more than the users. */
  lemma StatsActiveUsersBounded(users: seq<User>, mentors: seq<MentorModel.Mentor>, lounges: seq<LoungeModel.Lounge>,
                                subs: seq<Subscription>, payments: seq<Payment>, messages: seq<ChatModel.ChatMessage>,
                                now: Time)
    requires forall m :: m in messages && m.userId.Some? ==> exists u :: u in users && u.id == m.userId.value
    ensures SystemStatsOf(users, mentors, lounges, subs, payments, messages, now).activeUsers30d <= |users|
  {
    var senders := MessageSenders(messages, now - 30 * SecondsPerDay);
    var ids := set u | u in users :: u.id;
    assert senders <= ids by {
      forall id | id in senders ensures id in ids {
        var m :| m in messages && m.createdAt >= now - 30 * SecondsPerDay && m.userId.Some? && m.userId.value == id;
        var u :| u in users && u.id == m.userId.value;
      }
    }
    UserIdsCard(users);
    SubsetCard(senders, ids);
  }

  lemma SubsetCard(a: set<int>, b: set<int>)
    requires a <= b
    ensures |a| <= |b|
  {
    assert b == a + (b - a);
  }

  // ----------------------------------------------------------------------
  // GET /admin/users
  // ----------------------------------------------------------------------

  /** One entry of the user list: `UserManagementResponse`. */
  datatype UserRow = UserRow(
    id: int,
    email: String,
    name: String,
    role: String,
    emailVerifiedAt: Option<Time>,
    createdAt: Time,
    loungeCount: nat,
    noteCount: nat,
    subscriptionStatus: Option<String>)

  /** The WHERE clause of `list_users`: a non-empty `role` must equal the
      role's value; a non-empty `search` must occur, ignoring case, in the
      e-mail address or the name. */
  function UserMatches(role: Option<String>, search: Option<String>): User -> bool {
    (u: User) =>
      (!TruthyStr(role) || RoleValue(u.role) == role.value) &&
      (!TruthyStr(search) || ILike(u.email, search.value) || ILike(u.name, search.value))
  }

  function ByCreatedDesc(u: User): Key { (u.createdAt, 0) }

  /** `query.order_by(User.created_at.desc()).offset(skip).limit(limit)` */
  function ListedUsers(users: seq<User>, role: Option<String>, search: Option<String>, skip: nat, limit: nat): seq<User> {
    Page(SortDesc(Filter(users, UserMatches(role, search)), ByCreatedDesc), skip, limit)
  }

  function ActiveMembershipOf(userId: int): LoungeModel.Membership -> bool {
    (m: LoungeModel.Membership) => m.userId == userId && m.leftAt.None?
  }

  function NoteOf(userId: int): NoteModel.Note -> bool {
    (n: NoteModel.Note) => n.userId == userId
  }

  function LiveSubscriptionOf(userId: int): Subscription -> bool {
    (s: Subscription) => s.userId == userId && Live(s)
  }

  /** The row of one listed user: lounges not left, notes, and the status
      of the user's first live subscription. */
  function UserRowOf(u: User, memberships: seq<LoungeModel.Membership>, notes: seq<NoteModel.Note>,
                     subs: seq<Subscription>): (r: UserRow)
    ensures r.id == u.id && r.email == u.email && r.name == u.name && r.role == RoleValue(u.role)
    ensures r.subscriptionStatus.None? <==> forall s :: s in subs ==> !(s.userId == u.id && Live(s))
    ensures r.subscriptionStatus.Some? ==> r.subscriptionStatus.value in {"active", "trialing"}
    ensures r.loungeCount <= |memberships| && r.noteCount <= |notes|
  {
    var live := FindFirst(subs, LiveSubscriptionOf(u.id));
    UserRow(u.id, u.email, u.name, RoleValue(u.role), u.emailVerifiedAt, u.createdAt,
            Count(memberships, ActiveMembershipOf(u.id)), Count(notes, NoteOf(u.id)),
            if live.Some? then Some(BillingModel.StatusValue(subs[live.value].status)) else None)
  }

  /** `list_users`: the page of matching users, newest first, each with its
      counts, built one row per listed user. */
  method ListUsers(users: seq<User>, memberships: seq<LoungeModel.Membership>, notes: seq<NoteModel.Note>,
                   subs: seq<Subscription>, skip: nat, limit: nat, role: Option<String>, search: Option<String>)
    returns (r: seq<UserRow>)
    ensures |r| == |ListedUsers(users, role, search, skip, limit)|
    ensures forall k :: 0 <= k < |r| ==>
              r[k] == UserRowOf(ListedUsers(users, role, search, skip, limit)[k], memberships, notes, subs)
  {
    var listed := ListedUsers(users, role, search, skip, limit);
    r := [];
    for k := 0 to |listed|
      invariant |r| == k
      invariant forall j :: 0 <= j < k ==> r[j] == UserRowOf(listed[j], memberships, notes, subs)
    {
      r := r + [UserRowOf(listed[k], memberships, notes, subs)];
    }
  }

  /** The listed users are at most `limit` matching users, newest first. */
  lemma ListedUsersSound(users: seq<User>, role: Option<String>, search: Option<String>, skip: nat, limit: nat)
    ensures var l := ListedUsers(users, role, search, skip, limit);
            |l| <= limit &&
            (forall k :: 0 <= k < |l| ==> l[k] in users && UserMatches(role, search)(l[k])) &&
            SortedDesc(l, ByCreatedDesc)
  {
    var matching := Filter(users, UserMatches(role, search));
    var sorted := SortDesc(matching, ByCreatedDesc);
    SortDescFacts(matching, ByCreatedDesc);
    var l := Page(sorted, skip, limit);
    forall k | 0 <= k < |l| ensures l[k] in users && UserMatches(role, search)(l[k]) {
      assert l[k] == sorted[skip + k];
      assert l[k] in multiset(sorted);
      assert l[k] in multiset(matching);
    }
    SortedSlice(sorted, ByCreatedDesc, skip, limit);
  }

  /** Without filters and with room for everyone, the first page lists the
      whole table. */
  lemma ListedUsersAll(users: seq<User>, role: Option<String>, search: Option<String>, limit: nat)
    requires !TruthyStr(role) && !TruthyStr(search) && limit >= |users|
    ensures multiset(ListedUsers(users, role, search, 0, limit)) == multiset(users)
  {
    FilterTrue(users, UserMatches(role, search));
    var sorted := SortDesc(users, ByCreatedDesc);
    SortDescFacts(users, ByCreatedDesc);
    if sorted != [] {
      assert Page(sorted, 0, limit) == sorted[0..|sorted|] == sorted;
    }
  }

  // ----------------------------------------------------------------------
  // PUT /admin/users/{user_id}/role and DELETE /admin/users/{user_id}
  // ----------------------------------------------------------------------

  function FindUserIndex(users: seq<User>, userId: int): (r: Option<nat>)
    ensures r.Some? ==> r.value < |users| && users[r.value].id == userId
    ensures r.None? ==> forall u :: u in users ==> u.id != userId
  {
    FindFirst(users, (u: User) => u.id == userId)
  }

  /** `update_user_role` on the table: 404 for an unknown user, 400 for a
      role that is not a `UserRole` value; otherwise the role is replaced
      (and `updated_at` refreshed by the column's `onupdate`). The answer
      reports zero counts and no subscription. */
  function RoleUpdate(users: seq<User>, userId: int, role: String, now: Time): (r: Outcome<(UserRow, seq<User>)>)
    ensures r == HttpError(404, UserNotFound) <==> FindUserIndex(users, userId).None?
    ensures r == HttpError(400, InvalidRole(role)) <==> FindUserIndex(users, userId).Some? && ParseRole(role).None?
    ensures r.Ok? ==> var i := FindUserIndex(users, userId).value;
                      r.value.1 == users[i := users[i].(role := ParseRole(role).value, updatedAt := now)] &&
                      RoleValue(r.value.1[i].role) == role &&
                      r.value.0 == UserRow(userId, users[i].email, users[i].name, role, users[i].emailVerifiedAt,
                                           users[i].createdAt, 0, 0, None)
  {
    match FindUserIndex(users, userId)
    case None => HttpError(404, UserNotFound)
    case Some(i) =>
      match ParseRole(role)
      case None => HttpError(400, InvalidRole(role))
      case Some(newRole) =>
        ParseRoleValueBack(role);
        var u := users[i].(role := newRole, updatedAt := now);
        Ok((UserRow(u.id, u.email, u.name, RoleValue(u.role), u.emailVerifiedAt, u.createdAt, 0, 0, None),
            users[i := u]))
  }

  lemma ParseRoleValueBack(s: String)
    requires ParseRole(s).Some?
    ensures RoleValue(ParseRole(s).value) == s
  {
    ParseRoleExactlyValues(s);
  }

  /** Setting a role is idempotent: setting it again leaves the table as
      the first update left it, up to the timestamp. */
  lemma RoleUpdateIdempotent(users: seq<User>, userId: int, role: String, now: Time, later: Time)
    requires RoleUpdate(users, userId, role, now).Ok?
    ensures var t := RoleUpdate(users, userId, role, now).value.1;
            RoleUpdate(t, userId, role, later).Ok? &&
            RoleUpdate(t, userId, role, later).value.1 == users[FindUserIndex(users, userId).value :=
              t[FindUserIndex(users, userId).value].(updatedAt := later)]
  {
    var i := FindUserIndex(users, userId).value;
    var t := RoleUpdate(users, userId, role, now).value.1;
    FindFirstAgree(users, t, (u: User) => u.id == userId);
  }

  /** `delete_user` on the table: 404 for an unknown user, 400 when the
      admin targets their own account, otherwise the row is removed. */
  function Deletion(users: seq<User>, adminId: int, userId: int): (r: Outcome<seq<User>>)
    ensures r == HttpError(404, UserNotFound) <==> FindUserIndex(users, userId).None?
    ensures r == HttpError(400, CannotDeleteSelf) <==> FindUserIndex(users, userId).Some? && userId == adminId
    ensures r.Ok? ==> userId != adminId &&
                      r.value == RemoveAt(users, FindUserIndex(users, userId).value)
  {
    match FindUserIndex(users, userId)
    case None => HttpError(404, UserNotFound)
    case Some(i) =>
      if users[i].id == adminId then HttpError(400, CannotDeleteSelf)
      else Ok(RemoveAt(users, i))
  }

  /** An admin never deletes their own row, and with unique ids a deleted
      user is gone while every other user stays. */
  lemma DeletionSound(users: seq<User>, adminId: int, userId: int)
    requires UniqueUserIds(users)
    requires Deletion(users, adminId, userId).Ok?
    ensures var t := Deletion(users, adminId, userId).value;
            |t| == |users| - 1 &&
            FindUser(t, userId).None? &&
            (forall u :: u in users && u.id != userId ==> u in t) &&
            (FindUser(users, adminId).Some? ==> FindUser(t, adminId).Some?)
  {
    var i := FindUserIndex(users, userId).value;
    var t := RemoveAt(users, i);
    forall u | u in t ensures u.id != userId {
      var k :| 0 <= k < |t| && t[k] == u;
      if k < i { assert t[k] == users[k]; } else { assert t[k] == users[k + 1]; }
    }
    forall u | u in users && u.id != userId ensures u in t {
      var k :| 0 <= k < |users| && users[k] == u;
      if k < i { assert t[k] == u; } else { assert k != i; assert t[k - 1] == u; }
    }
  }

  ghost predicate UniqueUserIds(users: seq<User>) {
    forall i, j :: 0 <= i < j < |users| ==> users[i].id != users[j].id
  }

  /** The users table the admin actions change. */
  class UserAdmin {
    var users: seq<User>

    ghost predicate Valid()
      reads this
    {
      UniqueUserIds(users)
    }

    constructor(initial: seq<User>)
      requires UniqueUserIds(initial)
      ensures Valid() && users == initial
    {
      users := initial;
    }

    /** `PUT /admin/users/{user_id}/role` */
    method UpdateUserRole(userId: int, role: String, now: Time) returns (r: Outcome<UserRow>)
      requires Valid()
      modifies this
      ensures Valid()
      ensures var out := RoleUpdate(old(users), userId, role, now);
              (out.HttpError? ==> r == HttpError(out.status, out.detail) && users == old(users)) &&
              (out.Ok? ==> r == Ok(out.value.0) && users == out.value.1)
    {
      var out := RoleUpdate(users, userId, role, now);
      if out.HttpError? {
        return HttpError(out.status, out.detail);
      }
      assert UniqueUserIds(out.value.1) by {
        forall i, j | 0 <= i < j < |out.value.1| ensures out.value.1[i].id != out.value.1[j].id {
          assert out.value.1[i].id == users[i].id && out.value.1[j].id == users[j].id;
        }
      }
      users := out.value.1;
      r := Ok(out.value.0);
    }

    /** `DELETE /admin/users/{user_id}` (204 on success) */
    method DeleteUser(adminId: int, userId: int) returns (r: Outcome<()>)
      requires Valid()
      modifies this
      ensures Valid()
      ensures var out := Deletion(old(users), adminId, userId);
              (out.HttpError? ==> r == HttpError(out.status, out.detail) && users == old(users)) &&
              (out.Ok? ==> r == Ok(()) && users == out.value)
    {
      var out := Deletion(users, adminId, userId);
      if out.HttpError? {
        return HttpError(out.status, out.detail);
      }
      var i := FindUserIndex(users, userId).value;
      assert UniqueUserIds(out.value) by {
        forall a, b | 0 <= a < b < |out.value| ensures out.value[a].id != out.value[b].id {
          var a' := if a < i then a else a + 1;
          var b' := if b < i then b else b + 1;
          assert out.value[a] == users[a'] && out.value[b] == users[b'];
        }
      }
      users := out.value;
      r := Ok(());
    }
  }

  // ----------------------------------------------------------------------
  // GET /admin/activity
  // ----------------------------------------------------------------------

  const ActivityLimit: nat := 50

  /** `ChatMessage.user_id == user_id AND ChatMessage.created_at >= since` */
  function RecentMessageOf(userId: int, since: Time): ChatModel.ChatMessage -> bool {
    (m: ChatModel.ChatMessage) => m.userId == Some(userId) && m.createdAt >= since
  }

  function NoteSince(userId: int, since: Time): NoteModel.Note -> bool {
    (n: NoteModel.Note) => n.userId == userId && n.createdAt >= since
  }

  /** Memberships joined since `since`, whether or not they were left. */
  function JoinedSince(userId: int, since: Time): LoungeModel.Membership -> bool {
    (m: LoungeModel.Membership) => m.userId == userId && m.joinedAt >= since
  }

  /** `MAX(created_at)` over a non-empty set of messages. */
  function Latest(ms: seq<ChatModel.ChatMessage>): (t: Time)
    requires ms != []
    ensures exists k :: 0 <= k < |ms| && ms[k].createdAt == t
    ensures forall k :: 0 <= k < |ms| ==> ms[k].createdAt <= t
  {
    if |ms| == 1 then ms[0].createdAt else Max(ms[0].createdAt, Latest(ms[1..]))
  }

  /** The user has a message since `since`: the join yields a group for them. */
  predicate ActiveSince(u: User, messages: seq<ChatModel.ChatMessage>, since: Time) {
    Count(messages, RecentMessageOf(u.id, since)) > 0
  }

  /** One group of the joined query: a user and their latest message since `since`. */
  datatype ActiveUser = ActiveUser(id: int, name: String, email: String, lastActive: Time)

  function ActiveUserOf(u: User, messages: seq<ChatModel.ChatMessage>, since: Time): (a: ActiveUser)
    requires ActiveSince(u, messages, since)
    ensures a.id == u.id && a.name == u.name && a.email == u.email && a.lastActive >= since
    ensures exists m :: m in messages && RecentMessageOf(u.id, since)(m) && m.createdAt == a.lastActive
    ensures forall m :: m in messages && RecentMessageOf(u.id, since)(m) ==> m.createdAt <= a.lastActive
  {
    var recent := Filter(messages, RecentMessageOf(u.id, since));
    FilterCount(messages, RecentMessageOf(u.id, since));
    var t := Latest(recent);
    assert forall m :: m in messages && RecentMessageOf(u.id, since)(m) ==> m.createdAt <= t by {
      forall m | m in messages && RecentMessageOf(u.id, since)(m) ensures m.createdAt <= t {
        var k :| 0 <= k < |recent| && recent[k] == m;
      }
    }
    ActiveUser(u.id, u.name, u.email, t)
  }

  /** `users JOIN chat_messages ... WHERE created_at >= since GROUP BY users.id`:
      one group per user with a message since `since`, in table order. */
  function Grouped(users: seq<User>, messages: seq<ChatModel.ChatMessage>, since: Time): (r: seq<ActiveUser>)
    ensures |r| <= |users|
  {
    if users == [] then []
    else if ActiveSince(users[0], messages, since) then
      [ActiveUserOf(users[0], messages, since)] + Grouped(users[1..], messages, since)
    else Grouped(users[1..], messages, since)
  }

  /** Each group belongs to an active user, and every active user has one. */
  lemma GroupedSound(users: seq<User>, messages: seq<ChatModel.ChatMessage>, since: Time)
    ensures forall a :: a in Grouped(users, messages, since) ==>
              exists j :: 0 <= j < |users| && ActiveSince(users[j], messages, since) &&
                          a == ActiveUserOf(users[j], messages, since)
    ensures forall j :: 0 <= j < |users| && ActiveSince(users[j], messages, since) ==>
              ActiveUserOf(users[j], messages, since) in Grouped(users, messages, since)
  {
    GroupsAreActiveUsers(users, messages, since);
    ActiveUsersHaveGroups(users, messages, since);
  }

  lemma {:induction false} GroupsAreActiveUsers(users: seq<User>, messages: seq<ChatModel.ChatMessage>, since: Time)
    ensures forall a :: a in Grouped(users, messages, since) ==>
              exists j :: 0 <= j < |users| && ActiveSince(users[j], messages, since) &&
                          a == ActiveUserOf(users[j], messages, since)
  {
    forall a | a in Grouped(users, messages, since)
      ensures exists j :: 0 <= j < |users| && ActiveSince(users[j], messages, since) &&
                          a == ActiveUserOf(users[j], messages, since)
    {
      var j := GroupOwner(users, messages, since, a);
    }
  }

  /** The user a group was made for. */
  lemma {:induction false} GroupOwner(users: seq<User>, messages: seq<ChatModel.ChatMessage>, since: Time, a: ActiveUser)
    returns (j: nat)
    requires a in Grouped(users, messages, since)
    ensures j < |users| && ActiveSince(users[j], messages, since) && a == ActiveUserOf(users[j], messages, since)
  {
    if ActiveSince(users[0], messages, since) && a == ActiveUserOf(users[0], messages, since) {
      j := 0;
    } else {
      assert a in Grouped(users[1..], messages, since);
      var k := GroupOwner(users[1..], messages, since, a);
      assert users[k + 1] == users[1..][k];
      j := k + 1;
    }
  }

  lemma {:induction false} ActiveUsersHaveGroups(users: seq<User>, messages: seq<ChatModel.ChatMessage>, since: Time)
    ensures forall j :: 0 <= j < |users| && ActiveSince(users[j], messages, since) ==>
              ActiveUserOf(users[j], messages, since) in Grouped(users, messages, since)
  {
    if users != [] {
      ActiveUsersHaveGroups(users[1..], messages, since);
      var g := Grouped(users, messages, since);
      var rest := Grouped(users[1..], messages, since);
      assert forall a :: a in rest ==> a in g;
      forall j | 0 <= j < |users| && ActiveSince(users[j], messages, since)
        ensures ActiveUserOf(users[j], messages, since) in g
      {
        if j > 0 {
          assert users[j] == users[1..][j - 1];
          assert ActiveUserOf(users[1..][j - 1], messages, since) in rest;
        }
      }
    }
  }

  function ByLastActiveDesc(a: ActiveUser): Key { (a.lastActive, 0) }

  /** `ORDER BY MAX(created_at) DESC LIMIT 50` */
  function ActivityLeaders(users: seq<User>, messages: seq<ChatModel.ChatMessage>, since: Time): seq<ActiveUser> {
    Take(SortDesc(Grouped(users, messages, since), ByLastActiveDesc), ActivityLimit)
  }

  /** One entry of the activity report: `UserActivityResponse`. */
  datatype ActivityRow = ActivityRow(
    userId: int,
    userName: String,
    userEmail: String,
    lastActive: Time,
    totalMessages: nat,
    totalNotes: nat,
    totalLounges: nat)

  function ActivityRowOf(a: ActiveUser, messages: seq<ChatModel.ChatMessage>, notes: seq<NoteModel.Note>,
                         memberships: seq<LoungeModel.Membership>, since: Time): ActivityRow
  {
    ActivityRow(a.id, a.name, a.email, a.lastActive,
                Count(messages, RecentMessageOf(a.id, since)),
                Count(notes, NoteSince(a.id, since)),
                Count(memberships, JoinedSince(a.id, since)))
  }

  /** `now - timedelta(days=days)` */
  function DaysAgo(now: Time, days: int): Time {
    now - days * 86400
  }

  /** `get_user_activity`: for each of the (at most 50) most recently active
      users, their messages, notes and joined lounges since `days` days ago. */
  method UserActivityReport(users: seq<User>, messages: seq<ChatModel.ChatMessage>, notes: seq<NoteModel.Note>,
                            memberships: seq<LoungeModel.Membership>, now: Time, days: int)
    returns (r: seq<ActivityRow>)
    ensures var since := DaysAgo(now, days);
            var leaders := ActivityLeaders(users, messages, since);
            |r| == |leaders| &&
            forall k :: 0 <= k < |r| ==> r[k] == ActivityRowOf(leaders[k], messages, notes, memberships, since)
  {
    var since := DaysAgo(now, days);
    var leaders := ActivityLeaders(users, messages, since);
    r := [];
    for k := 0 to |leaders|
      invariant |r| == k
      invariant forall j :: 0 <= j < k ==> r[j] == ActivityRowOf(leaders[j], messages, notes, memberships, since)
    {
      r := r + [ActivityRowOf(leaders[k], messages, notes, memberships, since)];
    }
  }

  /** The report lists at most 50 users, most recently active first; each
      is a user with a message since `since`, whose last activity is the
      newest of those messages; and when no more than 50 users were active,
      every one of them is listed. */
  lemma ActivityLeadersSound(users: seq<User>, messages: seq<ChatModel.ChatMessage>, since: Time)
    ensures var l := ActivityLeaders(users, messages, since);
            |l| <= ActivityLimit && SortedDesc(l, ByLastActiveDesc) &&
            forall a :: a in l ==>
              exists j :: 0 <= j < |users| && ActiveSince(users[j], messages, since) &&
                          a == ActiveUserOf(users[j], messages, since)
    ensures |Grouped(users, messages, since)| <= ActivityLimit ==>
              forall j :: 0 <= j < |users| && ActiveSince(users[j], messages, since) ==>
                ActiveUserOf(users[j], messages, since) in ActivityLeaders(users, messages, since)
  {
    var g := Grouped(users, messages, since);
    var sorted := SortDesc(g, ByLastActiveDesc);
    SortDescFacts(g, ByLastActiveDesc);
    var l := Take(sorted, ActivityLimit);
    GroupedSound(users, messages, since);
    assert l == sorted[..|l|];
    forall a | a in l ensures a in g {
      assert a in sorted;
      assert a in multiset(sorted);
    }
    if |g| <= ActivityLimit {
      assert l == sorted;
      forall a | a in g ensures a in l {
        assert a in multiset(g);
      }
    }
  }

  /** Every row of the report counts at least the message that made its
      user active, and no row is older than the window. */
  lemma ActivityRowsCountRecent(users: seq<User>, messages: seq<ChatModel.ChatMessage>, notes: seq<NoteModel.Note>,
                                memberships: seq<LoungeModel.Membership>, since: Time, k: nat)
    requires k < |ActivityLeaders(users, messages, since)|
    ensures var row := ActivityRowOf(ActivityLeaders(users, messages, since)[k], messages, notes, memberships, since);
            row.totalMessages >= 1 && row.lastActive >= since
  {
    ActivityLeadersSound(users, messages, since);
    var l := ActivityLeaders(users, messages, since);
    assert l[k] in l;
    var j :| 0 <= j < |users| && ActiveSince(users[j], messages, since) &&
             l[k] == ActiveUserOf(users[j], messages, since);
  }

  // ----------------------------------------------------------------------
  // GET /admin/revenue
  // ----------------------------------------------------------------------

  /** `timedelta(days=30)` */
  const WindowSeconds: int := 30 * SecondsPerDay

  /** A report period: `[start, end)`. */
  type Window = (Time, Time)

  function SucceededIn(start: Time, end: Time): Payment -> bool {
    (p: Payment) => Succeeded(p) && start <= p.createdAt < end
  }

  /** Started before the end and not canceled before it. */
  function LiveAt(end: Time): Subscription -> bool {
    (s: Subscription) => s.startedAt < end && (s.canceledAt.None? || s.canceledAt.value >= end)
  }

  function StartedIn(start: Time, end: Time): Subscription -> bool {
    (s: Subscription) => start <= s.startedAt < end
  }

  /** A NULL `canceled_at` compares neither way, so never-canceled rows never match. */
  function CanceledIn(start: Time, end: Time): Subscription -> bool {
    (s: Subscription) => s.canceledAt.Some? && start <= s.canceledAt.value < end
  }

  /** One period of the revenue report: `RevenueReportResponse`. */
  datatype RevenueRow = RevenueRow(
    period: String,
    totalRevenueCents: int,
    totalSubscriptions: nat,
    newSubscriptions: nat,
    canceledSubscriptions: nat,
    avgRevenuePerUserCents: int)

  /** `revenue // total_subs if total_subs > 0 else 0`: Python's floor
      division, which Dafny's `/` matches for a positive divisor. */
  function Arpu(revenue: int, total: nat): (a: int)
    ensures total > 0 ==> a * total <= revenue < (a + 1) * total
    ensures total == 0 ==> a == 0
  {
    if total > 0 then revenue / total else 0
  }

  /** The figures of one period, labelled with the month of its start. */
  function RevenueRowOf(payments: seq<Payment>, subs: seq<Subscription>, w: Window): (r: RevenueRow)
    ensures r.period == Calendar.MonthLabel(w.0)
    ensures r.totalRevenueCents == SumCents(payments, SucceededIn(w.0, w.1))
    ensures r.avgRevenuePerUserCents == Arpu(r.totalRevenueCents, r.totalSubscriptions)
  {
    var revenue := SumCents(payments, SucceededIn(w.0, w.1));
    var total := Count(subs, LiveAt(w.1));
    RevenueRow(Calendar.MonthLabel(w.0), revenue, total,
               Count(subs, StartedIn(w.0, w.1)), Count(subs, CanceledIn(w.0, w.1)),
               Arpu(revenue, total))
  }

  /** `lambda w: <the figures of period w>` */
  function RowBuilder(payments: seq<Payment>, subs: seq<Subscription>): Window -> RevenueRow {
    (w: Window) => RevenueRowOf(payments, subs, w)
  }

  /** The rows for periods 0 .. n-1 in loop order, newest first. */
  function ReportRows(row: Window -> RevenueRow, window: nat -> Window, n: nat): (r: seq<RevenueRow>)
    ensures |r| == n
  {
    if n == 0 then [] else ReportRows(row, window, n - 1) + [row(window(n - 1))]
  }

  lemma {:induction false} ReportRowsAt(row: Window -> RevenueRow, window: nat -> Window, n: nat, i: nat)
    requires i < n
    ensures ReportRows(row, window, n)[i] == row(window(i))
  {
    if i < n - 1 {
      ReportRowsAt(row, window, n - 1, i);
    }
  }

  /** Row `k` of the reversed rows is period `n - 1 - k`. */
  lemma ReversedRowsAt(row: Window -> RevenueRow, window: nat -> Window, n: nat, k: nat)
    requires k < n
    ensures Reverse(ReportRows(row, window, n))[k] == row(window(n - 1 - k))
  {
    ReportRowsAt(row, window, n, n - 1 - k);
  }

  /** `get_revenue_report`: one row per period `i` in `range(months)`, then
      `list(reversed(result))`, oldest period first. */
  method RevenueReport(payments: seq<Payment>, subs: seq<Subscription>, window: nat -> Window, months: nat)
    returns (r: seq<RevenueRow>)
    ensures r == Reverse(ReportRows(RowBuilder(payments, subs), window, months))
  {
    var result := [];
    for i := 0 to months
      invariant result == ReportRows(RowBuilder(payments, subs), window, i)
    {
      result := result + [RevenueRowOf(payments, subs, window(i))];
    }
    r := Reverse(result);
  }

  /** The periods as written: period `i` ends `30 * i` days before now and
      lasts 30 days. */
  function ThirtyDayWindows(now: Time): nat -> Window {
    (i: nat) => (now - (i + 1) * WindowSeconds, now - i * WindowSeconds)
  }

  function RevenueReportAsWritten(payments: seq<Payment>, subs: seq<Subscription>, now: Time, months: nat): seq<RevenueRow> {
    Reverse(ReportRows(RowBuilder(payments, subs), ThirtyDayWindows(now), months))
  }

  /** The row builder applies the figures of one period. */
  lemma RowBuilderFigures(payments: seq<Payment>, subs: seq<Subscription>)
    ensures forall w :: RowBuilder(payments, subs)(w) == RevenueRowOf(payments, subs, w)
    ensures forall w :: RowBuilder(payments, subs)(w).period == Calendar.MonthLabel(w.0)
  {
  }

  /** Row `k` of the report covers the 30 days ending `months - 1 - k`
      periods before now: the rows run oldest first and each period starts
      where the previous one ended. */
  lemma ReportAsWrittenWindows(row: Window -> RevenueRow, now: Time, months: nat, k: nat)
    requires k < months
    ensures Reverse(ReportRows(row, ThirtyDayWindows(now), months))[k] ==
            row((now - (months - k) * WindowSeconds, now - (months - 1 - k) * WindowSeconds))
  {
    var i := months - 1 - k;
    ReversedRowsAt(row, ThirtyDayWindows(now), months, k);
    assert i + 1 == months - k;
    assert ThirtyDayWindows(now)(i) == (now - (months - k) * WindowSeconds, now - (months - 1 - k) * WindowSeconds);
  }

  function SumRevenue(rows: seq<RevenueRow>): int {
    if rows == [] then 0 else rows[0].totalRevenueCents + SumRevenue(rows[1..])
  }

  lemma {:induction false} SumRevenueSnoc(rows: seq<RevenueRow>, x: RevenueRow)
    ensures SumRevenue(rows + [x]) == SumRevenue(rows) + x.totalRevenueCents
  {
    if rows != [] {
      assert (rows + [x])[1..] == rows[1..] + [x];
      SumRevenueSnoc(rows[1..], x);
    }
  }

  lemma {:induction false} SumRevenueReverse(rows: seq<RevenueRow>)
    ensures SumRevenue(Reverse(rows)) == SumRevenue(rows)
  {
    if rows != [] {
      SumRevenueReverse(rows[1..]);
      SumRevenueSnoc(Reverse(rows[1..]), rows[0]);
    }
  }

  lemma {:induction false} SumCentsNone(ps: seq<Payment>, p: Payment -> bool)
    requires forall x :: !p(x)
    ensures SumCents(ps, p) == 0
  {
    if ps != [] {
      SumCentsNone(ps[1..], p);
    }
  }

  /** Any row builder that reports the succeeded revenue of its period
      makes thirty-day rows that add up to the whole span. */
  lemma {:induction false} ThirtyDayRowsSum(row: Window -> RevenueRow, payments: seq<Payment>, now: Time, n: nat)
    requires forall w :: row(w).totalRevenueCents == SumCents(payments, SucceededIn(w.0, w.1))
    ensures SumRevenue(ReportRows(row, ThirtyDayWindows(now), n)) ==
            SumCents(payments, SucceededIn(now - n * WindowSeconds, now))
  {
    if n > 0 {
      ThirtyDayRowsSum(row, payments, now, n - 1);
      var w := ThirtyDayWindows(now)(n - 1);
      SumRevenueSnoc(ReportRows(row, ThirtyDayWindows(now), n - 1), row(w));
      SumCentsSplit(payments, SucceededIn(now - n * WindowSeconds, now - (n - 1) * WindowSeconds),
                    SucceededIn(now - (n - 1) * WindowSeconds, now), SucceededIn(now - n * WindowSeconds, now));
    } else {
      assert forall x :: !SucceededIn(now, now)(x);
      SumCentsNone(payments, SucceededIn(now, now));
    }
  }

  /** The periods tile the last `30 * months` days: the report's revenue
      adds up to the succeeded payments of that whole span. */
  lemma ReportAsWrittenRevenueTotal(payments: seq<Payment>, subs: seq<Subscription>, now: Time, months: nat)
    ensures SumRevenue(RevenueReportAsWritten(payments, subs, now, months)) ==
            SumCents(payments, SucceededIn(now - months * WindowSeconds, now))
  {
    SumRevenueReverse(ReportRows(RowBuilder(payments, subs), ThirtyDayWindows(now), months));
    ThirtyDayRowsSum(RowBuilder(payments, subs), payments, now, months);
  }

  /** Thirty-day periods do not follow calendar months: on 1970-03-02 a
      two-period report labels both of its rows "1970-01" (they start on
      January 1 and January 31) and has no row for February. */
  lemma ReportAsWrittenRepeatsMonth(payments: seq<Payment>, subs: seq<Subscription>)
    ensures var r := RevenueReportAsWritten(payments, subs, 60 * SecondsPerDay, 2);
            |r| == 2 && r[0].period == r[1].period &&
            Calendar.DayOf(0) == Calendar.Date(1970, 1, 1) &&
            Calendar.DayOf(30 * SecondsPerDay) == Calendar.Date(1970, 1, 31)
  {
    var now := 60 * SecondsPerDay;
    var r := RevenueReportAsWritten(payments, subs, now, 2);
    RowBuilderFigures(payments, subs);
    ReportAsWrittenWindows(RowBuilder(payments, subs), now, 2, 0);
    ReportAsWrittenWindows(RowBuilder(payments, subs), now, 2, 1);
    assert r[0].period == Calendar.MonthLabel(0);
    assert r[1].period == Calendar.MonthLabel(30 * SecondsPerDay);
    JanuaryDays();
    Calendar.MonthLabelSameMonth(0, 30 * SecondsPerDay);
  }

  lemma JanuaryDays()
    ensures Calendar.DayOf(0) == Calendar.Date(1970, 1, 1)
    ensures Calendar.DayOf(30 * SecondsPerDay) == Calendar.Date(1970, 1, 31)
  {
    Calendar.DateRoundTrip(Calendar.Date(1970, 1, 1));
    Calendar.DateRoundTrip(Calendar.Date(1970, 1, 31));
    assert Calendar.DaysOfDate(Calendar.Date(1970, 1, 31)) == 30;
    assert 30 * SecondsPerDay / SecondsPerDay == 30;
  }

  /** Index of the calendar month of `t`: `year * 12 + month - 1`. */
  function MonthIndex(t: Time): int {
    var d := Calendar.DayOf(t);
    d.year * 12 + d.month - 1
  }

  /** Midnight on the first day of month `idx`. */
  function MonthStart(idx: int): Time {
    Calendar.DaysOfDate(Calendar.Date(idx / 12, idx % 12 + 1, 1)) * SecondsPerDay
  }

  lemma MonthStartDay(idx: int)
    ensures Calendar.DayOf(MonthStart(idx)) == Calendar.Date(idx / 12, idx % 12 + 1, 1)
    ensures MonthIndex(MonthStart(idx)) == idx
  {
    var d := Calendar.Date(idx / 12, idx % 12 + 1, 1);
    var n := Calendar.DaysOfDate(d);
    assert n * SecondsPerDay / SecondsPerDay == n;
    Calendar.DateRoundTrip(d);
  }

  /** The intended periods: calendar months, the current one first. */
  function CalendarMonthWindows(cur: int): nat -> Window {
    MonthWindows(MonthStarts(), cur)
  }

  /** `lambda idx: <midnight on the first of month idx>` */
  function MonthStarts(): int -> Time {
    (idx: int) => MonthStart(idx)
  }

  /** Period `i` runs from the start of month `cur - i` to the start of the next. */
  function MonthWindows(start: int -> Time, cur: int): nat -> Window {
    (i: nat) => (start(cur - i), start(cur - i + 1))
  }

  lemma MonthWindowRow(row: Window -> RevenueRow, start: int -> Time, cur: int, months: nat, k: nat, a: int)
    requires k < months && a == cur - (months - 1 - k)
    ensures Reverse(ReportRows(row, MonthWindows(start, cur), months))[k] == row((start(a), start(a + 1)))
  {
    var i := months - 1 - k;
    ReversedRowsAt(row, MonthWindows(start, cur), months, k);
    assert MonthWindows(start, cur)(i) == (start(a), start(a + 1));
  }

  function RevenueReportByMonth(payments: seq<Payment>, subs: seq<Subscription>, now: Time, months: nat): seq<RevenueRow> {
    Reverse(ReportRows(RowBuilder(payments, subs), CalendarMonthWindows(MonthIndex(now)), months))
  }

  /** With calendar-month periods, row `k` covers exactly the calendar
      month `months - 1 - k` months before the current one, from its first
      day (`MonthStartDay`) to the first day of the next month, and no two
      rows carry the same label (for years 0 .. 9999, which `%Y` prints in
      four digits). */
  lemma ReportByMonthSound(payments: seq<Payment>, subs: seq<Subscription>, now: Time, months: nat)
    requires MonthIndex(now) - months + 1 >= 0 && MonthIndex(now) < 10000 * 12
    ensures var r := RevenueReportByMonth(payments, subs, now, months);
            |r| == months &&
            (forall k, a :: 0 <= k < months && a == MonthIndex(now) - (months - 1 - k) ==>
               r[k] == RowBuilder(payments, subs)((MonthStart(a), MonthStart(a + 1)))) &&
            DistinctPeriods(r)
  {
    RowBuilderFigures(payments, subs);
    var cur := MonthIndex(now);
    var r := RevenueReportByMonth(payments, subs, now, months);
    forall k, a | 0 <= k < months && a == cur - (months - 1 - k)
      ensures r[k] == RowBuilder(payments, subs)((MonthStart(a), MonthStart(a + 1)))
    {
      MonthRow(RowBuilder(payments, subs), cur, months, k, a);
    }
    MonthRowsDistinct(RowBuilder(payments, subs), cur, months);
  }

  /** No two rows share a period label. */
  predicate DistinctPeriods(r: seq<RevenueRow>) {
    forall k, l :: 0 <= k < l < |r| ==> r[k].period != r[l].period
  }

  /** Any row builder that labels a period by its start gives the
      calendar-month rows distinct labels. */
  lemma MonthRowsDistinct(row: Window -> RevenueRow, cur: int, months: nat)
    requires cur - months + 1 >= 0 && cur < 10000 * 12
    requires forall w :: row(w).period == Calendar.MonthLabel(w.0)
    ensures DistinctPeriods(Reverse(ReportRows(row, CalendarMonthWindows(cur), months)))
  {
    var r := Reverse(ReportRows(row, CalendarMonthWindows(cur), months));
    forall k, l | 0 <= k < l < months ensures r[k].period != r[l].period {
      var a, b := cur - (months - 1 - k), cur - (months - 1 - l);
      MonthRowPeriod(row, cur, months, k, a);
      MonthRowPeriod(row, cur, months, l, b);
      LabelsDiffer(a, b, r[k].period, r[l].period);
    }
  }

  lemma LabelsDiffer(a: int, b: int, x: String, y: String)
    requires 0 <= a < b < 10000 * 12
    requires x == Calendar.MonthLabel(MonthStart(a)) && y == Calendar.MonthLabel(MonthStart(b))
    ensures x != y
  {
    MonthLabelsDistinct(a, b);
  }

  lemma MonthRowPeriod(row: Window -> RevenueRow, cur: int, months: nat, k: nat, a: int)
    requires k < months && a == cur - (months - 1 - k)
    requires forall w :: row(w).period == Calendar.MonthLabel(w.0)
    ensures Reverse(ReportRows(row, CalendarMonthWindows(cur), months))[k].period == Calendar.MonthLabel(MonthStart(a))
  {
    MonthRow(row, cur, months, k, a);
  }

  lemma MonthRow(row: Window -> RevenueRow, cur: int, months: nat, k: nat, a: int)
    requires k < months && a == cur - (months - 1 - k)
    ensures Reverse(ReportRows(row, CalendarMonthWindows(cur), months))[k] == row((MonthStart(a), MonthStart(a + 1)))
  {
    MonthWindowRow(row, MonthStarts(), cur, months, k, a);
    assert MonthStarts()(a) == MonthStart(a) && MonthStarts()(a + 1) == MonthStart(a + 1);
  }

  /** Different months of years 0 .. 9999 start under different labels. */
  lemma MonthLabelsDistinct(a: int, b: int)
    requires 0 <= a < b < 10000 * 12
    ensures Calendar.MonthLabel(MonthStart(a)) != Calendar.MonthLabel(MonthStart(b))
  {
    MonthStartDay(a);
    MonthStartDay(b);
    Calendar.MonthLabelSameMonth(MonthStart(a), MonthStart(b));
  }

  // ----------------------------------------------------------------------
  // GET /admin/mentors/pending
  // ----------------------------------------------------------------------

  /** One pending application, with the applicant's name and e-mail. */
  datatype PendingMentor = PendingMentor(
    id: int,
    userId: int,
    userName: String,
    userEmail: String,
    headline: Option<String>,
    bio: Option<String>,
    experienceYears: int,
    createdAt: Time)

  predicate AwaitingApproval(m: MentorModel.Mentor) { m.status == MentorModel.Pending }

  function ByMentorCreatedDesc(m: MentorModel.Mentor): Key { (m.createdAt, 0) }

  /** `status == PENDING`, newest application first. */
  function PendingApplications(mentors: seq<MentorModel.Mentor>): seq<MentorModel.Mentor> {
    SortDesc(Filter(mentors, AwaitingApproval), ByMentorCreatedDesc)
  }

  function PendingMentorOf(m: MentorModel.Mentor, u: User): (r: PendingMentor)
    ensures r.id == m.id && r.userId == m.userId && r.userName == u.name && r.userEmail == u.email
    ensures r.headline == m.headline && r.bio == m.bio && r.experienceYears == m.experienceYears
    ensures r.createdAt == m.createdAt
  {
    PendingMentor(m.id, m.userId, u.name, u.email, m.headline, m.bio, m.experienceYears, m.createdAt)
  }

  /** Every application whose `mentor.user` resolves. */
  predicate ApplicantsKnown(ms: seq<MentorModel.Mentor>, users: seq<User>) {
    forall k :: 0 <= k < |ms| ==> FindUserIndex(users, ms[k].userId).Some?
  }

  /** `get_pending_mentors`: one entry per pending application, in order. A
      mentor row whose user is missing makes `mentor.user.name` raise, which
      the application turns into a 500. */
  method GetPendingMentors(mentors: seq<MentorModel.Mentor>, users: seq<User>)
    returns (r: Outcome<seq<PendingMentor>>)
    ensures r.HttpError? <==> !ApplicantsKnown(PendingApplications(mentors), users)
    ensures r.HttpError? ==> r == HttpError(500, InternalError)
    ensures r.Ok? ==> var ms := PendingApplications(mentors);
              |r.value| == |ms| &&
              forall k :: 0 <= k < |ms| ==>
                r.value[k] == PendingMentorOf(ms[k], users[FindUserIndex(users, ms[k].userId).value])
  {
    var ms := PendingApplications(mentors);
    var result := [];
    for k := 0 to |ms|
      invariant |result| == k
      invariant forall j :: 0 <= j < k ==> FindUserIndex(users, ms[j].userId).Some?
      invariant forall j :: 0 <= j < k ==>
                  result[j] == PendingMentorOf(ms[j], users[FindUserIndex(users, ms[j].userId).value])
    {
      match FindUserIndex(users, ms[k].userId)
      case None =>
        return HttpError(500, InternalError);
      case Some(i) =>
        result := result + [PendingMentorOf(ms[k], users[i])];
    }
    r := Ok(result);
  }

  /** The applications listed are exactly the pending ones, each once,
      newest first. */
  lemma PendingApplicationsSound(mentors: seq<MentorModel.Mentor>)
    ensures var ms := PendingApplications(mentors);
            (forall k :: 0 <= k < |ms| ==> ms[k] in mentors && AwaitingApproval(ms[k])) &&
            (forall m :: m in mentors && AwaitingApproval(m) ==> m in ms) &&
            multiset(ms) == multiset(Filter(mentors, AwaitingApproval)) &&
            SortedDesc(ms, ByMentorCreatedDesc)
  {
    var pending := Filter(mentors, AwaitingApproval);
    SortDescFacts(pending, ByMentorCreatedDesc);
    var ms := PendingApplications(mentors);
    forall k | 0 <= k < |ms| ensures ms[k] in mentors && AwaitingApproval(ms[k]) {
      assert ms[k] in multiset(ms);
      assert ms[k] in multiset(pending);
    }
    forall m | m in mentors && AwaitingApproval(m) ensures m in ms {
      var i :| 0 <= i < |mentors| && mentors[i] == m;
      assert m in pending;
      assert m in multiset(pending);
      assert m in multiset(ms);
    }
  }

  /** With every applicant's user row present (the foreign key on
      `mentors.user_id`), the route answers with the list. */
  lemma PendingMentorsWithIntegrity(mentors: seq<MentorModel.Mentor>, users: seq<User>)
    requires forall m :: m in mentors ==> exists u :: u in users && u.id == m.userId
    ensures ApplicantsKnown(PendingApplications(mentors), users)
  {
    PendingApplicationsSound(mentors);
    var ms := PendingApplications(mentors);
    forall k | 0 <= k < |ms| ensures FindUserIndex(users, ms[k].userId).Some? {
      assert ms[k] in mentors;
      var u :| u in users && u.id == ms[k].userId;
    }
  }

  // ----------------------------------------------------------------------
  // GET /admin/export/users
  // ----------------------------------------------------------------------

  const ExportHeader: String := "id,email,name,role,created_at,email_verified"

  /** `str(bool)` */
  function BoolText(b: bool): String { if b then "True" else "False" }

  /** `f"users_export_{now:%Y%m%d}.csv"` */
  function ExportFilename(now: Time): (f: String)
    ensures |f| >= |"users_export_"| + 8 + |".csv"|
    ensures f[..13] == "users_export_" && f[|f| - 4..] == ".csv"
  {
    "users_export_" + Calendar.DayStamp(now) + ".csv"
  }

  /** The export as written: one line per user, the fields joined by commas
      as they are, with no quoting. */
  function CsvLineAsWritten(u: User): String {
    IntToString(u.id) + "," + u.email + "," + u.name + "," + RoleValue(u.role) + "," +
    Calendar.DateTimeText(u.createdAt) + "," + BoolText(u.emailVerifiedAt.Some?)
  }

  function ExportDataAsWritten(users: seq<User>): String {
    if users == [] then ExportHeader + "\n"
    else ExportDataAsWritten(users[..|users| - 1]) + CsvLineAsWritten(users[|users| - 1]) + "\n"
  }

  /** A name with a comma in it (`"Doe, Jane"`) gives its line at least
      seven comma-separated fields under the six-column header: the line
      can no longer be read back as the user's row. */
  lemma ExportAsWrittenSplitsName(u: User)
    requires ',' in u.name
    ensures |Split(CsvLineAsWritten(u), ',')| >= 7 > |HeaderFields|
  {
    CommaInThirdField(IntToString(u.id), u.email, u.name, RoleValue(u.role),
                      Calendar.DateTimeText(u.createdAt), BoolText(u.emailVerifiedAt.Some?));
  }

  /** Six fields joined by commas, the third holding a comma of its own,
      split into seven pieces or more. */
  lemma CommaInThirdField(a: String, b: String, c: String, d: String, e: String, f: String)
    requires ',' in c
    ensures |Split(a + "," + b + "," + c + "," + d + "," + e + "," + f, ',')| >= 7
  {
    var p1 := a + ",";
    var p2 := p1 + b + ",";
    var p3 := p2 + c + ",";
    var p4 := p3 + d + ",";
    var p5 := p4 + e + ",";
    Csv.OccurrencesConcat(a, ",", ',');
    Csv.OccurrencesConcat(p1, b, ',');
    Csv.OccurrencesConcat(p1 + b, ",", ',');
    Csv.OccurrencesConcat(p2, c, ',');
    Csv.OccurrencesSome(c, ',');
    Csv.OccurrencesConcat(p2 + c, ",", ',');
    Csv.OccurrencesConcat(p3, d, ',');
    Csv.OccurrencesConcat(p3 + d, ",", ',');
    Csv.OccurrencesConcat(p4, e, ',');
    Csv.OccurrencesConcat(p4 + e, ",", ',');
    Csv.OccurrencesConcat(p5, f, ',');
    Csv.SplitPieces(p5 + f, ',');
  }

  /** The corrected export: the same six columns, every field quoted. */
  const HeaderFields: seq<String> := ["id", "email", "name", "role", "created_at", "email_verified"]

  function UserFields(u: User): (f: seq<String>)
    ensures |f| == |HeaderFields| && f[1] == u.email && f[2] == u.name && f[3] == RoleValue(u.role)
  {
    [IntToString(u.id), u.email, u.name, RoleValue(u.role), Calendar.DateTimeText(u.createdAt),
     BoolText(u.emailVerifiedAt.Some?)]
  }

  function UserRecords(users: seq<User>): (r: seq<seq<String>>)
    ensures |r| == |users|
    ensures forall k :: 0 <= k < |users| ==> r[k] == UserFields(users[k])
  {
    if users == [] then [] else UserRecords(users[..|users| - 1]) + [UserFields(users[|users| - 1])]
  }

  function ExportRecords(users: seq<User>): (r: seq<seq<String>>)
    ensures forall i :: 0 <= i < |r| ==> |r[i]| == 6
  {
    [HeaderFields] + UserRecords(users)
  }

  function ExportDocument(users: seq<User>): String {
    Csv.EncodeDocument(ExportRecords(users))
  }

  /** The body of the export response. */
  datatype Export = Export(filename: String, data: String)

  /** `export_users`, writing each row with the quote-all encoding. */
  method ExportUsers(users: seq<User>, now: Time) returns (r: Export)
    ensures r.filename == ExportFilename(now)
    ensures r.data == ExportDocument(users)
  {
    var data := Csv.EncodeRecord(HeaderFields);
    ExportStart(users);
    for i := 0 to |users|
      invariant data == ExportDocument(users[..i])
    {
      ExportNext(users, i);
      data := data + Csv.EncodeRecord(UserFields(users[i]));
    }
    assert users[..|users|] == users;
    r := Export(ExportFilename(now), data);
  }

  lemma ExportStart(users: seq<User>)
    ensures ExportDocument(users[..0]) == Csv.EncodeRecord(HeaderFields)
  {
    assert ExportRecords(users[..0]) == [HeaderFields];
  }

  /** One more user adds one more record at the end. */
  lemma ExportNext(users: seq<User>, i: nat)
    requires i < |users|
    ensures ExportDocument(users[..i + 1]) == ExportDocument(users[..i]) + Csv.EncodeRecord(UserFields(users[i]))
  {
    var before := ExportRecords(users[..i]);
    UserRecordsNext(users, i);
    SnocAssoc(HeaderFields, UserRecords(users[..i]), UserFields(users[i]));
    Csv.EncodeDocumentSnoc(before, UserFields(users[i]));
  }

  lemma UserRecordsNext(users: seq<User>, i: nat)
    requires i < |users|
    ensures UserRecords(users[..i + 1]) == UserRecords(users[..i]) + [UserFields(users[i])]
  {
    assert users[..i + 1][..i] == users[..i];
  }

  lemma SnocAssoc<T>(h: T, a: seq<T>, x: T)
    ensures [h] + (a + [x]) == [h] + a + [x]
  {
  }

  /** Reading the corrected export back gives the header and then exactly
      each user's six fields, in table order, whatever the names hold. */
  lemma ExportRoundTrip(users: seq<User>)
    ensures Csv.ParseDocument(ExportDocument(users)) == Some([HeaderFields] + UserRecords(users))
  {
    Csv.DocumentRoundTrip(ExportRecords(users));
  }

  /** In particular, row `k + 1` of what is read back names user `k`. */
  lemma ExportNamesReadBack(users: seq<User>, k: nat)
    requires k < |users|
    ensures var parsed := Csv.ParseDocument(ExportDocument(users));
            parsed.Some? && |parsed.value| == |users| + 1 &&
            parsed.value[k + 1] == UserFields(users[k]) && parsed.value[k + 1][2] == users[k].name
  {
    ExportRoundTrip(users);
    assert ([HeaderFields] + UserRecords(users))[k + 1] == UserRecords(users)[k];
  }
}
