/** The record store the routes read and write: profiles, subscriptions,
    letters, employee coupons, coupon-usage rows, commissions and the
    letter audit trail, with the enumerations of the database schema. */
module Records {
  import opened Common
  import opened Query

  type UserId = string

  /** The closed role set of a profile. */
  datatype Role = Subscriber | Employee | Admin

  /** The text the database stores for a role. */
  function RoleName(r: Role): string {
    match r
    case Subscriber => "subscriber"
    case Employee => "employee"
    case Admin => "admin"
  }

  /** Recognises a role text; anything outside the closed set is None. */
  function ParseRole(s: string): (r: Option<Role>)
    ensures r.Some? <==> s in {"subscriber", "employee", "admin"}
  {
    if s == "subscriber" then Some(Subscriber)
    else if s == "employee" then Some(Employee)
    else if s == "admin" then Some(Admin)
    else None
  }

  /** Role texts and roles correspond one to one. */
  lemma RoleTextRoundTrip(r: Role, s: string)
    ensures ParseRole(RoleName(r)) == Some(r)
    ensures ParseRole(s).Some? ==> RoleName(ParseRole(s).value) == s
  {
  }

  datatype LetterStatus =
    | Draft
    | Generating
    | PendingReview
    | UnderReview
    | Approved
    | Completed
    | Rejected
    | Failed

  datatype SubscriptionStatus = Active | Canceled | PastDue

  datatype CommissionStatus = Pending | Paid

  /** A profile row; its id is its key in the store. The role is kept as
      the text that was written, because profile creation stores whatever
      role text it is given. */
  datatype Profile = Profile(
    email: string,
    fullName: Option<string>,
    role: string,
    isSuperUser: bool)

  /** A subscription row; its id is its position in the store. */
  datatype Subscription = Subscription(
    userId: UserId,
    plan: string,
    planType: string,
    status: SubscriptionStatus,
    price: real,
    discount: real,
    couponCode: Option<string>,
    remainingLetters: int,
    creditsRemaining: int,
    stripeSessionId: Option<string>)

  /** An employee coupon; its code is its key in the store. */
  datatype EmployeeCoupon = EmployeeCoupon(
    id: string,
    employeeId: string,
    discountPercent: real,
    isActive: bool,
    usageCount: int)

  /** One coupon redemption. `discountPercent` is None where the handler
      divides by a zero base price and JavaScript produces a non-finite
      number. */
  datatype CouponUsage = CouponUsage(
    userId: UserId,
    couponCode: string,
    employeeId: Option<string>,
    discountPercent: Option<real>,
    amountBefore: real,
    amountAfter: real)

  datatype Commission = Commission(
    employeeId: string,
    subscriptionId: nat,
    subscriptionAmount: real,
    commissionRate: real,
    commissionAmount: real,
    status: CommissionStatus)

  /** A letter row; its id is its position in the store. */
  datatype Letter = Letter(
    userId: UserId,
    letterType: string,
    intakeData: map<string, string>,
    status: LetterStatus,
    aiDraftContent: Option<string>)

  /** One row of the letter audit trail. */
  datatype AuditEntry = AuditEntry(
    letterId: nat,
    action: string,
    oldStatus: LetterStatus,
    newStatus: LetterStatus,
    notes: string)

  datatype Store = Store(
    profiles: map<UserId, Profile>,
    subscriptions: seq<Subscription>,
    letters: seq<Letter>,
    coupons: map<string, EmployeeCoupon>,
    couponUsage: seq<CouponUsage>,
    commissions: seq<Commission>,
    audit: seq<AuditEntry>)

  /** The fixed commission rate of a referred sale. */
  const CommissionRate: real := 0.05

  // ---------------------------------------------------------------------
  // Filters used by the routes' queries

  function OwnedBy(u: UserId): Letter -> bool {
    (l: Letter) => l.userId == u
  }

  function ActiveFor(u: UserId): Subscription -> bool {
    (s: Subscription) => s.userId == u && s.status == Active
  }

  function PaidThrough(sessionId: string): Subscription -> bool {
    (s: Subscription) => s.stripeSessionId == Some(sessionId)
  }

  /** The ids of the profiles flagged as super users. */
  function SuperUsers(profiles: map<UserId, Profile>): set<UserId> {
    set id | id in profiles && profiles[id].isSuperUser
  }

  /** At most one subscription carries any one payment-session id. */
  ghost predicate SessionsUnique(subs: seq<Subscription>) {
    forall sid :: Count(subs, PaidThrough(sid)) <= 1
  }

  // ---------------------------------------------------------------------
  // Writes shared by several routes

  /** `update({ is_super_user: flag }).eq('id', u)`: rewrites the flag of
      that profile if it exists; no other profile changes. */
  function SetSuperUserFlag(profiles: map<UserId, Profile>, u: UserId, flag: bool): (r: map<UserId, Profile>)
    ensures r.Keys == profiles.Keys
    ensures u in profiles ==> r[u] == profiles[u].(isSuperUser := flag)
    ensures forall id :: id in profiles && id != u ==> r[id] == profiles[id]
  {
    if u in profiles then profiles[u := profiles[u].(isSuperUser := flag)] else profiles
  }

  /** The super users after one profile's flag is rewritten. */
  lemma SuperUsersAfterFlag(profiles: map<UserId, Profile>, u: UserId, flag: bool)
    ensures SuperUsers(SetSuperUserFlag(profiles, u, flag)) ==
              if u !in profiles then SuperUsers(profiles)
              else if flag then SuperUsers(profiles) + {u}
              else SuperUsers(profiles) - {u}
  {
    var after := SetSuperUserFlag(profiles, u, flag);
    var expected :=
      if u !in profiles then SuperUsers(profiles)
      else if flag then SuperUsers(profiles) + {u}
      else SuperUsers(profiles) - {u};
    forall id ensures id in SuperUsers(after) <==> id in expected {
      if id == u && u in profiles {
        assert after[u].isSuperUser == flag;
      }
    }
  }

  /** Raises the usage count of the coupon with the given code by one; a
      missing or null code matches no row. */
  function BumpUsageCount(coupons: map<string, EmployeeCoupon>, code: Option<string>): (r: map<string, EmployeeCoupon>)
    ensures r.Keys == coupons.Keys
    ensures forall c :: c in coupons && code != Some(c) ==> r[c] == coupons[c]
    ensures code.Some? && code.value in coupons ==>
              r[code.value] == coupons[code.value].(usageCount := coupons[code.value].usageCount + 1)
  {
    if code.Some? && code.value in coupons then
      var c := coupons[code.value];
      coupons[code.value := c.(usageCount := c.usageCount + 1)]
    else coupons
  }

  /** The side effects of a settled purchase, in the order the handlers
      perform them: the subscription insert, the optional super-user grant,
      the optional coupon-usage row, and the optional commission together
      with the coupon's usage-count increment. */
  function ApplyPurchase(
    st: Store,
    sub: Subscription,
    grantSuperUser: bool,
    usage: Option<CouponUsage>,
    commission: Option<(string, real)>,
    couponCode: Option<string>): (r: Store)
    ensures r.subscriptions == st.subscriptions + [sub]
    ensures r.letters == st.letters && r.audit == st.audit
    ensures r.profiles == (if grantSuperUser then SetSuperUserFlag(st.profiles, sub.userId, true) else st.profiles)
    ensures SuperUsers(r.profiles) ==
              if grantSuperUser && sub.userId in st.profiles then SuperUsers(st.profiles) + {sub.userId}
              else SuperUsers(st.profiles)
    ensures |r.commissions| == |st.commissions| + (if commission.Some? then 1 else 0)
    ensures r.couponUsage == st.couponUsage + (if usage.Some? then [usage.value] else [])
    ensures commission.None? ==> r.commissions == st.commissions && r.coupons == st.coupons
    ensures commission.Some? ==>
              r.commissions == st.commissions + [Commission(commission.value.0, |st.subscriptions|,
                                 commission.value.1, CommissionRate,
                                 commission.value.1 * CommissionRate, Pending)]
              && r.coupons == BumpUsageCount(st.coupons, couponCode)
  {
    var subId := |st.subscriptions|;
    SuperUsersAfterFlag(st.profiles, sub.userId, true);
    var profiles := if grantSuperUser then SetSuperUserFlag(st.profiles, sub.userId, true) else st.profiles;
    var usageRows := if usage.Some? then st.couponUsage + [usage.value] else st.couponUsage;
    var (commissions, coupons) :=
      if commission.Some? then
        var (employee, amount) := commission.value;
        (st.commissions + [Commission(employee, subId, amount, CommissionRate, amount * CommissionRate, Pending)],
         BumpUsageCount(st.coupons, couponCode))
      else (st.commissions, st.coupons);
    st.(subscriptions := st.subscriptions + [sub], profiles := profiles,
        couponUsage := usageRows, commissions := commissions, coupons := coupons)
  }
}
