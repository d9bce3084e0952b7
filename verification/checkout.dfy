/** What the two checkout handlers share: the coupon lookup against the
    employee-coupon table, the zero-cost subscription write, and the hosted
    checkout session a paid purchase is sent to. */
module Checkout {
  import opened Common
  import opened Records
  import opened Pricing

  /** The pricing facts a checkout session carries for its later settlement. */
  datatype SessionMetadata = SessionMetadata(
    userId: UserId,
    planType: string,
    letters: int,
    basePrice: real,
    discount: real,
    finalPrice: real,
    couponCode: string,
    employeeId: string,
    isSuperUserCoupon: string,
    couponId: string)

  /** The hosted checkout session a paid purchase asks the payment provider
      to open: one line item of `unitAmount` cents. */
  datatype SessionRequest = SessionRequest(
    productName: string,
    unitAmount: int,
    clientReferenceId: UserId,
    metadata: SessionMetadata)

  datatype CheckoutReply =
    | Unauthorized
    | InvalidPlan
    | Subscribed(subscriptionId: nat, letters: nat)
    | PayAtProvider(session: SessionRequest)
  {
    function Status(): int {
      match this
      case Unauthorized => 401
      case InvalidPlan => 400
      case Subscribed(_, _) => 200
      case PayAtProvider(_) => 200
    }
  }

  /** The outcome of coupon resolution: the percentage, the attributed
      employee, whether the coupon grants super-user status, and the coupon
      row's id. */
  datatype CouponResolution = CouponResolution(
    discount: real,
    employeeId: Option<string>,
    isSuperUserCoupon: bool,
    couponId: Option<string>)

  const NoCoupon := CouponResolution(0.0, None, false, None)

  /** The active coupon row whose code is exactly the supplied one. */
  predicate ActiveCoupon(coupons: map<string, EmployeeCoupon>, code: Option<string>) {
    Truthy(code) && code.value in coupons && coupons[code.value].isActive
  }

  /** An active coupon of one hundred percent: a super-user coupon. */
  predicate FullCoupon(coupons: map<string, EmployeeCoupon>, code: Option<string>) {
    ActiveCoupon(coupons, code) && coupons[code.value].discountPercent == 100.0
  }

  /** The database branch of coupon resolution: a supplied code takes the
      percentage, employee and id of the active coupon with exactly that
      code; otherwise nothing applies. */
  function LookupCoupon(coupons: map<string, EmployeeCoupon>, code: Option<string>): (r: CouponResolution)
    ensures !ActiveCoupon(coupons, code) ==> r == NoCoupon
    ensures ActiveCoupon(coupons, code) ==>
              && r.discount == coupons[code.value].discountPercent
              && r.employeeId == Some(coupons[code.value].employeeId)
              && r.couponId == Some(coupons[code.value].id)
    ensures r.isSuperUserCoupon <==> FullCoupon(coupons, code)
  {
    if Truthy(code) && code.value in coupons && coupons[code.value].isActive then
      var c := coupons[code.value];
      CouponResolution(c.discountPercent, Some(c.employeeId), c.discountPercent == 100.0, Some(c.id))
    else NoCoupon
  }

  /** The subscription a zero-cost checkout inserts. */
  function FreeSubscription(u: UserId, plan: Plan, code: Option<string>, res: CouponResolution): Subscription {
    Subscription(u, plan.planType, plan.planType, Active,
                 FinalPrice(plan.price, res.discount), DiscountAmount(plan.price, res.discount),
                 OrNull(code), plan.letters, plan.letters, None)
  }

  /** The coupon-usage row a zero-cost checkout writes when a code was supplied. */
  function CheckoutUsage(u: UserId, plan: Plan, code: Option<string>, res: CouponResolution): Option<CouponUsage> {
    if Truthy(code) then
      Some(CouponUsage(u, code.value, res.employeeId, Some(res.discount),
                       plan.price, FinalPrice(plan.price, res.discount)))
    else None
  }

  /** The zero-cost branch: subscription, super-user grant, coupon usage, and
      the commission the variant decides on. */
  function ZeroCost(st: Store, u: UserId, plan: Plan, code: Option<string>, res: CouponResolution,
                    commission: Option<(string, real)>): Store
  {
    ApplyPurchase(st, FreeSubscription(u, plan, code, res), res.isSuperUserCoupon,
                  CheckoutUsage(u, plan, code, res), commission, code)
  }

  /** The hosted checkout session of a paid purchase. */
  function PaidSession(u: UserId, plan: Plan, code: Option<string>, res: CouponResolution): SessionRequest {
    var finalPrice := FinalPrice(plan.price, res.discount);
    SessionRequest(
      plan.name, Cents(finalPrice), u,
      SessionMetadata(u, plan.planType, plan.letters, plan.price,
                      DiscountAmount(plan.price, res.discount), finalPrice,
                      OrDefault(code, ""), OrDefault(res.employeeId, ""),
                      if res.isSuperUserCoupon then "true" else "false",
                      OrDefault(res.couponId, "")))
  }
}

/** Checkout as `app/api/create-checkout` implements it: a case-insensitive
    `TALK3` code is free without consulting the coupon table, and a
    commission is computed on the base price. */
module CheckoutWithBypass {
  import opened Common
  import opened Records
  import opened Pricing
  import opened Checkout

  /** `couponCode?.toUpperCase() === 'TALK3'`. */
  predicate IsBypassCode(code: Option<string>) {
    code.Some? && AsciiUpper(code.value) == "TALK3"
  }

  /** Coupon resolution with the bypass token checked first. */
  function Resolve(coupons: map<string, EmployeeCoupon>, code: Option<string>): (r: CouponResolution)
    ensures IsBypassCode(code) ==> r == CouponResolution(100.0, None, false, None)
    ensures !IsBypassCode(code) ==> r == LookupCoupon(coupons, code)
    ensures r.discount == 100.0 <==> IsBypassCode(code) || FullCoupon(coupons, code)
    ensures r.isSuperUserCoupon <==> !IsBypassCode(code) && FullCoupon(coupons, code)
    ensures r.employeeId.Some? <==> !IsBypassCode(code) && ActiveCoupon(coupons, code)
  {
    if IsBypassCode(code) then CouponResolution(100.0, None, false, None)
    else LookupCoupon(coupons, code)
  }

  /** POST: price the chosen plan, then either subscribe at zero cost or
      hand the purchase to the payment provider. */
  function Post(st: Store, user: Option<UserId>, planType: string, code: Option<string>): (out: (CheckoutReply, Store))
    ensures user.None? ==> out == (Unauthorized, st)
    ensures user.Some? && planType !in PlanKeys ==> out == (InvalidPlan, st)
    ensures out.0.Subscribed? <==>
              user.Some? && planType in PlanKeys && (IsBypassCode(code) || FullCoupon(st.coupons, code))
    ensures out.0.PayAtProvider? ==> out.1 == st
    ensures out.0.PayAtProvider? ==>
              var plan := PlanFor(planType).value;
              var md := out.0.session.metadata;
              && md.basePrice == plan.price && md.letters == plan.letters && md.planType == planType
              && md.discount + md.finalPrice == plan.price && md.finalPrice != 0.0
              && out.0.session.unitAmount == Cents(md.finalPrice)
              && md.isSuperUserCoupon == "false"
              && md.couponCode == OrDefault(code, "")
    ensures out.0.Subscribed? ==>
              var plan := PlanFor(planType).value;
              && out.0 == Subscribed(|st.subscriptions|, plan.letters)
              && out.1.subscriptions == st.subscriptions + [Subscription(user.value, planType, planType, Active,
                   0.0, plan.price, Some(code.value), plan.letters, plan.letters, None)]
              && out.1.couponUsage == st.couponUsage + [CouponUsage(user.value, code.value,
                   Resolve(st.coupons, code).employeeId, Some(100.0), plan.price, 0.0)]
    ensures out.0.Subscribed? && IsBypassCode(code) ==>
              out.1.profiles == st.profiles && out.1.commissions == st.commissions && out.1.coupons == st.coupons
    ensures out.0.Subscribed? && !IsBypassCode(code) ==>
              var plan := PlanFor(planType).value;
              && out.1.profiles == SetSuperUserFlag(st.profiles, user.value, true)
              && (Truthy(Some(st.coupons[code.value].employeeId)) ==>
                    out.1.commissions == st.commissions + [Commission(st.coupons[code.value].employeeId,
                      |st.subscriptions|, plan.price, CommissionRate, plan.price * CommissionRate, Pending)]
                    && code.value in out.1.coupons
                    && out.1.coupons[code.value].usageCount == st.coupons[code.value].usageCount + 1
                    && out.1.coupons == BumpUsageCount(st.coupons, code))
              && (!Truthy(Some(st.coupons[code.value].employeeId)) ==>
                    out.1.commissions == st.commissions && out.1.coupons == st.coupons)
    ensures out.1.letters == st.letters && out.1.audit == st.audit
  {
    if user.None? then (Unauthorized, st)
    else
      var u := user.value;
      var res := Resolve(st.coupons, code);
      match PlanFor(planType)
      case None => (InvalidPlan, st)
      case Some(plan) =>
        ZeroCostIffFullDiscount(plan.price, res.discount);
        if FinalPrice(plan.price, res.discount) == 0.0 then
          var commission := if Truthy(res.employeeId) then Some((res.employeeId.value, plan.price)) else None;
          (Subscribed(|st.subscriptions|, plan.letters), ZeroCost(st, u, plan, code, res, commission))
        else
          (PayAtProvider(PaidSession(u, plan, code, res)), st)
  }
}

/** Checkout as `main-main/app/api/create-checkout` implements it: no bypass
    token, commission on the final price, and none for super-user coupons. */
module CheckoutWithoutBypass {
  import opened Common
  import opened Records
  import opened Pricing
  import opened Checkout

  /** The commission this variant books: only for an attributed employee
      and never for a super-user coupon, on the given amount. */
  function ReferralCommission(res: CouponResolution, amount: real): Option<(string, real)> {
    if Truthy(res.employeeId) && !res.isSuperUserCoupon then Some((res.employeeId.value, amount)) else None
  }

  /** POST: price the chosen plan, then either subscribe at zero cost or
      hand the purchase to the payment provider. */
  function Post(st: Store, user: Option<UserId>, planType: string, code: Option<string>): (out: (CheckoutReply, Store))
    ensures user.None? ==> out == (Unauthorized, st)
    ensures user.Some? && planType !in PlanKeys ==> out == (InvalidPlan, st)
    ensures out.0.Subscribed? <==> user.Some? && planType in PlanKeys && FullCoupon(st.coupons, code)
    ensures out.0.PayAtProvider? ==> out.1 == st
    ensures out.0.PayAtProvider? ==>
              var plan := PlanFor(planType).value;
              var md := out.0.session.metadata;
              && md.basePrice == plan.price && md.letters == plan.letters && md.planType == planType
              && md.discount + md.finalPrice == plan.price && md.finalPrice != 0.0
              && out.0.session.unitAmount == Cents(md.finalPrice)
              && md.isSuperUserCoupon == "false"
              && md.couponCode == OrDefault(code, "")
    ensures out.0.Subscribed? ==>
              var plan := PlanFor(planType).value;
              && out.0 == Subscribed(|st.subscriptions|, plan.letters)
              && out.1.subscriptions == st.subscriptions + [Subscription(user.value, planType, planType, Active,
                   0.0, plan.price, Some(code.value), plan.letters, plan.letters, None)]
              && out.1.couponUsage == st.couponUsage + [CouponUsage(user.value, code.value,
                   Some(st.coupons[code.value].employeeId), Some(100.0), plan.price, 0.0)]
              && out.1.profiles == SetSuperUserFlag(st.profiles, user.value, true)
    ensures out.1.commissions == st.commissions && out.1.coupons == st.coupons
    ensures out.1.letters == st.letters && out.1.audit == st.audit
  {
    if user.None? then (Unauthorized, st)
    else
      var u := user.value;
      var res := LookupCoupon(st.coupons, code);
      match PlanFor(planType)
      case None => (InvalidPlan, st)
      case Some(plan) =>
        var finalPrice := FinalPrice(plan.price, res.discount);
        ZeroCostIffFullDiscount(plan.price, res.discount);
        if finalPrice == 0.0 then
          var commission := ReferralCommission(res, finalPrice);
          (Subscribed(|st.subscriptions|, plan.letters), ZeroCost(st, u, plan, code, res, commission))
        else
          (PayAtProvider(PaidSession(u, plan, code, res)), st)
  }
}

/** How the two checkout variants relate, and what both keep intact. */
module CheckoutVariants {
  import opened Common
  import opened Query
  import opened Records
  import opened Pricing
  import opened Checkout
  import Bypass = CheckoutWithBypass
  import Strict = CheckoutWithoutBypass

  /** The bypass token is any spelling of TALK3 whose letters differ from
      it only in case. */
  lemma BypassCodeCharwise(c: string)
    ensures Bypass.IsBypassCode(Some(c)) <==>
              |c| == 5 && forall i :: 0 <= i < 5 ==> c[i] == "TALK3"[i] || c[i] == "talk3"[i]
  {
    if |c| == 5 {
      var up := AsciiUpper(c);
      assert up == "TALK3" <==> forall i :: 0 <= i < 5 ==> up[i] == "TALK3"[i];
    }
  }

  /** With the bypass token the coupon table is never consulted: the reply
      and every other table come out the same whatever the coupons are. */
  lemma BypassIgnoresCouponTable(st: Store, user: Option<UserId>, planType: string, code: Option<string>,
                                 other: map<string, EmployeeCoupon>)
    requires Bypass.IsBypassCode(code)
    ensures var (r1, s1) := Bypass.Post(st, user, planType, code);
            var (r2, s2) := Bypass.Post(st.(coupons := other), user, planType, code);
            r1 == r2 && s2 == s1.(coupons := other)
  {
  }

  /** Whenever the bypass variant sends a purchase to the payment provider,
      the other variant sends the very same session and vice versa: the two
      differ only on zero-cost purchases. */
  lemma PaidPathsAgree(st: Store, user: Option<UserId>, planType: string, code: Option<string>)
    ensures Bypass.Post(st, user, planType, code).0.PayAtProvider? <==>
              Strict.Post(st, user, planType, code).0.PayAtProvider? && !Bypass.IsBypassCode(code)
    ensures Bypass.Post(st, user, planType, code).0.PayAtProvider? ==>
              Bypass.Post(st, user, planType, code) == Strict.Post(st, user, planType, code)
  {
  }

  /** For a one-hundred-percent employee coupon the bypass variant books a
      commission of five percent of the base price, while the other variant
      books none. */
  lemma FullCouponCommissionsDiffer(st: Store, u: UserId, planType: string, code: Option<string>)
    requires planType in PlanKeys && FullCoupon(st.coupons, code) && !Bypass.IsBypassCode(code)
    requires st.coupons[code.value].employeeId != ""
    ensures |Bypass.Post(st, Some(u), planType, code).1.commissions| == |st.commissions| + 1
    ensures Bypass.Post(st, Some(u), planType, code).1.commissions[|st.commissions|].commissionAmount
              == PlanFor(planType).value.price * CommissionRate
    ensures Strict.Post(st, Some(u), planType, code).1.commissions == st.commissions
  {
  }

  /** Neither checkout variant attaches a payment session to a
      subscription, so both keep sessions unique. */
  lemma CheckoutKeepsSessionsUnique(st: Store, user: Option<UserId>, planType: string, code: Option<string>)
    requires SessionsUnique(st.subscriptions)
    ensures SessionsUnique(Bypass.Post(st, user, planType, code).1.subscriptions)
    ensures SessionsUnique(Strict.Post(st, user, planType, code).1.subscriptions)
  {
    BypassKeepsSessionsUnique(st, user, planType, code);
    StrictKeepsSessionsUnique(st, user, planType, code);
  }

  lemma BypassKeepsSessionsUnique(st: Store, user: Option<UserId>, planType: string, code: Option<string>)
    requires SessionsUnique(st.subscriptions)
    ensures SessionsUnique(Bypass.Post(st, user, planType, code).1.subscriptions)
  {
    var out := Bypass.Post(st, user, planType, code);
    if out.0.Subscribed? {
      AppendSessionlessKeepsUnique(st.subscriptions, out.1.subscriptions[|st.subscriptions|]);
    }
  }

  lemma StrictKeepsSessionsUnique(st: Store, user: Option<UserId>, planType: string, code: Option<string>)
    requires SessionsUnique(st.subscriptions)
    ensures SessionsUnique(Strict.Post(st, user, planType, code).1.subscriptions)
  {
    var out := Strict.Post(st, user, planType, code);
    if out.0.Subscribed? {
      AppendSessionlessKeepsUnique(st.subscriptions, out.1.subscriptions[|st.subscriptions|]);
    }
  }

  /** A subscription without a payment session cannot clash with another. */
  lemma AppendSessionlessKeepsUnique(subs: seq<Subscription>, s: Subscription)
    requires SessionsUnique(subs) && s.stripeSessionId.None?
    ensures SessionsUnique(subs + [s])
  {
    forall x ensures Count(subs + [s], PaidThrough(x)) <= 1 {
      CountAppend(subs, s, PaidThrough(x));
    }
  }
}
