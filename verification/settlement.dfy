/** Payment settlement as `app/api/verify-payment` implements it: the paid
    checkout session is turned into a subscription exactly once, from the
    pricing facts the session carries. */
module Settlement {
  import opened Common
  import opened Query
  import opened Records
  import opened Pricing
  import opened Checkout
  import CheckoutWithoutBypass
  import opened Allowance

  /** What the payment provider reports for a session id. */
  datatype ProviderSession = ProviderSession(paymentStatus: string, metadata: SessionMetadata)

  datatype SettleReply =
    | MissingSessionId
    | ProviderError
    | PaymentIncomplete
    | AlreadySettled(subscriptionId: nat)
    | Settled(subscriptionId: nat, letters: int)
  {
    function Status(): int {
      match this
      case MissingSessionId => 400
      case ProviderError => 500
      case PaymentIncomplete => 400
      case AlreadySettled(_) => 200
      case Settled(_, _) => 200
    }

    predicate Succeeded() {
      AlreadySettled? || Settled?
    }
  }

  /** The subscription a settlement inserts, read off the metadata. */
  function SettledSubscription(sessionId: string, md: SessionMetadata): Subscription {
    Subscription(md.userId, md.planType, md.planType, Active, md.finalPrice, md.discount,
                 NullIfEmpty(md.couponCode), md.letters, md.letters, Some(sessionId))
  }

  /** The coupon-usage row of a settlement, its percentage recomputed from
      the recorded discount amount. */
  function SettledUsage(md: SessionMetadata): Option<CouponUsage> {
    if md.couponCode != "" then
      Some(CouponUsage(md.userId, md.couponCode, NullIfEmpty(md.employeeId),
                       PercentOf(md.discount, md.basePrice), md.basePrice, md.finalPrice))
    else None
  }

  /** The commission of a settlement: an attributed employee and no
      super-user coupon, on the final price. */
  function SettledCommission(md: SessionMetadata): Option<(string, real)> {
    if md.employeeId != "" && md.isSuperUserCoupon != "true" then Some((md.employeeId, md.finalPrice)) else None
  }

  /** POST: settle a paid session, or report the subscription an earlier
      settlement of the same session created. `session` is what the
      provider returns for `sessionId`, None when the lookup fails. */
  function Post(st: Store, sessionId: Option<string>, session: Option<ProviderSession>): (out: (SettleReply, Store))
    ensures !Truthy(sessionId) ==> out == (MissingSessionId, st)
    ensures !out.0.Settled? ==> out.1 == st
    ensures out.0.Succeeded() ==>
              Truthy(sessionId) && session.Some? && session.value.paymentStatus == "paid"
    ensures Truthy(sessionId) && session.Some? && session.value.paymentStatus != "paid" ==>
              out.0 == PaymentIncomplete
    ensures Truthy(sessionId) && session.Some? && session.value.paymentStatus == "paid" ==>
              && out.0.Succeeded()
              && (out.0.AlreadySettled? <==> Count(st.subscriptions, PaidThrough(sessionId.value)) == 1)
    ensures out.0.AlreadySettled? ==>
              var i := out.0.subscriptionId;
              i < |st.subscriptions| && st.subscriptions[i].stripeSessionId == sessionId
    ensures out.0.Settled? ==>
              var md := session.value.metadata;
              && out.0 == Settled(|st.subscriptions|, md.letters)
              && Count(st.subscriptions, PaidThrough(sessionId.value)) != 1
              && out.1.subscriptions == st.subscriptions + [SettledSubscription(sessionId.value, md)]
              && out.1.subscriptions[|st.subscriptions|].price == md.finalPrice
              && out.1.subscriptions[|st.subscriptions|].creditsRemaining == md.letters
              && out.1.subscriptions[|st.subscriptions|].remainingLetters == md.letters
              && (out.1.profiles != st.profiles ==> md.isSuperUserCoupon == "true")
              && (md.isSuperUserCoupon == "true" && md.userId in st.profiles ==>
                    md.userId in out.1.profiles && out.1.profiles[md.userId].isSuperUser)
              && (|out.1.commissions| > |st.commissions| <==>
                    md.employeeId != "" && md.isSuperUserCoupon != "true")
              && out.1.letters == st.letters && out.1.audit == st.audit
  {
    if !Truthy(sessionId) then (MissingSessionId, st)
    else if session.None? then (ProviderError, st)
    else if session.value.paymentStatus != "paid" then (PaymentIncomplete, st)
    else
      var sid := sessionId.value;
      match Single(st.subscriptions, PaidThrough(sid))
      case Some(i) => (AlreadySettled(i), st)
      case None =>
        var md := session.value.metadata;
        (Settled(|st.subscriptions|, md.letters),
         ApplyPurchase(st, SettledSubscription(sid, md), md.isSuperUserCoupon == "true",
                       SettledUsage(md), SettledCommission(md), NullIfEmpty(md.couponCode)))
  }

  /** Settling keeps every payment session attached to at most one
      subscription. */
  lemma {:induction false} SettlePreservesUniqueSessions(st: Store, sessionId: Option<string>, session: Option<ProviderSession>)
    requires SessionsUnique(st.subscriptions)
    ensures SessionsUnique(Post(st, sessionId, session).1.subscriptions)
  {
    var out := Post(st, sessionId, session);
    if out.0.Settled? {
      var sid := sessionId.value;
      var sub := SettledSubscription(sid, session.value.metadata);
      forall x
        ensures Count(out.1.subscriptions, PaidThrough(x)) <= 1
      {
        CountAppend(st.subscriptions, sub, PaidThrough(x));
        if x == sid {
          assert Count(st.subscriptions, PaidThrough(sid)) == 0;
        }
      }
    }
  }

  /** Settling the same paid session again creates nothing and reports the
      subscription the first settlement produced. */
  lemma {:induction false} SettleIdempotent(st: Store, sessionId: Option<string>, session: Option<ProviderSession>)
    requires SessionsUnique(st.subscriptions)
    requires Post(st, sessionId, session).0.Succeeded()
    ensures var (first, st1) := Post(st, sessionId, session);
            Post(st1, sessionId, session) == (AlreadySettled(first.subscriptionId), st1)
  {
    var (first, st1) := Post(st, sessionId, session);
    var sid := sessionId.value;
    if first.Settled? {
      var sub := SettledSubscription(sid, session.value.metadata);
      assert Count(st.subscriptions, PaidThrough(sid)) == 0;
      CountAppend(st.subscriptions, sub, PaidThrough(sid));
      assert PaidThrough(sid)(st1.subscriptions[|st.subscriptions|]);
    }
  }

  /** A paid session priced from a plan and a resolved coupon settles into
      the zero-cost writes for the same purchase, with the session id
      attached and the commission on the final price. */
  lemma PaidSessionSettles(st: Store, u: UserId, plan: Plan, code: Option<string>, res: CouponResolution, sid: string)
    requires plan.price > 0.0 && !res.isSuperUserCoupon
    requires sid != "" && Count(st.subscriptions, PaidThrough(sid)) == 0
    ensures
      var finalPrice := FinalPrice(plan.price, res.discount);
      Post(st, Some(sid), Some(ProviderSession("paid", PaidSession(u, plan, code, res).metadata))) ==
        (Settled(|st.subscriptions|, plan.letters),
         ApplyPurchase(st, FreeSubscription(u, plan, code, res).(stripeSessionId := Some(sid)), false,
                       CheckoutUsage(u, plan, code, res.(employeeId := OrNull(res.employeeId))),
                       CheckoutWithoutBypass.ReferralCommission(res, finalPrice), OrNull(code)))
  {
    var md := PaidSession(u, plan, code, res).metadata;
    assert Single(st.subscriptions, PaidThrough(sid)).None?;
    PercentRoundTrip(plan.price, res.discount);
    assert SettledUsage(md) == CheckoutUsage(u, plan, code, res.(employeeId := OrNull(res.employeeId)));
  }

  /** The paid session of a checkout settles into exactly what the
      zero-cost branch writes for the same plan and coupon, with the
      session id attached and the commission on the final price; the
      percentage recorded for the coupon is the coupon's own. */
  lemma PaidCheckoutSettlesAsPriced(
    st: Store, u: UserId, planType: string, code: Option<string>,
    st2: Store, sid: string)
    requires CheckoutWithoutBypass.Post(st, Some(u), planType, code).0.PayAtProvider?
    requires sid != "" && Count(st2.subscriptions, PaidThrough(sid)) == 0
    ensures
      var plan := PlanFor(planType).value;
      var res := LookupCoupon(st.coupons, code);
      var md := CheckoutWithoutBypass.Post(st, Some(u), planType, code).0.session.metadata;
      var finalPrice := FinalPrice(plan.price, res.discount);
      && finalPrice != 0.0
      && Post(st2, Some(sid), Some(ProviderSession("paid", md))) ==
           (Settled(|st2.subscriptions|, plan.letters),
            ApplyPurchase(st2, FreeSubscription(u, plan, code, res).(stripeSessionId := Some(sid)), false,
                          CheckoutUsage(u, plan, code, res.(employeeId := OrNull(res.employeeId))),
                          CheckoutWithoutBypass.ReferralCommission(res, finalPrice), OrNull(code)))
  {
    var plan := PlanFor(planType).value;
    var res := LookupCoupon(st.coupons, code);
    ZeroCostIffFullDiscount(plan.price, res.discount);
    assert CheckoutWithoutBypass.Post(st, Some(u), planType, code).0.session == PaidSession(u, plan, code, res);
    PaidSessionSettles(st2, u, plan, code, res, sid);
  }

  /** A settlement gives the purchaser exactly the letters the session
      metadata names, as credits the letter generator can spend. */
  lemma SettlementGrantsCredits(st: Store, sessionId: Option<string>, session: Option<ProviderSession>)
    requires Post(st, sessionId, session).0.Settled?
    ensures var md := session.value.metadata;
            Credits(Post(st, sessionId, session).1.subscriptions, md.userId)
              == Credits(st.subscriptions, md.userId) + md.letters
  {
    var md := session.value.metadata;
    CreditsAppend(st.subscriptions, SettledSubscription(sessionId.value, md), md.userId);
  }
}
