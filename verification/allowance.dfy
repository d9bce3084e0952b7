/** Letter credits: what a user's active subscriptions hold, the pre-check
    the generator runs, and the atomic deduction it calls once a draft
    exists. The stored procedure behind the deduction is not part of this
    model; its behaviour is taken to be: on the user's one active
    subscription, succeed exactly when a credit is left and then take
    exactly one credit away. */
module Allowance {
  import opened Common
  import opened Query
  import opened Records

  /** What one subscription row adds to a user's credits. */
  function Contribution(s: Subscription, u: UserId): int {
    if ActiveFor(u)(s) then s.creditsRemaining else 0
  }

  /** The credits of a user's active subscriptions, summed. */
  function Credits(subs: seq<Subscription>, u: UserId): int
    decreases |subs|
  {
    if subs == [] then 0
    else Credits(subs[..|subs| - 1], u) + Contribution(subs[|subs| - 1], u)
  }

  /** No subscription row holds a negative credit count. */
  predicate CreditsNonNegative(subs: seq<Subscription>) {
    forall j :: 0 <= j < |subs| ==> subs[j].creditsRemaining >= 0
  }

  /** The generator's pre-check: `.single()` on the user's active
      subscriptions yields a row, and that row has a credit left. Zero or
      several active subscriptions read as no subscription. */
  predicate HasCredit(subs: seq<Subscription>, u: UserId) {
    match Single(subs, ActiveFor(u))
    case Some(i) => subs[i].creditsRemaining > 0
    case None => false
  }

  /** The deduction call. `fault` stands for the call itself failing; the
      result is the rewritten subscription rows, None when the deduction is
      refused. */
  function Deduct(subs: seq<Subscription>, u: UserId, fault: bool): (r: Option<seq<Subscription>>)
    ensures r.Some? <==> !fault && HasCredit(subs, u)
    ensures r.Some? ==> |r.value| == |subs|
    ensures r.Some? ==> Credits(r.value, u) == Credits(subs, u) - 1
    ensures r.Some? ==> forall v :: v != u ==> Credits(r.value, v) == Credits(subs, v)
    ensures r.Some? ==> forall j :: 0 <= j < |subs| && !ActiveFor(u)(subs[j]) ==> r.value[j] == subs[j]
    ensures r.Some? && CreditsNonNegative(subs) ==> CreditsNonNegative(r.value)
  {
    if fault then None
    else match Single(subs, ActiveFor(u))
      case None => None
      case Some(i) =>
        if subs[i].creditsRemaining > 0 then
          var s := subs[i];
          var after := subs[i := s.(creditsRemaining := s.creditsRemaining - 1)];
          CreditsUpdate(subs, i, after[i], u);
          forall v | v != u ensures Credits(after, v) == Credits(subs, v) {
            CreditsUpdate(subs, i, after[i], v);
          }
          Some(after)
        else None
  }

  /** Appending a row adds that row's contribution. */
  lemma {:induction false} CreditsAppend(subs: seq<Subscription>, s: Subscription, u: UserId)
    ensures Credits(subs + [s], u) == Credits(subs, u) + Contribution(s, u)
  {
    assert (subs + [s])[..|subs + [s]| - 1] == subs;
  }

  /** A purchase adds the new subscription's credits to its owner and
      leaves every other user's credits as they were. */
  lemma PurchaseGrantsCredits(
    st: Store, sub: Subscription, grantSuperUser: bool, usage: Option<CouponUsage>,
    commission: Option<(string, real)>, couponCode: Option<string>, u: UserId)
    ensures var after := ApplyPurchase(st, sub, grantSuperUser, usage, commission, couponCode);
            && (u == sub.userId && sub.status == Active ==>
                  Credits(after.subscriptions, u) == Credits(st.subscriptions, u) + sub.creditsRemaining)
            && (u != sub.userId || sub.status != Active ==>
                  Credits(after.subscriptions, u) == Credits(st.subscriptions, u))
  {
    CreditsAppend(st.subscriptions, sub, u);
  }

  /** Rewriting one row changes the credits by the change in that row's
      contribution. */
  lemma {:induction false} CreditsUpdate(subs: seq<Subscription>, i: nat, s: Subscription, u: UserId)
    requires i < |subs|
    ensures Credits(subs[i := s], u) == Credits(subs, u) - Contribution(subs[i], u) + Contribution(s, u)
    decreases |subs|
  {
    var ys := subs[i := s];
    var front := subs[..|subs| - 1];
    if i == |subs| - 1 {
      assert ys[..|ys| - 1] == front;
    } else {
      CreditsUpdate(front, i, s, u);
      assert ys[..|ys| - 1] == front[i := s];
    }
  }
}
