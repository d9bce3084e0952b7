/** The plan table and the percentage arithmetic shared by both checkout
    handlers. Amounts are exact rationals; the handlers' doubles are not
    modelled. */
module Pricing {
  import opened Common

  /** One row of the checkout plan table. */
  datatype Plan = Plan(planType: string, price: real, letters: nat, name: string)

  const PlanKeys: set<string> := {"one_time", "standard_4_month", "premium_8_month"}

  /** `planConfig[planType]`: the three purchasable plans. */
  function PlanFor(planType: string): (r: Option<Plan>)
    ensures r.Some? <==> planType in PlanKeys
    ensures r.Some? ==> r.value.planType == planType && r.value.price > 0.0 && r.value.letters >= 1
    ensures planType == "one_time" ==> r == Some(Plan("one_time", 299.0, 1, "Single Letter"))
    ensures planType == "standard_4_month" ==> r == Some(Plan("standard_4_month", 299.0, 4, "Monthly Plan"))
    ensures planType == "premium_8_month" ==> r == Some(Plan("premium_8_month", 599.0, 8, "Yearly Plan"))
  {
    if planType == "one_time" then Some(Plan("one_time", 299.0, 1, "Single Letter"))
    else if planType == "standard_4_month" then Some(Plan("standard_4_month", 299.0, 4, "Monthly Plan"))
    else if planType == "premium_8_month" then Some(Plan("premium_8_month", 599.0, 8, "Yearly Plan"))
    else None
  }

  /** `(basePrice * discount) / 100`. */
  function DiscountAmount(basePrice: real, percent: real): real {
    basePrice * percent / 100.0
  }

  /** `basePrice - discountAmount`. */
  function FinalPrice(basePrice: real, percent: real): real {
    basePrice - DiscountAmount(basePrice, percent)
  }

  /** The discount and the final price add back up to the base price, and
      the final price shrinks as the percentage grows. */
  lemma PriceSplit(basePrice: real, p: real, q: real)
    requires basePrice > 0.0
    ensures DiscountAmount(basePrice, p) + FinalPrice(basePrice, p) == basePrice
    ensures 0.0 <= p <= 100.0 ==> 0.0 <= FinalPrice(basePrice, p) <= basePrice
    ensures p < q ==> FinalPrice(basePrice, q) < FinalPrice(basePrice, p)
  {
    assert FinalPrice(basePrice, p) == basePrice * (100.0 - p) / 100.0;
    assert FinalPrice(basePrice, q) == basePrice * (100.0 - q) / 100.0;
    if p < q {
      assert FinalPrice(basePrice, p) - FinalPrice(basePrice, q) == basePrice * (q - p) / 100.0;
      assert basePrice * (q - p) > 0.0;
    }
  }

  /** For a positive base price the purchase is free exactly when the
      discount is one hundred percent. */
  lemma ZeroCostIffFullDiscount(basePrice: real, percent: real)
    requires basePrice > 0.0
    ensures FinalPrice(basePrice, percent) == 0.0 <==> percent == 100.0
  {
    assert FinalPrice(basePrice, percent) == basePrice * (100.0 - percent) / 100.0;
  }

  /** `Math.round(price * 100)`: the amount in cents, rounding halves up. */
  function Cents(price: real): (r: int)
    ensures price * 100.0 - 0.5 < r as real <= price * 100.0 + 0.5
  {
    (price * 100.0 + 0.5).Floor
  }

  /** The percentage read back from a recorded discount amount,
      `(discount / basePrice) * 100`, None where the base price is zero. */
  function PercentOf(discount: real, basePrice: real): (r: Option<real>)
    ensures r.Some? <==> basePrice != 0.0
    ensures r.Some? ==> r.value * basePrice == discount * 100.0
  {
    if basePrice == 0.0 then None else Some(discount / basePrice * 100.0)
  }

  /** Reading the percentage back from the discount amount recovers the
      coupon's percentage. */
  lemma PercentRoundTrip(basePrice: real, percent: real)
    requires basePrice > 0.0
    ensures PercentOf(DiscountAmount(basePrice, percent), basePrice) == Some(percent)
  {
    var r := PercentOf(DiscountAmount(basePrice, percent), basePrice);
    assert r.value * basePrice == percent * basePrice;
  }
}
