/** The order-total rule shared by the cart page and the checkout page:
    free shipping strictly above 35, otherwise a flat 5.99; 8% tax on the
    subtotal. Money is an exact `real`; display rounding is not modelled. */
module Pricing {

  const FreeShippingThreshold: real := 35.0
  const FlatShipping: real := 5.99
  const TaxRate: real := 0.08

  /** Shipping is waived exactly when the subtotal is above the threshold. */
  function Shipping(subtotal: real): (r: real)
    ensures r == 0.0 <==> subtotal > FreeShippingThreshold
    ensures r == 0.0 || r == FlatShipping
  {
    if subtotal > FreeShippingThreshold then 0.0 else FlatShipping
  }

  /** Tax is 8% of the subtotal, so it is never negative and never exceeds it
      on a non-negative subtotal. */
  function Tax(subtotal: real): (r: real)
    ensures subtotal >= 0.0 ==> 0.0 <= r <= subtotal
    ensures r * 25.0 == subtotal * 2.0
  {
    subtotal * TaxRate
  }

  /** What the customer pays: subtotal, shipping and tax. */
  function FinalTotal(subtotal: real): (r: real)
    ensures r == subtotal * 1.08 + (if subtotal > FreeShippingThreshold then 0.0 else 5.99)
  {
    subtotal + Shipping(subtotal) + Tax(subtotal)
  }

  /** On a non-negative subtotal the total is at least the subtotal plus its tax. */
  lemma TotalCoversSubtotalAndTax(subtotal: real)
    requires subtotal >= 0.0
    ensures FinalTotal(subtotal) >= subtotal + Tax(subtotal) >= subtotal
  {
  }

  /** The worked examples of the order-total rule: 20.00 pays 5.99 shipping and
      1.60 tax (27.59 in all); 40.00 ships free and pays 3.20 tax (43.20). */
  lemma WorkedExamples()
    ensures Shipping(20.0) == 5.99 && Tax(20.0) == 1.6 && FinalTotal(20.0) == 27.59
    ensures Shipping(40.0) == 0.0 && Tax(40.0) == 3.2 && FinalTotal(40.0) == 43.2
  {
  }

  /** At exactly 35 shipping is still charged, so crossing the threshold lowers
      the total: 35.00 costs 43.79 while 36.00 costs only 38.88. */
  lemma ThresholdIsExclusive()
    ensures Shipping(FreeShippingThreshold) == FlatShipping
    ensures FinalTotal(35.0) == 43.79 && FinalTotal(36.0) == 38.88
    ensures FinalTotal(36.0) < FinalTotal(35.0)
  {
  }
}
