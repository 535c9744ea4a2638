/** The discount input of a comanda (ApplyComandaDiscountRequest): a percentage and a
    fixed amount, each defaulting to zero, never null once constructed. */
module DiscountRequests {
  import opened Outcomes
  import opened ComandaModel

  datatype DiscountRequest = DiscountRequest(discountPercent: real, discountAmount: real) {
    /** The bean-validation bounds: percent in [0, 100], amount not negative. */
    predicate IsValid() {
      0.0 <= discountPercent <= 100.0 && discountAmount >= 0.0
    }
  }

  /** The no-argument constructor: both fields keep their 0.0 initialisers. Such a
      request passes validation and is the one the two-argument constructor builds
      from two nulls. */
  function DefaultRequest(): (r: DiscountRequest)
    ensures r.IsValid()
    ensures r == NewDiscountRequest(None, None)
  {
    DiscountRequest(0.0, 0.0)
  }

  /** The two-argument constructor: a null field becomes 0.0, any other value is kept. */
  function NewDiscountRequest(discountPercent: Option<real>, discountAmount: Option<real>): (r: DiscountRequest)
    ensures discountPercent.None? ==> r.discountPercent == 0.0
    ensures discountAmount.None? ==> r.discountAmount == 0.0
    ensures discountPercent.Some? ==> r.discountPercent == discountPercent.value
    ensures discountAmount.Some? ==> r.discountAmount == discountAmount.value
  {
    DiscountRequest(discountPercent.GetOr(0.0), discountAmount.GetOr(0.0))
  }

  /** A valid discount keeps the total of a comanda with non-negative lines between
      zero and its subtotal. */
  lemma ValidDiscountBoundsTotal(s: ComandaState, request: DiscountRequest)
    requires request.IsValid()
    requires forall k :: 0 <= k < |s.items| ==> NonNegativeLine(s.items[k])
    ensures var applied := s.(discountPercent := Some(request.discountPercent),
                              discountAmount := Some(request.discountAmount));
            0.0 <= applied.Total() <= applied.Subtotal() == s.Subtotal()
  {
    SumOfLinesNonNegative(s.items);
    TotalWithinSubtotal(s.Subtotal(), request.discountPercent, request.discountAmount);
  }
}
