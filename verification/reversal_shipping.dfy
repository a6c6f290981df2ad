/** The shipping part of a tax-transaction reversal request. Magento puts
    the shipping of a whole order on its first invoice, so only the
    transaction that carries shipping tax reverts shipping. */
module ReversalShipping {
  import opened Values
  import opened ReversalDocuments

  datatype ShippingCost = ShippingCost(amount: int, amountTax: int)

  /** Online: the credit memo's shipping reversal amounts. */
  function FormOnlineData(cm: Creditmemo): (r: ShippingCost)
    ensures r.amount == cm.shippingReversalAmount && r.amountTax == cm.shippingReversalTax
  {
    ShippingCost(cm.shippingReversalAmount, cm.shippingReversalTax)
  }

  datatype OfflineResult = OfflineResult(shipping: ShippingCost, creditmemo: Creditmemo, fullyReversed: bool)

  /** Offline: nothing to revert (no shipping tax on the transaction, or no
      shipping on the credit memo) counts as fully reverted and leaves the
      credit memo alone; otherwise the amounts are added to the amount to
      revert and the shipping is fully reverted iff the (negative) amounts
      cancel the transaction's shipping and shipping tax exactly. */
  function FormOfflineData(cm: Creditmemo, tx: Transaction, rev: Reverter): (r: OfflineResult)
    ensures !(tx.hasShippingTax && cm.hasShippingToRevert) ==>
      r.shipping == ShippingCost(0, 0) && r.fullyReversed && r.creditmemo == cm
    ensures tx.hasShippingTax && cm.hasShippingToRevert ==>
      && r.shipping == FormOnlineData(cm)
      && r.creditmemo == cm.(amountToRevert := rev(cm.amountToRevert, r.shipping.amount, r.shipping.amountTax))
      && (r.fullyReversed <==>
           tx.shippingTaxAmount + r.shipping.amountTax == 0 && tx.shippingAmount + r.shipping.amount == 0)
  {
    if tx.hasShippingTax && cm.hasShippingToRevert then
      var s := ShippingCost(cm.shippingReversalAmount, cm.shippingReversalTax);
      var cm' := cm.(amountToRevert := rev(cm.amountToRevert, s.amount, s.amountTax));
      OfflineResult(s, cm', tx.shippingTaxAmount + s.amountTax == 0 && tx.shippingAmount + s.amount == 0)
    else
      OfflineResult(ShippingCost(0, 0), cm, true)
  }

  function ToArray(s: ShippingCost): (r: map<string, Value>)
    ensures r.Keys == {"amount", "amount_tax"}
    ensures r["amount"] == Int(s.amount) && r["amount_tax"] == Int(s.amountTax)
  {
    map["amount" := Int(s.amount), "amount_tax" := Int(s.amountTax)]
  }

  /** Shipping goes into the request iff something is reverted. */
  predicate CanIncludeInRequest(s: ShippingCost) {
    s.amount != 0 || s.amountTax != 0
  }

  /** A trivial offline shipping part is never sent, and it never blocks a
      full reversal. */
  lemma TrivialShippingNotIncluded(cm: Creditmemo, tx: Transaction, rev: Reverter)
    requires !(tx.hasShippingTax && cm.hasShippingToRevert)
    ensures !CanIncludeInRequest(FormOfflineData(cm, tx, rev).shipping)
    ensures FormOfflineData(cm, tx, rev).fullyReversed
  {
  }
}
