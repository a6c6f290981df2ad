/** The tax module's last check before an order is saved: a new order must
    not be placed when Stripe Tax is on and the tax could not be computed. */
module OrderProceed {
  import opened Wrappers

  const TaxNotCalculated: string := "Tax could not be calculated."

  /** `orderId` 0 stands for an order that has not been saved yet;
      `canProceed` is the tax flow's verdict on the current calculation. */
  function Execute(taxEnabled: bool, orderId: nat, canProceed: bool): (r: Result<()>)
    ensures r.Failure? <==> taxEnabled && orderId == 0 && !canProceed
    ensures r.Failure? ==> r.error == TaxNotCalculated
  {
    if taxEnabled && orderId == 0 then
      if !canProceed then Failure(TaxNotCalculated) else Success(())
    else
      Success(())
  }
}

/** Recognising the Stripe error raised when an account may not take MOTO
    (mail order / telephone order) card payments. */
module ErrorHelper {
  import opened Php

  const MotoParam: string := "payment_method_options[card][moto]"

  /** The error's `code` and `param`, with PHP `null` held as "". */
  function IsMotoError(code: string, param: string): (r: bool)
    ensures r <==> code == "parameter_unknown" && param == MotoParam
  {
    if Empty(code) then false
    else if Empty(param) then false
    else if code != "parameter_unknown" then false
    else param == MotoParam
  }
}

/** The refund pre-check: an order must still be refundable, and a refund
    must be for a positive amount. */
module CreditmemoHelper {
  import opened Wrappers
  import opened Php

  const NotRefundable: string := "The order cannot be refunded"
  const AmountPrefix: string := "Cannot refund an amount of "

  /** `baseAmount` is a Dec4 amount; `amountText` is how PHP interpolates it
      into the message. */
  function ValidateBaseRefundAmount(canCreditmemo: bool, baseAmount: int, amountText: string): (r: Result<()>)
    ensures r.Success? <==> canCreditmemo && baseAmount > 0
    ensures !canCreditmemo ==> r == Failure(NotRefundable)
    ensures canCreditmemo && baseAmount <= 0 ==> r == Failure(AmountPrefix + amountText + ".")
  {
    if !canCreditmemo then Failure(NotRefundable)
    else if baseAmount <= 0 then Failure(AmountPrefix + amountText + ".")
    else Success(())
  }
}

/** Stripe coupons behind the cart-price rules applied to an order. */
module DiscountHelper {
  import opened Wrappers
  import opened Php

  /** A stored mapping from a Magento rule to a Stripe coupon. */
  datatype DiscountRule = DiscountRule(ruleId: string, couponId: string)

  /** The coupon collection's lookup by rule id. */
  type RuleLookup = string -> Option<DiscountRule>

  /** The rules found for `ids`, in the order of the ids; ids without a rule
      are skipped. */
  function Collect(ids: seq<string>, lookup: RuleLookup): (r: seq<DiscountRule>)
    ensures |r| <= |ids|
    ensures forall k :: 0 <= k < |r| ==> exists j :: 0 <= j < |ids| && lookup(ids[j]) == Some(r[k])
    ensures (forall j :: 0 <= j < |ids| ==> lookup(ids[j]).Some?) ==> |r| == |ids|
  {
    if |ids| == 0 then []
    else
      var front := ids[..|ids| - 1];
      var prior := Collect(front, lookup);
      assert forall j :: 0 <= j < |front| ==> front[j] == ids[j];
      match lookup(ids[|ids| - 1])
      case Some(rule) => prior + [rule]
      case None => prior
  }

  /** What one id contributes: its rule, or nothing when it has none. */
  function Found(id: string, lookup: RuleLookup): (r: seq<DiscountRule>)
    ensures |r| <= 1
    ensures |r| == 1 <==> lookup(id).Some?
    ensures |r| == 1 ==> r[0] == lookup(id).value
  {
    match lookup(id)
    case Some(rule) => [rule]
    case None => []
  }

  /** Collecting distributes over concatenation of the ids: the rules of
      earlier ids come first, in order, and every id adds exactly what it
      finds on its own. */
  lemma {:induction false} CollectAppend(a: seq<string>, b: seq<string>, lookup: RuleLookup)
    ensures Collect(a + b, lookup) == Collect(a, lookup) + Collect(b, lookup)
    decreases |b|
  {
    if |b| == 0 {
      assert a + b == a;
    } else {
      var front := b[..|b| - 1];
      var ab := a + b;
      assert ab[..|ab| - 1] == a + front;
      assert ab[|ab| - 1] == b[|b| - 1];
      CollectAppend(a, front, lookup);
    }
  }

  /** A single id yields its own rule or nothing. */
  lemma CollectSingle(id: string, lookup: RuleLookup)
    ensures Collect([id], lookup) == Found(id, lookup)
  {
    assert [id][..0] == [];
  }

  /** The lookup loop over the split ids: each id's rule is appended when
      the collection has one. */
  method LookUpAll(ids: seq<string>, lookup: RuleLookup) returns (rules: seq<DiscountRule>)
    ensures rules == Collect(ids, lookup)
  {
    rules := [];
    var i := 0;
    while i < |ids|
      invariant 0 <= i <= |ids|
      invariant rules == Collect(ids[..i], lookup)
    {
      assert ids[..i + 1] == ids[..i] + [ids[i]];
      CollectAppend(ids[..i], [ids[i]], lookup);
      CollectSingle(ids[i], lookup);
      var found := lookup(ids[i]);
      if found.Some? {
        rules := rules + [found.value];
      }
      i := i + 1;
    }
    assert ids[..|ids|] == ids;
  }

  /** The applied rule ids arrive as one comma-separated string; an empty,
      "0" or missing string has no rules. */
  method GetDiscountRules(appliedRuleIds: Option<string>, lookup: RuleLookup) returns (rules: seq<DiscountRule>)
    ensures appliedRuleIds.None? || Empty(appliedRuleIds.value) ==> rules == []
    ensures appliedRuleIds.Some? && !Empty(appliedRuleIds.value) ==>
      rules == Collect(Split(appliedRuleIds.value, ','), lookup)
      && |rules| <= Count(appliedRuleIds.value, ',') + 1
  {
    rules := [];
    if appliedRuleIds.None? || Empty(appliedRuleIds.value) {
      return;
    }
    var ids := Split(appliedRuleIds.value, ',');
    SplitLength(appliedRuleIds.value, ',');
    rules := LookUpAll(ids, lookup);
  }
}

/** The admin's "cancel invoice" button for Stripe payments: an invoice whose
    money has moved at Stripe cannot be cancelled from Magento. */
module InvoicePlugin {
  import opened Php

  /** What the plugin answers: Magento's own verdict, or a firm no. */
  datatype Verdict = Original | Denied

  /** `transactionTypes` lists the order's payment transactions' types. */
  function AroundCanCancel(paymentMethod: string, isAdmin: bool, isOpen: bool,
                           transactionTypes: seq<string>): (r: Verdict)
    ensures !StartsWith(paymentMethod, "stripe_") || !isAdmin ==> r == Original
    ensures StartsWith(paymentMethod, "stripe_") && isAdmin ==>
      (r == Denied <==> (isOpen && |transactionTypes| > 0) || "capture" in transactionTypes)
  {
    if !StartsWith(paymentMethod, "stripe_") || !isAdmin then Original
    else
      var hasTransactions := |transactionTypes| > 0;
      var wasCaptured := WasCaptured(transactionTypes);
      if isOpen && hasTransactions then Denied
      else if wasCaptured then Denied
      else Original
  }

  /** The plugin's scan of the transactions for a capture. */
  function WasCaptured(types: seq<string>): (r: bool)
    ensures r <==> "capture" in types
  {
    if |types| == 0 then false
    else
      var rest := WasCaptured(types[1..]);
      assert types == [types[0]] + types[1..];
      types[0] == "capture" || rest
  }

  /** `productId` 0 stands for an item without a product. */
  datatype InvoiceItem = InvoiceItem(productId: nat)

  /** The invoice has a subscription iff some item with a product is a
      subscription product. */
  function HasSubscriptions(items: seq<InvoiceItem>, isSubscription: nat -> bool): (r: bool)
    ensures r <==> exists i :: 0 <= i < |items| && items[i].productId != 0 && isSubscription(items[i].productId)
  {
    if |items| == 0 then false
    else if items[0].productId != 0 && isSubscription(items[0].productId) then true
    else
      var rest := HasSubscriptions(items[1..], isSubscription);
      assert forall i :: 1 <= i < |items| ==> items[i] == items[1..][i - 1];
      rest
  }
}
