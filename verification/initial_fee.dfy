/** Initial fees of subscription products: the quantity a fee is charged
    for, the fee totals of quotes, orders, invoices and credit memos, the tax
    a credit memo refunds on them, and the cart's option lines. */
module InitialFee {
  import opened Wrappers
  import opened Php
  import opened SubscriptionProduct

  /** A quote, order, invoice or credit-memo item's quantity fields (whole
      units; `None` is PHP `null`). */
  datatype ParentItem = ParentItem(productType: string, qty: Option<int>, qtyOrdered: Option<int>)

  /** One entry of a bundle's quantity options: the child product and its
      quantity per parent unit. */
  datatype QtyOption = QtyOption(productId: nat, value: int)

  datatype Item = Item(
    productId: nat,
    qty: Option<int>,
    qtyOrdered: Option<int>,
    parent: Option<ParentItem>,
    qtyOptions: seq<QtyOption>)

  /** PHP 8's `max` of two nullable numbers. `null` compares as `false`, so
      it loses to any non-zero number and ties with 0; on a tie the first
      argument is returned. */
  function NullableMax(a: Option<int>, b: Option<int>): (r: Option<int>)
    ensures r.None? <==> a.None? && (b.None? || b == Some(0))
    ensures a.Some? && b.Some? ==> r == Some(Max(a.value, b.value))
    ensures a.Some? && b.None? ==> r == a
    ensures a.None? && r.Some? ==> r == b
  {
    match (a, b)
    case (Some(x), Some(y)) => Some(Max(x, y))
    case (Some(x), None) => Some(x)
    case (None, Some(y)) => if y == 0 then None else Some(y)
    case (None, None) => None
  }

  /** A nullable number in arithmetic: `null` counts as 0. */
  function Num(o: Option<int>): int {
    match o
    case Some(v) => v
    case None => 0
  }

  /** The value of the first quantity option for `productId` (the loop's
      `break`), or `None` when no option names it. */
  function FirstOption(opts: seq<QtyOption>, productId: nat): (r: Option<int>)
    ensures r.None? <==> forall i :: 0 <= i < |opts| ==> opts[i].productId != productId
    ensures r.Some? ==> exists i :: 0 <= i < |opts| && opts[i].productId == productId && opts[i].value == r.value
                                    && forall j :: 0 <= j < i ==> opts[j].productId != productId
  {
    if |opts| == 0 then None
    else if opts[0].productId == productId then Some(opts[0].value)
    else
      var rest := FirstOption(opts[1..], productId);
      assert forall i :: 1 <= i < |opts| ==> opts[i] == opts[1..][i - 1];
      if rest.None? then None
      else
        var k :| 0 <= k < |opts[1..]| && opts[1..][k].productId == productId && opts[1..][k].value == rest.value
                 && forall j :: 0 <= j < k ==> opts[1..][j].productId != productId;
        assert opts[k + 1].productId == productId && opts[k + 1].value == rest.value;
        rest
  }

  /** The quantity a product's fee is charged for: the larger of the quote
      and ordered quantities; for the child of a configurable or bundle
      product, times the parent's quantity when that is a number; for a
      parent item, times the quantity option of `productId` if it has one. */
  function GetItemQty(item: Item, productId: nat): (r: int)
    ensures var own := Num(NullableMax(item.qty, item.qtyOrdered));
      && (item.parent.Some? ==>
            var p := item.parent.value;
            var parentQty := NullableMax(p.qty, p.qtyOrdered);
            (r == if (p.productType == "configurable" || p.productType == "bundle") && parentQty.Some?
                  then own * parentQty.value else own))
      && ((item.parent.None? && (forall i :: 0 <= i < |item.qtyOptions| ==> item.qtyOptions[i].productId != productId))
            ==> r == own)
      && (item.parent.None? ==>
            forall i :: 0 <= i < |item.qtyOptions| && item.qtyOptions[i].productId == productId
                        && (forall j :: 0 <= j < i ==> item.qtyOptions[j].productId != productId)
                        ==> r == own * item.qtyOptions[i].value)
  {
    var own := Num(NullableMax(item.qty, item.qtyOrdered));
    match item.parent
    case Some(p) =>
      var parentQty := NullableMax(p.qty, p.qtyOrdered);
      if (p.productType == "configurable" || p.productType == "bundle") && parentQty.Some? then own * parentQty.value
      else own
    case None =>
      match FirstOption(item.qtyOptions, productId)
      case Some(v) => own * v
      case None => own
  }

  /** The catalog and store the fees are read from, and the checkout session's
      two flags that suppress initial fees. */
  datatype Env = Env(
    catalog: Catalog,
    opts: OptionsLookup,
    store: Store,
    isSubscriptionUpdate: bool,
    isSubscriptionReactivate: bool)

  /** The state a fresh model reaches for `productId` once it is a
      subscription product. */
  function Loaded(productId: nat, env: Env): (sp: SubscriptionProduct)
    requires IsSubscriptionProductDef(env.catalog(productId), env.opts)
    ensures sp.product.Some? && sp.details.Some?
  {
    Load(Unloaded, env.catalog(productId), env.opts)
  }

  /** The fee of one product: an error for a missing product id, 0 for a
      product that is not a subscription. */
  function FeeForProductId(productId: nat, rate: int, qty: int, env: Env): (r: Result<int>)
    ensures r.Failure? <==> productId == 0
    ensures r.Failure? ==> r.error == "Invalid product ID."
    ensures r.Success? && !IsSubscriptionProductDef(env.catalog(productId), env.opts) ==> r.value == 0
    ensures r.Success? && IsSubscriptionProductDef(env.catalog(productId), env.opts) ==>
      Success(r.value) == GetInitialFeeAmount(Loaded(productId, env), qty, rate, "", env.store)
  {
    var sp :- FromProductId(Unloaded, productId, env.catalog, env.opts);
    if !IsSubscriptionProduct(sp) then Success(0)
    else GetInitialFeeAmount(sp, qty, rate, "", env.store)
  }

  function ItemFee(item: Item, rate: int, env: Env): Result<int> {
    FeeForProductId(item.productId, rate, GetItemQty(item, item.productId), env)
  }

  /** The fees of `items` added up in order; the first item without a
      product id aborts the sum. */
  function SumFees(items: seq<Item>, rate: int, env: Env): (r: Result<int>)
    ensures r.Failure? <==> exists i :: 0 <= i < |items| && items[i].productId == 0
    ensures r.Failure? ==> r.error == "Invalid product ID."
    ensures r.Success? && (forall i :: 0 <= i < |items| ==> !IsSubscriptionProductDef(env.catalog(items[i].productId), env.opts))
      ==> r.value == 0
  {
    if |items| == 0 then Success(0)
    else
      var front := items[..|items| - 1];
      assert forall i :: 0 <= i < |front| ==> front[i] == items[i];
      var before :- SumFees(front, rate, env);
      var last :- ItemFee(items[|items| - 1], rate, env);
      Success(before + last)
  }

  /** One more item adds its own fee to the total. */
  lemma SumFeesAppend(items: seq<Item>, x: Item, rate: int, env: Env)
    requires SumFees(items + [x], rate, env).Success?
    ensures SumFees(items, rate, env).Success? && ItemFee(x, rate, env).Success?
    ensures SumFees(items + [x], rate, env).value == SumFees(items, rate, env).value + ItemFee(x, rate, env).value
  {
    assert (items + [x])[..|items|] == items;
  }

  /** A product that is not a subscription leaves the total as it was. */
  lemma NonSubscriptionAddsNothing(items: seq<Item>, x: Item, rate: int, env: Env)
    requires x.productId != 0
    requires !IsSubscriptionProductDef(env.catalog(x.productId), env.opts)
    ensures SumFees(items + [x], rate, env) == SumFees(items, rate, env)
  {
    if SumFees(items + [x], rate, env).Success? {
      SumFeesAppend(items, x, rate, env);
      NonSubscriptionFeeIsZero(x, rate, env);
    } else {
      FailureBeforeLast(items, x, rate, env);
    }
  }

  /** A non-subscription product with an id has no fee. */
  lemma NonSubscriptionFeeIsZero(x: Item, rate: int, env: Env)
    requires x.productId != 0 && !IsSubscriptionProductDef(env.catalog(x.productId), env.opts)
    ensures ItemFee(x, rate, env) == Success(0)
  {
  }

  /** A sum that fails with a last item that has a product id already failed
      before it. */
  lemma FailureBeforeLast(items: seq<Item>, x: Item, rate: int, env: Env)
    requires x.productId != 0 && SumFees(items + [x], rate, env).Failure?
    ensures SumFees(items, rate, env).Failure?
  {
    var s := items + [x];
    var i :| 0 <= i < |s| && s[i].productId == 0;
    assert items[i].productId == 0;
  }

  /** The fee of `items` at `rate` (`RateScale` is a rate of 1, 0 is none
      given): nothing while a subscription is being updated or reactivated. */
  function GetInitialFeeForItems(items: seq<Item>, rate: int, env: Env): (r: Result<int>)
    ensures env.isSubscriptionUpdate || env.isSubscriptionReactivate ==> r == Success(0)
    ensures !(env.isSubscriptionUpdate || env.isSubscriptionReactivate) ==>
      (r.Failure? <==> exists i :: 0 <= i < |items| && items[i].productId == 0)
    ensures r.Success? && (forall i :: 0 <= i < |items| ==> !IsSubscriptionProductDef(env.catalog(items[i].productId), env.opts))
      ==> r.value == 0
  {
    if env.isSubscriptionUpdate then Success(0)
    else if env.isSubscriptionReactivate then Success(0)
    else SumFees(items, rate, env)
  }

  /** The fee of a quote's items, nothing for a recurring order or a quote
      whose fee was removed. */
  function GetTotalInitialFeeFor(items: seq<Item>, isRecurringOrder: bool, removeInitialFee: bool,
                                 quoteRate: int, env: Env): (r: Result<int>)
    ensures isRecurringOrder || removeInitialFee ==> r == Success(0)
    ensures !isRecurringOrder && !removeInitialFee ==> r == GetInitialFeeForItems(items, quoteRate, env)
  {
    if isRecurringOrder || removeInitialFee then Success(0)
    else GetInitialFeeForItems(items, quoteRate, env)
  }

  /** The payment fields an invoice or credit memo's order carries. */
  datatype PaymentInfo = PaymentInfo(paymentMethod: string, isRecurringSubscription: bool, removeInitialFee: bool)

  /** A document bears initial fees iff its order has a payment by a method
      that supports subscriptions, is not a recurring payment, and has not had
      its fee removed. */
  predicate FeeApplies(payment: Option<PaymentInfo>, supportsSubscriptions: string -> bool) {
    && payment.Some?
    && supportsSubscriptions(payment.value.paymentMethod)
    && !payment.value.isRecurringSubscription
    && !payment.value.removeInitialFee
  }

  /** The fee of an invoice's or credit memo's items (the two helpers are the
      same): at the document's base-to-order rate, or unconverted when
      `useDocumentRate` is false. */
  function GetTotalInitialFeeForDocument(payment: Option<PaymentInfo>, supportsSubscriptions: string -> bool,
                                         items: seq<Item>, useDocumentRate: bool, baseToOrderRate: int,
                                         env: Env): (r: Result<int>)
    ensures !FeeApplies(payment, supportsSubscriptions) ==> r == Success(0)
    ensures FeeApplies(payment, supportsSubscriptions) && useDocumentRate ==>
      r == GetInitialFeeForItems(items, baseToOrderRate, env)
    ensures FeeApplies(payment, supportsSubscriptions) && !useDocumentRate ==>
      r == GetInitialFeeForItems(items, RateScale, env)
  {
    if payment.None? then Success(0)
    else if !supportsSubscriptions(payment.value.paymentMethod) then Success(0)
    else if payment.value.isRecurringSubscription || payment.value.removeInitialFee then Success(0)
    else
      var rate := if useDocumentRate then baseToOrderRate else RateScale;
      GetInitialFeeForItems(items, rate, env)
  }

  /** Reference definition: the unconverted fees, each the base fee times the
      item's quantity, or nothing when that is not positive. */
  function BaseFees(items: seq<Item>, env: Env): int
    requires forall i :: 0 <= i < |items| ==> items[i].productId != 0
  {
    if |items| == 0 then 0
    else
      var x := items[|items| - 1];
      var fee := if IsSubscriptionProductDef(env.catalog(x.productId), env.opts)
                 then Max(0, GetBaseInitialFeeAmount(Loaded(x.productId, env)).value * GetItemQty(x, x.productId))
                 else 0;
      BaseFees(items[..|items| - 1], env) + fee
  }

  /** A successful total is the front's total plus the last item's fee. */
  lemma SumFeesLast(items: seq<Item>, rate: int, env: Env)
    requires |items| > 0 && SumFees(items, rate, env).Success?
    ensures SumFees(items[..|items| - 1], rate, env).Success? && ItemFee(items[|items| - 1], rate, env).Success?
    ensures SumFees(items, rate, env).value
         == SumFees(items[..|items| - 1], rate, env).value + ItemFee(items[|items| - 1], rate, env).value
  {
  }

  /** At a rate of 1 an item is charged its base fee times its quantity. */
  lemma UnitRateItemFee(x: Item, env: Env)
    requires x.productId != 0
    ensures ItemFee(x, RateScale, env)
         == Success(if IsSubscriptionProductDef(env.catalog(x.productId), env.opts)
                    then Max(0, GetBaseInitialFeeAmount(Loaded(x.productId, env)).value * GetItemQty(x, x.productId))
                    else 0)
  {
    if IsSubscriptionProductDef(env.catalog(x.productId), env.opts) {
      UnitRateKeepsFee(Loaded(x.productId, env), GetItemQty(x, x.productId), "", env.store);
    }
  }

  /** At a rate of 1 every item is charged its base fee times its quantity. */
  lemma {:induction false} UnitRateSumsBaseFees(items: seq<Item>, env: Env)
    requires forall i :: 0 <= i < |items| ==> items[i].productId != 0
    ensures SumFees(items, RateScale, env) == Success(BaseFees(items, env))
  {
    if |items| > 0 {
      var front := items[..|items| - 1];
      var x := items[|items| - 1];
      assert forall i :: 0 <= i < |front| ==> front[i] == items[i];
      UnitRateSumsBaseFees(front, env);
      UnitRateItemFee(x, env);
      assert SumFees(items, RateScale, env).Success?;
      SumFeesLast(items, RateScale, env);
    }
  }

  /** An invoice or credit memo totalled without its own rate is charged in
      the base currency, unconverted. */
  lemma DocumentWithoutRateIsUnconverted(payment: Option<PaymentInfo>, supportsSubscriptions: string -> bool,
                                         items: seq<Item>, baseToOrderRate: int, env: Env)
    requires FeeApplies(payment, supportsSubscriptions)
    requires !env.isSubscriptionUpdate && !env.isSubscriptionReactivate
    requires forall i :: 0 <= i < |items| ==> items[i].productId != 0
    ensures GetTotalInitialFeeForDocument(payment, supportsSubscriptions, items, false, baseToOrderRate, env)
         == Success(BaseFees(items, env))
  {
    UnitRateSumsBaseFees(items, env);
  }

  /** An order item's saved fee, in the order's and in the base currency. */
  datatype OrderItemFee = OrderItemFee(initialFee: int, baseInitialFee: int)

  datatype FeeTotals = FeeTotals(initialFee: int, baseInitialFee: int)

  /** The fees of the order items whose saved fee is positive (the base fee
      is taken along with it, whatever its sign). */
  function PositiveFees(items: seq<OrderItemFee>): (r: FeeTotals)
    ensures r.initialFee >= 0
    ensures r.initialFee > 0 <==> exists i :: 0 <= i < |items| && items[i].initialFee > 0
    ensures (forall i :: 0 <= i < |items| ==> items[i].initialFee <= 0) ==> r == FeeTotals(0, 0)
  {
    if |items| == 0 then FeeTotals(0, 0)
    else
      var front := items[..|items| - 1];
      assert forall i :: 0 <= i < |front| ==> front[i] == items[i];
      var before := PositiveFees(front);
      var x := items[|items| - 1];
      if x.initialFee > 0 then FeeTotals(before.initialFee + x.initialFee, before.baseInitialFee + x.baseInitialFee)
      else before
  }

  /** The order's fee: nothing for a recurring order, a removed fee, or while
      a subscription is updated or reactivated; otherwise the saved fees of
      its items. */
  method GetTotalInitialFeeForOrder(items: seq<OrderItemFee>, isRecurringOrder: bool, removeInitialFee: bool,
                                    env: Env) returns (r: FeeTotals)
    ensures isRecurringOrder || removeInitialFee || env.isSubscriptionUpdate || env.isSubscriptionReactivate ==>
      r == FeeTotals(0, 0)
    ensures !(isRecurringOrder || removeInitialFee || env.isSubscriptionUpdate || env.isSubscriptionReactivate) ==>
      r == PositiveFees(items)
    ensures r.initialFee >= 0
  {
    if isRecurringOrder || removeInitialFee {
      return FeeTotals(0, 0);
    }
    if env.isSubscriptionUpdate || env.isSubscriptionReactivate {
      return FeeTotals(0, 0);
    }
    var total, baseTotal := 0, 0;
    var i := 0;
    while i < |items|
      invariant 0 <= i <= |items|
      invariant FeeTotals(total, baseTotal) == PositiveFees(items[..i])
    {
      assert items[..i + 1][..i] == items[..i];
      if items[i].initialFee > 0 {
        total := total + items[i].initialFee;
        baseTotal := baseTotal + items[i].baseInitialFee;
      }
      i := i + 1;
    }
    assert items[..|items|] == items;
    r := FeeTotals(total, baseTotal);
  }

  /** A credit-memo item and the order item it refunds: the quantity ordered
      and the initial-fee tax charged on it (Dec4). */
  datatype CreditmemoItem = CreditmemoItem(item: Item, qtyOrdered: int, initialFeeTax: int, baseInitialFeeTax: int)

  datatype FeeTax = FeeTax(tax: int, baseTax: int)

  const DivisionByZero: string := "Division by zero"

  /** PHP's `round($tax / $qtyOrdered * $qty, 2)` on a Dec4 tax. */
  function ShareOfTax(tax: int, qtyOrdered: int, qty: int): (r: int)
    requires qtyOrdered != 0
    ensures r % 100 == 0
    ensures NearestAwayFromZero(tax * qty, qtyOrdered * 100, r / 100)
  {
    RoundDiv(tax * qty, qtyOrdered * 100) * 100
  }

  /** Refunding every unit ordered gives back the order's tax, to the cent. */
  lemma FullRefundReturnsTax(tax: int, qtyOrdered: int)
    requires qtyOrdered != 0
    ensures 2 * Abs(tax - ShareOfTax(tax, qtyOrdered, qtyOrdered)) <= 100
  {
    var q := qtyOrdered;
    var n := RoundDiv(tax * q, q * 100);
    var r := n * 100;
    assert r == ShareOfTax(tax, q, q);
    assert 2 * Abs(tax * q - n * (q * 100)) <= Abs(q * 100);
    ScaledDifference(tax, n, q);
    AbsMul(tax - r, q);
    AbsMul(q, 100);
    CancelHalf(Abs(tax - r), Abs(q));
  }

  /** Halving both sides of `2ab <= 100b` for a positive `b`. */
  lemma CancelHalf(a: nat, b: int)
    requires b > 0 && 2 * (a * b) <= b * 100
    ensures 2 * a <= 100
  {
  }

  lemma ScaledDifference(tax: int, n: int, q: int)
    ensures tax * q - n * (q * 100) == (tax - n * 100) * q
  {
    assert n * (q * 100) == (n * 100) * q;
  }

  lemma AbsMul(a: int, b: int)
    ensures Abs(a * b) == Abs(a) * Abs(b)
  {
    if a < 0 && b < 0 {
      assert a * b == (-a) * (-b);
    } else if a < 0 {
      assert -(a * b) == (-a) * b;
    } else if b < 0 {
      assert -(a * b) == a * (-b);
    }
  }

  /** An item without a product, or a subscription item whose order item
      has no quantity (PHP 8 refuses the division). */
  predicate FeeTaxFails(ci: CreditmemoItem, env: Env) {
    ci.item.productId == 0 || (IsSubscriptionProductDef(env.catalog(ci.item.productId), env.opts) && ci.qtyOrdered == 0)
  }

  /** One credit-memo item's share of the fee tax; nothing for a product
      that is not a subscription. */
  function ItemFeeTax(ci: CreditmemoItem, env: Env): (r: Result<FeeTax>)
    ensures r.Failure? <==> FeeTaxFails(ci, env)
    ensures r.Success? && !IsSubscriptionProductDef(env.catalog(ci.item.productId), env.opts) ==> r.value == FeeTax(0, 0)
    ensures r.Success? && IsSubscriptionProductDef(env.catalog(ci.item.productId), env.opts) ==>
      var qty := GetItemQty(ci.item, ci.item.productId);
      && r.value.tax % 100 == 0 && r.value.baseTax % 100 == 0
      && NearestAwayFromZero(ci.initialFeeTax * qty, ci.qtyOrdered * 100, r.value.tax / 100)
      && NearestAwayFromZero(ci.baseInitialFeeTax * qty, ci.qtyOrdered * 100, r.value.baseTax / 100)
  {
    var sp :- FromProductId(Unloaded, ci.item.productId, env.catalog, env.opts);
    if !IsSubscriptionProduct(sp) then Success(FeeTax(0, 0))
    else
      var qty := GetItemQty(ci.item, ci.item.productId);
      if ci.qtyOrdered == 0 then Failure(DivisionByZero)
      else Success(FeeTax(ShareOfTax(ci.initialFeeTax, ci.qtyOrdered, qty),
                          ShareOfTax(ci.baseInitialFeeTax, ci.qtyOrdered, qty)))
  }

  lemma CentsAdd(a: int, b: int)
    requires a % 100 == 0 && b % 100 == 0
    ensures (a + b) % 100 == 0
  {
    assert a + b == (a / 100 + b / 100) * 100;
  }

  /** The reference total of the fee tax: each item's share, added from the
      first item on. */
  function TaxTotal(items: seq<CreditmemoItem>, env: Env): FeeTax
    requires forall i :: 0 <= i < |items| ==> !FeeTaxFails(items[i], env)
    decreases |items|
  {
    if |items| == 0 then FeeTax(0, 0)
    else
      var head := ItemFeeTax(items[0], env).value;
      var rest := TaxTotal(items[1..], env);
      FeeTax(head.tax + rest.tax, head.baseTax + rest.baseTax)
  }

  /** Adding one item at the end adds its share to the reference total. */
  lemma {:induction false} TaxTotalSnoc(items: seq<CreditmemoItem>, x: CreditmemoItem, env: Env)
    requires forall i :: 0 <= i < |items| ==> !FeeTaxFails(items[i], env)
    requires !FeeTaxFails(x, env)
    ensures var t := TaxTotal(items, env); var last := ItemFeeTax(x, env).value;
      TaxTotal(items + [x], env) == FeeTax(t.tax + last.tax, t.baseTax + last.baseTax)
    decreases |items|
  {
    if |items| > 0 {
      assert (items + [x])[1..] == items[1..] + [x];
      TaxTotalSnoc(items[1..], x, env);
    } else {
      assert [x][1..] == [];
    }
  }

  predicate SomeFeeTaxFails(items: seq<CreditmemoItem>, env: Env) {
    exists i :: 0 <= i < |items| && FeeTaxFails(items[i], env)
  }

  /** Some item fails iff one before the last does or the last one does. */
  lemma SomeFeeTaxFailsSplit(items: seq<CreditmemoItem>, env: Env)
    requires |items| > 0
    ensures SomeFeeTaxFails(items, env)
        <==> SomeFeeTaxFails(items[..|items| - 1], env) || FeeTaxFails(items[|items| - 1], env)
  {
    var front := items[..|items| - 1];
    assert forall i :: 0 <= i < |front| ==> front[i] == items[i];
  }

  /** The fee tax of all credit-memo items, added up in order. */
  function SumFeeTax(items: seq<CreditmemoItem>, env: Env): (r: Result<FeeTax>)
    ensures r.Failure? <==> SomeFeeTaxFails(items, env)
    ensures r.Success? ==> r.value.tax % 100 == 0 && r.value.baseTax % 100 == 0
    ensures r.Success? && (forall i :: 0 <= i < |items| ==>
                            !IsSubscriptionProductDef(env.catalog(items[i].item.productId), env.opts))
      ==> r.value == FeeTax(0, 0)
  {
    if |items| == 0 then Success(FeeTax(0, 0))
    else
      var front := items[..|items| - 1];
      SomeFeeTaxFailsSplit(items, env);
      var before :- SumFeeTax(front, env);
      var last :- ItemFeeTax(items[|items| - 1], env);
      CentsAdd(before.tax, last.tax);
      CentsAdd(before.baseTax, last.baseTax);
      Success(FeeTax(before.tax + last.tax, before.baseTax + last.baseTax))
  }

  /** A successful sum is the front's sum plus the last item's share. */
  lemma SumFeeTaxLast(items: seq<CreditmemoItem>, env: Env)
    requires |items| > 0 && SumFeeTax(items, env).Success?
    ensures SumFeeTax(items[..|items| - 1], env).Success? && ItemFeeTax(items[|items| - 1], env).Success?
    ensures var b := SumFeeTax(items[..|items| - 1], env).value; var l := ItemFeeTax(items[|items| - 1], env).value;
      SumFeeTax(items, env).value == FeeTax(b.tax + l.tax, b.baseTax + l.baseTax)
  {
  }

  /** The running sum is the reference total: every item's share, added. */
  lemma {:induction false} SumFeeTaxIsTaxTotal(items: seq<CreditmemoItem>, env: Env)
    requires SumFeeTax(items, env).Success?
    ensures SumFeeTax(items, env).value == TaxTotal(items, env)
    decreases |items|
  {
    if |items| > 0 {
      var front := items[..|items| - 1];
      var x := items[|items| - 1];
      SumFeeTaxLast(items, env);
      SumFeeTaxIsTaxTotal(front, env);
      assert items == front + [x];
      TaxTotalSnoc(front, x, env);
    }
  }

  /** The credit memo's fee tax; `None` stands for PHP's plain 0, returned
      when no fee applies or a subscription is updated or reactivated. */
  function GetTotalInitialFeeTaxForCreditmemo(payment: Option<PaymentInfo>, supportsSubscriptions: string -> bool,
                                              items: seq<CreditmemoItem>, env: Env): (r: Result<Option<FeeTax>>)
    ensures !FeeApplies(payment, supportsSubscriptions) || env.isSubscriptionUpdate || env.isSubscriptionReactivate
      ==> r == Success(None)
    ensures FeeApplies(payment, supportsSubscriptions) && !env.isSubscriptionUpdate && !env.isSubscriptionReactivate ==>
      (r.Failure? <==> SomeFeeTaxFails(items, env))
      && (r.Success? ==> r.value.Some? && r.value.value.tax % 100 == 0 && r.value.value.baseTax % 100 == 0)
      && (r.Success? ==> r.value.value == TaxTotal(items, env))
  {
    if !FeeApplies(payment, supportsSubscriptions) then Success(None)
    else if env.isSubscriptionUpdate || env.isSubscriptionReactivate then Success(None)
    else
      var t :- SumFeeTax(items, env);
      SumFeeTaxIsTaxTotal(items, env);
      Success(Some(t))
  }

  /** A label and value shown under a cart item. */
  datatype AdditionalOption = AdditionalOption(caption: string, value: string)

  const RepeatsEvery: string := "Repeats Every"
  const InitialFeeLabel: string := "Initial Fee"
  const TrialPeriod: string := "Trial Period"

  predicate KnownLabel(o: AdditionalOption) {
    o.caption == RepeatsEvery || o.caption == InitialFeeLabel || o.caption == TrialPeriod
  }

  /** A subscription's option lines: the interval, then the fee when it is
      positive, then the trial days when there are any. */
  function OptionLines(interval: string, fee: int, feeText: string, trial: Option<int>): (r: seq<AdditionalOption>)
    ensures 1 <= |r| <= 3
    ensures r[0] == AdditionalOption(RepeatsEvery, interval)
    ensures (exists i :: 0 <= i < |r| && r[i].caption == InitialFeeLabel) <==> fee > 0
    ensures (exists i :: 0 <= i < |r| && r[i].caption == TrialPeriod) <==> trial.Some? && trial.value > 0
    ensures trial.Some? && trial.value > 0 ==> r[|r| - 1] == AdditionalOption(TrialPeriod, IntToString(trial.value) + " days")
    ensures fee > 0 ==> r[1] == AdditionalOption(InitialFeeLabel, feeText)
    ensures forall k :: 0 <= k < |r| ==> KnownLabel(r[k])
  {
    var head := [AdditionalOption(RepeatsEvery, interval)];
    var withFee := head + (if fee > 0 then [AdditionalOption(InitialFeeLabel, feeText)] else []);
    var tail := if trial.Some? && trial.value > 0 then [AdditionalOption(TrialPeriod, IntToString(trial.value) + " days")] else [];
    var r := withFee + tail;
    assert forall i :: 0 <= i < |withFee| ==> withFee[i].caption != TrialPeriod;
    assert forall i :: 0 <= i < |tail| ==> tail[i].caption != InitialFeeLabel;
    assert forall i :: 0 <= i < |r| ==> r[i] == if i < |withFee| then withFee[i] else tail[i - |withFee|];
    assert fee > 0 ==> r[1].caption == InitialFeeLabel;
    assert trial.Some? && trial.value > 0 ==> r[|r| - 1].caption == TrialPeriod;
    r
  }

  /** The option lines of one product: none for a product that is not a
      subscription; otherwise its interval, then its initial fee when
      positive (converted to `currencyCode` and formatted by `format`), then
      its trial days when it has any. */
  function GetAdditionalOptionsForProductId(productId: nat, quoteItem: Item, currencyCode: string,
                                            format: (int, string) -> string, env: Env): (r: Result<seq<AdditionalOption>>)
    ensures r.Failure? <==> productId == 0
    ensures r.Success? ==> |r.value| <= 3 && forall k :: 0 <= k < |r.value| ==> KnownLabel(r.value[k])
    ensures r.Success? && !IsSubscriptionProductDef(env.catalog(productId), env.opts) ==> r.value == []
    ensures r.Success? && IsSubscriptionProductDef(env.catalog(productId), env.opts) ==>
      var sp := Loaded(productId, env);
      var fee := GetInitialFeeAmount(sp, GetItemQty(quoteItem, productId), 0, currencyCode, env.store).value;
      r.value == OptionLines(GetFormattedInterval(sp).value, fee, format(fee, currencyCode), GetTrialDays(sp).value)
  {
    var qty := GetItemQty(quoteItem, productId);
    var sp :- FromProductId(Unloaded, productId, env.catalog, env.opts);
    if !IsSubscriptionProduct(sp) then Success([])
    else
      var interval := GetFormattedInterval(sp).value;
      var fee := GetInitialFeeAmount(sp, qty, 0, currencyCode, env.store).value;
      var trial := GetTrialDays(sp).value;
      Success(OptionLines(interval, fee, format(fee, currencyCode), trial))
  }

  /** The option lines of each product, as one function of the product id
      (a product without an id has none here; the loader refuses it). */
  function LinesOf(item: Item, currencyCode: string, format: (int, string) -> string, env: Env): nat -> seq<AdditionalOption>
  {
    (pid: nat) => if pid == 0 then [] else GetAdditionalOptionsForProductId(pid, item, currencyCode, format, env).value
  }

  /** The reference concatenation of the children's option lines, from the
      first child on. */
  function ConcatLines(opts: seq<QtyOption>, f: nat -> seq<AdditionalOption>): seq<AdditionalOption>
    decreases |opts|
  {
    if |opts| == 0 then [] else f(opts[0].productId) + ConcatLines(opts[1..], f)
  }

  lemma {:induction false} ConcatLinesSnoc(opts: seq<QtyOption>, x: QtyOption, f: nat -> seq<AdditionalOption>)
    ensures ConcatLines(opts + [x], f) == ConcatLines(opts, f) + f(x.productId)
    decreases |opts|
  {
    if |opts| > 0 {
      assert (opts + [x])[1..] == opts[1..] + [x];
      ConcatLinesSnoc(opts[1..], x, f);
    } else {
      assert [x][1..] == [];
    }
  }

  /** The reference concatenation ends with the last child's lines. */
  lemma ConcatLinesLast(opts: seq<QtyOption>, f: nat -> seq<AdditionalOption>)
    requires |opts| > 0
    ensures ConcatLines(opts, f) == ConcatLines(opts[..|opts| - 1], f) + f(opts[|opts| - 1].productId)
  {
    var front, x := opts[..|opts| - 1], opts[|opts| - 1];
    ConcatLinesSnoc(front, x, f);
    assert front + [x] == opts;
  }

  /** Some child lacks a product id iff one before the last does or the last
      one does. */
  predicate MissingProductId(opts: seq<QtyOption>) {
    exists i :: 0 <= i < |opts| && opts[i].productId == 0
  }

  lemma MissingProductIdSplit(opts: seq<QtyOption>)
    requires |opts| > 0
    ensures MissingProductId(opts)
        <==> MissingProductId(opts[..|opts| - 1]) || opts[|opts| - 1].productId == 0
  {
    var front := opts[..|opts| - 1];
    if MissingProductId(front) {
      var i :| 0 <= i < |front| && front[i].productId == 0;
      assert opts[i].productId == 0;
    }
  }

  /** The option lines of a bundle's children, one product after another. */
  function GetAdditionalOptionsForChildrenOf(opts: seq<QtyOption>, item: Item, currencyCode: string,
                                             format: (int, string) -> string, env: Env): (r: Result<seq<AdditionalOption>>)
    ensures r.Failure? <==> MissingProductId(opts)
    ensures r.Success? ==> forall k :: 0 <= k < |r.value| ==> KnownLabel(r.value[k])
    ensures r.Success? ==> |r.value| <= 3 * |opts|
  {
    if |opts| == 0 then Success([])
    else
      var front := opts[..|opts| - 1];
      MissingProductIdSplit(opts);
      var before :- GetAdditionalOptionsForChildrenOf(front, item, currencyCode, format, env);
      var last :- GetAdditionalOptionsForProductId(opts[|opts| - 1].productId, item, currencyCode, format, env);
      Success(before + last)
  }

  /** The children's lines are each child's own lines, concatenated in the
      order of the children. */
  lemma {:induction false} ChildrenOptionsConcatenate(opts: seq<QtyOption>, item: Item, currencyCode: string,
                                                      format: (int, string) -> string, env: Env)
    requires GetAdditionalOptionsForChildrenOf(opts, item, currencyCode, format, env).Success?
    ensures GetAdditionalOptionsForChildrenOf(opts, item, currencyCode, format, env).value
         == ConcatLines(opts, LinesOf(item, currencyCode, format, env))
    decreases |opts|
  {
    if |opts| > 0 {
      var front := opts[..|opts| - 1];
      var f := LinesOf(item, currencyCode, format, env);
      MissingProductIdSplit(opts);
      ChildrenOptionsConcatenate(front, item, currencyCode, format, env);
      var last := GetAdditionalOptionsForProductId(opts[|opts| - 1].productId, item, currencyCode, format, env).value;
      assert f(opts[|opts| - 1].productId) == last;
      ConcatLinesLast(opts, f);
    }
  }

  /** A bundle is described by its children, any other item by its own
      product. */
  function GetAdditionalOptionsForQuoteItem(quoteItem: Item, currencyCode: string,
                                            format: (int, string) -> string, env: Env): (r: Result<seq<AdditionalOption>>)
    ensures |quoteItem.qtyOptions| > 0 ==>
      r == GetAdditionalOptionsForChildrenOf(quoteItem.qtyOptions, quoteItem, currencyCode, format, env)
    ensures |quoteItem.qtyOptions| == 0 ==>
      r == GetAdditionalOptionsForProductId(quoteItem.productId, quoteItem, currencyCode, format, env)
    ensures r.Success? ==> forall k :: 0 <= k < |r.value| ==> KnownLabel(r.value[k])
  {
    if |quoteItem.qtyOptions| > 0 then GetAdditionalOptionsForChildrenOf(quoteItem.qtyOptions, quoteItem, currencyCode, format, env)
    else GetAdditionalOptionsForProductId(quoteItem.productId, quoteItem, currencyCode, format, env)
  }
}
