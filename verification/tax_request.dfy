/** The values the Tax and GiftOptions helpers read from configuration, which
    every request builder copies into its line. */
module TaxSettings {
  datatype Settings = Settings(
    productTaxBehavior: string,
    shippingTaxBehavior: string,
    shippingTaxCode: string,
    giftOptionsTaxCode: string)
}

/** One `line_items` entry of a Stripe Tax calculation request. The builder is
    a shared object whose fields the form methods overwrite; the model threads
    it as a value. Quantities arrive as Magento Dec4 decimals and are cast to
    integers the way PHP's `(int)` does. */
module TaxLineItem {
  import opened Wrappers
  import opened Php
  import opened Values
  import opened TaxSettings

  /** The builder's fields; PHP `null` strings are held as "". */
  datatype LineItem = LineItem(
    amount: int,
    product: string,
    quantity: int,
    reference: string,
    taxBehavior: string,
    taxCode: string)

  const Initial := LineItem(0, "", 0, "", "", "")

  /** What the line-items helper answers for one line: its tax code, its
      amount in Stripe minor units, and its reference. */
  datatype Source = Source(taxCode: string, amount: int, reference: string)

  function SetAmount(li: LineItem, v: int): (r: LineItem)
    ensures r.amount == v && r.(amount := li.amount) == li
  {
    li.(amount := v)
  }

  function SetProduct(li: LineItem, v: string): (r: LineItem)
    ensures r.product == v && r.(product := li.product) == li
  {
    li.(product := v)
  }

  function SetQuantity(li: LineItem, v: int): (r: LineItem)
    ensures r.quantity == v && r.(quantity := li.quantity) == li
  {
    li.(quantity := v)
  }

  function SetReference(li: LineItem, v: string): (r: LineItem)
    ensures r.reference == v && r.(reference := li.reference) == li
  {
    li.(reference := v)
  }

  function SetTaxBehavior(li: LineItem, v: string): (r: LineItem)
    ensures r.taxBehavior == v && r.(taxBehavior := li.taxBehavior) == li
  {
    li.(taxBehavior := v)
  }

  function SetTaxCode(li: LineItem, v: string): (r: LineItem)
    ensures r.taxCode == v && r.(taxCode := li.taxCode) == li
  {
    li.(taxCode := v)
  }

  /** A product or additional-fee line: tax code, amount and reference from
      the helper, the given quantity, the product tax behaviour. */
  function FormLine(li: LineItem, src: Source, quantity: int, s: Settings): LineItem {
    var li := SetTaxCode(li, src.taxCode);
    var li := SetAmount(li, src.amount);
    var li := SetReference(li, src.reference);
    var li := SetQuantity(li, quantity);
    SetTaxBehavior(li, s.productTaxBehavior)
  }

  /** A quote item (and an item's additional fee): the quantity is the item's
      quantity cast to an integer, times the parent's quantity. Invoice items
      and invoice-item fees are the same with a parent quantity of 1. */
  function FormData(li: LineItem, qty: int, src: Source, parentQty: int, s: Settings): (r: LineItem)
    ensures r.quantity == IntCast(qty) * parentQty
    ensures r.taxCode == src.taxCode && r.amount == src.amount && r.reference == src.reference
    ensures r.taxBehavior == s.productTaxBehavior && r.product == li.product
  {
    FormLine(li, src, IntCast(qty) * parentQty, s)
  }

  /** A sales-entity additional fee: always one unit. */
  function FormAdditionalFeeSalesEntityData(li: LineItem, src: Source, s: Settings): (r: LineItem)
    ensures r.quantity == 1 && r.amount == src.amount && r.taxCode == src.taxCode
    ensures r.reference == src.reference && r.taxBehavior == s.productTaxBehavior && r.product == li.product
  {
    FormLine(li, src, 1, s)
  }

  /** The fields every gift-option line shares: one unit, the gift-options
      tax code and the product tax behaviour. */
  function GiftOptionsCommonFields(li: LineItem, s: Settings): (r: LineItem)
    ensures r.quantity == 1 && r.taxCode == s.giftOptionsTaxCode && r.taxBehavior == s.productTaxBehavior
    ensures r.amount == li.amount && r.reference == li.reference && r.product == li.product
  {
    var li := SetTaxCode(li, s.giftOptionsTaxCode);
    var li := SetQuantity(li, 1);
    SetTaxBehavior(li, s.productTaxBehavior)
  }

  /** Item gift wrapping (quote or invoice item): the quantity is the item's,
      and the amount is the per-unit gift-wrap amount times that quantity. */
  function FormItemGiftOptionsData(li: LineItem, qty: int, unitAmount: int, reference: string, s: Settings): (r: LineItem)
    ensures r.quantity == IntCast(qty) && r.amount == unitAmount * r.quantity
    ensures r.taxCode == s.giftOptionsTaxCode && r.taxBehavior == s.productTaxBehavior
    ensures r.reference == reference && r.product == li.product
  {
    var li := GiftOptionsCommonFields(li, s);
    var li := SetQuantity(li, IntCast(qty));
    var li := SetAmount(li, unitAmount * li.quantity);
    SetReference(li, reference)
  }

  /** Order-level gift wrapping or printed card: one unit at the helper's
      amount. */
  function FormSalesObjectGiftOptionsData(li: LineItem, amount: int, reference: string, s: Settings): (r: LineItem)
    ensures r.quantity == 1 && r.amount == amount && r.reference == reference
    ensures r.taxCode == s.giftOptionsTaxCode && r.taxBehavior == s.productTaxBehavior && r.product == li.product
  {
    var li := GiftOptionsCommonFields(li, s);
    var li := SetAmount(li, amount);
    SetReference(li, reference)
  }

  /** The request array; `tax_code` is left out when the code is falsy, so
      Stripe falls back to the product's default. */
  function ToArray(li: LineItem): (r: map<string, Value>)
    ensures ("tax_code" in r) <==> !Empty(li.taxCode)
    ensures r.Keys - {"tax_code"} == {"amount", "tax_behavior", "quantity", "reference"}
    ensures r["amount"] == Int(li.amount) && r["quantity"] == Int(li.quantity)
    ensures r["reference"] == Str(li.reference) && r["tax_behavior"] == Str(li.taxBehavior)
    ensures "tax_code" in r ==> r["tax_code"] == Str(li.taxCode)
  {
    var base := map[
      "amount" := Int(li.amount),
      "tax_behavior" := Str(li.taxBehavior),
      "quantity" := Int(li.quantity),
      "reference" := Str(li.reference)];
    if Empty(li.taxCode) then base else base["tax_code" := Str(li.taxCode)]
  }

  /** A shared builder leaks nothing between lines: whatever an earlier form
      call left behind, the next one sends the same array. */
  lemma FormDataForgetsPrior(a: LineItem, b: LineItem, qty: int, src: Source, parentQty: int, s: Settings)
    ensures ToArray(FormData(a, qty, src, parentQty, s)) == ToArray(FormData(b, qty, src, parentQty, s))
  {
  }

  lemma GiftOptionsForgetPrior(a: LineItem, b: LineItem, qty: int, unitAmount: int, reference: string, s: Settings)
    ensures ToArray(FormItemGiftOptionsData(a, qty, unitAmount, reference, s))
         == ToArray(FormItemGiftOptionsData(b, qty, unitAmount, reference, s))
  {
  }

  /** The integer quantity sent never exceeds the Magento quantity it was cast
      from (times the parent's), and falls short of it by less than one unit
      per parent unit. */
  lemma {:induction false} QuantityTruncates(li: LineItem, qty: int, src: Source, parentQty: int, s: Settings)
    requires qty >= 0 && parentQty >= 1
    ensures var q := FormData(li, qty, src, parentQty, s).quantity;
      0 <= q * Scale <= qty * parentQty && qty * parentQty < q * Scale + parentQty * Scale
  {
    var n := IntCast(qty);
    assert n >= 0 && n * Scale <= qty < (n + 1) * Scale;
    var q := n * parentQty;
    assert q * Scale == (n * Scale) * parentQty;
    MulMonotone(n * Scale, qty, parentQty);
    MulStrict(qty, (n + 1) * Scale, parentQty);
    assert (n + 1) * Scale * parentQty == q * Scale + parentQty * Scale;
  }

  lemma MulMonotone(a: int, b: int, k: int)
    requires a <= b && k >= 0
    ensures a * k <= b * k
  {
    assert b * k - a * k == (b - a) * k;
  }

  lemma MulStrict(a: int, b: int, k: int)
    requires a < b && k > 0
    ensures a * k < b * k
  {
    assert b * k - a * k == (b - a) * k;
  }
}

/** The `shipping_cost` part of a Stripe Tax calculation request. */
module TaxShippingCost {
  import opened Wrappers
  import opened Values
  import opened TaxSettings

  /** The builder's fields; `shippingRate` has a setter but no form method
      ever calls it. */
  datatype ShippingCost = ShippingCost(
    amount: int,
    shippingRate: Option<Value>,
    taxBehavior: string,
    taxCode: string)

  /** The shipping helper's conversion of a Magento Dec4 shipping cost to a
      Stripe amount in the given currency. */
  type ToStripe = (int, string) -> int

  /** The quote address totals the quote builder reads (Dec4). */
  datatype Total = Total(shippingTaxCalculationAmount: int, shippingDiscountAmount: int)

  function SetData(prior: ShippingCost, cost: int, currency: string, toStripe: ToStripe, s: Settings): (r: ShippingCost)
    ensures r.amount == toStripe(cost, currency)
    ensures r.taxBehavior == s.shippingTaxBehavior && r.taxCode == s.shippingTaxCode
    ensures r.shippingRate == prior.shippingRate
  {
    prior.(amount := toStripe(cost, currency), taxBehavior := s.shippingTaxBehavior, taxCode := s.shippingTaxCode)
  }

  /** Quote shipping: the discount is taken off in Magento's currency, before
      the conversion to a Stripe amount. */
  function FormData(prior: ShippingCost, t: Total, currency: string, toStripe: ToStripe, s: Settings): (r: ShippingCost)
    ensures r.amount == toStripe(t.shippingTaxCalculationAmount - t.shippingDiscountAmount, currency)
    ensures r.taxBehavior == s.shippingTaxBehavior && r.taxCode == s.shippingTaxCode
    ensures r.shippingRate == prior.shippingRate
  {
    SetData(prior, t.shippingTaxCalculationAmount - t.shippingDiscountAmount, currency, toStripe, s)
  }

  /** Invoice shipping: the shipping helper's invoice shipping cost, in the
      order's currency. */
  function FormDataForInvoiceTax(prior: ShippingCost, invoiceShippingCost: int, orderCurrency: string,
                                 toStripe: ToStripe, s: Settings): (r: ShippingCost)
    ensures r.amount == toStripe(invoiceShippingCost, orderCurrency)
    ensures r.taxBehavior == s.shippingTaxBehavior && r.taxCode == s.shippingTaxCode
    ensures r.shippingRate == prior.shippingRate
  {
    SetData(prior, invoiceShippingCost, orderCurrency, toStripe, s)
  }

  /** Exactly amount, tax behaviour and tax code; never a shipping rate. */
  function ToArray(c: ShippingCost): (r: map<string, Value>)
    ensures r.Keys == {"amount", "tax_behavior", "tax_code"}
    ensures r["amount"] == Int(c.amount) && r["tax_behavior"] == Str(c.taxBehavior) && r["tax_code"] == Str(c.taxCode)
  {
    map["amount" := Int(c.amount), "tax_behavior" := Str(c.taxBehavior), "tax_code" := Str(c.taxCode)]
  }
}

/** The request that turns a Stripe Tax calculation into a tax transaction
    when an invoice is created. */
module TaxTransactionRequest {
  import opened Wrappers
  import opened Php
  import opened Values

  const ReferencePrefix: string := "Invoice # "

  /** The invoice fields the request reads (with its order's). */
  datatype Invoice = Invoice(
    stripeTaxCalculationId: string,
    incrementId: string,
    orderLastTransId: Option<string>,
    orderIncrementId: string)

  datatype Request = Request(
    calculation: string,
    reference: string,
    metadata: map<string, Value>,
    expand: seq<string>)

  function OptionalStr(s: Option<string>): Value {
    match s
    case Some(v) => Str(v)
    case None => Null
  }

  /** The transaction reference: the invoice's increment id and the Unix time
      of the call (a parameter here), joined by an underscore. */
  function Reference(incrementId: string, now: nat): (r: string)
    ensures StartsWith(r, ReferencePrefix + incrementId + "_")
    ensures forall i :: |ReferencePrefix + incrementId + "_"| <= i < |r| ==> '0' <= r[i] <= '9'
    ensures |r| > |ReferencePrefix + incrementId + "_"|
  {
    var head := ReferencePrefix + incrementId + "_";
    var r := head + NatToString(now);
    assert r[..|head|] == head;
    r
  }

  function FormData(inv: Invoice, now: nat): (r: Request)
    ensures r.calculation == inv.stripeTaxCalculationId
    ensures r.reference == Reference(inv.incrementId, now)
    ensures r.metadata.Keys == {"payment_transaction_id", "order_id"}
    ensures r.metadata["payment_transaction_id"] == OptionalStr(inv.orderLastTransId)
    ensures r.metadata["order_id"] == Str(inv.orderIncrementId)
    ensures r.expand == ["line_items"]
  {
    Request(
      inv.stripeTaxCalculationId,
      Reference(inv.incrementId, now),
      map["payment_transaction_id" := OptionalStr(inv.orderLastTransId), "order_id" := Str(inv.orderIncrementId)],
      ["line_items"])
  }

  function ToArray(req: Request): (r: map<string, Value>)
    ensures r.Keys == {"calculation", "reference", "metadata", "expand"}
    ensures r["calculation"] == Str(req.calculation) && r["reference"] == Str(req.reference)
    ensures r["metadata"] == Dict(req.metadata)
    ensures r["expand"].List? && |r["expand"].items| == |req.expand|
    ensures forall k :: 0 <= k < |req.expand| ==> r["expand"].items[k] == Str(req.expand[k])
  {
    map[
      "calculation" := Str(req.calculation),
      "reference" := Str(req.reference),
      "metadata" := Dict(req.metadata),
      "expand" := List(StrList(req.expand))]
  }

  /** `explode` on a string that has the separator once, after a first part
      without it, returns that first part and then the rest's parts. */
  lemma {:induction false} SplitAfter(a: string, b: string, sep: char)
    requires sep !in a
    ensures Split(a + [sep] + b, sep) == [a] + Split(b, sep)
  {
    if |a| == 0 {
      assert a + [sep] + b == [sep] + b;
      assert ([sep] + b)[1..] == b;
    } else {
      SplitAfter(a[1..], b, sep);
      assert (a + [sep] + b)[1..] == a[1..] + [sep] + b;
      assert [a[0]] + a[1..] == a;
    }
  }

  lemma {:induction false} SplitWithoutSeparator(b: string, sep: char)
    requires sep !in b
    ensures Split(b, sep) == [b]
  {
    if |b| > 0 {
      SplitWithoutSeparator(b[1..], sep);
      assert [b[0]] + b[1..] == b;
    }
  }

  /** The reference can be read back: after the prefix, splitting on the
      underscore yields the invoice increment id and the timestamp, provided
      the increment id has no underscore of its own. */
  lemma ReferenceReadsBack(incrementId: string, now: nat)
    requires '_' !in incrementId
    ensures var r := Reference(incrementId, now);
      Split(r[|ReferencePrefix|..], '_') == [incrementId, NatToString(now)]
  {
    var r := Reference(incrementId, now);
    var digits := NatToString(now);
    assert r[|ReferencePrefix|..] == incrementId + ['_'] + digits;
    SplitAfter(incrementId, digits, '_');
    assert forall i :: 0 <= i < |digits| ==> digits[i] != '_';
    SplitWithoutSeparator(digits, '_');
  }
}
