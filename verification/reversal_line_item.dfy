/** One line of a Stripe Tax transaction reversal: how much of an original
    transaction line (a product, its gift wrapping, an order-level gift option
    or an additional fee) a credit memo reverts. Amounts are negative Stripe
    minor units; the helpers that format Magento amounts into Stripe amounts,
    build references and look up original line ids are not part of this
    model, so their outputs are fields of the input records. */
module ReversalLineItem {
  import opened Wrappers
  import opened Php
  import opened Values

  /** A reversal line, the object's state after one of the `form*` calls. */
  datatype Line = Line(
    amount: int,
    amountTax: int,
    originalLineItem: Option<string>,
    reference: string,
    quantity: int)

  /** Per-unit gift wrapping of an order item. */
  datatype ItemGiftWrap = ItemGiftWrap(
    unitAmount: int,
    unitTax: int,
    reference: string,
    originalLineItem: Option<string>)

  /** A fee another module attached to an item or to the credit memo; the
      amounts are the Stripe-formatted negations of the fee's amounts. */
  datatype AdditionalFee = AdditionalFee(
    code: string,
    reversalAmount: int,
    reversalAmountTax: int,
    reference: string,
    originalLineItem: Option<string>)

  /** An order-level gift option (gift wrapping or printed card). */
  datatype OrderGiftOption = OrderGiftOption(
    amount: int,
    tax: int,
    reference: string,
    originalLineItem: Option<string>)

  /** A credit-memo item: the Stripe amount and tax of its row, the amounts
      already reverted from earlier transactions, and what is attached to it. */
  datatype CreditmemoItem = CreditmemoItem(
    reference: string,
    isDummy: bool,
    childrenCalculated: bool,
    qty: int,
    amount: int,
    taxAmount: int,
    amountReverted: int,
    amountTaxReverted: int,
    transactionLineItemId: Option<string>,
    giftWrap: Option<ItemGiftWrap>,
    fees: seq<AdditionalFee>)

  /** A reference's entry of the reversal ledger. Entries created by a
      reversal of a reference the transaction did not list carry no id. */
  datatype LedgerEntry = LedgerEntry(id: Option<string>, remainingAmount: int, remainingAmountTax: int)

  /** Online reversal of a credit-memo item: its whole amount and tax. */
  function FormData(item: CreditmemoItem): (r: Line)
    ensures r.amount + item.amount == 0 && r.amountTax + item.taxAmount == 0
    ensures r.quantity == item.qty && r.reference == item.reference
    ensures r.originalLineItem == item.transactionLineItemId
  {
    Line(-item.amount, -item.taxAmount, item.transactionLineItemId, item.reference, item.qty)
  }

  /** The part of `remaining` that may still be reverted from `available`:
      the smaller of the two. */
  function Clamp(remaining: int, available: int): (r: int)
    ensures r <= remaining && r <= available
    ensures r == remaining || r == available
  {
    if remaining > available then available else remaining
  }

  /** Offline reversal of a credit-memo item against its ledger entry: the
      line, and the item with its reverted amounts advanced. */
  function FormOfflineData(item: CreditmemoItem, entry: LedgerEntry): (r: (Line, CreditmemoItem))
    ensures r.0.amount == -Min(entry.remainingAmount, item.amount - item.amountReverted)
    ensures r.0.amountTax == -Min(entry.remainingAmountTax, item.taxAmount - item.amountTaxReverted)
    ensures r.1.amountReverted == item.amountReverted + Abs(r.0.amount)
    ensures r.1.amountTaxReverted == item.amountTaxReverted + Abs(r.0.amountTax)
    ensures r.1 == item.(amountReverted := r.1.amountReverted, amountTaxReverted := r.1.amountTaxReverted)
    ensures r.0.originalLineItem == entry.id && r.0.reference == item.reference && r.0.quantity == item.qty
  {
    var amount := -Clamp(entry.remainingAmount, item.amount - item.amountReverted);
    var amountTax := -Clamp(entry.remainingAmountTax, item.taxAmount - item.amountTaxReverted);
    var item' := item.(amountReverted := item.amountReverted + Abs(amount),
                       amountTaxReverted := item.amountTaxReverted + Abs(amountTax));
    (Line(amount, amountTax, entry.id, item.reference, item.qty), item')
  }

  /** Gift wrapping of an item: the per-unit amounts times the credit-memo qty. */
  function FormItemGwData(item: CreditmemoItem, gw: ItemGiftWrap): (r: Line)
    ensures r.amount == -(gw.unitAmount * item.qty) && r.amountTax == -(gw.unitTax * item.qty)
    ensures r.quantity == item.qty && r.reference == gw.reference
  {
    Line(-(gw.unitAmount * item.qty), -(gw.unitTax * item.qty), gw.originalLineItem, gw.reference, item.qty)
  }

  /** Order-level gift wrapping and the printed card: always one unit. */
  function FormOrderGiftOptionData(opt: OrderGiftOption): (r: Line)
    ensures r.quantity == 1
    ensures r.amount + opt.amount == 0 && r.amountTax + opt.tax == 0
  {
    Line(-opt.amount, -opt.tax, opt.originalLineItem, opt.reference, 1)
  }

  /** A fee of a credit-memo item: reverted with the item's quantity. */
  function FormItemAdditionalFeeData(item: CreditmemoItem, fee: AdditionalFee): (r: Line)
    ensures r.quantity == item.qty && r.amount == fee.reversalAmount && r.amountTax == fee.reversalAmountTax
  {
    Line(fee.reversalAmount, fee.reversalAmountTax, fee.originalLineItem, fee.reference, item.qty)
  }

  /** A fee of the credit memo itself: one unit. */
  function FormCreditmemoAdditionalFeeData(fee: AdditionalFee): (r: Line)
    ensures r.quantity == 1 && r.amount == fee.reversalAmount && r.amountTax == fee.reversalAmountTax
  {
    Line(fee.reversalAmount, fee.reversalAmountTax, fee.originalLineItem, fee.reference, 1)
  }

  function OptionalStr(o: Option<string>): Value {
    match o
    case Some(s) => Str(s)
    case None => Null
  }

  /** The request array of a line. */
  function ToArray(l: Line): (r: map<string, Value>)
    ensures r.Keys == {"amount", "amount_tax", "original_line_item", "reference", "quantity"}
    ensures r["amount"] == Int(l.amount) && r["amount_tax"] == Int(l.amountTax)
    ensures r["reference"] == Str(l.reference) && r["quantity"] == Int(l.quantity)
  {
    map["amount" := Int(l.amount), "amount_tax" := Int(l.amountTax),
        "original_line_item" := OptionalStr(l.originalLineItem),
        "reference" := Str(l.reference), "quantity" := Int(l.quantity)]
  }

  /** Reverted amounts never overtake the item: if the ledger has something
      left (or nothing) and the item was not over-reverted, it still is not. */
  lemma OfflineStaysWithinItem(item: CreditmemoItem, entry: LedgerEntry)
    requires entry.remainingAmount >= 0 && item.amountReverted <= item.amount
    requires entry.remainingAmountTax >= 0 && item.amountTaxReverted <= item.taxAmount
    ensures var r := FormOfflineData(item, entry).1;
      r.amountReverted <= item.amount && r.amountTaxReverted <= item.taxAmount
  {
  }

  /** The offline line reverts, never adds: under the same conditions both
      amounts are at most zero and at least the negated remainder. */
  lemma OfflineRevertsWithinRemainder(item: CreditmemoItem, entry: LedgerEntry)
    requires entry.remainingAmount >= 0 && item.amountReverted <= item.amount
    requires entry.remainingAmountTax >= 0 && item.amountTaxReverted <= item.taxAmount
    ensures var l := FormOfflineData(item, entry).0;
      && -entry.remainingAmount <= l.amount <= 0
      && -entry.remainingAmountTax <= l.amountTax <= 0
  {
  }
}
