/** The calculation input record of a Stripe Tax invoice transaction: one
    invoice item, the shipping of an invoice, or a gift option, reduced to the
    figures the tax calculator reads. Money fields taken from Magento
    (`unitPrice`, `discountAmount`) are Dec4 amounts; the Stripe totals are in
    the currency's minor unit. */
module TransactionItem {

  /** The per-item row Stripe Tax returned when the invoice was calculated. */
  datatype StripeLine = StripeLine(
    stripeTotalCalculatedAmount: int,
    stripeTotalCalculatedTax: int,
    stripeCurrency: string,
    priceIncludesTax: bool)

  /** The fields of a Magento invoice item that the preparations read; the
      gift-wrapping prices belong to the item's order item. */
  datatype InvoiceItem = InvoiceItem(
    qty: int,
    price: int,
    priceInclTax: int,
    discountAmount: int,
    basePrice: int,
    basePriceInclTax: int,
    baseDiscountAmount: int,
    gwPrice: int,
    gwBasePrice: int)

  /** The shipping figures of an invoice and the shipping discount of its order. */
  datatype InvoiceShipping = InvoiceShipping(
    shippingAmount: int,
    shippingInclTax: int,
    baseShippingAmount: int,
    baseShippingInclTax: int,
    orderShippingDiscountAmount: int,
    orderBaseShippingDiscountAmount: int)

  /** An order or invoice carrying order-level gift wrapping and a printed card. */
  datatype SalesObject = SalesObject(
    gwPrice: int,
    gwBasePrice: int,
    gwCardPrice: int,
    gwCardBasePrice: int)

  datatype Item = Item(
    quantity: int,
    unitPrice: int,
    discountAmount: int,
    stripeTotalCalculatedAmount: int,
    stripeTotalCalculatedTax: int,
    stripeCurrency: string,
    useBaseCurrency: bool,
    priceIncludesTax: bool)

  /** The item carries the Stripe totals, currency and tax mode of `line`, and
      is set to compute in the order currency. */
  predicate CommonFrom(r: Item, line: StripeLine) {
    && !r.useBaseCurrency
    && r.stripeTotalCalculatedAmount == line.stripeTotalCalculatedAmount
    && r.stripeTotalCalculatedTax == line.stripeTotalCalculatedTax
    && r.stripeCurrency == line.stripeCurrency
    && r.priceIncludesTax == line.priceIncludesTax
  }

  /** `a` and `b` differ at most in unit price and discount. */
  predicate SameExceptPrices(a: Item, b: Item) {
    a.(unitPrice := b.unitPrice, discountAmount := b.discountAmount) == b
  }

  function Common(line: StripeLine, quantity: int, unitPrice: int, discount: int): (r: Item)
    ensures CommonFrom(r, line)
  {
    Item(quantity, unitPrice, discount, line.stripeTotalCalculatedAmount,
         line.stripeTotalCalculatedTax, line.stripeCurrency, false, line.priceIncludesTax)
  }

  /** A calculation item for an invoice item. */
  function Prepare(ii: InvoiceItem, line: StripeLine): (r: Item)
    ensures CommonFrom(r, line)
    ensures r.quantity == ii.qty
    ensures r.unitPrice == (if line.priceIncludesTax then ii.priceInclTax else ii.price)
    ensures r.discountAmount == ii.discountAmount
  {
    var unitPrice := if line.priceIncludesTax then ii.priceInclTax else ii.price;
    Common(line, ii.qty, unitPrice, ii.discountAmount)
  }

  /** A calculation item for the shipping of an invoice: always one unit. */
  function PrepareForShipping(inv: InvoiceShipping, line: StripeLine): (r: Item)
    ensures CommonFrom(r, line)
    ensures r.quantity == 1
    ensures r.unitPrice == (if line.priceIncludesTax then inv.shippingInclTax else inv.shippingAmount)
    ensures r.discountAmount == inv.orderShippingDiscountAmount
  {
    var unitPrice := if line.priceIncludesTax then inv.shippingInclTax else inv.shippingAmount;
    Common(line, 1, unitPrice, inv.orderShippingDiscountAmount)
  }

  /** Item-level gift wrapping: invoice quantity, never discounted. */
  function PrepareItemGw(ii: InvoiceItem, line: StripeLine): (r: Item)
    ensures CommonFrom(r, line)
    ensures r.quantity == ii.qty && r.discountAmount == 0 && r.unitPrice == ii.gwPrice
  {
    Common(line, ii.qty, ii.gwPrice, 0)
  }

  /** Order-level gift wrapping: one unit, never discounted. */
  function PrepareSalesObjectGw(obj: SalesObject, line: StripeLine): (r: Item)
    ensures CommonFrom(r, line)
    ensures r.quantity == 1 && r.discountAmount == 0 && r.unitPrice == obj.gwPrice
  {
    Common(line, 1, obj.gwPrice, 0)
  }

  /** The printed card: one unit, never discounted. */
  function PreparePrintedCard(obj: SalesObject, line: StripeLine): (r: Item)
    ensures CommonFrom(r, line)
    ensures r.quantity == 1 && r.discountAmount == 0 && r.unitPrice == obj.gwCardPrice
  {
    Common(line, 1, obj.gwCardPrice, 0)
  }

  /** Switches an item's unit price and discount to base-currency values. */
  function SetBaseCurrencyPrices(it: Item, ii: InvoiceItem): (r: Item)
    ensures SameExceptPrices(it, r)
    ensures r.unitPrice == (if it.priceIncludesTax then ii.basePriceInclTax else ii.basePrice)
    ensures r.discountAmount == ii.baseDiscountAmount
  {
    var unitPrice := if it.priceIncludesTax then ii.basePriceInclTax else ii.basePrice;
    it.(discountAmount := ii.baseDiscountAmount, unitPrice := unitPrice)
  }

  function SetBaseCurrencyPricesForShipping(it: Item, inv: InvoiceShipping): (r: Item)
    ensures SameExceptPrices(it, r)
    ensures r.unitPrice == (if it.priceIncludesTax then inv.baseShippingInclTax else inv.baseShippingAmount)
    ensures r.discountAmount == inv.orderBaseShippingDiscountAmount
  {
    var unitPrice := if it.priceIncludesTax then inv.baseShippingInclTax else inv.baseShippingAmount;
    it.(unitPrice := unitPrice, discountAmount := inv.orderBaseShippingDiscountAmount)
  }

  /** The gift-option switches replace the unit price only. */
  function SetItemGwBaseCurrencyPrices(it: Item, ii: InvoiceItem): (r: Item)
    ensures SameExceptPrices(it, r) && r.discountAmount == it.discountAmount
    ensures r.unitPrice == ii.gwBasePrice
  {
    it.(unitPrice := ii.gwBasePrice)
  }

  function SetSalesObjectGwBaseCurrencyPrices(it: Item, obj: SalesObject): (r: Item)
    ensures SameExceptPrices(it, r) && r.discountAmount == it.discountAmount
    ensures r.unitPrice == obj.gwBasePrice
  {
    it.(unitPrice := obj.gwBasePrice)
  }

  function SetPrintedCardBaseCurrencyPrices(it: Item, obj: SalesObject): (r: Item)
    ensures SameExceptPrices(it, r) && r.discountAmount == it.discountAmount
    ensures r.unitPrice == obj.gwCardBasePrice
  {
    it.(unitPrice := obj.gwCardBasePrice)
  }

  /** A prepared invoice item switched to the base currency is exactly the
      item prepared from the invoice item's base-currency figures. */
  lemma BaseSwitchOfPrepare(ii: InvoiceItem, line: StripeLine)
    ensures SetBaseCurrencyPrices(Prepare(ii, line), ii)
         == Prepare(ii.(price := ii.basePrice, priceInclTax := ii.basePriceInclTax,
                        discountAmount := ii.baseDiscountAmount), line)
  {
  }

  /** Switching twice is the same as switching once. */
  lemma BaseSwitchIdempotent(it: Item, ii: InvoiceItem)
    ensures SetBaseCurrencyPrices(SetBaseCurrencyPrices(it, ii), ii) == SetBaseCurrencyPrices(it, ii)
  {
  }
}
