/** A cart holding one subscription item, built from an order or quote item
    to price that subscription on its own: its shipping, tax, discounts and
    initial fee. */
module SubscriptionCart {
  import opened Wrappers
  import opened Php
  import opened CheckoutFlow
  import InitialFee
  import SubscriptionProduct

  const NotInitialized: string := "Subscription cart not initialized"
  const InfiniteLoop: string := "Infinite loop detected"
  const ItemNotFound: string := "Subscription item not found in cart"
  const OrderItemType: string := "Order item must be of type simple or virtual"
  const QuoteItemType: string := "Quote item must be of type simple or virtual"
  const MethodUnavailable: string := "The selected shipping method is not available for this subscription"

  /** The totals Magento collected on the cart's shipping address (Dec4). */
  datatype Address = Address(
    shippingInclTax: int,
    shippingAmount: int,
    shippingDiscountAmount: int,
    shippingDiscountTaxCompensationAmount: int,
    shippingTaxAmount: int,
    baseShippingInclTax: int,
    baseShippingAmount: int,
    baseShippingDiscountAmount: int,
    baseShippingDiscountTaxCompensationAmount: int,
    baseShippingTaxAmount: int,
    subtotalInclTax: int,
    baseSubtotalInclTax: int)

  /** A line of the cart. `isVisible` is false for the child of a bundle or
      configurable line; `feeItem` is the line as the initial-fee helper
      reads it. */
  datatype CartItem = CartItem(
    productId: nat,
    isVisible: bool,
    priceInclTax: int,
    convertedPrice: int,
    basePriceInclTax: int,
    basePrice: int,
    discountAmount: int,
    baseDiscountAmount: int,
    taxAmount: int,
    baseTaxAmount: int,
    feeItem: InitialFee.Item)

  /** The new quote the cart wraps. `baseToQuoteRate` is scaled by
      `RateScale`. */
  datatype CartQuote = CartQuote(
    isVirtual: bool,
    address: Address,
    grandTotal: int,
    baseGrandTotal: int,
    subtotal: int,
    baseSubtotal: int,
    items: seq<CartItem>,
    isRecurringOrder: bool,
    removeInitialFee: bool,
    baseToQuoteRate: int)

  /** The store's tax display settings. */
  datatype Config = Config(shippingIncludesTax: bool, priceIncludesTax: bool)

  /** `quote` is `None` until an item has been turned into a cart;
      `isCollectingTotals` is the re-entrancy flag. The class keeps that
      flag in a static property shared by all its instances; here it is a
      field of the cart value, so it is shared only as far as a caller
      passes the same cart on. */
  datatype Cart = Cart(quote: Option<CartQuote>, isCollectingTotals: bool, flow: Flow)

  // ----- Building the cart -----------------------------------------------

  /** Only simple and virtual items become subscription carts. */
  predicate AcceptedType(productType: string) {
    productType == "simple" || productType == "virtual"
  }

  /** The class's `collectTotals`: the quote's totals are collected again
      (`recollect` is the quote helper's `reCollectTotals`). A second
      collection while one is under way is refused. When `recollect` fails
      the flag is left set, as the code does not reset it on that path. */
  function CollectTotals(c: Cart, recollect: CartQuote -> Result<CartQuote>): (r: (Cart, Result<()>))
    ensures c.quote.None? ==> r == (c, Failure(NotInitialized))
    ensures c.quote.Some? && c.isCollectingTotals ==> r == (c, Failure(InfiniteLoop))
    ensures r.1.Success? <==> c.quote.Some? && !c.isCollectingTotals && recollect(c.quote.value).Success?
    ensures r.1.Success? ==> r.0 == c.(quote := Some(recollect(c.quote.value).value), isCollectingTotals := false)
    ensures c.quote.Some? && !c.isCollectingTotals && recollect(c.quote.value).Failure? ==>
      r.0 == c.(isCollectingTotals := true) && r.1 == Failure(recollect(c.quote.value).error)
  {
    if c.quote.None? then (c, Failure(NotInitialized))
    else if c.isCollectingTotals then (c, Failure(InfiniteLoop))
    else
      match recollect(c.quote.value)
      case Failure(e) => (c.(isCollectingTotals := true), Failure(e))
      case Success(q) => (c.(quote := Some(q), isCollectingTotals := false), Success(()))
  }

  /** After a collection that failed inside `recollect`, the flag stays
      set: every later collection through the same cart value, whatever
      quote it then holds, is refused as an infinite loop. */
  lemma FailedCollectionBlocksLaterOnes(c: Cart, recollect: CartQuote -> Result<CartQuote>, q: CartQuote,
                                       later: CartQuote -> Result<CartQuote>)
    requires c.quote.Some? && !c.isCollectingTotals && recollect(c.quote.value).Failure?
    ensures var after := CollectTotals(c, recollect).0;
      CollectTotals(after.(quote := Some(q)), later).1 == Failure(InfiniteLoop)
  {
  }

  /** `fromOrderItem` (`isOrder`) and `fromQuoteItem`. The previous quote is
      dropped first; an item of another type is refused; otherwise zero
      initial prices are switched off while the new quote (`created`, the
      result of `createNewQuoteFrom`) is built and collected, and switched
      on again afterwards. An error on the way leaves them switched off. */
  function FromItem(c: Cart, isOrder: bool, productType: string, created: Result<CartQuote>,
                    recollect: CartQuote -> Result<CartQuote>): (r: (Cart, Result<()>))
    ensures !AcceptedType(productType) ==>
      r == (c.(quote := None), Failure(if isOrder then OrderItemType else QuoteItemType))
    ensures AcceptedType(productType) && created.Failure? ==>
      r == (Cart(None, c.isCollectingTotals, Disable(c.flow)), Failure(created.error))
    ensures r.1.Success? <==>
      AcceptedType(productType) && created.Success? && !c.isCollectingTotals && recollect(created.value).Success?
    ensures r.1.Success? ==>
      r.0 == Cart(Some(recollect(created.value).value), false, Enable(Disable(c.flow)))
    ensures r.1.Failure? && AcceptedType(productType) ==> r.0.flow == Disable(c.flow)
  {
    if !AcceptedType(productType) then
      (c.(quote := None), Failure(if isOrder then OrderItemType else QuoteItemType))
    else
      var disabled := Cart(None, c.isCollectingTotals, Disable(c.flow));
      match created
      case Failure(e) => (disabled, Failure(e))
      case Success(q) =>
        var (collected, result) := CollectTotals(disabled.(quote := Some(q)), recollect);
        if result.Failure? then (collected, result)
        else (collected.(flow := Enable(collected.flow)), Success(()))
  }

  /** A successful build leaves the checkout flow as it was iff zero initial
      prices were on before. */
  lemma FromItemRestoresFlow(c: Cart, isOrder: bool, productType: string, created: Result<CartQuote>,
                             recollect: CartQuote -> Result<CartQuote>)
    requires FromItem(c, isOrder, productType, created, recollect).1.Success?
    ensures FromItem(c, isOrder, productType, created, recollect).0.flow == c.flow <==> !c.flow.disableZeroInitialPrices
  {
    EnableAfterDisable(c.flow);
  }

  // ----- Shipping quantity -------------------------------------------------

  /** A quote line as the shipping-quantity rules read it: `parentQty` is
      the parent line's quantity when the line has a parent. */
  datatype QuoteLine = QuoteLine(parentQty: Option<int>, parentItemId: nat, isVirtual: bool, qty: int)

  /** The quantity of the shipped lines under `parentItemId`. */
  function ShippedSiblingQty(lines: seq<QuoteLine>, parentItemId: nat): int {
    if |lines| == 0 then 0
    else
      var last := lines[|lines| - 1];
      var prior := ShippedSiblingQty(lines[..|lines| - 1], parentItemId);
      if last.parentItemId == parentItemId && !last.isVirtual then prior + last.qty else prior
  }

  /** The quantity rates are requested for when the cart comes from a quote
      line: a child counts its parent's quantity times each shipped sibling's
      quantity, a virtual line nothing, any other line its own quantity. */
  method ShippingQtyFromQuoteItem(item: QuoteLine, lines: seq<QuoteLine>) returns (qty: int)
    ensures item.parentQty.Some? ==> qty == item.parentQty.value * ShippedSiblingQty(lines, item.parentItemId)
    ensures item.parentQty.None? && item.isVirtual ==> qty == 0
    ensures item.parentQty.None? && !item.isVirtual ==> qty == item.qty
  {
    if item.parentQty.None? {
      return if item.isVirtual then 0 else item.qty;
    }
    var parentQty := item.parentQty.value;
    qty := 0;
    var i := 0;
    while i < |lines|
      invariant 0 <= i <= |lines|
      invariant qty == parentQty * ShippedSiblingQty(lines[..i], item.parentItemId)
    {
      assert lines[..i + 1][..i] == lines[..i];
      var line := lines[i];
      if line.parentItemId == item.parentItemId && !line.isVirtual {
        MulAddsUp(parentQty, ShippedSiblingQty(lines[..i], item.parentItemId), line.qty);
        qty := qty + parentQty * line.qty;
      }
      i := i + 1;
    }
    assert lines[..i] == lines;
  }

  lemma MulAddsUp(p: int, a: int, b: int)
    ensures p * (a + b) == p * a + p * b
  {
  }

  /** An order line: `parentId` is the id of its parent line, if any. */
  datatype OrderLine = OrderLine(productType: string, parentId: Option<nat>, parentItemId: nat,
                                 isVirtual: bool, qtyOrdered: int)

  /** The ordered quantity of the shipped simple or virtual lines whose
      parent is `parentId`. */
  function ShippedChildQty(lines: seq<OrderLine>, parentId: nat): int {
    if |lines| == 0 then 0
    else
      var last := lines[|lines| - 1];
      var prior := ShippedChildQty(lines[..|lines| - 1], parentId);
      if AcceptedType(last.productType) && last.parentItemId == parentId && !last.isVirtual then prior + last.qtyOrdered
      else prior
  }

  /** The same quantity when the cart comes from an order line: a child
      counts what was ordered of its shipped simple or virtual siblings, a
      shipped line its own ordered quantity, a virtual line nothing. */
  method ShippingQtyFromOrderItem(item: OrderLine, lines: seq<OrderLine>) returns (qty: int)
    ensures item.parentId.Some? ==> qty == ShippedChildQty(lines, item.parentId.value)
    ensures item.parentId.None? ==> qty == if item.isVirtual then 0 else item.qtyOrdered
  {
    qty := 0;
    if item.parentId.Some? {
      var i := 0;
      while i < |lines|
        invariant 0 <= i <= |lines|
        invariant qty == ShippedChildQty(lines[..i], item.parentId.value)
      {
        assert lines[..i + 1][..i] == lines[..i];
        var line := lines[i];
        if AcceptedType(line.productType) && line.parentItemId == item.parentId.value && !line.isVirtual {
          qty := qty + line.qtyOrdered;
        }
        i := i + 1;
      }
      assert lines[..i] == lines;
    } else if !item.isVirtual {
      qty := item.qtyOrdered;
    }
  }

  /** A line's siblings that are virtual, or of another type, add nothing
      to what an order child ships. */
  lemma {:induction false} UnshippedSiblingsAddNothing(lines: seq<OrderLine>, extra: OrderLine, parentId: nat)
    requires extra.isVirtual || !AcceptedType(extra.productType) || extra.parentItemId != parentId
    ensures ShippedChildQty(lines + [extra], parentId) == ShippedChildQty(lines, parentId)
  {
    assert (lines + [extra])[..|lines|] == lines;
  }

  /** The bundle's shipment type as PHP sees it: not numeric, or numeric
      with the integer its `(int)` cast gives. */
  datatype ShipmentType = NotNumeric | Numeric(intValue: int)

  /** Magento's bundle shipment type "together". */
  const ShipmentTogether: int := 0

  /** `_areProductChildrenShippedTogether`: `product` is `None` when the
      added line or its product is missing. */
  function AreChildrenShippedTogether(product: Option<ShipmentType>): (r: Result<bool>)
    ensures r.Failure? <==> product.None?
    ensures r.Failure? ==> r.error == ItemNotFound
    ensures r.Success? ==> (r.value <==> product.value == Numeric(ShipmentTogether))
  {
    match product
    case None => Failure(ItemNotFound)
    case Some(NotNumeric) => Success(false)
    case Some(Numeric(n)) => Success(n == ShipmentTogether)
  }

  /** The item quantity the new quote's shipping address asks rates for:
      the added line's own quantity when its children ship together, the
      order-line or quote-line rule otherwise. */
  function RatesQty(shippedTogether: bool, addedQty: int, isOrder: bool, orderQty: int, quoteQty: int): (r: int)
    ensures shippedTogether ==> r == addedQty
    ensures !shippedTogether ==> r == (if isOrder then orderQty else quoteQty)
  {
    if shippedTogether then addedQty else if isOrder then orderQty else quoteQty
  }

  // ----- Shipping method --------------------------------------------------

  /** A shipping rate the new quote was offered. */
  datatype Rate = Rate(carrier: string, rateMethod: string)

  /** The "carrier_method" code split at its first and second underscore; a
      missing method part compares equal to "" only. */
  function CarrierCode(shippingMethod: string): string {
    Split(shippingMethod, '_')[0]
  }

  function CarrierMethod(shippingMethod: string): string {
    var parts := Split(shippingMethod, '_');
    if |parts| > 1 then parts[1] else ""
  }

  /** `!empty($shippingMethod[1])`: the code has a second character that is
      not "0". */
  predicate SelectableCode(shippingMethod: string) {
    |shippingMethod| >= 2 && shippingMethod[1] != '0'
  }

  predicate Matches(rate: Rate, shippingMethod: string) {
    rate.carrier == CarrierCode(shippingMethod) && rate.rateMethod == CarrierMethod(shippingMethod)
  }

  /** Whether some offered rate matches the original order's method; the
      rates come grouped by carrier and the search stops at the first hit. */
  function FindRate(groups: seq<seq<Rate>>, shippingMethod: string): (r: bool)
    ensures r <==> exists g, k :: 0 <= g < |groups| && 0 <= k < |groups[g]| && Matches(groups[g][k], shippingMethod)
  {
    if |groups| == 0 then false
    else
      var here := exists k :: 0 <= k < |groups[0]| && Matches(groups[0][k], shippingMethod);
      var rest := FindRate(groups[1..], shippingMethod);
      assert forall g :: 1 <= g < |groups| ==> groups[g] == groups[1..][g - 1];
      assert rest ==> exists g, k :: 0 <= g < |groups| && 0 <= k < |groups[g]| && Matches(groups[g][k], shippingMethod) by {
        if rest {
          var g, k :| 0 <= g < |groups[1..]| && 0 <= k < |groups[1..][g]| && Matches(groups[1..][g][k], shippingMethod);
          assert groups[g + 1] == groups[1..][g];
        }
      }
      here || rest
  }

  /** The shipping method the new quote gets: the original order's method
      when an offered rate matches it, none otherwise. When the cart is
      built from an order, a missing match is an error. */
  function SelectShippingMethod(groups: seq<seq<Rate>>, shippingMethod: string, requireSame: bool): (r: Result<Option<string>>)
    ensures r.Success? && r.value.Some? <==>
      SelectableCode(shippingMethod)
      && exists g, k :: 0 <= g < |groups| && 0 <= k < |groups[g]| && Matches(groups[g][k], shippingMethod)
    ensures r.Success? && r.value.Some? ==> r.value.value == shippingMethod
    ensures r.Failure? <==> requireSame && !(r.Success? && r.value.Some?)
    ensures r.Failure? ==> r.error == MethodUnavailable
  {
    var found := |groups| > 0 && SelectableCode(shippingMethod) && FindRate(groups, shippingMethod);
    if found then Success(Some(shippingMethod))
    else if requireSame then Failure(MethodUnavailable)
    else Success(None)
  }

  // ----- Accessors ----------------------------------------------------------

  /** The shipping amounts the cart reports. */
  datatype ShippingField =
    | Amount | BaseAmount | DiscountAmount | BaseDiscountAmount
    | DiscountTaxCompensation | BaseDiscountTaxCompensation
    | ExcludingTax | TaxAmount | BaseTaxAmount

  /** The address total a field reads; the (base) shipping amount includes
      tax when the store shows shipping with tax. */
  function AddressValue(a: Address, config: Config, field: ShippingField): int {
    match field
    case Amount => if config.shippingIncludesTax then a.shippingInclTax else a.shippingAmount
    case BaseAmount => if config.shippingIncludesTax then a.baseShippingInclTax else a.baseShippingAmount
    case DiscountAmount => a.shippingDiscountAmount
    case BaseDiscountAmount => a.baseShippingDiscountAmount
    case DiscountTaxCompensation => a.shippingDiscountTaxCompensationAmount
    case BaseDiscountTaxCompensation => a.baseShippingDiscountTaxCompensationAmount
    case ExcludingTax => a.shippingAmount
    case TaxAmount => a.shippingTaxAmount
    case BaseTaxAmount => a.baseShippingTaxAmount
  }

  /** Every shipping accessor: an error before the cart is built, zero for a
      virtual cart, and the address total otherwise. */
  function Shipping(c: Cart, config: Config, field: ShippingField): (r: Result<int>)
    ensures r.Failure? <==> c.quote.None?
    ensures r.Failure? ==> r.error == NotInitialized
    ensures c.quote.Some? && c.quote.value.isVirtual ==> r == Success(0)
    ensures c.quote.Some? && !c.quote.value.isVirtual ==> r == Success(AddressValue(c.quote.value.address, config, field))
  {
    match c.quote
    case None => Failure(NotInitialized)
    case Some(q) => if q.isVirtual then Success(0) else Success(AddressValue(q.address, config, field))
  }

  /** `getShippingTaxPercent`: the shipping tax over the shipping amount
      without tax, rounded to four places (a Dec4 ratio), and 0 when either
      is 0. */
  function ShippingTaxPercent(c: Cart, config: Config): (r: Result<int>)
    ensures r.Failure? <==> c.quote.None?
    ensures r.Failure? ==> r.error == NotInitialized
    ensures r.Success? ==>
      var amount := Shipping(c, config, ExcludingTax).value;
      var tax := Shipping(c, config, TaxAmount).value;
      (amount == 0 || tax == 0 ==> r.value == 0)
      && (amount != 0 && tax != 0 ==> NearestAwayFromZero(tax * Scale, amount, r.value))
  {
    var amount :- Shipping(c, config, ExcludingTax);
    var tax := Shipping(c, config, TaxAmount).value;
    if amount == 0 || tax == 0 then Success(0)
    else Success(RoundDiv(tax * Scale, amount))
  }

  /** A shipping tax that is an exact four-place share of the shipping
      amount is reported as exactly that share. */
  lemma ExactShippingTaxPercent(c: Cart, config: Config, p: int)
    requires c.quote.Some? && !c.quote.value.isVirtual
    requires c.quote.value.address.shippingAmount != 0
    requires c.quote.value.address.shippingTaxAmount * Scale == p * c.quote.value.address.shippingAmount
    ensures ShippingTaxPercent(c, config) == Success(p)
  {
    var a := c.quote.value.address;
    var r := ShippingTaxPercent(c, config).value;
    if a.shippingTaxAmount != 0 {
      assert NearestAwayFromZero(p * a.shippingAmount, a.shippingAmount, r);
      NearestOfMultiple(p, a.shippingAmount, r);
    } else {
      assert p * a.shippingAmount == 0;
    }
  }

  /** A cart total read straight from the quote. */
  datatype QuoteField = GrandTotal | BaseGrandTotal | Subtotal | BaseSubtotal

  function Total(c: Cart, config: Config, field: QuoteField): (r: Result<int>)
    ensures r.Failure? <==> c.quote.None?
    ensures r.Failure? ==> r.error == NotInitialized
    ensures r.Success? && field == Subtotal ==>
      r.value == if config.priceIncludesTax then c.quote.value.address.subtotalInclTax else c.quote.value.subtotal
    ensures r.Success? && field == BaseSubtotal ==>
      r.value == if config.priceIncludesTax then c.quote.value.address.baseSubtotalInclTax else c.quote.value.baseSubtotal
    ensures r.Success? && field == GrandTotal ==> r.value == c.quote.value.grandTotal
    ensures r.Success? && field == BaseGrandTotal ==> r.value == c.quote.value.baseGrandTotal
  {
    match c.quote
    case None => Failure(NotInitialized)
    case Some(q) =>
      match field
      case GrandTotal => Success(q.grandTotal)
      case BaseGrandTotal => Success(q.baseGrandTotal)
      case Subtotal => Success(if config.priceIncludesTax then q.address.subtotalInclTax else q.subtotal)
      case BaseSubtotal => Success(if config.priceIncludesTax then q.address.baseSubtotalInclTax else q.baseSubtotal)
  }

  // ----- Discounts ----------------------------------------------------------

  /** The signed sum of the lines' (base) discounts. */
  function DiscountSum(items: seq<CartItem>, base: bool): int {
    if |items| == 0 then 0
    else
      var last := items[|items| - 1];
      DiscountSum(items[..|items| - 1], base) + (if base then last.baseDiscountAmount else last.discountAmount)
  }

  /** `getSubscriptionDiscountAmount` (and its base twin): the magnitude of
      the lines' summed discounts. */
  method SubscriptionDiscountAmount(c: Cart, base: bool) returns (r: Result<int>)
    ensures r.Failure? <==> c.quote.None?
    ensures r.Failure? ==> r.error == NotInitialized
    ensures r.Success? ==> r.value == Abs(DiscountSum(c.quote.value.items, base)) && r.value >= 0
  {
    if c.quote.None? {
      return Failure(NotInitialized);
    }
    var items := c.quote.value.items;
    var total := 0;
    var i := 0;
    while i < |items|
      invariant 0 <= i <= |items|
      invariant total == DiscountSum(items[..i], base)
    {
      assert items[..i + 1][..i] == items[..i];
      total := total + if base then items[i].baseDiscountAmount else items[i].discountAmount;
      i := i + 1;
    }
    assert items[..i] == items;
    return Success(Abs(total));
  }

  /** `getDiscountAmount` (and its base twin): the lines' discount plus the
      shipping discount. */
  method CartDiscountAmount(c: Cart, config: Config, base: bool) returns (r: Result<int>)
    ensures r.Failure? <==> c.quote.None?
    ensures r.Failure? ==> r.error == NotInitialized
    ensures r.Success? && c.quote.value.isVirtual ==> r.value == Abs(DiscountSum(c.quote.value.items, base))
    ensures r.Success? && !c.quote.value.isVirtual ==>
      r.value == Abs(DiscountSum(c.quote.value.items, base))
                 + (if base then c.quote.value.address.baseShippingDiscountAmount
                    else c.quote.value.address.shippingDiscountAmount)
  {
    if c.quote.None? {
      return Failure(NotInitialized);
    }
    var lines := SubscriptionDiscountAmount(c, base);
    var shipping := Shipping(c, config, if base then BaseDiscountAmount else DiscountAmount);
    return Success(lines.value + shipping.value);
  }

  // ----- Subscription price and tax -----------------------------------------

  /** The first visible line, where the accessors below stop. */
  function FirstVisible(items: seq<CartItem>): (r: Option<nat>)
    ensures r.None? <==> forall i :: 0 <= i < |items| ==> !items[i].isVisible
    ensures r.Some? ==> (r.value < |items| && items[r.value].isVisible
                         && forall j :: 0 <= j < r.value ==> !items[j].isVisible)
  {
    if |items| == 0 then None
    else if items[0].isVisible then Some(0)
    else
      var rest := FirstVisible(items[1..]);
      assert forall i :: 1 <= i < |items| ==> items[i] == items[1..][i - 1];
      match rest
      case None => None
      case Some(k) => Some(k + 1)
  }

  /** What a price or tax accessor reads from the subscription line. */
  datatype LineField = Price | BasePrice | Tax | BaseTax

  /** `getSubscriptionPrice`, `getBaseSubscriptionPrice`, `getTaxAmount` and
      `getBaseTaxAmount`: read from the first visible line, an error when
      there is none. Prices include tax when catalog prices do; the tax is
      rounded to four places, which leaves a Dec4 amount unchanged. */
  function LineAmount(c: Cart, config: Config, field: LineField): (r: Result<int>)
    ensures r.Failure? <==> c.quote.None? || FirstVisible(c.quote.value.items).None?
    ensures c.quote.None? ==> r == Failure(NotInitialized)
    ensures c.quote.Some? && FirstVisible(c.quote.value.items).None? ==> r == Failure(ItemNotFound)
    ensures r.Success? ==>
      exists i :: (0 <= i < |c.quote.value.items| && c.quote.value.items[i].isVisible
                   && (forall j :: 0 <= j < i ==> !c.quote.value.items[j].isVisible)
                   && r.value == LineValue(c.quote.value.items[i], config, field))
  {
    match c.quote
    case None => Failure(NotInitialized)
    case Some(q) =>
      match FirstVisible(q.items)
      case None => Failure(ItemNotFound)
      case Some(i) => Success(LineValue(q.items[i], config, field))
  }

  function LineValue(item: CartItem, config: Config, field: LineField): int {
    match field
    case Price => if config.priceIncludesTax then item.priceInclTax else item.convertedPrice
    case BasePrice => if config.priceIncludesTax then item.basePriceInclTax else item.basePrice
    case Tax => RoundDec4(item.taxAmount, 4)
    case BaseTax => RoundDec4(item.baseTaxAmount, 4)
  }

  /** Rounding a Dec4 tax to four places changes nothing. */
  lemma TaxIsUnrounded(item: CartItem, config: Config)
    ensures LineValue(item, config, Tax) == item.taxAmount
    ensures LineValue(item, config, BaseTax) == item.baseTaxAmount
  {
    assert Pow10(0) == 1;
  }

  // ----- Initial fee ----------------------------------------------------------

  function FeeItems(items: seq<CartItem>): (r: seq<InitialFee.Item>)
    ensures |r| == |items|
    ensures forall i :: 0 <= i < |items| ==> r[i] == items[i].feeItem
  {
    seq(|items|, i requires 0 <= i < |items| => items[i].feeItem)
  }

  /** `getTotalInitialFee` (converted with the quote's rate) and
      `getBaseTotalInitialFee` (at rate one). */
  function TotalInitialFee(c: Cart, base: bool, env: InitialFee.Env): (r: Result<int>)
    ensures c.quote.None? ==> r == Failure(NotInitialized)
    ensures c.quote.Some? ==>
      var q := c.quote.value;
      r == InitialFee.GetTotalInitialFeeFor(FeeItems(q.items), q.isRecurringOrder, q.removeInitialFee,
                                            if base then SubscriptionProduct.RateScale else q.baseToQuoteRate, env)
  {
    match c.quote
    case None => Failure(NotInitialized)
    case Some(q) =>
      var rate := if base then SubscriptionProduct.RateScale else q.baseToQuoteRate;
      InitialFee.GetTotalInitialFeeFor(FeeItems(q.items), q.isRecurringOrder, q.removeInitialFee, rate, env)
  }

  // ----- Original subscription price ------------------------------------------

  /** A line of the order or quote the cart was built for, with the prices
      `setOriginalSubscriptionPrice` stores on it. */
  datatype SubjectItem = SubjectItem(productId: nat, originalPrice: Option<int>, baseOriginalPrice: Option<int>)

  predicate InCart(productId: nat, items: seq<CartItem>) {
    exists j :: 0 <= j < |items| && items[j].productId == productId
  }

  /** Every subject line whose product is in the cart gets the cart's
      subscription price and base price; the others keep theirs. Reading the
      price fails when the cart has no visible line. */
  function SetOriginalSubscriptionPrice(c: Cart, config: Config, subject: seq<SubjectItem>): (r: Result<seq<SubjectItem>>)
    ensures c.quote.None? ==> r == Failure(NotInitialized)
    ensures c.quote.Some? ==>
      (r.Failure? <==> FirstVisible(c.quote.value.items).None?
                       && exists i :: 0 <= i < |subject| && InCart(subject[i].productId, c.quote.value.items))
    ensures r.Success? ==> |r.value| == |subject|
    ensures r.Success? ==> forall i :: 0 <= i < |subject| ==>
      if InCart(subject[i].productId, c.quote.value.items) then
        r.value[i] == subject[i].(originalPrice := Some(LineAmount(c, config, Price).value),
                                  baseOriginalPrice := Some(LineAmount(c, config, BasePrice).value))
      else r.value[i] == subject[i]
  {
    if c.quote.None? then Failure(NotInitialized)
    else
      var items := c.quote.value.items;
      var touched := exists i :: 0 <= i < |subject| && InCart(subject[i].productId, items);
      if !touched then Success(subject)
      else
        var price :- LineAmount(c, config, Price);
        var basePrice := LineAmount(c, config, BasePrice).value;
        Success(seq(|subject|, i requires 0 <= i < |subject| =>
          if InCart(subject[i].productId, items)
          then subject[i].(originalPrice := Some(price), baseOriginalPrice := Some(basePrice))
          else subject[i]))
  }
}
