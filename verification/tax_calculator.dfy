/** Stripe Tax price breakdown: turns the row amount and row tax that Stripe
    calculated (minor units) into the price, tax, row and compensation figures
    Magento stores on an invoice item. All arithmetic is on Stripe minor
    units; the conversion back to Magento amounts is applied field by field at
    the end. The currency conversions themselves are inputs of the model. */
module TaxCalculator {
  import opened Wrappers
  import opened Php
  import TransactionItem

  /** The `stripe_tax`, `stripe_amount` and `currency` triple. */
  datatype CalculatedValues = CalculatedValues(stripeTax: int, stripeAmount: int, currency: string)

  /** The seven figures of a breakdown, before or after conversion. */
  datatype Prices = Prices(
    rowTax: int,
    rowTotal: int,
    price: int,
    tax: int,
    priceInclTax: int,
    rowTotalInclTax: int,
    discountTaxCompensation: int)

  /** A Magento amount (Dec4) converted to a Stripe amount in a currency. */
  type ToStripe = (int, string) -> int
  /** A Stripe amount converted back to a Magento amount (Dec4) in a currency. */
  type ToMagento = (int, string) -> int

  const DivisionByZero: string := "Division by zero"

  /** The values calculated in the order currency, or re-expressed in the base
      currency by `toBase` (the rate multiplication and rounding, whose float
      rate is not modelled) when the item asks for the base currency. */
  function GetStripeCalculatedValues(it: TransactionItem.Item, toBase: int -> int, baseCurrencyCode: string): (r: CalculatedValues)
    ensures !it.useBaseCurrency ==>
      r == CalculatedValues(it.stripeTotalCalculatedTax, it.stripeTotalCalculatedAmount, it.stripeCurrency)
    ensures it.useBaseCurrency ==>
      r.currency == baseCurrencyCode && r.stripeTax == toBase(it.stripeTotalCalculatedTax)
      && r.stripeAmount == toBase(it.stripeTotalCalculatedAmount)
  {
    if it.useBaseCurrency then
      CalculatedValues(toBase(it.stripeTotalCalculatedTax), toBase(it.stripeTotalCalculatedAmount), baseCurrencyCode)
    else
      CalculatedValues(it.stripeTotalCalculatedTax, it.stripeTotalCalculatedAmount, it.stripeCurrency)
  }

  /** The invoice variant differs only in where the base rate comes from:
      `toBase` converts with the invoice's rate. */
  function GetStripeCalculatedValuesForInvoice(it: TransactionItem.Item, toBase: int -> int, baseCurrencyCode: string): (r: CalculatedValues)
    ensures !it.useBaseCurrency ==>
      r == CalculatedValues(it.stripeTotalCalculatedTax, it.stripeTotalCalculatedAmount, it.stripeCurrency)
    ensures it.useBaseCurrency ==>
      r.currency == baseCurrencyCode && r.stripeTax == toBase(it.stripeTotalCalculatedTax)
      && r.stripeAmount == toBase(it.stripeTotalCalculatedAmount)
  {
    GetStripeCalculatedValues(it, toBase, baseCurrencyCode)
  }

  /** x with term1 : term2 = term3 : x, rounded; 0 when term1 is 0. */
  function RuleOfThree(term1: int, term2: int, term3: int): (r: int)
    ensures term1 == 0 ==> r == 0
    ensures term1 != 0 ==> NearestAwayFromZero(term2 * term3, term1, r)
  {
    if term1 == 0 then 0 else RoundDiv(term2 * term3, term1)
  }

  /** The per-unit figure is the row figure shared over the quantity. */
  ghost predicate UnitOf(unit: int, row: int, quantity: int)
    requires quantity != 0
  {
    NearestAwayFromZero(row, quantity, unit)
  }

  function TaxInclusivePrices(cv: CalculatedValues, quantity: int): (r: Result<Prices>)
    ensures r.Failure? <==> quantity == 0
    ensures r.Success? ==>
      var p := r.value;
      && p.rowTotalInclTax == cv.stripeAmount
      && p.rowTax == cv.stripeTax
      && p.rowTotal + p.rowTax == p.rowTotalInclTax
      && p.discountTaxCompensation == 0
      && UnitOf(p.price, p.rowTotal, quantity)
      && UnitOf(p.tax, p.rowTax, quantity)
      && UnitOf(p.priceInclTax, p.rowTotalInclTax, quantity)
  {
    if quantity == 0 then Failure(DivisionByZero)
    else
      var rowTax := cv.stripeTax;
      var rowTotal := cv.stripeAmount - rowTax;
      Success(Prices(rowTax, rowTotal, RoundDiv(rowTotal, quantity), RoundDiv(rowTax, quantity),
                     RoundDiv(cv.stripeAmount, quantity), cv.stripeAmount, 0))
  }

  function TaxInclusivePricesWithDiscount(cv: CalculatedValues, quantity: int, unitPrice: int): (r: Result<Prices>)
    ensures r.Failure? <==> quantity == 0
    ensures r.Success? ==>
      var p := r.value;
      && p.priceInclTax == unitPrice
      && p.rowTotalInclTax == unitPrice * quantity
      && p.rowTax == cv.stripeTax
      && p.rowTotal + p.rowTax + p.discountTaxCompensation == p.rowTotalInclTax
      && p.rowTax + p.discountTaxCompensation == RuleOfThree(cv.stripeAmount, p.rowTotalInclTax, cv.stripeTax)
      && UnitOf(p.price, p.rowTotal, quantity)
      && UnitOf(p.tax, p.rowTax, quantity)
  {
    if quantity == 0 then Failure(DivisionByZero)
    else
      var rowTotalInclTax := unitPrice * quantity;
      var rowTaxBeforeDiscount := RuleOfThree(cv.stripeAmount, rowTotalInclTax, cv.stripeTax);
      var rowTotal := rowTotalInclTax - rowTaxBeforeDiscount;
      Success(Prices(cv.stripeTax, rowTotal, RoundDiv(rowTotal, quantity), RoundDiv(cv.stripeTax, quantity),
                     unitPrice, rowTotalInclTax, rowTaxBeforeDiscount - cv.stripeTax))
  }

  function TaxExclusivePrices(cv: CalculatedValues, quantity: int): (r: Result<Prices>)
    ensures r.Failure? <==> quantity == 0
    ensures r.Success? ==>
      var p := r.value;
      && p.rowTotal == cv.stripeAmount
      && p.rowTax == cv.stripeTax
      && p.rowTotalInclTax == p.rowTotal + p.rowTax
      && p.priceInclTax == p.price + p.tax
      && p.discountTaxCompensation == 0
      && UnitOf(p.price, p.rowTotal, quantity)
      && UnitOf(p.tax, p.rowTax, quantity)
  {
    if quantity == 0 then Failure(DivisionByZero)
    else
      var price := RoundDiv(cv.stripeAmount, quantity);
      var tax := RoundDiv(cv.stripeTax, quantity);
      Success(Prices(cv.stripeTax, cv.stripeAmount, price, tax, price + tax,
                     cv.stripeAmount + cv.stripeTax, 0))
  }

  function TaxExclusivePricesWithDiscount(cv: CalculatedValues, quantity: int, unitPrice: int): (r: Result<Prices>)
    ensures r.Failure? <==> quantity == 0
    ensures r.Success? ==>
      var p := r.value;
      && p.price == unitPrice
      && p.rowTotal == unitPrice * quantity
      && p.rowTax == cv.stripeTax
      && p.rowTotalInclTax == p.priceInclTax * quantity
      && p.discountTaxCompensation == 0
      && UnitOf(p.tax, p.rowTax, quantity)
      && UnitOf(p.priceInclTax - p.price, RuleOfThree(cv.stripeAmount, p.rowTotal, p.rowTax), quantity)
  {
    if quantity == 0 then Failure(DivisionByZero)
    else
      var rowTotal := unitPrice * quantity;
      var rowTaxBeforeDiscount := RuleOfThree(cv.stripeAmount, rowTotal, cv.stripeTax);
      var priceInclTax := unitPrice + RoundDiv(rowTaxBeforeDiscount, quantity);
      Success(Prices(cv.stripeTax, rowTotal, unitPrice, RoundDiv(cv.stripeTax, quantity),
                     priceInclTax, priceInclTax * quantity, 0))
  }

  /** Every figure converted from Stripe to Magento amounts. */
  function FormatPrices(p: Prices, toMagento: ToMagento, currency: string): (r: Prices)
    ensures r.rowTax == toMagento(p.rowTax, currency) && r.rowTotal == toMagento(p.rowTotal, currency)
    ensures r.price == toMagento(p.price, currency) && r.tax == toMagento(p.tax, currency)
    ensures r.priceInclTax == toMagento(p.priceInclTax, currency)
    ensures r.rowTotalInclTax == toMagento(p.rowTotalInclTax, currency)
    ensures r.discountTaxCompensation == toMagento(p.discountTaxCompensation, currency)
  {
    Prices(toMagento(p.rowTax, currency), toMagento(p.rowTotal, currency), toMagento(p.price, currency),
           toMagento(p.tax, currency), toMagento(p.priceInclTax, currency),
           toMagento(p.rowTotalInclTax, currency), toMagento(p.discountTaxCompensation, currency))
  }

  /** Which of the four breakdowns applies to an item. */
  datatype Branch = Inclusive | InclusiveWithDiscount | Exclusive | ExclusiveWithDiscount

  function SelectBranch(it: TransactionItem.Item, cv: CalculatedValues, toStripe: ToStripe): (b: Branch)
    ensures (b == Inclusive || b == InclusiveWithDiscount) <==> it.priceIncludesTax
    ensures (b == InclusiveWithDiscount || b == ExclusiveWithDiscount)
        <==> toStripe(it.discountAmount, cv.currency) != 0
  {
    var discounted := toStripe(it.discountAmount, cv.currency) != 0;
    if it.priceIncludesTax then (if discounted then InclusiveWithDiscount else Inclusive)
    else (if discounted then ExclusiveWithDiscount else Exclusive)
  }

  /** The unformatted breakdown of the selected branch. */
  function Breakdown(it: TransactionItem.Item, cv: CalculatedValues, quantity: int, toStripe: ToStripe): (r: Result<Prices>)
    ensures r.Failure? <==> quantity == 0
  {
    var unitPrice := toStripe(it.unitPrice, cv.currency);
    match SelectBranch(it, cv, toStripe)
    case Inclusive => TaxInclusivePrices(cv, quantity)
    case InclusiveWithDiscount => TaxInclusivePricesWithDiscount(cv, quantity, unitPrice)
    case Exclusive => TaxExclusivePrices(cv, quantity)
    case ExclusiveWithDiscount => TaxExclusivePricesWithDiscount(cv, quantity, unitPrice)
  }

  /** The breakdown Magento stores for an item. */
  function CalculatePrices(it: TransactionItem.Item, cv: CalculatedValues, quantity: int,
                           toStripe: ToStripe, toMagento: ToMagento): (r: Result<Prices>)
    ensures r.Failure? <==> quantity == 0
    ensures r.Success? ==> r.value == FormatPrices(Breakdown(it, cv, quantity, toStripe).value, toMagento, cv.currency)
  {
    var p :- Breakdown(it, cv, quantity, toStripe);
    Success(FormatPrices(p, toMagento, cv.currency))
  }

  /** When prices include tax, the breakdown splits the tax-inclusive row
      exactly: row total + row tax + compensation = row total incl. tax, in
      both tax-inclusive branches (with and without a discount). The
      tax-exclusive branches round the inclusive row on their own and are
      not covered. */
  lemma InclusiveBranchesBalance(it: TransactionItem.Item, cv: CalculatedValues, quantity: int, toStripe: ToStripe)
    requires quantity != 0 && it.priceIncludesTax
    ensures var p := Breakdown(it, cv, quantity, toStripe).value;
      p.rowTotal + p.rowTax + p.discountTaxCompensation == p.rowTotalInclTax
  {
  }

  /** Without a discount the breakdown keeps Stripe's figures: the tax-
      inclusive row is Stripe's amount when prices include tax, the
      tax-exclusive row is Stripe's amount otherwise, and no compensation. */
  lemma UndiscountedKeepsStripeAmount(it: TransactionItem.Item, cv: CalculatedValues, quantity: int, toStripe: ToStripe)
    requires quantity != 0 && toStripe(it.discountAmount, cv.currency) == 0
    ensures var p := Breakdown(it, cv, quantity, toStripe).value;
      && p.rowTax == cv.stripeTax
      && p.discountTaxCompensation == 0
      && (if it.priceIncludesTax then p.rowTotalInclTax else p.rowTotal) == cv.stripeAmount
  {
  }

  /** Per-unit rounding error: for a positive quantity the unit figure times
      the quantity is within half the quantity of the row figure. */
  lemma {:induction false} UnitRoundingError(unit: int, row: int, quantity: int)
    requires quantity > 0 && UnitOf(unit, row, quantity)
    ensures 2 * Abs(unit * quantity - row) <= quantity
  {
    var m := unit * quantity;
    assert Abs(m - row) == Abs(row - m);
  }

  /** When Stripe's discounted amount is the tax-inclusive row itself (no
      discount actually applied), the inclusive-with-discount breakdown has no
      compensation. */
  lemma NoCompensationWithoutDiscountEffect(cv: CalculatedValues, quantity: int, unitPrice: int)
    requires quantity != 0 && cv.stripeAmount == unitPrice * quantity && cv.stripeAmount != 0
    ensures TaxInclusivePricesWithDiscount(cv, quantity, unitPrice).value.discountTaxCompensation == 0
  {
    var p := TaxInclusivePricesWithDiscount(cv, quantity, unitPrice).value;
    var r := RuleOfThree(cv.stripeAmount, cv.stripeAmount, cv.stripeTax);
    assert p.rowTax + p.discountTaxCompensation == r;
    assert cv.stripeAmount * cv.stripeTax == cv.stripeTax * cv.stripeAmount;
    NearestOfMultiple(cv.stripeTax, cv.stripeAmount, r);
  }
}
