# Stripe Tax and subscription payments for Magento, modelled in Dafny

This project models the computational core of a Magento 2 module pair that integrates Stripe. It has two halves.

**Stripe Tax.**
- Turning an invoice line and Stripe's calculated totals into Magento's prices, taxes and discount-tax compensation (`TaxCalculator`, `TransactionItem`).
- Building the Stripe Tax calculation and transaction requests: customer details, line items, shipping cost, and the transaction reference (`TaxCustomerDetails`, `TaxCustomerDetailsRequest`, `TaxLineItem`, `TaxShippingCost`, `TaxTransactionRequest`, `TaxSettings`).
- Reversing a tax transaction when a credit memo is created (`ReversalLineItem`, `ReversalLineItems`, `ReversalShipping`, `ReversalRequest`, `ReversalRegistry`, `CreateReversal`):
  - online, from the credit memo's own totals;
  - offline, against a ledger of what is still left to revert per line;
  - in both cases with a registry, stored on the order, that records each transaction's mode and latest reversal.
- The order-proceed guard (`OrderProceed`).

**Payments.**
- The subscription product model: loading, start dates, trials, intervals and initial fees (`SubscriptionProduct`).
- Subscription profile totals, expiring coupons, and the check deciding whether an existing Stripe subscription can be patched or must be recreated (`Subscriptions`).
- Initial fees and their tax on quotes, orders, invoices and credit memos (`InitialFee`).
- The quote helper's subscription queries (`QuoteHelper`).
- The cart information gathered while an order is placed (`CartInfo`).
- The checkout flow flags and deferred coupon-usage counting (`CheckoutFlow`, `CouponUsage`).
- The subscription cart used to price a recurring order (`SubscriptionCart`).
- The payment method's routing and guards: edit, capture, authorize, order, pay, cancel, refund and void (`PaymentMethod`).
- Small helpers: the invoice cancel plugin, MOTO errors, refund validation and discount rules (`InvoicePlugin`, `ErrorHelper`, `CreditmemoHelper`, `DiscountHelper`).

**Modelling conventions.**
- Money is an exact integer.
  - A Magento decimal is held as ten-thousandths (`Php.Scale`).
  - A Stripe amount is in minor units.
  - A currency rate is scaled by `SubscriptionProduct.RateScale`.
- PHP's `round` (halves away from zero) is `Php.RoundDiv`, specified by `Php.NearestAwayFromZero`. PHP's `(int)` cast is `Php.IntCast`.
- Falsy PHP strings are `Php.Empty` ("" or "0").
- Code this model cannot see becomes a function-valued parameter:
  - the Stripe API, currency converters, totals collection and SetupIntent confirmation;
  - catalog and option lookups, the subscription comparer and webhook event lookup.
- Each operation returns a new value instead of mutating an object. Thrown exceptions become `Result.Failure` with the source's message.

Two behaviours of the code are modelled as written, though a reader of the design might expect otherwise.

`SubscriptionCart.CollectTotals` sets its re-entrancy flag before collecting and clears it only on success. After one failed collection, every later call reports an infinite loop (`SubscriptionCart.FailedCollectionBlocksLaterOnes`).

`CheckoutFlow.Enable` always clears the "disable zero initial prices" flag instead of restoring its previous value. So disable-then-enable restores the flow only when the flag was clear before (`CheckoutFlow.EnableAfterDisable`). The same holds for `SubscriptionCart.FromItem`, which disables the flag up front and, on a failed quote creation, returns without re-enabling it.

`SubscriptionProduct.StartDateIsToday` compares only the day of the month, as the source does (`date("d")` on both sides).

The offline ledger test of `ReversalLineItems` is chosen by the reversal context (`ReversalRequest.Context.ledgerTest`): `AsWritten` reproduces the program, `Corrected` the intended test described under "## Findings".

## Model

| member | source | states |
|---|---|---|
| TaxCalculator.GetStripeCalculatedValues | src/app/code/StripeIntegration/Tax/Helper/TaxCalculator.php:24-64 | Without the base-currency flag the item's Stripe tax, amount and currency pass through unchanged; with it both figures are the base-currency conversions and the currency is the base currency code. |
| TaxCalculator.GetStripeCalculatedValuesForInvoice | src/app/code/StripeIntegration/Tax/Helper/TaxCalculator.php:43-77 | The invoice variant is the order variant applied with the invoice's conversion rate. Without base currency it returns Stripe's tax, amount and currency; with it, both figures converted and the base currency code. |
| TaxCalculator.RuleOfThree | src/app/code/StripeIntegration/Tax/Helper/TaxCalculator.php:201-208 | Returns 0 when the first term is 0; otherwise returns term2·term3/term1 rounded to the nearest integer, with halves rounded away from zero. |
| TaxCalculator.TaxInclusivePrices | src/app/code/StripeIntegration/Tax/Helper/TaxCalculator.php:110-123 | Fails only for quantity 0, where PHP divides by zero. Otherwise: the tax-inclusive row equals Stripe's amount; the row tax equals Stripe's tax; row total + row tax equals the inclusive row exactly; compensation is 0; each unit figure is its row figure divided by the quantity and rounded. |
| TaxCalculator.TaxInclusivePricesWithDiscount | src/app/code/StripeIntegration/Tax/Helper/TaxCalculator.php:125-142 | The inclusive row is unit price × quantity and the row tax is Stripe's post-discount tax. Row total + row tax + compensation equals the inclusive row exactly. Tax plus compensation is the rule-of-three share of the inclusive row. |
| TaxCalculator.TaxExclusivePrices | src/app/code/StripeIntegration/Tax/Helper/TaxCalculator.php:144-156 | The row total is Stripe's amount and the row tax is Stripe's tax. The inclusive row is their sum and the inclusive price is price + tax. Compensation is 0. Fails only for quantity 0. |
| TaxCalculator.TaxExclusivePricesWithDiscount | src/app/code/StripeIntegration/Tax/Helper/TaxCalculator.php:158-174 | Price is the unit price and the row total is unit price × quantity. The inclusive row is the inclusive price × quantity. Compensation is 0. The per-unit tax added to the price is the rounded share of the rule-of-three tax. |
| TaxCalculator.FormatPrices | src/app/code/StripeIntegration/Tax/Helper/TaxCalculator.php:176-187 | Every one of the seven figures is converted from a Stripe amount back to a Magento amount in the calculation's currency. |
| TaxCalculator.SelectBranch | src/app/code/StripeIntegration/Tax/Helper/TaxCalculator.php:79-108 | The inclusive branch is chosen iff the item's price includes tax. A discounted branch is chosen iff the discount, converted to a Stripe amount, is non-zero. |
| TaxCalculator.CalculatePrices | src/app/code/StripeIntegration/Tax/Helper/TaxCalculator.php:79-108 | Fails iff the quantity is 0. Otherwise the result is the converted breakdown of the branch the item selects. |
| TaxCalculator.InclusiveBranchesBalance | src/app/code/StripeIntegration/Tax/Helper/TaxCalculator.php:110-142 | For a tax-inclusive item, whichever branch runs, row total + row tax + compensation equals the inclusive row exactly. |
| TaxCalculator.UndiscountedKeepsStripeAmount | src/app/code/StripeIntegration/Tax/Helper/TaxCalculator.php:79-156 | Without a discount the breakdown keeps Stripe's figures: the row tax is Stripe's tax, compensation is 0, and the row on the item's side of tax is Stripe's amount. |
| TaxCalculator.UnitRoundingError | src/app/code/StripeIntegration/Tax/Helper/TaxCalculator.php:114-116 | For a positive quantity, a unit figure obtained by rounding differs from its row by at most half the quantity: 2·\|unit·qty − row\| ≤ qty. |
| TaxCalculator.NoCompensationWithoutDiscountEffect | src/app/code/StripeIntegration/Tax/Helper/TaxCalculator.php:125-142 | When Stripe's amount equals the undiscounted inclusive row, the discounted inclusive branch yields no compensation. |
| TransactionItem.Common | src/app/code/StripeIntegration/Tax/Model/Order/Transaction/Item.php:139-148 | The common fields copy Stripe's totals, currency and the price-includes-tax flag from the line item, and reset the base-currency flag to false. |
| TransactionItem.Prepare | src/app/code/StripeIntegration/Tax/Model/Order/Transaction/Item.php:24-37 | Quantity and discount come from the invoice item. The unit price is the tax-inclusive price iff the line item's prices include tax. |
| TransactionItem.PrepareForShipping | src/app/code/StripeIntegration/Tax/Model/Order/Transaction/Item.php:47-60 | Quantity is 1. The unit price is shipping incl. tax or the shipping amount, chosen by the same flag. The discount is the order's shipping discount. |
| TransactionItem.PrepareItemGw | src/app/code/StripeIntegration/Tax/Model/Order/Transaction/Item.php:62-68 | Item gift wrapping takes the invoice item's quantity, its gift-wrap price and no discount. |
| TransactionItem.PrepareSalesObjectGw | src/app/code/StripeIntegration/Tax/Model/Order/Transaction/Item.php:70-76 | Order gift wrapping is one unit at the sales object's gift-wrap price with no discount. |
| TransactionItem.PreparePrintedCard | src/app/code/StripeIntegration/Tax/Model/Order/Transaction/Item.php:78-84 | The printed card is one unit at the card price with no discount. |
| TransactionItem.SetBaseCurrencyPrices | src/app/code/StripeIntegration/Tax/Model/Order/Transaction/Item.php:93-103 | Only the unit price (base price incl. tax or base price, by the flag) and the discount (the base discount) change. |
| TransactionItem.SetBaseCurrencyPricesForShipping | src/app/code/StripeIntegration/Tax/Model/Order/Transaction/Item.php:112-122 | Only the unit price (base shipping incl. tax or base shipping, by the flag) and the discount (the base shipping discount) change. |
| TransactionItem.SetItemGwBaseCurrencyPrices | src/app/code/StripeIntegration/Tax/Model/Order/Transaction/Item.php:124-127 | Only the unit price changes, to the item's base gift-wrap price. |
| TransactionItem.SetSalesObjectGwBaseCurrencyPrices | src/app/code/StripeIntegration/Tax/Model/Order/Transaction/Item.php:129-132 | Only the unit price changes, to the order's base gift-wrap price. |
| TransactionItem.SetPrintedCardBaseCurrencyPrices | src/app/code/StripeIntegration/Tax/Model/Order/Transaction/Item.php:134-137 | Only the unit price changes, to the base card price. |
| TransactionItem.BaseSwitchOfPrepare | src/app/code/StripeIntegration/Tax/Model/Order/Transaction/Item.php:24-103 | Switching a prepared item to base currency gives the same item as preparing from the base-currency figures. |
| TransactionItem.BaseSwitchIdempotent | src/app/code/StripeIntegration/Tax/Model/Order/Transaction/Item.php:93-103 | Switching to base currency twice is the same as switching once. |
| TaxCustomerDetails.State | src/app/code/StripeIntegration/Tax/Helper/CustomerDetails.php:80-100 | The state is the region code when the lookup finds a non-empty one, and the region id otherwise. |
| TaxCustomerDetails.GetDetailsFromAddress | src/app/code/StripeIntegration/Tax/Helper/CustomerDetails.php:67-89 | Gives no address iff the address is missing, has no country, or is a US address without a postcode. Otherwise the details carry the given source, the country, the postcode, the state, the city and the first street line. |
| TaxCustomerDetails.GetAddressFromDefaultAddresses | src/app/code/StripeIntegration/Tax/Helper/CustomerDetails.php:41-60 | A virtual quote uses the default billing address only. Any other quote uses the default shipping address and falls back to billing. The source label names the address used. |
| TaxCustomerDetailsRequest.FormData | src/app/code/StripeIntegration/Tax/Model/StripeTax/Request/CustomerDetails.php:28-41 | The shipping-assignment address is tried first. Default addresses are tried only for a known customer. The IP address is set only when neither gives an address. |
| TaxCustomerDetailsRequest.FormDataForInvoiceTax | src/app/code/StripeIntegration/Tax/Model/StripeTax/Request/CustomerDetails.php:43-53 | Virtual orders use the billing address, others the shipping address. A missing address is PHP's fatal Error (`getAddressType()` on null, src/app/code/StripeIntegration/Tax/Helper/CustomerDetails.php:36-39); otherwise the address is set iff that address is usable, and then carries the address type as its source and the address's country, postcode, region code, city and first street line. An unusable address clears both fields. The IP address is left as it was. |
| TaxCustomerDetailsRequest.ToArray | src/app/code/StripeIntegration/Tax/Model/StripeTax/Request/CustomerDetails.php:55-66 | The array holds address and address_source when there is an address, otherwise only ip_address, never both. |
| TaxCustomerDetailsRequest.FreshRequestUsesIpIffNoAddress | src/app/code/StripeIntegration/Tax/Model/StripeTax/Request/CustomerDetails.php:28-66 | A fresh request sends the IP address iff neither the assignment address nor (for a known customer) a default address is usable, and then it sends the caller's IP. |
| TaxLineItem.SetAmount | src/app/code/StripeIntegration/Tax/Model/StripeTax/Request/LineItem.php:160-165 | The setter changes the amount and nothing else. |
| TaxLineItem.SetProduct | src/app/code/StripeIntegration/Tax/Model/StripeTax/Request/LineItem.php:172-177 | The setter changes the product and nothing else. |
| TaxLineItem.SetQuantity | src/app/code/StripeIntegration/Tax/Model/StripeTax/Request/LineItem.php:184-189 | The setter changes the quantity and nothing else. |
| TaxLineItem.SetReference | src/app/code/StripeIntegration/Tax/Model/StripeTax/Request/LineItem.php:196-201 | The setter changes the reference and nothing else. |
| TaxLineItem.SetTaxBehavior | src/app/code/StripeIntegration/Tax/Model/StripeTax/Request/LineItem.php:208-213 | The setter changes the tax behaviour and nothing else. |
| TaxLineItem.SetTaxCode | src/app/code/StripeIntegration/Tax/Model/StripeTax/Request/LineItem.php:220-225 | The setter changes the tax code and nothing else. |
| TaxLineItem.FormData | src/app/code/StripeIntegration/Tax/Model/StripeTax/Request/LineItem.php:39-48 | The quantity is the integer cast of the item quantity times the parent quantity. Tax code, amount and reference come from the line-items helper; the tax behaviour is the product tax behaviour. |
| TaxLineItem.FormAdditionalFeeSalesEntityData | src/app/code/StripeIntegration/Tax/Model/StripeTax/Request/LineItem.php:119-128 | A sales-entity fee line is always one unit, with the helper's amount, tax code and reference. |
| TaxLineItem.GiftOptionsCommonFields | src/app/code/StripeIntegration/Tax/Model/StripeTax/Request/LineItem.php:78-85 | Gift-option lines are one unit with the gift-options tax code and the product tax behaviour; amount and reference are untouched. |
| TaxLineItem.FormItemGiftOptionsData | src/app/code/StripeIntegration/Tax/Model/StripeTax/Request/LineItem.php:50-58 | Item gift wrapping takes the item's integer quantity, and its amount is the per-unit amount times that quantity. |
| TaxLineItem.FormSalesObjectGiftOptionsData | src/app/code/StripeIntegration/Tax/Model/StripeTax/Request/LineItem.php:60-76 | Order gift wrapping and printed cards are one unit at the helper's amount. |
| TaxLineItem.ToArray | src/app/code/StripeIntegration/Tax/Model/StripeTax/Request/LineItem.php:141-153 | The array always has amount, tax_behavior, quantity and reference. It has tax_code iff the code is not falsy. |
| TaxLineItem.FormDataForgetsPrior | src/app/code/StripeIntegration/Tax/Model/StripeTax/Request/LineItem.php:39-48 | The shared builder leaks nothing between lines: whatever an earlier call left in it, the next product line sends the same array. |
| TaxLineItem.GiftOptionsForgetPrior | src/app/code/StripeIntegration/Tax/Model/StripeTax/Request/LineItem.php:50-85 | Whatever an earlier call left in the builder, an item gift-option line sends the same array. |
| TaxLineItem.QuantityTruncates | src/app/code/StripeIntegration/Tax/Model/StripeTax/Request/LineItem.php:44 | The integer quantity never exceeds the decimal quantity times the parent quantity, and falls short of it by less than the parent quantity. |
| TaxShippingCost.SetData | src/app/code/StripeIntegration/Tax/Model/StripeTax/Request/ShippingCost.php:44-49 | The amount is the converted cost. Tax behaviour and tax code come from the settings. The shipping rate is untouched. |
| TaxShippingCost.FormData | src/app/code/StripeIntegration/Tax/Model/StripeTax/Request/ShippingCost.php:31-35 | The quote shipping cost is the tax-calculation amount minus the shipping discount, converted after the subtraction. The shipping rate is never set. |
| TaxShippingCost.FormDataForInvoiceTax | src/app/code/StripeIntegration/Tax/Model/StripeTax/Request/ShippingCost.php:37-42 | The invoice shipping cost is converted in the order currency. The shipping rate is never set. |
| TaxShippingCost.ToArray | src/app/code/StripeIntegration/Tax/Model/StripeTax/Request/ShippingCost.php:51-59 | The array has exactly the keys amount, tax_behavior and tax_code. |
| TaxTransactionRequest.Reference | src/app/code/StripeIntegration/Tax/Model/StripeTransaction/Request.php:20 | The reference starts with "Invoice # ", then the increment id and "_", and ends in the decimal digits of the timestamp. |
| TaxTransactionRequest.FormData | src/app/code/StripeIntegration/Tax/Model/StripeTransaction/Request.php:17-28 | The calculation is the invoice's tax calculation id. Metadata has exactly payment_transaction_id and order_id. Expand is ["line_items"]. |
| TaxTransactionRequest.ToArray | src/app/code/StripeIntegration/Tax/Model/StripeTransaction/Request.php:30-38 | The array has exactly four keys. Calculation and reference are the request's strings, metadata is its map, and expand lists the request's expand strings in order. |
| TaxTransactionRequest.ReferenceReadsBack | src/app/code/StripeIntegration/Tax/Model/StripeTransaction/Request.php:20 | When the increment id has no underscore, splitting the reference after its prefix on "_" gives back the increment id and the timestamp. |
| ReversalLineItem.FormData | src/app/code/StripeIntegration/Tax/Model/StripeTransactionReversal/Request/LineItems/LineItem.php:41-50 | An online line reverts the credit-memo item's full amount and tax, negated, with the item's quantity and its original line item. |
| ReversalLineItem.FormOfflineData | src/app/code/StripeIntegration/Tax/Model/StripeTransactionReversal/Request/LineItems/LineItem.php:52-83 | The offline amount is −min(remaining amount, item amount − amount reverted), and the tax follows the same rule. The reverted counters grow by exactly the absolute values. The original line item is the ledger entry's id. |
| ReversalLineItem.FormItemGwData | src/app/code/StripeIntegration/Tax/Model/StripeTransactionReversal/Request/LineItems/LineItem.php:85-94 | Item gift-wrap amount and tax are the per-unit figures times the credit-memo quantity, negated. |
| ReversalLineItem.FormOrderGiftOptionData | src/app/code/StripeIntegration/Tax/Model/StripeTransactionReversal/Request/LineItems/LineItem.php:103-130 | Order gift-wrap and printed-card lines are one unit and revert the whole amount and tax. |
| ReversalLineItem.FormItemAdditionalFeeData | src/app/code/StripeIntegration/Tax/Model/StripeTransactionReversal/Request/LineItems/LineItem.php:139-146 | An item fee line has the item's quantity and the helper's reversal amount and tax. |
| ReversalLineItem.FormCreditmemoAdditionalFeeData | src/app/code/StripeIntegration/Tax/Model/StripeTransactionReversal/Request/LineItems/LineItem.php:155-162 | A credit-memo fee line is one unit with the helper's reversal amount and tax. |
| ReversalLineItem.ToArray | src/app/code/StripeIntegration/Tax/Model/StripeTransactionReversal/Request/LineItems/LineItem.php:171-180 | The array has exactly amount, amount_tax, original_line_item, reference and quantity. |
| ReversalLineItem.OfflineStaysWithinItem | src/app/code/StripeIntegration/Tax/Model/StripeTransactionReversal/Request/LineItems/LineItem.php:52-83 | If the remainders are non-negative and nothing was over-reverted before, the reverted counters stay within the item's amount and tax. |
| ReversalLineItem.OfflineRevertsWithinRemainder | src/app/code/StripeIntegration/Tax/Model/StripeTransactionReversal/Request/LineItems/LineItem.php:52-83 | Under the same conditions the offline line reverts between zero and the reference's remainder. |
| ReversalLineItems.UpdateRemainingAmounts | src/app/code/StripeIntegration/Tax/Model/StripeTransactionReversal/Request/LineItems.php:249-253 | Adds the (negative) reverted amount and tax to that reference's remainders. Every other ledger entry is unchanged. |
| ReversalLineItems.ProcessAdditionalLine | src/app/code/StripeIntegration/Tax/Model/StripeTransactionReversal/Request/LineItems.php:240-247 | Appends the line and consumes its reference's remainders. The transaction counts one more processed item iff that is allowed and the reference has nothing remaining. |
| ReversalLineItems.OfflineItemFees | src/app/code/StripeIntegration/Tax/Model/StripeTransactionReversal/Request/LineItems.php:295-311 | One reversal line per item fee, in order, appended after what was already formed. |
| ReversalLineItems.OfflineCreditmemoFees | src/app/code/StripeIntegration/Tax/Model/StripeTransactionReversal/Request/LineItems.php:313-328 | One reversal line per credit-memo fee, in order, appended after what was already formed. |
| ReversalLineItems.OfflineItem | src/app/code/StripeIntegration/Tax/Model/StripeTransactionReversal/Request/LineItems.php:123-168 | A skipped item (dummy, no quantity, unknown reference, nothing remaining, or already reverted) is not reverted. Any other item's first new line is its clamped offline reversal. |
| ReversalLineItems.OfflineItems | src/app/code/StripeIntegration/Tax/Model/StripeTransactionReversal/Request/LineItems.php:123-174 | The first item is reverted by OfflineItem. When that leaves every transaction item processed or reaches the grand total, the pass stops and the remaining items are returned untouched; otherwise it continues with the next item from the updated ledger. Reverted counters never decrease and the output only grows. |
| ReversalLineItems.OfflineItemsStep | src/app/code/StripeIntegration/Tax/Model/StripeTransactionReversal/Request/LineItems.php:123-174 | The first item becomes its OfflineItem result. The pass stops after it when every transaction item is processed or the grand total is reached, leaving the other items as they were; otherwise the rest of the pass is the pass over the other items from the updated state. |
| ReversalLineItems.InitLineItemsData | src/app/code/StripeIntegration/Tax/Model/StripeTransactionReversal/Request/LineItems.php:225-233 | The ledger is the one recorded for the transaction when there is one, else a fresh ledger built from the transaction's lines. |
| ReversalLineItems.FormOfflineData | src/app/code/StripeIntegration/Tax/Model/StripeTransactionReversal/Request/LineItems.php:111-188 | Corrected: fully reversed iff no reference has any amount or tax left. Without line items, or once the grand total is reached, nothing is formed and the credit memo is unchanged. |
| ReversalLineItems.FormOfflineDataAsWritten | src/app/code/StripeIntegration/Tax/Model/StripeTransactionReversal/Request/LineItems.php:111-199 | As written: fully reversed iff no reference has both amount and tax left. |
| ReversalLineItems.FormOfflineDataBy | src/app/code/StripeIntegration/Tax/Model/StripeTransactionReversal/Request/LineItems.php:111-199 | With the program's test (AsWritten) or the intended one (Corrected): fully reversed iff that test finds nothing remaining. Without line items, or once the grand total is reached, nothing is formed and the credit memo is unchanged. |
| ReversalLineItems.OnlineFees | src/app/code/StripeIntegration/Tax/Model/StripeTransactionReversal/Request/LineItems.php:260-276 | One line per item fee, in order. |
| ReversalLineItems.OnlineCreditmemoFees | src/app/code/StripeIntegration/Tax/Model/StripeTransactionReversal/Request/LineItems.php:278-293 | One line per credit-memo fee, in order. |
| ReversalLineItems.OnlineItem | src/app/code/StripeIntegration/Tax/Model/StripeTransactionReversal/Request/LineItems.php:73-96 | A real item with a positive quantity starts with its full online reversal. A dummy item adds nothing unless its children are calculated. |
| ReversalLineItems.OnlineItems | src/app/code/StripeIntegration/Tax/Model/StripeTransactionReversal/Request/LineItems.php:72-97 | Credit memos of dummy items whose children are not calculated add nothing. Every item that is neither a dummy nor without quantity adds at least one line. |
| ReversalLineItems.OnlineItemsAppend | src/app/code/StripeIntegration/Tax/Model/StripeTransactionReversal/Request/LineItems.php:72-97 | The pass over a concatenation of items emits the lines of the first part followed by those of the second, so lines come in item order. |
| ReversalLineItems.OnlineItemsSingle | src/app/code/StripeIntegration/Tax/Model/StripeTransactionReversal/Request/LineItems.php:72-97 | A single item contributes exactly its own OnlineItem lines. |
| ReversalLineItems.FormOnlineData | src/app/code/StripeIntegration/Tax/Model/StripeTransactionReversal/Request/LineItems.php:60-109 | Nothing is emitted unless the fetched line items are non-empty with response code 200. Otherwise the credit-memo fee lines come last. |
| ReversalLineItems.OfflineStepConserves | src/app/code/StripeIntegration/Tax/Model/StripeTransactionReversal/Request/LineItems.php:152-154 | Each offline step moves value between the reference's remainder and the item's reverted counter without creating any. The remainders stay non-negative. |
| ReversalLineItems.AsWrittenOnlyMissesOneSided | src/app/code/StripeIntegration/Tax/Model/StripeTransactionReversal/Request/LineItems.php:190-258 | The as-written test claims remaining value only when the corrected one does. They disagree exactly when a reference has amount or tax left but not both. |
| ReversalLineItems.ZeroRatedItemCounterexample | src/app/code/StripeIntegration/Tax/Model/StripeTransactionReversal/Request/LineItems.php:190-199 | A zero-rated line with 5000 left and no tax left: the as-written test reports nothing remaining, although the line itself still has an amount to revert. |
| ReversalShipping.FormOnlineData | src/app/code/StripeIntegration/Tax/Model/StripeTransactionReversal/Request/ShippingCost.php:30-36 | Online shipping reverts the credit memo's shipping reversal amount and tax. |
| ReversalShipping.FormOfflineData | src/app/code/StripeIntegration/Tax/Model/StripeTransactionReversal/Request/ShippingCost.php:38-67 | With no shipping tax, or nothing to revert, both amounts are 0, the credit memo is unchanged and shipping counts as fully reversed. Otherwise the amount to revert is updated, and the result is fully reversed iff the transaction's shipping amount and tax are cancelled exactly. |
| ReversalShipping.ToArray | src/app/code/StripeIntegration/Tax/Model/StripeTransactionReversal/Request/ShippingCost.php:69-75 | The array has exactly amount and amount_tax. |
| ReversalShipping.TrivialShippingNotIncluded | src/app/code/StripeIntegration/Tax/Model/StripeTransactionReversal/Request/ShippingCost.php:38-84 | In the trivial branch the shipping part is left out of the request, and shipping counts as fully reversed. |
| ReversalRequest.OfflineMode | src/app/code/StripeIntegration/Tax/Model/StripeTransactionReversal/Request.php:89-104 | The mode is full iff shipping and line items were both fully reversed and no earlier reversal exists; otherwise partial. |
| ReversalRequest.FormData | src/app/code/StripeIntegration/Tax/Model/StripeTransactionReversal/Request.php:75-113 | Fails iff there is neither an offline invoice nor a credit-memo invoice. A non-partial credit memo gives mode full with no parts. An online partial gives mode partial with the online line items. An offline partial takes its mode from OfflineMode, with line items formed under the context's ledger test (AsWritten is the program's behaviour). |
| ReversalRequest.ZeroRatedLedgerReversal | src/app/code/StripeIntegration/Tax/Model/StripeTransactionReversal/Request.php:89-104 | On a partial credit memo whose fresh ledger is one zero-rated line with 5000 left and no earlier reversal, the program's test sends a full reversal and records it as full; the intended test sends and records a partial one. |
| ReversalRequest.GetTransactionStatus | src/app/code/StripeIntegration/Tax/Model/StripeTransactionReversal/Request.php:137-144 | Full whenever both parts were fully reversed, even if the mode is partial; otherwise the mode. |
| ReversalRequest.ToArray | src/app/code/StripeIntegration/Tax/Model/StripeTransactionReversal/Request.php:115-135 | Always has mode, original_transaction, reference and expand. shipping_cost and line_items appear only in partial mode and only when includable. |
| ReversalRequest.FullCreditmemoRequestShape | src/app/code/StripeIntegration/Tax/Model/StripeTransactionReversal/Request.php:75-135 | A full credit memo's request has exactly mode, original_transaction, reference and expand. |
| ReversalRequest.OnlinePartialStaysPartial | src/app/code/StripeIntegration/Tax/Model/StripeTransactionReversal/Request.php:105-144 | An online partial credit memo always records status partial. |
| ReversalRegistry.AddTransactionMode | src/app/code/StripeIntegration/Tax/Helper/Order.php:18-33 | Stores the status and the latest reversal under the transaction id, and the line items only when they are given and non-empty. Other transactions' entries are preserved. |
| ReversalRegistry.GetReversalForInvoiceTransaction | src/app/code/StripeIntegration/Tax/Helper/Order.php:51-74 | Finds a reversal iff the transaction is in the registry, and returns its latest reversal. |
| ReversalRegistry.GetReversalLineItemsData | src/app/code/StripeIntegration/Tax/Helper/Order.php:56-74 | An unknown transaction has no line items; a known one returns its stored line items. |
| ReversalRegistry.AddThenGet | src/app/code/StripeIntegration/Tax/Helper/Order.php:18-59 | After a record, the latest reversal reads back, and so do the line items when given. The transaction is fully reversed iff the recorded mode is full. |
| ReversalRegistry.AddPreservesOthers | src/app/code/StripeIntegration/Tax/Helper/Order.php:18-49 | Recording one transaction changes nothing read for any other. |
| ReversalRegistry.AddOverwrites | src/app/code/StripeIntegration/Tax/Helper/Order.php:25-32 | Re-recording a transaction overwrites its entry. |
| CreateReversal.EnsureIncrementId | src/app/code/StripeIntegration/Tax/Observer/CreateTransactionReversal.php:61-65 | An increment id is assigned only when the credit memo lacks one. |
| CreateReversal.OfflineInvoices | src/app/code/StripeIntegration/Tax/Observer/CreateTransactionReversal.php:83-103 | An invoice is reversed iff it has a transaction that is not fully reversed while the credit memo is not covered. A failed Stripe call fails the walk with the offline message. The head invoice's reversal records its transaction, the request's status, the id Stripe returned and the ledger. The registry after the walk is the starting one with every reversal recorded in order. With no tax transactions nothing happens. |
| CreateReversal.Record | src/app/code/StripeIntegration/Tax/Observer/CreateTransactionReversal.php:95-101 | Recording the reversals adds exactly their transactions to the registry's keys. |
| CreateReversal.ReversalIds | src/app/code/StripeIntegration/Tax/Observer/CreateTransactionReversal.php:94 | One id per reversal, the k-th being the k-th reversal's id. |
| CreateReversal.WalkFollowsInvoices | src/app/code/StripeIntegration/Tax/Observer/CreateTransactionReversal.php:85-103 | The reversals belong to the invoices, at most one each, in invoice order. |
| CreateReversal.WalkReversesTransactions | src/app/code/StripeIntegration/Tax/Observer/CreateTransactionReversal.php:85-103 | Every reversal made by the walk is for a non-empty transaction id. |
| CreateReversal.CoveredWalkStops | src/app/code/StripeIntegration/Tax/Observer/CreateTransactionReversal.php:88 | Once the credit memo's grand total is covered, the walk reverses nothing and changes nothing. |
| CreateReversal.RecordReadsBackLast | src/app/code/StripeIntegration/Tax/Observer/CreateTransactionReversal.php:95-101 | After recording, the last reversed transaction reads back the id of its own reversal. |
| CreateReversal.Execute | src/app/code/StripeIntegration/Tax/Observer/CreateTransactionReversal.php:45-108 | Disabled: nothing changes. Invoice path: the reversal is recorded under the original transaction with its status and id, and the call fails iff Stripe returns no reversal. Otherwise the offline walk runs from an amount to revert of 0: the call fails iff the walk fails, the registry records the walk's reversals, and when there are any the credit memo stores the serialized list of their ids. With no tax transaction on any invoice nothing is recorded. |
| OrderProceed.Execute | src/app/code/StripeIntegration/Tax/Observer/OrderProceed.php:24-33 | Throws iff tax is enabled, the order is unsaved, and the tax flow says it cannot proceed. |
| Subscriptions.GetSubscriptionTotalFromProfile | src/app/code/StripeIntegration/Payments/Helper/Subscriptions.php:1068-1084 | The total is a whole number of cents. It is within half a cent of qty·amount + shipping − discount, plus shipping tax iff shipping excludes tax, plus item tax iff prices exclude tax. A tie between two cents goes away from zero, as PHP's round does. |
| Subscriptions.GetSubscriptionTotalWithDiscountAdjustmentFromProfile | src/app/code/StripeIntegration/Payments/Helper/Subscriptions.php:1088-1096 | Adds the Magento discount back only with an expiring coupon. |
| Subscriptions.GetStripeDiscountAdjustment | src/app/code/StripeIntegration/Payments/Helper/Subscriptions.php:1098-1115 | Non-zero only for a trialing profile with an expiring coupon, and then the Stripe discount amount. |
| Subscriptions.TaxAtPercent | src/app/code/StripeIntegration/Payments/Helper/Subscriptions.php:1030-1031 | The tax at a percentage, rounded to the currency precision with halves away from zero. |
| Subscriptions.ApplyExpiringCoupon | src/app/code/StripeIntegration/Payments/Helper/Subscriptions.php:1027-1053 | Without an expiring coupon the profile is unchanged. With one, the tax is raised to the tax on the undiscounted amount. The same difference is added to the discount and recorded in the expiring fields. Nothing else changes. |
| Subscriptions.ExpiringCouponKeepsTotal | src/app/code/StripeIntegration/Payments/Helper/Subscriptions.php:1027-1084 | When prices exclude tax, the expiring-coupon offset leaves the profile total unchanged. |
| Subscriptions.FilterToUpdateableParams | src/app/code/StripeIntegration/Payments/Helper/Subscriptions.php:214-230 | Keeps exactly the keys among metadata, trial_end, description and default_payment_method, with their values. |
| Subscriptions.FilterIdempotent | src/app/code/StripeIntegration/Payments/Helper/Subscriptions.php:214-230 | Filtering twice is filtering once. |
| Subscriptions.ExpectedValues | src/app/code/StripeIntegration/Payments/Helper/Subscriptions.php:234-312 | Customer and items are always compared. The invoice discount must be the requested coupon, or unset when none is requested, and is not checked without a latest invoice. |
| Subscriptions.OneTimeLineDiffers | src/app/code/StripeIntegration/Payments/Helper/Subscriptions.php:274-285 | True iff some non-recurring invoice line differs from the last one-time item. |
| Subscriptions.HasRegularLine | src/app/code/StripeIntegration/Payments/Helper/Subscriptions.php:273-288 | True iff the invoice has a non-recurring line. |
| Subscriptions.InvalidateSubscription | src/app/code/StripeIntegration/Payments/Helper/Subscriptions.php:232-316 | It fails when one-time items are requested and the invoice has no lines, no regular line, or a differing one. It fails when none are requested but a regular line exists. It fails when the compared values differ. It succeeds exactly when none of these holds. |
| Subscriptions.CompareExpected | src/app/code/StripeIntegration/Payments/Helper/Subscriptions.php:314-315 | Fails iff the comparison helper finds a difference, with its reason. |
| Subscriptions.DecideUpdate | src/app/code/StripeIntegration/Payments/Helper/Subscriptions.php:474-495 | An invalidated subscription is recreated. No updateable params means only the entry is recorded. An update sends exactly the non-empty filtered params, and only when they differ from the subscription. |
| Subscriptions.MatchingSubscriptionIsPatched | src/app/code/StripeIntegration/Payments/Helper/Subscriptions.php:474-495 | A subscription that passes the check is never recreated, and any update carries only whitelisted keys with the requested values. |
| Subscriptions.ProductIds | src/app/code/StripeIntegration/Payments/Helper/Subscriptions.php:1772-1825 | The product ids are kept in input order. |
| Subscriptions.GetCombinedProfileFromSubscriptions | src/app/code/StripeIntegration/Payments/Helper/Subscriptions.php:1772-1825 | Succeeds iff the profiles agree (once a profile carries a truthy currency, interval or interval count, every later profile repeats it) and some currency is truthy. Agreeing profiles without a currency (empty input included) give "No subscriptions specified."; the first disagreement gives the currency message when it is on the currency and the renewal message when it is on the interval or its count. On success the amount is the sum of the adjusted totals, the Stripe amount its conversion, the product ids keep input order, and every profile agrees with the combined currency, interval and count. |
| Subscriptions.ScanFrom | src/app/code/StripeIntegration/Payments/Helper/Subscriptions.php:1784-1813 | The loop stops at the first profile that disagrees, naming whether it disagrees on the currency; otherwise it ends with the settled fields, which every profile agrees with. |
| Subscriptions.ScanStep | src/app/code/StripeIntegration/Payments/Helper/Subscriptions.php:1786-1812 | One profile either settles the fields further or is the first to disagree: on the currency when the settled currency is truthy and differs, else on the interval or count. |
| Subscriptions.FirstBreakUnique | src/app/code/StripeIntegration/Payments/Helper/Subscriptions.php:1784-1813 | At most one profile is the first to disagree, so the two failure messages exclude each other. |
| SubscriptionProduct.Load | src/app/code/StripeIntegration/Payments/Model/SubscriptionProduct.php:211-240 | A product is loaded iff it is simple or virtual, its subscription options are enabled, its interval is non-empty and its interval count is ≥ 0; otherwise the model is unchanged. |
| SubscriptionProduct.FromQuoteItem | src/app/code/StripeIntegration/Payments/Model/SubscriptionProduct.php:34-47 | Throws "Invalid quote item." without a product id; otherwise loads that product. |
| SubscriptionProduct.FromOrderItem | src/app/code/StripeIntegration/Payments/Model/SubscriptionProduct.php:49-62 | Throws "Invalid order item." without a product id; otherwise loads that product. |
| SubscriptionProduct.FromProductId | src/app/code/StripeIntegration/Payments/Model/SubscriptionProduct.php:64-77 | Throws "Invalid product ID." for a missing id; otherwise loads that product. |
| SubscriptionProduct.LoadersKeepValid | src/app/code/StripeIntegration/Payments/Model/SubscriptionProduct.php:34-77 | Every loader keeps the model's product and details consistent. |
| SubscriptionProduct.HasStartDate | src/app/code/StripeIntegration/Payments/Model/SubscriptionProduct.php:84-101 | True iff the product is loaded, the start-on-specific-date flag is on, and the start date matches YYYY-MM-DD. |
| SubscriptionProduct.StartsOnOrderDate | src/app/code/StripeIntegration/Payments/Model/SubscriptionProduct.php:103-106 | Implies a start date whose first payment is on the order date. |
| SubscriptionProduct.StartsOnStartDate | src/app/code/StripeIntegration/Payments/Model/SubscriptionProduct.php:108-111 | Implies a start date whose first payment is on the start date, and excludes starting on the order date. |
| SubscriptionProduct.StartDateIsToday | src/app/code/StripeIntegration/Payments/Model/SubscriptionProduct.php:133-141 | False without a start date. With one, true iff the day of the month of the parsed start date equals the calendar's day of the month. |
| SubscriptionProduct.GetTrialDays | src/app/code/StripeIntegration/Payments/Model/SubscriptionProduct.php:163-185 | Errors without a product or details. It is null when a start date exists. Otherwise it is a trial of at least one day taken from the options. |
| SubscriptionProduct.HasTrialPeriod | src/app/code/StripeIntegration/Payments/Model/SubscriptionProduct.php:187-194 | True iff the trial days are not null. |
| SubscriptionProduct.StartDateExcludesTrial | src/app/code/StripeIntegration/Payments/Model/SubscriptionProduct.php:163-194 | A start date always wins over a trial. |
| SubscriptionProduct.HasZeroInitialOrderPrice | src/app/code/StripeIntegration/Payments/Model/SubscriptionProduct.php:113-131 | True iff the product has a trial, or starts on a start date that is not today, or a subscription update is in progress. |
| SubscriptionProduct.GetSubscriptionDetails | src/app/code/StripeIntegration/Payments/Model/SubscriptionProduct.php:276-284 | Returns the details when they exist; otherwise it errors. |
| SubscriptionProduct.UseProrationsForUpgrades | src/app/code/StripeIntegration/Payments/Model/SubscriptionProduct.php:291-297 | True iff changes are allowed and upgrade prorations are on. |
| SubscriptionProduct.UseProrationsForDowngrades | src/app/code/StripeIntegration/Payments/Model/SubscriptionProduct.php:299-305 | True iff changes are allowed and downgrade prorations are on. |
| SubscriptionProduct.GetFormattedInterval | src/app/code/StripeIntegration/Payments/Model/SubscriptionProduct.php:307-316 | Reads "<count> " then the interval with its first letter capitalised, then "s" iff the count exceeds 1, and nothing more. |
| SubscriptionProduct.PluralIffCountAboveOne | src/app/code/StripeIntegration/Payments/Model/SubscriptionProduct.php:307-316 | The formatted interval ends in 's' iff the count is above 1 (for interval names not already ending in 's'). |
| SubscriptionProduct.GetBaseInitialFeeAmount | src/app/code/StripeIntegration/Payments/Model/SubscriptionProduct.php:318-328 | The configured fee when numeric and non-negative, else 0; never negative. |
| SubscriptionProduct.GetInitialFeeAmount | src/app/code/StripeIntegration/Payments/Model/SubscriptionProduct.php:350-389 | It is 0 when base × qty ≤ 0. It is base × qty unchanged without a rate. Otherwise it is base × qty × rate rounded to two decimals. |
| SubscriptionProduct.UnitRateKeepsFee | src/app/code/StripeIntegration/Payments/Model/SubscriptionProduct.php:350-389 | At rate 1 the fee is max(0, base × qty). |
| InitialFee.GetItemQty | src/app/code/StripeIntegration/Payments/Helper/InitialFee.php:259-288 | The quantity starts from max(qty, qty_ordered). A configurable or bundle child multiplies it by the parent quantity. For a parent, the first matching qty option multiplies it. |
| InitialFee.FeeForProductId | src/app/code/StripeIntegration/Payments/Helper/InitialFee.php:187-195 | Errors for a missing product id. Non-subscription products cost 0. A subscription product's fee is its initial fee amount. |
| InitialFee.SumFees | src/app/code/StripeIntegration/Payments/Helper/InitialFee.php:135-152 | Errors iff some item lacks a product id; non-subscription items contribute nothing. |
| InitialFee.NonSubscriptionAddsNothing | src/app/code/StripeIntegration/Payments/Helper/InitialFee.php:135-152 | Appending a non-subscription item leaves the sum unchanged. |
| InitialFee.GetInitialFeeForItems | src/app/code/StripeIntegration/Payments/Helper/InitialFee.php:135-152 | 0 during a subscription update or reactivation; otherwise the per-product fee sum. |
| InitialFee.GetTotalInitialFeeFor | src/app/code/StripeIntegration/Payments/Helper/InitialFee.php:127-133 | 0 for recurring orders and for removed fees; otherwise the items' fee. |
| InitialFee.GetTotalInitialFeeForDocument | src/app/code/StripeIntegration/Payments/Helper/InitialFee.php:24-84 | 0 without a payment or with an unsupported method. Otherwise the items' fee at the document's rate, or at rate 1 when the rate flag is off. |
| InitialFee.UnitRateItemFee | src/app/code/StripeIntegration/Payments/Helper/InitialFee.php:187-195 | At rate 1 an item with a product id costs its product's base initial fee times the item quantity, never below 0, when it is a subscription, and 0 otherwise. |
| InitialFee.UnitRateSumsBaseFees | src/app/code/StripeIntegration/Payments/Helper/InitialFee.php:135-152 | At rate 1 the sum is the unconverted base fees. |
| InitialFee.DocumentWithoutRateIsUnconverted | src/app/code/StripeIntegration/Payments/Helper/InitialFee.php:24-84 | Without the rate flag a document's fee is the sum of base fees. |
| InitialFee.PositiveFees | src/app/code/StripeIntegration/Payments/Helper/InitialFee.php:109-124 | Only positive item fees are added; the total is positive iff some item fee is. |
| InitialFee.GetTotalInitialFeeForOrder | src/app/code/StripeIntegration/Payments/Helper/InitialFee.php:86-125 | 0 for recurring orders, removed fees, updates and reactivations. Otherwise the sum of the positive order-item fees, never negative. |
| InitialFee.ShareOfTax | src/app/code/StripeIntegration/Payments/Helper/InitialFee.php:166-180 | The refunded share of the fee tax is order tax / qty ordered × refunded qty, rounded to two decimals. |
| InitialFee.FullRefundReturnsTax | src/app/code/StripeIntegration/Payments/Helper/InitialFee.php:166-180 | Refunding the whole ordered quantity returns the fee tax to within half a cent. |
| InitialFee.ItemFeeTax | src/app/code/StripeIntegration/Payments/Helper/InitialFee.php:154-185 | Fails without a product id, or for a subscription with no quantity ordered. Non-subscription items are skipped. A subscription item's tax and base tax are the order tax per unit × refunded qty, rounded to two decimals. |
| InitialFee.SumFeeTax | src/app/code/StripeIntegration/Payments/Helper/InitialFee.php:154-185 | Fails iff some item fails: no product id, or a subscription item with no quantity ordered. Otherwise the totals are in whole cents, and are zero when no item is a subscription. |
| InitialFee.SumFeeTaxIsTaxTotal | src/app/code/StripeIntegration/Payments/Helper/InitialFee.php:154-185 | A successful sum is, in both the tax and the base tax, the sum over all items of their ItemFeeTax (TaxTotal, an independent whole-list definition). |
| InitialFee.TaxTotalSnoc | src/app/code/StripeIntegration/Payments/Helper/InitialFee.php:154-185 | Adding an item at the end adds its ItemFeeTax to both totals. |
| InitialFee.GetTotalInitialFeeTaxForCreditmemo | src/app/code/StripeIntegration/Payments/Helper/InitialFee.php:47-61 | Nothing without a supported payment, or during an update or reactivation. Otherwise the sum over all items of ItemFeeTax, in whole cents. |
| InitialFee.OptionLines | src/app/code/StripeIntegration/Payments/Helper/InitialFee.php:223-257 | Options begin with "Repeats Every". "Initial Fee" appears iff the fee is positive. "Trial Period" appears iff there are trial days, and comes last. Every label is one of the three. |
| InitialFee.GetAdditionalOptionsForProductId | src/app/code/StripeIntegration/Payments/Helper/InitialFee.php:221-257 | Errors for a missing product id. Non-subscriptions have no options. A subscription lists its interval, its fee for the item quantity, and its trial. |
| InitialFee.GetAdditionalOptionsForChildrenOf | src/app/code/StripeIntegration/Payments/Helper/InitialFee.php:209-219 | Fails iff some child has no product id. The options all carry known labels, at most three per child. |
| InitialFee.ChildrenOptionsConcatenate | src/app/code/StripeIntegration/Payments/Helper/InitialFee.php:209-219 | The options are the concatenation, in the order of the quantity options, of each child's own options (`array_merge` in the loop). |
| InitialFee.GetAdditionalOptionsForQuoteItem | src/app/code/StripeIntegration/Payments/Helper/InitialFee.php:197-207 | A parent with qty options uses its children; any other item uses its own product. Every option is a known label. |
| QuoteHelper.FindFirstOnValidItems | src/app/code/StripeIntegration/Payments/Helper/Quote.php:70-82 | On a quote whose items all load, the scan answers whether some item qualifies. |
| QuoteHelper.HasSubscriptionsIn | src/app/code/StripeIntegration/Payments/Helper/Quote.php:70-82 | True iff some item is a subscription and every item before it loads. On loadable items: true iff some item is a subscription. |
| QuoteHelper.HasTrialSubscriptionsIn | src/app/code/StripeIntegration/Payments/Helper/Quote.php:270-282 | The same shape for subscriptions with a trial. |
| QuoteHelper.HasFullyDiscountedSubscriptions | src/app/code/StripeIntegration/Payments/Helper/Quote.php:346-366 | The same shape for a subscription with 0 < base price ≤ base discount. |
| QuoteHelper.HasOnlyTrialSubscriptions | src/app/code/StripeIntegration/Payments/Helper/Quote.php:284-308 | False without a quote or quote id. Otherwise true iff the quote has items and every item is a trial subscription. |
| QuoteHelper.GetNonBillableSubscriptionItems | src/app/code/StripeIntegration/Payments/Helper/Quote.php:310-343 | Fails with the invalid-item error iff some item does not load. Otherwise the ids are exactly `Contributions`: for each zero-initial-price subscription in item order, its parent followed by every item of that parent in item order (for a child), or the item itself. Every id returned belongs to such an item, and each such child's parent and siblings are returned. |
| QuoteHelper.ParentAndSiblingsIncluded | src/app/code/StripeIntegration/Payments/Helper/Quote.php:324-334 | A non-billable child brings in its parent id and the id of every item whose parent is that parent. |
| QuoteHelper.RemovedIds | src/app/code/StripeIntegration/Payments/Helper/Quote.php:397-420 | The removed ids are exactly the subscription items (the parent for a child). |
| QuoteHelper.RemoveSubscriptions | src/app/code/StripeIntegration/Payments/Helper/Quote.php:397-420 | Reports a removal iff some item is a subscription, and removes the parent for child items. |
| QuoteHelper.LoadQuoteById | src/app/code/StripeIntegration/Payments/Helper/Quote.php:128-139 | No id gives no quote. A cached id is answered from the cache. Otherwise the quote is loaded and cached. |
| QuoteHelper.LoadQuoteByIdIdempotent | src/app/code/StripeIntegration/Payments/Helper/Quote.php:128-139 | A second load of the same id returns the same quote and cache. |
| QuoteHelper.PrepareForCollect | src/app/code/StripeIntegration/Payments/Helper/Quote.php:370-389 | Clears the cached items, the collected flag and the tax calculation prices. Shipping is re-collected only on a non-virtual quote. |
| QuoteHelper.ReCollectTotals | src/app/code/StripeIntegration/Payments/Helper/Quote.php:368-395 | On a non-virtual quote with a shipping method, the method is restored after collection. |
| QuoteHelper.ReCollectKeepsShippingMethod | src/app/code/StripeIntegration/Payments/Helper/Quote.php:368-395 | Re-collecting keeps a non-virtual quote's shipping method. |
| CartInfo.Classify | src/app/code/StripeIntegration/Payments/Model/Cart/Info.php:30-59 | An item fails iff its product cannot be loaded. Otherwise its traits say whether it is a subscription, has a trial, starts later, and is charged now. |
| CartInfo.Fold | src/app/code/StripeIntegration/Payments/Model/Cart/Info.php:30-59 | Stops with an error iff some item cannot be loaded. Only the flow's future-setup flag may change, and a cart that is not zero-total never becomes zero-total. |
| CartInfo.FoldSubscriptions | src/app/code/StripeIntegration/Payments/Model/Cart/Info.php:30-59 | hasSubscriptions is set iff some item is a subscription. |
| CartInfo.FoldTrials | src/app/code/StripeIntegration/Payments/Model/Cart/Info.php:39-46 | hasTrialSubscriptions is set iff some subscription has a trial. |
| CartInfo.FoldFutureStartDates | src/app/code/StripeIntegration/Payments/Model/Cart/Info.php:39-46 | The start-date flag, and the checkout flow's future-setup flag with it, are set iff some subscription's first payment is on its start date. |
| CartInfo.FoldRegularProducts | src/app/code/StripeIntegration/Payments/Model/Cart/Info.php:30-59 | hasRegularProducts is set iff some item is not a subscription. |
| CartInfo.FoldZeroTotal | src/app/code/StripeIntegration/Payments/Model/Cart/Info.php:48-56 | The cart stays zero-total iff no subscription lacks a zero initial price and no regular item has a positive row total. |
| CartInfo.FoldStopsAtError | src/app/code/StripeIntegration/Payments/Model/Cart/Info.php:30-59 | Once an item is refused, later items are not read. |
| CartInfo.InitFromQuote | src/app/code/StripeIntegration/Payments/Model/Cart/Info.php:30-59 | The loop computes the fold. It errors iff some item cannot be loaded. It sets the subscription and zero-total flags as characterised above. |
| CartInfo.Get | src/app/code/StripeIntegration/Payments/Model/Cart/Info.php:61-99 | Every getter throws unless a new order is being placed, and otherwise returns its flag. |
| CartInfo.FreshInfoAnswers | src/app/code/StripeIntegration/Payments/Model/Cart/Info.php:15-99 | From the initial state during an order placement, isZeroTotal answers whether nothing is charged now. hasTrialSubscriptions answers whether some subscription has a trial. |
| CheckoutFlow.Create | src/app/code/StripeIntegration/Payments/Model/Checkout/Flow.php:9-28 | The coupon flag starts true and is false when "increment after order placed" is set. Every other flag starts false. |
| CheckoutFlow.Disable | src/app/code/StripeIntegration/Payments/Model/Checkout/Flow.php:30-38 | Sets only the private flag, and trial items are then billed. |
| CheckoutFlow.Enable | src/app/code/StripeIntegration/Payments/Model/Checkout/Flow.php:30-43 | Clears only the private flag. Trial items are then not billed iff a new, non-recurring order is being placed. |
| CheckoutFlow.EnableAfterDisable | src/app/code/StripeIntegration/Payments/Model/Checkout/Flow.php:35-43 | Enable after disable restores the flow iff zero initial prices were not already disabled. |
| CheckoutFlow.ShouldIncrementCouponUsage | src/app/code/StripeIntegration/Payments/Model/Checkout/Flow.php:45-56 | False iff the method is stripe_payments and the stored flag is false. |
| CheckoutFlow.DeferredSettingHoldsBackStripeOnly | src/app/code/StripeIntegration/Payments/Model/Checkout/Flow.php:19-56 | With the deferral setting on, only stripe_payments orders hold back the coupon usage. |
| CouponUsage.AroundExecute | src/app/code/StripeIntegration/Payments/Plugin/SalesRule/UpdateCouponUsagesPlugin.php:27-41 | Proceeds at most once, iff the flow allows it, forwarding quote and increment unchanged; other methods always proceed. |
| CouponUsage.IncrementCouponUsages | src/app/code/StripeIntegration/Payments/Plugin/Sales/Model/Service/OrderService.php:76-90 | A no-op without a coupon code or when the flag is already set. Otherwise it sets the flag and records one usage update with increment true. |
| CouponUsage.IncrementIsIdempotent | src/app/code/StripeIntegration/Payments/Plugin/Sales/Model/Service/OrderService.php:76-90 | A second call is a no-op, and one call adds at most one update. |
| CouponUsage.ProcessEvents | src/app/code/StripeIntegration/Payments/Plugin/Sales/Model/Service/OrderService.php:110-129 | Each early event is processed, or its failure recorded, in order. |
| CouponUsage.PostProcess | src/app/code/StripeIntegration/Payments/Plugin/Sales/Model/Service/OrderService.php:92-137 | Bank transfers save customer_balance. Invoice payments move to pending_payment. stripe_payments and express process early events only with a transaction id. Other methods are untouched. |
| CouponUsage.AroundPlace | src/app/code/StripeIntegration/Payments/Plugin/Sales/Model/Service/OrderService.php:45-74 | A failed placement changes nothing: authentication errors are rethrown and others converted. A placed order is post-processed and its quote's coupon usage incremented. |
| CouponUsage.DeferredCouponCountedOnce | src/app/code/StripeIntegration/Payments/Plugin/Sales/Model/Service/OrderService.php:45-90 | With usage deferred, placing a stripe_payments order with a coupon records exactly one usage update. The plugin holds back the update made during placement. |
| SubscriptionCart.CollectTotals | src/app/code/StripeIntegration/Payments/Model/Subscription/Cart.php:236-252 | Not initialised or already collecting gives the matching error. A successful collection clears the flag, and a failed one leaves it set. |
| SubscriptionCart.FailedCollectionBlocksLaterOnes | src/app/code/StripeIntegration/Payments/Model/Subscription/Cart.php:236-252 | After a failed collection, every later collection through the same cart, whatever quote it holds, reports an infinite loop. |
| SubscriptionCart.FromItem | src/app/code/StripeIntegration/Payments/Model/Subscription/Cart.php:41-81 | Only simple or virtual items are accepted. A failed creation leaves zero initial prices disabled. A successful one re-enables them and leaves a collected quote. |
| SubscriptionCart.FromItemRestoresFlow | src/app/code/StripeIntegration/Payments/Model/Subscription/Cart.php:41-81 | A successful build restores the flow iff zero initial prices were not disabled before it. |
| SubscriptionCart.ShippingQtyFromQuoteItem | src/app/code/StripeIntegration/Payments/Model/Subscription/Cart.php:83-113 | A child gets parent qty × the sum of its non-virtual siblings' quantities. A virtual item gets 0. Any other item gets its own quantity. |
| SubscriptionCart.ShippingQtyFromOrderItem | src/app/code/StripeIntegration/Payments/Model/Subscription/Cart.php:116-145 | A child gets the summed qty ordered of its non-virtual simple or virtual siblings. A non-virtual item gets its qty ordered, a virtual one 0. |
| SubscriptionCart.UnshippedSiblingsAddNothing | src/app/code/StripeIntegration/Payments/Model/Subscription/Cart.php:116-145 | A virtual, non-accepted or unrelated item adds nothing to a parent's shipped quantity. |
| SubscriptionCart.AreChildrenShippedTogether | src/app/code/StripeIntegration/Payments/Model/Subscription/Cart.php:690-705 | Errors for a missing product; true iff the shipment type is numerically 0. |
| SubscriptionCart.RatesQty | src/app/code/StripeIntegration/Payments/Model/Subscription/Cart.php:182-194 | Children shipped together use the added quantity. Otherwise the order or quote shipping quantity is used. |
| SubscriptionCart.FindRate | src/app/code/StripeIntegration/Payments/Model/Subscription/Cart.php:196-225 | True iff some rate in some carrier group matches the shipping method. |
| SubscriptionCart.SelectShippingMethod | src/app/code/StripeIntegration/Payments/Model/Subscription/Cart.php:196-225 | The method is kept iff it is well-formed and some rate matches it. Otherwise it errors iff the same method was required. |
| SubscriptionCart.Shipping | src/app/code/StripeIntegration/Payments/Model/Subscription/Cart.php:328-475 | Errors when not initialised. A virtual quote gives 0 for every shipping figure; any other quote gives the address figure. |
| SubscriptionCart.ShippingTaxPercent | src/app/code/StripeIntegration/Payments/Model/Subscription/Cart.php:477-486 | 0 if the shipping amount or tax is 0; otherwise tax/amount rounded to four decimals, halves away from zero. |
| SubscriptionCart.ExactShippingTaxPercent | src/app/code/StripeIntegration/Payments/Model/Subscription/Cart.php:477-486 | When the tax is an exact multiple of the amount, the percent is that exact quotient. |
| SubscriptionCart.Total | src/app/code/StripeIntegration/Payments/Model/Subscription/Cart.php:488-540 | Subtotals include tax iff prices include tax. Grand totals are the quote's. It errors when not initialised. |
| SubscriptionCart.SubscriptionDiscountAmount | src/app/code/StripeIntegration/Payments/Model/Subscription/Cart.php:606-638 | The absolute value of the summed item discounts, in the order or base currency. |
| SubscriptionCart.CartDiscountAmount | src/app/code/StripeIntegration/Payments/Model/Subscription/Cart.php:542-560 | The absolute item discounts plus the shipping discount on non-virtual quotes. |
| SubscriptionCart.LineAmount | src/app/code/StripeIntegration/Payments/Model/Subscription/Cart.php:562-668 | The figure of the first visible item. It errors when there is no quote or no visible item. |
| SubscriptionCart.TaxIsUnrounded | src/app/code/StripeIntegration/Payments/Model/Subscription/Cart.php:640-668 | The tax figures are the item's, unrounded. |
| SubscriptionCart.TotalInitialFee | src/app/code/StripeIntegration/Payments/Model/Subscription/Cart.php:670-688 | The initial-fee helper applied to the quote's items, at the quote rate or at rate 1 for base. |
| SubscriptionCart.SetOriginalSubscriptionPrice | src/app/code/StripeIntegration/Payments/Model/Subscription/Cart.php:707-725 | Subscriptions in the cart get the first visible item's price and base price as original prices. Others are unchanged. It errors only when there is nothing visible to read. |
| PaymentMethod.CanEdit | src/app/code/StripeIntegration/Payments/Model/PaymentMethod.php:551-573 | True iff there is no transaction id and no last trans id, the token and the customer id are set, and the token starts with "pm_". |
| PaymentMethod.RecordedTransactionEndsEditing | src/app/code/StripeIntegration/Payments/Model/PaymentMethod.php:551-573 | Once a transaction id or last trans id is recorded the payment can no longer be edited. |
| PaymentMethod.CanCapture | src/app/code/StripeIntegration/Payments/Model/PaymentMethod.php:473-486 | True for payment action "order" with a token; otherwise the parent decides. |
| PaymentMethod.GetConfigPaymentAction | src/app/code/StripeIntegration/Payments/Model/PaymentMethod.php:533-549 | "authorize" for migrated subscriptions or updates. Otherwise "authorize_capture" when the cart has subscriptions. Otherwise the configured action. |
| PaymentMethod.SubscriptionsAreCapturedUnlessMigratedOrUpdated | src/app/code/StripeIntegration/Payments/Model/PaymentMethod.php:533-549 | A cart with subscriptions is authorized only, iff it is a migrated subscription or an update. |
| PaymentMethod.Authorize | src/app/code/StripeIntegration/Payments/Model/PaymentMethod.php:183-207 | Routes in priority order: update, then multishipping or migrated, then order-from-charge, then pay. |
| PaymentMethod.CaptureToken | src/app/code/StripeIntegration/Payments/Model/PaymentMethod.php:211-215 | The capture token is the transaction id when there is one, else the last transaction id. It is empty iff both are. |
| PaymentMethod.Capture | src/app/code/StripeIntegration/Payments/Model/PaymentMethod.php:209-266 | One iff per outcome. Action "order" gives a new charge. A recorded token is cleaned. Outside a multishipping quote it is captured directly. On a multishipping quote it is captured across the orders iff more than one order shares it; otherwise the no-transactions error. With nothing recorded: the CLI error iff migrated; then the not-authorized error iff an admin captures a pending_payment order; then doNotPay iff multishipping; then an order from the charge iff the flow says so; else pay. |
| PaymentMethod.UnrecordedCaptureRoutesAsAuthorize | src/app/code/StripeIntegration/Payments/Model/PaymentMethod.php:183-207 | Once neither refusal applies, a capture with nothing recorded takes the same route as an authorization outside a subscription update. |
| PaymentMethod.DoNotPayMarks | src/app/code/StripeIntegration/Payments/Model/PaymentMethod.php:268-274 | Skipping payment marks the transaction pending and open, not fraudulent, and suppresses the new-order email. |
| PaymentMethod.StatusOutcome | src/app/code/StripeIntegration/Payments/Model/PaymentMethod.php:154-178 | requires_action with a redirect redirects the customer, other requires_action is an authentication error, canceled is an error, succeeded or processing is fine, and anything else throws. |
| PaymentMethod.Order | src/app/code/StripeIntegration/Payments/Model/PaymentMethod.php:118-181 | The SetupIntent is confirmed only in requires_confirmation or requires_payment_method. Its status decides the outcome. The payment records the customer, the action and the payment method. |
| PaymentMethod.SucceededIntentIsAccepted | src/app/code/StripeIntegration/Payments/Model/PaymentMethod.php:154-178 | A succeeded SetupIntent is accepted without redirect. |
| PaymentMethod.PayGuard | src/app/code/StripeIntegration/Payments/Model/PaymentMethod.php:276-282 | Recurring subscriptions return at once. Otherwise an error occurs iff there is neither a token nor a confirmation token. |
| PaymentMethod.Cancel | src/app/code/StripeIntegration/Payments/Model/PaymentMethod.php:402-442 | A cancel-offline comment short-circuits. Otherwise a refund is attempted first, its error is reported, and an offline refund adds the comment iff cancelling and the admin warning iff in the admin. |
| PaymentMethod.Refund | src/app/code/StripeIntegration/Payments/Model/PaymentMethod.php:449-454 | Refund is cancel with the amount. |
| PaymentMethod.Void | src/app/code/StripeIntegration/Payments/Model/PaymentMethod.php:456-461 | Void is cancel without an amount. |
| PaymentMethod.OfflineCommentShortCircuits | src/app/code/StripeIntegration/Payments/Model/PaymentMethod.php:402-442 | With a cancel-offline comment the refund attempt is irrelevant and no refund call is made. |
| InvoicePlugin.AroundCanCancel | src/app/code/StripeIntegration/Payments/Plugin/Sales/Model/Invoice.php:32-58 | Non-Stripe methods and non-admin contexts keep the original result. Otherwise cancelling is denied iff the invoice is open with a transaction, or some transaction is a capture. |
| InvoicePlugin.WasCaptured | src/app/code/StripeIntegration/Payments/Plugin/Sales/Model/Invoice.php:44-48 | True iff some transaction has type "capture". |
| InvoicePlugin.HasSubscriptions | src/app/code/StripeIntegration/Payments/Plugin/Sales/Model/Invoice.php:60-74 | Skips items without a product id; true iff some item is a subscription. |
| ErrorHelper.IsMotoError | src/app/code/StripeIntegration/Payments/Helper/Error.php:9-24 | True iff the code is "parameter_unknown" and the param is "payment_method_options[card][moto]". |
| CreditmemoHelper.ValidateBaseRefundAmount | src/app/code/StripeIntegration/Payments/Helper/Creditmemo.php:35-46 | Refundability is checked first. It succeeds iff the order can be refunded and the amount is positive, and each failure carries its message. |
| DiscountHelper.Collect | src/app/code/StripeIntegration/Payments/Helper/Discount.php:25-34 | Every rule returned is the lookup of some id, so no rule is invented. There are at most as many rules as ids, and exactly as many when every id is found. |
| DiscountHelper.CollectAppend | src/app/code/StripeIntegration/Payments/Helper/Discount.php:25-34 | Collecting over two lists of ids gives the rules of the first followed by those of the second, so rules keep the ids' order. |
| DiscountHelper.CollectSingle | src/app/code/StripeIntegration/Payments/Helper/Discount.php:25-34 | One id gives its rule when the lookup finds one and nothing otherwise. |
| DiscountHelper.LookUpAll | src/app/code/StripeIntegration/Payments/Helper/Discount.php:25-34 | The loop over the ids returns exactly the rules that Collect describes: every found rule, in the ids' order. |
| DiscountHelper.GetDiscountRules | src/app/code/StripeIntegration/Payments/Helper/Discount.php:18-35 | Empty or null ids give no rules. Otherwise the ids are split on "," and looked up, giving at most one rule per id. |

## Left out

- Stripe SDK and ORM I/O: API calls, repositories, collections and saves. Responses are inputs, and a call's outcome is a parameter or an `Option`/`Result`.
- `StripeTransactionReversal.php` (the wrapper that calls the API and records the result) is represented by `CreateReversal.Execute`'s `stripe` parameter. The wrapper's own error handling and logging are not part of this model.
- CreateReversal.OfflineInvoices: assumes that a failed Stripe call always stops the credit memo with the offline message. In the program that decision is `canCreditMemoProceed` (src/app/code/StripeIntegration/Tax/Observer/CreateTransactionReversal.php:91), which reads a success flag that the wrapper sets on a valid answer and never clears (src/app/code/StripeIntegration/Tax/Model/StripeTransactionReversal.php:34). After one successful reversal in the same request, a later failed call can pass that check, and a null transaction id and mode are then recorded. The flag's owner, TaxFlow.php, is not part of this model, so that path is not modelled.
- Serialization of the reversal ledger and of transaction ids: it is a parameter (`serialize`) or the identity, since only the round trip matters to the logic.
- Caches other than the quote cache of `QuoteHelper.LoadQuoteById` are left out, because they do not change results.
- Floating point: prices are exact fixed-point integers, so the model does not reproduce float artefacts of PHP arithmetic.
- TaxCalculator.GetStripeCalculatedValues: the conversion to base currency is the parameter `toBase`. In the source it rounds each figure times the current rate, or, for invoices, times the base-to-order rate inverted and rounded to four decimals. The contract states which figures are converted, not how the rate is rounded.
- Currency converters between Magento and Stripe amounts (`convertMagentoAmountToStripeAmount` and its inverse) are parameters, since they live in code this model does not include.
- Clocks and dates are parameters: `time()` in the transaction reference, and the server calendar (`SubscriptionProduct.Calendar`), whose `dayOf` stands for `date("d", strtotime(...))` on a start date. Date parsing itself is not modelled.
- SubscriptionProduct.GetFormattedInterval: the count is printed as its integer cast; a stored count that is not a whole number is not distinguished.
- Quantities of transaction items, tax and reversal line items, initial-fee items and subscription profiles are whole numbers, while Magento stores them as decimal(12,4). Fractional quantities are not modelled. `TaxLineItem`'s own quantity is Dec4 only because it is truncated (`TaxLineItem.QuantityTruncates`).
- TaxCalculator.CalculatePrices: the quantity it divides by is a whole number, so a fractional invoice quantity is not modelled.
- InitialFee.ShareOfTax: quantity refunded and quantity ordered are whole numbers.
- SubscriptionCart.CollectTotals: the re-entrancy flag is a field of the cart value, while the class keeps it in a static property shared by every instance. Sharing across separate cart objects is not modelled.
- Display and localisation: `__()` translation and the currency symbol of the initial-fee option (`format` parameter).
- `SubscriptionCart`: building the new quote (`createNewQuoteFrom`) is the `created` parameter. Address copying and product re-adding are not modelled beyond the shipping quantity and shipping-method selection.
- SubscriptionCart.AreChildrenShippedTogether: a numeric shipment type is held as its integer cast, so a decimal string such as "0.5" is not distinguished from 0.
- `PaymentMethod`: `isAvailable`, `assignData`, `acceptPayment`, `denyPayment`, `cancelInvoice`, `isExpressCheckout`, `getConfig`, `shouldAuthenticateManually`, `createOrderFromCharge`, and everything in `pay` after its guard are not modelled. These call services this model does not include. The model covers the routes they are chosen by.
- PaymentMethod.Capture: the Stripe calls behind each route are not modelled: capturing the authorization, capturing across multishipping orders, the new charge, pay. The contract states which route is taken, with which cleaned token, and which error is raised. The order lookup by transaction id is reduced to the number of orders found.
- PaymentMethod.Cancel: a failure to retrieve the payment before refunding is folded into the refund attempt's outcome (`RefundAttempt`).
- CouponUsage.PostProcess: failures while saving the order or payment are not modelled. Events are processed or their error recorded; the webhook processing itself is outside this model.
- `Subscriptions` helper: only the operations listed in the table are modelled. Creating, upgrading and migrating subscriptions, and the Stripe price and product lookups, involve API calls outside this model.
- `QuoteHelper`: `getQuote`, `addProduct`, `hasSubscriptionsWithStartDate`, quote saving and session access are left out. They are session and repository access with no logic beyond what is modelled.
- `CreditmemoHelper`: saving, refunding and emailing a credit memo are I/O around the validation that is modelled.
- `CartInfo`: flags are modelled as read from the fold. Resetting them between requests is object lifetime, not logic.
- Module configuration (`Config.php`, the Tax settings source) is read through parameters. JavaScript, templates, tests and search integrations are not part of this model.

## Findings

| source | as written | input that shows it | evidently intended | confidence | as-written member | corrected member |
|---|---|---|---|---|---|---|
| src/app/code/StripeIntegration/Tax/Model/StripeTransactionReversal/Request/LineItems.php:190-199 | `hasRemainingAmount` reports remaining value only when a ledger line has both amount and tax left (`&&`). `itemHasRemainingAmount` uses `\|\|` for the same question. | ledger `{"sku-1": remaining amount 5000, remaining tax 0}`, a zero-rated line: the as-written test says nothing remains, so an offline partial credit memo is marked fully reversed although 5000 is still unreverted | a line with amount or tax left still has something to revert, as `itemHasRemainingAmount` decides | medium, not executed | ReversalLineItems.FormOfflineDataAsWritten (ReversalLineItems.ZeroRatedItemCounterexample, ReversalLineItems.AsWrittenOnlyMissesOneSided) | ReversalLineItems.FormOfflineData |
