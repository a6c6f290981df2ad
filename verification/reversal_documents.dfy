/** The Magento and Stripe documents a tax-transaction reversal reads: the
    credit memo being created, the invoices of its order, and the Stripe Tax
    transaction of an invoice. Only the fields the reversal code reads are
    kept; values computed by helpers outside this model (formatted amounts,
    references, the shipping reversal amounts) are fields. */
module ReversalDocuments {
  import opened Wrappers
  import opened ReversalLineItem

  /** What is left to revert of each reference of a transaction. */
  type Ledger = map<string, LedgerEntry>

  /** An invoice: its increment id, the id of the Stripe Tax transaction
      created for it ("" when there is none), and its gift options. */
  datatype Invoice = Invoice(
    incrementId: string,
    stripeTaxTransactionId: string,
    hasGw: bool,
    hasPrintedCard: bool)

  /** The credit memo. `amountToRevert` accumulates, in Magento amounts, what
      the reversals formed so far cover; `grandTotal` is what the credit memo
      refunds and `orderTotalInvoiced` what the order invoiced. */
  datatype Creditmemo = Creditmemo(
    incrementId: string,
    grandTotal: int,
    amountToRevert: int,
    orderTotalInvoiced: int,
    items: seq<CreditmemoItem>,
    orderGiftWrap: OrderGiftOption,
    printedCard: OrderGiftOption,
    fees: seq<AdditionalFee>,
    invoice: Option<Invoice>,
    hasShippingToRevert: bool,
    shippingReversalAmount: int,
    shippingReversalTax: int,
    stripeTaxTransactionId: string)

  /** A Stripe Tax transaction as the reversal sees it. Whether all of its
      lines have been processed is decided by the transaction object from the
      count of processed lines; that decision is an input. */
  datatype Transaction = Transaction(
    id: string,
    hasLineItems: bool,
    isProcessed: nat -> bool,
    freshLedger: Ledger,
    hasShippingTax: bool,
    shippingAmount: int,
    shippingTaxAmount: int)

  /** The credit-memo helper's update of `amountToRevert` by a line's amount
      and tax (its currency conversion and tax-mode handling are not part of
      this model). */
  type Reverter = (int, int, int) -> int
}
