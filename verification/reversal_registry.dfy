/** The per-order reversal registry: for each Stripe Tax transaction of the
    order, the status of its reversal (`full` or `partial`), the id of its
    latest reversal and, for offline reversals, the ledger left behind. The
    order keeps it serialized; the serializer is modelled as the identity,
    and an order with no registry as the empty map (every reader treats an
    unset registry and an absent transaction alike). */
module ReversalRegistry {
  import opened Wrappers
  import opened ReversalDocuments

  const ModeFull: string := "full"
  const ModePartial: string := "partial"

  datatype Entry = Entry(status: string, latestReversal: string, lineItems: Option<Ledger>)

  type Registry = map<string, Entry>

  /** Records a reversal of `transactionId`; the ledger is kept only when one
      is given and it is non-empty (an empty PHP array is falsy). */
  function AddTransactionMode(reg: Registry, transactionId: string, mode: string, latestReversal: string,
                              lineItems: Option<Ledger>): (r: Registry)
    ensures r.Keys == reg.Keys + {transactionId}
    ensures r[transactionId].status == mode && r[transactionId].latestReversal == latestReversal
    ensures r[transactionId].lineItems.Some? <==> lineItems.Some? && |lineItems.value| > 0
    ensures forall t :: t in reg && t != transactionId ==> r[t] == reg[t]
  {
    var stored := if lineItems.Some? && |lineItems.value| > 0 then lineItems else None;
    reg[transactionId := Entry(mode, latestReversal, stored)]
  }

  /** A transaction is fully reversed iff the registry says `full` for it. */
  predicate IsOrderTaxTransactionFullyReversed(reg: Registry, transactionId: string) {
    transactionId in reg && reg[transactionId].status == ModeFull
  }

  /** The latest reversal of a transaction; `None` models the source's
      `false` for an unknown transaction. */
  function GetReversalForInvoiceTransaction(reg: Registry, transactionId: string): (r: Option<string>)
    ensures r.Some? <==> transactionId in reg
    ensures r.Some? ==> r.value == reg[transactionId].latestReversal
  {
    if transactionId in reg then Some(reg[transactionId].latestReversal) else None
  }

  /** The recorded ledger of a transaction; `None` for an unknown transaction
      and for one recorded without a ledger. */
  function GetReversalLineItemsData(reg: Registry, transactionId: string): (r: Option<Ledger>)
    ensures transactionId !in reg ==> r.None?
    ensures transactionId in reg ==> r == reg[transactionId].lineItems
  {
    if transactionId in reg then reg[transactionId].lineItems else None
  }

  /** Reading back what was just recorded gives the recorded values. */
  lemma AddThenGet(reg: Registry, t: string, mode: string, latest: string, lineItems: Option<Ledger>)
    ensures var r := AddTransactionMode(reg, t, mode, latest, lineItems);
      && GetReversalForInvoiceTransaction(r, t) == Some(latest)
      && (lineItems.Some? && |lineItems.value| > 0 ==> GetReversalLineItemsData(r, t) == lineItems)
      && (IsOrderTaxTransactionFullyReversed(r, t) <==> mode == ModeFull)
  {
  }

  /** Recording one transaction does not change what is read for another. */
  lemma AddPreservesOthers(reg: Registry, t: string, mode: string, latest: string, lineItems: Option<Ledger>, other: string)
    requires other != t
    ensures var r := AddTransactionMode(reg, t, mode, latest, lineItems);
      && GetReversalForInvoiceTransaction(r, other) == GetReversalForInvoiceTransaction(reg, other)
      && GetReversalLineItemsData(r, other) == GetReversalLineItemsData(reg, other)
      && (IsOrderTaxTransactionFullyReversed(r, other) <==> IsOrderTaxTransactionFullyReversed(reg, other))
  {
  }

  /** Re-recording a transaction overwrites its entry. */
  lemma AddOverwrites(reg: Registry, t: string, m1: string, l1: string, d1: Option<Ledger>,
                      m2: string, l2: string, d2: Option<Ledger>)
    ensures AddTransactionMode(AddTransactionMode(reg, t, m1, l1, d1), t, m2, l2, d2)
         == AddTransactionMode(reg, t, m2, l2, d2)
  {
  }
}
