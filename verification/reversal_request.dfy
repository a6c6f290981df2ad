/** The request for a Stripe Tax transaction reversal. A credit memo for the
    whole invoiced amount reverses the transaction in full; a partial one is
    reverted line by line, online against the credit memo's invoice or
    offline against one invoice of the order at a time. */
module ReversalRequest {
  import opened Wrappers
  import opened Php
  import opened Values
  import opened ReversalLineItem
  import opened ReversalDocuments
  import opened ReversalRegistry
  import ReversalShipping
  import ReversalLineItems

  /** The state of the shipping and line-items builders the request owns;
      they keep their values between requests until formed again. */
  datatype Parts = Parts(shipping: ReversalShipping.ShippingCost, lineItems: seq<Line>, ledger: Option<Ledger>)

  datatype Request = Request(
    mode: string,
    originalTransaction: string,
    reference: string,
    expand: seq<string>,
    parts: Parts,
    transactionReverted: bool)

  /** The builders before any request was formed. */
  const InitialParts: Parts := Parts(ReversalShipping.ShippingCost(0, 0), [], None)

  /** The credit memo does not refund everything the order invoiced. */
  predicate IsCreditmemoPartial(cm: Creditmemo) {
    cm.grandTotal != cm.orderTotalInvoiced
  }

  /** What an offline reversal needs besides the credit memo. */
  datatype OfflineInputs = OfflineInputs(invoice: Invoice, tx: Transaction)

  /** What both kinds of reversal need from the rest of the system: the
      registry of earlier reversals, the current time (for the reference),
      the online line-items response, the builders' options and the
      amount-to-revert update. `ledgerTest` chooses the offline ledger test:
      `AsWritten` is the program's behaviour, `Corrected` the intended one. */
  datatype Context = Context(
    registry: Registry,
    now: int,
    fetched: Option<ReversalLineItems.Fetched>,
    opts: ReversalLineItems.Options,
    rev: Reverter,
    ledgerTest: ReversalLineItems.LedgerTest)

  const NoInvoice: string := "Call to a member function getStripeTaxTransactionId() on null"

  /** `<credit memo>_<invoice>_<time>`. */
  function Reference(cm: Creditmemo, inv: Invoice, now: int): string {
    cm.incrementId + "_" + inv.incrementId + "_" + IntToString(now)
  }

  /** The offline partial mode decision: `full` only when shipping and line
      items were both fully reverted and the transaction was never reversed
      before. */
  function OfflineMode(shippingFully: bool, lineItemsFully: bool, latestReversal: Option<string>): (m: string)
    ensures m == ModeFull <==> shippingFully && lineItemsFully && (latestReversal.None? || Empty(latestReversal.value))
    ensures m == ModeFull || m == ModePartial
  {
    if shippingFully && lineItemsFully && (latestReversal.None? || Empty(latestReversal.value))
    then ModeFull else ModePartial
  }

  /** Forms the request for a credit memo, offline against `offline` when
      given, otherwise online against the credit memo's own invoice; returns
      the request and the credit memo (whose items and amount to revert an
      offline pass advances). */
  function FormData(cm: Creditmemo, offline: Option<OfflineInputs>, prior: Parts, ctx: Context): (r: Result<(Request, Creditmemo)>)
    ensures r.Failure? <==> offline.None? && cm.invoice.None?
    ensures r.Success? ==> r.value.0.expand == ["line_items"]
    ensures r.Success? ==> r.value.1 == cm.(items := r.value.1.items, amountToRevert := r.value.1.amountToRevert)
    ensures r.Success? && !IsCreditmemoPartial(cm) ==>
      r.value.0.mode == ModeFull && r.value.1 == cm && !r.value.0.transactionReverted && r.value.0.parts == prior
    ensures r.Success? && IsCreditmemoPartial(cm) && offline.None? ==>
      r.value.0.mode == ModePartial && !r.value.0.transactionReverted && r.value.1 == cm
      && r.value.0.parts.lineItems == ReversalLineItems.FormOnlineData(cm, ctx.fetched, ctx.opts)
    ensures r.Success? && IsCreditmemoPartial(cm) && offline.Some? ==>
      var sh := ReversalShipping.FormOfflineData(cm, offline.value.tx, ctx.rev);
      var li := ReversalLineItems.FormOfflineDataBy(ctx.ledgerTest, sh.creditmemo, offline.value.invoice, offline.value.tx,
                  GetReversalLineItemsData(ctx.registry, offline.value.tx.id), ctx.opts, ctx.rev);
      && r.value.0.transactionReverted == (sh.fullyReversed && li.fullyReversed)
      && r.value.0.mode == OfflineMode(sh.fullyReversed, li.fullyReversed,
                             GetReversalForInvoiceTransaction(ctx.registry, offline.value.invoice.stripeTaxTransactionId))
      && r.value.1 == li.creditmemo
  {
    if offline.None? && cm.invoice.None? then Failure(NoInvoice)
    else
      var inv := if offline.Some? then offline.value.invoice else cm.invoice.value;
      var original := inv.stripeTaxTransactionId;
      var reference := Reference(cm, inv, ctx.now);
      if !IsCreditmemoPartial(cm) then
        Success((Request(ModeFull, original, reference, ["line_items"], prior, false), cm))
      else if offline.Some? then
        var tx := offline.value.tx;
        var latest := GetReversalForInvoiceTransaction(ctx.registry, original);
        var sh := ReversalShipping.FormOfflineData(cm, tx, ctx.rev);
        var li := ReversalLineItems.FormOfflineDataBy(ctx.ledgerTest, sh.creditmemo, inv, tx,
                    GetReversalLineItemsData(ctx.registry, tx.id), ctx.opts, ctx.rev);
        var reverted := sh.fullyReversed && li.fullyReversed;
        Success((Request(OfflineMode(sh.fullyReversed, li.fullyReversed, latest), original, reference, ["line_items"],
                         Parts(sh.shipping, li.data, Some(li.ledger)), reverted), li.creditmemo))
      else
        var parts := Parts(ReversalShipping.FormOnlineData(cm), ReversalLineItems.FormOnlineData(cm, ctx.fetched, ctx.opts),
                           prior.ledger);
        Success((Request(ModePartial, original, reference, ["line_items"], parts, false), cm))
  }

  /** The status recorded for the transaction: `full` whenever both parts
      were fully reverted, even when the request itself is partial. */
  function GetTransactionStatus(req: Request): (s: string)
    ensures req.transactionReverted ==> s == ModeFull
    ensures !req.transactionReverted ==> s == req.mode
  {
    if req.transactionReverted then ModeFull else req.mode
  }

  function LinesToValues(lines: seq<Line>): (r: seq<Value>)
    ensures |r| == |lines|
    ensures forall i :: 0 <= i < |lines| ==> r[i] == Dict(ReversalLineItem.ToArray(lines[i]))
  {
    if |lines| == 0 then [] else [Dict(ReversalLineItem.ToArray(lines[0]))] + LinesToValues(lines[1..])
  }

  /** The request array: always mode, original transaction, reference and
      expand; shipping and line items only for a partial reversal and only
      when they carry something. */
  function ToArray(req: Request): (r: map<string, Value>)
    ensures {"mode", "original_transaction", "reference", "expand"} <= r.Keys
    ensures r.Keys <= {"mode", "original_transaction", "reference", "expand", "shipping_cost", "line_items"}
    ensures r["mode"] == Str(req.mode) && r["original_transaction"] == Str(req.originalTransaction)
    ensures r["expand"] == List(StrList(req.expand))
    ensures "shipping_cost" in r <==> req.mode == ModePartial && ReversalShipping.CanIncludeInRequest(req.parts.shipping)
    ensures "line_items" in r <==> req.mode == ModePartial && ReversalLineItems.CanIncludeInRequest(req.parts.lineItems)
  {
    var base := map["mode" := Str(req.mode), "original_transaction" := Str(req.originalTransaction),
                    "reference" := Str(req.reference), "expand" := List(StrList(req.expand))];
    if req.mode == ModePartial then
      var withShipping := if ReversalShipping.CanIncludeInRequest(req.parts.shipping)
        then base["shipping_cost" := Dict(ReversalShipping.ToArray(req.parts.shipping))] else base;
      if ReversalLineItems.CanIncludeInRequest(req.parts.lineItems)
      then withShipping["line_items" := List(LinesToValues(req.parts.lineItems))] else withShipping
    else base
  }

  /** A credit memo for the whole invoiced amount yields a four-key request. */
  lemma FullCreditmemoRequestShape(cm: Creditmemo, offline: Option<OfflineInputs>, prior: Parts, ctx: Context)
    requires offline.Some? || cm.invoice.Some?
    requires !IsCreditmemoPartial(cm)
    ensures ToArray(FormData(cm, offline, prior, ctx).value.0).Keys == {"mode", "original_transaction", "reference", "expand"}
  {
  }

  /** An online partial reversal is never recorded as full. */
  lemma OnlinePartialStaysPartial(cm: Creditmemo, prior: Parts, ctx: Context)
    requires cm.invoice.Some? && IsCreditmemoPartial(cm)
    ensures GetTransactionStatus(FormData(cm, None, prior, ctx).value.0) == ModePartial
  {
  }

  /** The zero-rated ledger of a transaction never reversed before, on an
      invoice without shipping tax, when the pass has no items to walk: the
      program's ledger test finds nothing remaining, so it sends a full
      reversal and records the transaction as fully reversed although 5000
      is still unreverted; the corrected test sends and records a partial
      reversal. */
  lemma ZeroRatedLedgerReversal(cm: Creditmemo, inv: Invoice, tx: Transaction, prior: Parts, ctx: Context)
    requires IsCreditmemoPartial(cm)
    requires !tx.hasLineItems && !tx.hasShippingTax
    requires tx.freshLedger == map["sku-1" := LedgerEntry(Some("li_1"), 5000, 0)]
    requires tx.id !in ctx.registry && inv.stripeTaxTransactionId !in ctx.registry
    ensures var w := FormData(cm, Some(OfflineInputs(inv, tx)), prior, ctx.(ledgerTest := ReversalLineItems.AsWritten)).value.0;
      w.mode == ModeFull && GetTransactionStatus(w) == ModeFull
    ensures var c := FormData(cm, Some(OfflineInputs(inv, tx)), prior, ctx.(ledgerTest := ReversalLineItems.Corrected)).value.0;
      c.mode == ModePartial && GetTransactionStatus(c) == ModePartial
  {
    ReversalLineItems.ZeroRatedItemCounterexample();
  }
}
