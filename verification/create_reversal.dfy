/** The observer that reverses Stripe Tax transactions when a credit memo is
    saved. A credit memo started from an invoice reverses that invoice's
    transaction; any other credit memo walks the order's invoices and
    reverses each one's transaction until the credit memo's total is
    covered. The Stripe call is an input: it maps the request array to the
    id of the created reversal, or to nothing when the call failed, in which
    case the tax flow forbids the credit memo. */
module CreateReversal {
  import opened Wrappers
  import opened Php
  import opened Values
  import opened ReversalDocuments
  import opened ReversalRegistry
  import opened ReversalRequest

  /** The Stripe API's answer to a reversal request. */
  type StripeApi = map<string, Value> -> Option<string>

  datatype Outcome = Outcome(creditmemo: Creditmemo, registry: Registry, parts: Parts)

  const OnlineFailed: string := "Credit memo could not be created."
  const OfflineFailed: string := "Offline credit memo could not be created."

  /** The credit memo with an increment id, drawn from the sequence only
      when it has none. */
  function EnsureIncrementId(cm: Creditmemo, nextIncrementId: string): (r: Creditmemo)
    ensures !Empty(cm.incrementId) ==> r == cm
    ensures Empty(cm.incrementId) ==> r == cm.(incrementId := nextIncrementId)
  {
    if Empty(cm.incrementId) then cm.(incrementId := nextIncrementId) else cm
  }

  /** The invoice path applies: the credit memo has an invoice whose Stripe
      Tax transaction exists and is not fully reversed. */
  predicate InvoicePathApplies(cm: Creditmemo, reg: Registry) {
    && cm.invoice.Some?
    && !Empty(cm.invoice.value.stripeTaxTransactionId)
    && !IsOrderTaxTransactionFullyReversed(reg, cm.invoice.value.stripeTaxTransactionId)
  }

  /** An invoice of the order is reverted offline: it has a transaction that
      is not fully reversed and the credit memo is not yet covered. */
  predicate OfflineApplies(cm: Creditmemo, reg: Registry, inv: Invoice) {
    && !Empty(inv.stripeTaxTransactionId)
    && !IsOrderTaxTransactionFullyReversed(reg, inv.stripeTaxTransactionId)
    && cm.grandTotal > cm.amountToRevert
  }

  /** One reversal made by the offline walk: the invoice's transaction, the
      status recorded for it, the id Stripe returned and the ledger kept. */
  datatype Reversal = Reversal(transactionId: string, status: string, reversalId: string, ledger: Option<Ledger>)

  /** The registry after recording `done` in order. */
  function Record(reg: Registry, done: seq<Reversal>): (r: Registry)
    ensures r.Keys == reg.Keys + (set k | 0 <= k < |done| :: done[k].transactionId)
    decreases |done|
  {
    if |done| == 0 then reg
    else
      var d := done[0];
      var r := Record(AddTransactionMode(reg, d.transactionId, d.status, d.reversalId, d.ledger), done[1..]);
      assert (set k | 0 <= k < |done| :: done[k].transactionId)
          == {d.transactionId} + (set k | 0 <= k < |done[1..]| :: done[1..][k].transactionId) by {
        forall k | 0 <= k < |done| && k > 0 ensures done[k].transactionId == done[1..][k - 1].transactionId { }
      }
      r
  }

  function ReversalIds(done: seq<Reversal>): (r: seq<string>)
    ensures |r| == |done|
    ensures forall k :: 0 <= k < |done| ==> r[k] == done[k].reversalId
  {
    if |done| == 0 then [] else [done[0].reversalId] + ReversalIds(done[1..])
  }

  /** The transactions of `done` belong to invoices of `invoices`, one
      invoice each, in the invoices' order. */
  predicate InInvoiceOrder(done: seq<Reversal>, invoices: seq<OfflineInputs>)
    decreases |invoices|
  {
    if |done| == 0 then true
    else if |invoices| == 0 then false
    else
      || (done[0].transactionId == invoices[0].invoice.stripeTaxTransactionId && InInvoiceOrder(done[1..], invoices[1..]))
      || InInvoiceOrder(done, invoices[1..])
  }

  /** The request the walk sends for the invoice at the head of `invoices`. */
  function HeadRequest(o: Outcome, invoices: seq<OfflineInputs>, ctx: Context): (r: (Request, Creditmemo))
    requires |invoices| > 0
  {
    FormData(o.creditmemo, Some(invoices[0]), o.parts, ctx.(registry := o.registry)).value
  }

  /** The offline walk over the order's invoices. Every invoice with a
      transaction that is not fully reversed is reversed while the credit
      memo is not yet covered; each reversal is recorded in the registry and
      listed in invoice order. A failed Stripe call stops the walk. */
  function OfflineInvoices(o: Outcome, invoices: seq<OfflineInputs>, ctx: Context, stripe: StripeApi): (r: Result<(Outcome, seq<Reversal>)>)
    ensures r.Failure? ==> r.error == OfflineFailed
    ensures r.Success? ==> r.value.0.registry == Record(o.registry, r.value.1)
    ensures r.Success? ==> r.value.0.creditmemo.incrementId == o.creditmemo.incrementId
    ensures |invoices| > 0 && OfflineApplies(o.creditmemo, o.registry, invoices[0].invoice) ==>
      var req := HeadRequest(o, invoices, ctx).0;
      && (stripe(ToArray(req)).None? ==> r == Failure(OfflineFailed))
      && (r.Success? ==>
            && |r.value.1| > 0
            && r.value.1[0] == Reversal(invoices[0].invoice.stripeTaxTransactionId, GetTransactionStatus(req),
                                        stripe(ToArray(req)).value, req.parts.ledger))
    ensures |invoices| > 0 && !OfflineApplies(o.creditmemo, o.registry, invoices[0].invoice) ==>
      r == OfflineInvoices(o, invoices[1..], ctx, stripe)
    ensures (forall i :: 0 <= i < |invoices| ==> Empty(invoices[i].invoice.stripeTaxTransactionId)) ==> r == Success((o, []))
    decreases |invoices|
  {
    if |invoices| == 0 then Success((o, []))
    else
      var inv := invoices[0].invoice;
      if OfflineApplies(o.creditmemo, o.registry, inv) then
        var (req, cm') := HeadRequest(o, invoices, ctx);
        match stripe(ToArray(req))
        case None => Failure(OfflineFailed)
        case Some(id) =>
          var done := Reversal(inv.stripeTaxTransactionId, GetTransactionStatus(req), id, req.parts.ledger);
          var reg' := AddTransactionMode(o.registry, done.transactionId, done.status, done.reversalId, done.ledger);
          var rest :- OfflineInvoices(Outcome(cm', reg', req.parts), invoices[1..], ctx, stripe);
          assert ([done] + rest.1)[1..] == rest.1;
          Success((rest.0, [done] + rest.1))
      else
        OfflineInvoices(o, invoices[1..], ctx, stripe)
  }

  /** The walk reverses the transactions of its invoices, each at most
      once, in the invoices' order. */
  lemma {:induction false} WalkFollowsInvoices(o: Outcome, invoices: seq<OfflineInputs>, ctx: Context, stripe: StripeApi)
    requires OfflineInvoices(o, invoices, ctx, stripe).Success?
    ensures InInvoiceOrder(OfflineInvoices(o, invoices, ctx, stripe).value.1, invoices)
    decreases |invoices|
  {
    if |invoices| > 0 {
      if OfflineApplies(o.creditmemo, o.registry, invoices[0].invoice) {
        var o' := WalkTail(o, invoices, ctx, stripe);
        WalkFollowsInvoices(o', invoices[1..], ctx, stripe);
      } else {
        WalkFollowsInvoices(o, invoices[1..], ctx, stripe);
      }
    }
  }

  /** The walk never reverses an empty transaction id. */
  lemma {:induction false} WalkReversesTransactions(o: Outcome, invoices: seq<OfflineInputs>, ctx: Context, stripe: StripeApi)
    requires OfflineInvoices(o, invoices, ctx, stripe).Success?
    ensures var done := OfflineInvoices(o, invoices, ctx, stripe).value.1;
      forall k :: 0 <= k < |done| ==> !Empty(done[k].transactionId)
    decreases |invoices|
  {
    if |invoices| > 0 {
      if OfflineApplies(o.creditmemo, o.registry, invoices[0].invoice) {
        var o' := WalkTail(o, invoices, ctx, stripe);
        WalkReversesTransactions(o', invoices[1..], ctx, stripe);
        var done := OfflineInvoices(o, invoices, ctx, stripe).value.1;
        forall k | 0 <= k < |done| ensures !Empty(done[k].transactionId) {
          if k > 0 {
            assert done[k] == done[1..][k - 1];
          }
        }
      } else {
        WalkReversesTransactions(o, invoices[1..], ctx, stripe);
      }
    }
  }

  /** After reversing the head invoice, the walk goes on from the outcome
      `o'` with the rest of the invoices. */
  lemma WalkTail(o: Outcome, invoices: seq<OfflineInputs>, ctx: Context, stripe: StripeApi) returns (o': Outcome)
    requires |invoices| > 0 && OfflineApplies(o.creditmemo, o.registry, invoices[0].invoice)
    requires OfflineInvoices(o, invoices, ctx, stripe).Success?
    ensures OfflineInvoices(o', invoices[1..], ctx, stripe).Success?
    ensures var done := OfflineInvoices(o, invoices, ctx, stripe).value.1;
      && |done| > 0
      && done[0].transactionId == invoices[0].invoice.stripeTaxTransactionId
      && done[1..] == OfflineInvoices(o', invoices[1..], ctx, stripe).value.1
  {
    var inv := invoices[0].invoice;
    var (req, cm') := HeadRequest(o, invoices, ctx);
    var id := stripe(ToArray(req)).value;
    var reg' := AddTransactionMode(o.registry, inv.stripeTaxTransactionId, GetTransactionStatus(req), id, req.parts.ledger);
    o' := Outcome(cm', reg', req.parts);
    var done := OfflineInvoices(o, invoices, ctx, stripe).value.1;
    assert done[1..] == OfflineInvoices(o', invoices[1..], ctx, stripe).value.1;
  }

  /** Once the credit memo is covered, the rest of the walk reverses
      nothing and changes nothing. */
  lemma {:induction false} CoveredWalkStops(o: Outcome, invoices: seq<OfflineInputs>, ctx: Context, stripe: StripeApi)
    requires o.creditmemo.grandTotal <= o.creditmemo.amountToRevert
    ensures OfflineInvoices(o, invoices, ctx, stripe) == Success((o, []))
    decreases |invoices|
  {
    if |invoices| > 0 {
      CoveredWalkStops(o, invoices[1..], ctx, stripe);
    }
  }

  /** After a walk, each reversed transaction reads back the id of its last
      reversal in the walk. */
  lemma {:induction false} RecordReadsBackLast(reg: Registry, done: seq<Reversal>)
    requires |done| > 0
    ensures GetReversalForInvoiceTransaction(Record(reg, done), done[|done| - 1].transactionId)
         == Some(done[|done| - 1].reversalId)
    decreases |done|
  {
    var d := done[0];
    var reg' := AddTransactionMode(reg, d.transactionId, d.status, d.reversalId, d.ledger);
    if |done| == 1 {
      assert done[1..] == [];
    } else {
      assert done[1..][|done[1..]| - 1] == done[|done| - 1];
      RecordReadsBackLast(reg', done[1..]);
    }
  }

  /** The observer. `serialize` is the serializer used for the list of
      reversal ids stored on the credit memo. */
  function Execute(enabled: bool, cm: Creditmemo, invoices: seq<OfflineInputs>, ctx: Context, prior: Parts,
                   stripe: StripeApi, nextIncrementId: string, serialize: seq<string> -> string): (r: Result<Outcome>)
    ensures !enabled ==> r == Success(Outcome(cm, ctx.registry, prior))
    ensures enabled && r.Success? ==> r.value.creditmemo.incrementId == EnsureIncrementId(cm, nextIncrementId).incrementId
    ensures enabled && !InvoicePathApplies(cm, ctx.registry)
            && (forall i :: 0 <= i < |invoices| ==> Empty(invoices[i].invoice.stripeTaxTransactionId)) ==>
      r == Success(Outcome(EnsureIncrementId(cm, nextIncrementId).(amountToRevert := 0), ctx.registry, prior))
    ensures enabled && InvoicePathApplies(cm, ctx.registry) ==>
      var inv := cm.invoice.value;
      var req := FormData(EnsureIncrementId(cm, nextIncrementId), None, prior, ctx).value.0;
      && (r.Failure? <==> stripe(ToArray(req)).None?)
      && (r.Success? ==>
           && r.value.registry == AddTransactionMode(ctx.registry, inv.stripeTaxTransactionId,
                                    GetTransactionStatus(req), stripe(ToArray(req)).value, None)
           && r.value.creditmemo.stripeTaxTransactionId == stripe(ToArray(req)).value)
    ensures enabled && !InvoicePathApplies(cm, ctx.registry) ==>
      var walked := OfflineInvoices(Outcome(EnsureIncrementId(cm, nextIncrementId).(amountToRevert := 0), ctx.registry, prior),
                                    invoices, ctx, stripe);
      && (r.Failure? <==> walked.Failure?)
      && (r.Success? ==>
           && r.value.registry == Record(ctx.registry, walked.value.1)
           && (|walked.value.1| > 0 ==>
                 r.value.creditmemo.stripeTaxTransactionId == serialize(ReversalIds(walked.value.1))))
  {
    if !enabled then Success(Outcome(cm, ctx.registry, prior))
    else
      var cm1 := EnsureIncrementId(cm, nextIncrementId);
      if InvoicePathApplies(cm, ctx.registry) then
        var formed := FormData(cm1, None, prior, ctx);
        var (req, cm2) := formed.value;
        match stripe(ToArray(req))
        case None => Failure(OnlineFailed)
        case Some(id) =>
          var reg' := AddTransactionMode(ctx.registry, cm.invoice.value.stripeTaxTransactionId,
                                         GetTransactionStatus(req), id, None);
          Success(Outcome(cm2.(stripeTaxTransactionId := id), reg', req.parts))
      else
        var start := Outcome(cm1.(amountToRevert := 0), ctx.registry, prior);
        var walked :- OfflineInvoices(start, invoices, ctx, stripe);
        var (o, done) := walked;
        if |done| > 0 then Success(o.(creditmemo := o.creditmemo.(stripeTaxTransactionId := serialize(ReversalIds(done)))))
        else Success(o)
  }
}
