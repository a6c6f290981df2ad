/** The line-items part of a tax-transaction reversal request. Online (the
    credit memo was started from an invoice) every credit-memo item is
    reverted in full. Offline (one reversal per invoice of the order) each
    item is reverted only up to what its transaction reference still has in
    the reversal ledger, and the ledger is consumed as lines are formed. */
module ReversalLineItems {
  import opened Wrappers
  import opened Php
  import opened ReversalLineItem
  import opened ReversalDocuments

  /** The state the offline pass threads through its loop: the ledger, the
      lines formed so far, the transaction's processed-line counter and the
      credit memo's amount to revert. */
  datatype Pass = Pass(ledger: Ledger, data: seq<Line>, processed: nat, amountToRevert: int)

  /** Which order-level gift options the request includes (both default off). */
  datatype Options = Options(includeOrderGw: bool, includeOrderPrintedCard: bool)

  /** The entry of `reference`, or the empty entry PHP creates on first write. */
  function EntryOrEmpty(ledger: Ledger, reference: string): LedgerEntry {
    if reference in ledger then ledger[reference] else LedgerEntry(None, 0, 0)
  }

  /** Adds a line's (negative) amount and tax to its reference's remainders. */
  function UpdateRemainingAmounts(ledger: Ledger, reference: string, amount: int, amountTax: int): (r: Ledger)
    ensures r.Keys == ledger.Keys + {reference}
    ensures r[reference].remainingAmount == EntryOrEmpty(ledger, reference).remainingAmount + amount
    ensures r[reference].remainingAmountTax == EntryOrEmpty(ledger, reference).remainingAmountTax + amountTax
    ensures r[reference].id == EntryOrEmpty(ledger, reference).id
    ensures forall k :: k in ledger && k != reference ==> r[k] == ledger[k]
  {
    var e := EntryOrEmpty(ledger, reference);
    ledger[reference := LedgerEntry(e.id, e.remainingAmount + amount, e.remainingAmountTax + amountTax)]
  }

  /** A reference still has amount or tax to revert. */
  predicate ItemHasRemainingAmount(ledger: Ledger, reference: string)
    requires reference in ledger
  {
    ledger[reference].remainingAmount > 0 || ledger[reference].remainingAmountTax > 0
  }

  /** The ledger test as the source writes it: some entry has BOTH amount and
      tax remaining. */
  predicate HasRemainingAmountAsWritten(ledger: Ledger) {
    exists k :: k in ledger && ledger[k].remainingAmount > 0 && ledger[k].remainingAmountTax > 0
  }

  /** The ledger test with the meaning the rest of the pass gives to
      "remaining": some entry has amount OR tax remaining. */
  predicate HasRemainingAmount(ledger: Ledger) {
    exists k :: k in ledger && ItemHasRemainingAmount(ledger, k)
  }

  /** The items the offline pass does not revert: dummies, non-positive
      quantities, references the ledger does not know, references with
      nothing left, and items already reverted in full. */
  predicate Skipped(item: CreditmemoItem, ledger: Ledger) {
    || item.isDummy
    || item.qty <= 0
    || item.reference !in ledger
    || (ledger[item.reference].remainingAmount <= 0 && ledger[item.reference].remainingAmountTax <= 0)
    || (item.amount <= item.amountReverted && item.taxAmount <= item.amountTaxReverted)
  }

  /** A gift-option or fee line in the offline pass: counted towards the
      amount to revert, consumed from the ledger, appended, and, when allowed,
      counted as a processed transaction line once its reference is used up. */
  function ProcessAdditionalLine(p: Pass, line: Line, canAddProcessed: bool, rev: Reverter): (r: Pass)
    ensures r.data == p.data + [line]
    ensures r.ledger == UpdateRemainingAmounts(p.ledger, line.reference, line.amount, line.amountTax)
    ensures r.amountToRevert == rev(p.amountToRevert, line.amount, line.amountTax)
    ensures r.processed == p.processed + 1
        <==> canAddProcessed && !ItemHasRemainingAmount(r.ledger, line.reference)
    ensures r.processed == p.processed || r.processed == p.processed + 1
  {
    var ledger := UpdateRemainingAmounts(p.ledger, line.reference, line.amount, line.amountTax);
    var processed := if canAddProcessed && !ItemHasRemainingAmount(ledger, line.reference)
                     then p.processed + 1 else p.processed;
    Pass(ledger, p.data + [line], processed, rev(p.amountToRevert, line.amount, line.amountTax))
  }

  /** The offline fees of a credit-memo item, in order. */
  function OfflineItemFees(p: Pass, item: CreditmemoItem, fees: seq<AdditionalFee>, rev: Reverter): (r: Pass)
    ensures |r.data| == |p.data| + |fees| && r.data[..|p.data|] == p.data
    ensures forall i :: 0 <= i < |fees| ==> r.data[|p.data| + i] == FormItemAdditionalFeeData(item, fees[i])
    ensures p.ledger.Keys <= r.ledger.Keys && r.processed >= p.processed
    decreases |fees|
  {
    if |fees| == 0 then p
    else OfflineItemFees(ProcessAdditionalLine(p, FormItemAdditionalFeeData(item, fees[0]), true, rev), item, fees[1..], rev)
  }

  /** The offline fees of the credit memo itself, in order. */
  function OfflineCreditmemoFees(p: Pass, fees: seq<AdditionalFee>, rev: Reverter): (r: Pass)
    ensures |r.data| == |p.data| + |fees| && r.data[..|p.data|] == p.data
    ensures forall i :: 0 <= i < |fees| ==> r.data[|p.data| + i] == FormCreditmemoAdditionalFeeData(fees[i])
    ensures p.ledger.Keys <= r.ledger.Keys && r.processed >= p.processed
    decreases |fees|
  {
    if |fees| == 0 then p
    else OfflineCreditmemoFees(ProcessAdditionalLine(p, FormCreditmemoAdditionalFeeData(fees[0]), true, rev), fees[1..], rev)
  }

  /** Gift wrapping of an item (if any), then the item's fees. */
  function OfflineItemExtras(p: Pass, item: CreditmemoItem, canAddProcessed: bool, rev: Reverter): (r: Pass)
    ensures |r.data| >= |p.data| && r.data[..|p.data|] == p.data
    ensures p.ledger.Keys <= r.ledger.Keys && r.processed >= p.processed
  {
    var q := match item.giftWrap
      case Some(gw) => ProcessAdditionalLine(p, FormItemGwData(item, gw), canAddProcessed, rev)
      case None => p;
    assert q.data[..|p.data|] == p.data;
    OfflineItemFees(q, item, item.fees, rev)
  }

  /** Only the reverted counters of an item change during the pass, and
      they only grow. */
  predicate Advanced(a: CreditmemoItem, b: CreditmemoItem) {
    && b == a.(amountReverted := b.amountReverted, amountTaxReverted := b.amountTaxReverted)
    && b.amountReverted >= a.amountReverted
    && b.amountTaxReverted >= a.amountTaxReverted
  }

  /** The pass state only grows: lines are appended, ledger references are
      never dropped and the processed counter never goes back. */
  predicate Extends(p: Pass, q: Pass) {
    && |q.data| >= |p.data| && q.data[..|p.data|] == p.data
    && p.ledger.Keys <= q.ledger.Keys
    && q.processed >= p.processed
  }

  /** One credit-memo item of the offline pass. A skipped item contributes
      only the gift wrapping and fees of a dynamic bundle parent, not counted
      as processed; any other item is reverted against its ledger entry and
      counted, followed by its gift wrapping and fees. */
  function OfflineItem(p: Pass, item: CreditmemoItem, rev: Reverter): (r: (Pass, CreditmemoItem))
    ensures Advanced(item, r.1) && Extends(p, r.0)
    ensures Skipped(item, p.ledger) ==> r.1 == item
    ensures Skipped(item, p.ledger) && !item.childrenCalculated ==> r.0 == p
    ensures !Skipped(item, p.ledger) ==>
      |r.0.data| > |p.data| && r.0.data[|p.data|] == ReversalLineItem.FormOfflineData(item, p.ledger[item.reference]).0
  {
    if Skipped(item, p.ledger) then
      var q := if item.childrenCalculated then OfflineItemExtras(p, item, false, rev) else p;
      (q, item)
    else
      var (line, item') := ReversalLineItem.FormOfflineData(item, p.ledger[item.reference]);
      var p1 := Pass(UpdateRemainingAmounts(p.ledger, item.reference, line.amount, line.amountTax),
                     p.data + [line], p.processed + 1, rev(p.amountToRevert, line.amount, line.amountTax));
      var q := OfflineItemExtras(p1, item', true, rev);
      assert q.data[..|p1.data|] == p1.data;
      assert q.data[..|p.data|] == p1.data[..|p.data|];
      (q, item')
  }

  /** The loop stops right after a reverted item once the transaction is
      processed or the credit memo's total is reached. */
  predicate StopsAfter(grandTotal: int, tx: Transaction, p: Pass, item: CreditmemoItem, q: Pass) {
    !Skipped(item, p.ledger) && (tx.isProcessed(q.processed) || grandTotal == q.amountToRevert)
  }

  /** The loop over the credit-memo items, with its early exit. Returns the
      pass state and the items with their reverted counters. */
  function OfflineItems(grandTotal: int, tx: Transaction, items: seq<CreditmemoItem>, p: Pass, rev: Reverter): (r: (Pass, seq<CreditmemoItem>))
    ensures |r.1| == |items|
    ensures forall i :: 0 <= i < |items| ==> Advanced(items[i], r.1[i])
    ensures Extends(p, r.0)
    ensures |items| == 0 ==> r == (p, [])
    decreases |items|
  {
    if |items| == 0 then (p, [])
    else
      var (q, item') := OfflineItem(p, items[0], rev);
      if StopsAfter(grandTotal, tx, p, items[0], q) then
        AdvancedCons(items, item', items[1..]);
        (q, [item'] + items[1..])
      else
        var rest := OfflineItems(grandTotal, tx, items[1..], q, rev);
        ExtendsTrans(p, q, rest.0);
        AdvancedCons(items, item', rest.1);
        (rest.0, [item'] + rest.1)
  }

  lemma ExtendsTrans(p: Pass, q: Pass, r: Pass)
    requires Extends(p, q) && Extends(q, r)
    ensures Extends(p, r)
  {
    assert r.data[..|p.data|] == q.data[..|q.data|][..|p.data|];
  }

  /** An advanced head followed by an advanced tail advances the items. */
  lemma AdvancedCons(items: seq<CreditmemoItem>, head: CreditmemoItem, tail: seq<CreditmemoItem>)
    requires |items| > 0 && Advanced(items[0], head) && |tail| == |items| - 1
    requires forall i :: 0 <= i < |tail| ==> Advanced(items[i + 1], tail[i])
    ensures forall i :: 0 <= i < |items| ==> Advanced(items[i], ([head] + tail)[i])
  {
    forall i | 0 <= i < |items| ensures Advanced(items[i], ([head] + tail)[i]) {
      if i > 0 {
        assert ([head] + tail)[i] == tail[i - 1];
      }
    }
  }

  /** The pass reverts the first item, then stops when every transaction
      item is processed or the grand total is reached, leaving the other
      items as they were; otherwise it goes on with the next item from the
      updated state. */
  lemma OfflineItemsStep(grandTotal: int, tx: Transaction, items: seq<CreditmemoItem>, p: Pass, rev: Reverter)
    requires |items| > 0
    ensures var r := OfflineItems(grandTotal, tx, items, p, rev);
      var (q, item') := OfflineItem(p, items[0], rev);
      && r.1[0] == item'
      && Extends(q, r.0)
      && (StopsAfter(grandTotal, tx, p, items[0], q) ==> r.0 == q && r.1[1..] == items[1..])
      && (!StopsAfter(grandTotal, tx, p, items[0], q) ==>
            var rest := OfflineItems(grandTotal, tx, items[1..], q, rev);
            r.0 == rest.0 && r.1[1..] == rest.1)
  {
    var (q, item') := OfflineItem(p, items[0], rev);
    if StopsAfter(grandTotal, tx, p, items[0], q) {
      assert ([item'] + items[1..])[1..] == items[1..];
    } else {
      var rest := OfflineItems(grandTotal, tx, items[1..], q, rev);
      assert ([item'] + rest.1)[1..] == rest.1;
    }
  }

  /** What the offline pass leaves behind. */
  datatype OfflineResult = OfflineResult(
    ledger: Ledger,
    data: seq<Line>,
    processed: nat,
    creditmemo: Creditmemo,
    fullyReversed: bool)

  /** The ledger the pass starts from: the one recorded for the transaction
      by an earlier reversal, unless there is none or it is empty, in which
      case the transaction's own line items. */
  function InitLineItemsData(recorded: Option<Ledger>, tx: Transaction): (r: Ledger)
    ensures (recorded.Some? && |recorded.value| > 0) ==> r == recorded.value
    ensures (recorded.None? || |recorded.value| == 0) ==> r == tx.freshLedger
  {
    match recorded
    case Some(l) => if |l| > 0 then l else tx.freshLedger
    case None => tx.freshLedger
  }

  /** The offline pass proper: items, then order gift wrapping and printed
      card when the invoice has them, then the credit memo's own fees; the
      verdict is whether nothing remains in the ledger. `hasRemaining` is the
      ledger test the verdict uses. */
  function FormOfflineDataWith(cm: Creditmemo, inv: Invoice, tx: Transaction, recorded: Option<Ledger>,
                               opts: Options, rev: Reverter, hasRemaining: Ledger -> bool): (r: OfflineResult)
    ensures !(tx.hasLineItems && cm.grandTotal > cm.amountToRevert) ==>
      && r.data == []
      && r.ledger == InitLineItemsData(recorded, tx)
      && r.creditmemo == cm
    ensures r.fullyReversed == !hasRemaining(r.ledger)
    ensures InitLineItemsData(recorded, tx).Keys <= r.ledger.Keys
    ensures |r.creditmemo.items| == |cm.items|
    ensures r.creditmemo == cm.(items := r.creditmemo.items, amountToRevert := r.creditmemo.amountToRevert)
  {
    var ledger := InitLineItemsData(recorded, tx);
    if tx.hasLineItems && cm.grandTotal > cm.amountToRevert then
      var (p, items) := OfflineItems(cm.grandTotal, tx, cm.items, Pass(ledger, [], 0, cm.amountToRevert), rev);
      var p1 := if opts.includeOrderGw && inv.hasGw
                then ProcessAdditionalLine(p, FormOrderGiftOptionData(cm.orderGiftWrap), true, rev) else p;
      var p2 := if opts.includeOrderPrintedCard && inv.hasPrintedCard
                then ProcessAdditionalLine(p1, FormOrderGiftOptionData(cm.printedCard), true, rev) else p1;
      var p3 := OfflineCreditmemoFees(p2, cm.fees, rev);
      OfflineResult(p3.ledger, p3.data, p3.processed, cm.(items := items, amountToRevert := p3.amountToRevert),
                    !hasRemaining(p3.ledger))
    else
      OfflineResult(ledger, [], 0, cm, !hasRemaining(ledger))
  }

  /** The offline pass with the ledger test as written in the source. */
  function FormOfflineDataAsWritten(cm: Creditmemo, inv: Invoice, tx: Transaction, recorded: Option<Ledger>,
                                    opts: Options, rev: Reverter): (r: OfflineResult)
    ensures r.fullyReversed <==> !HasRemainingAmountAsWritten(r.ledger)
    ensures r.creditmemo == cm.(items := r.creditmemo.items, amountToRevert := r.creditmemo.amountToRevert)
    ensures !(tx.hasLineItems && cm.grandTotal > cm.amountToRevert) ==>
      r.data == [] && r.creditmemo == cm && r.ledger == InitLineItemsData(recorded, tx)
  {
    FormOfflineDataWith(cm, inv, tx, recorded, opts, rev, l => HasRemainingAmountAsWritten(l))
  }

  /** The offline pass with the corrected ledger test: fully reversed iff no
      reference has amount or tax left. */
  function FormOfflineData(cm: Creditmemo, inv: Invoice, tx: Transaction, recorded: Option<Ledger>,
                           opts: Options, rev: Reverter): (r: OfflineResult)
    ensures r.fullyReversed <==> forall k :: k in r.ledger ==> !ItemHasRemainingAmount(r.ledger, k)
    ensures r.creditmemo == cm.(items := r.creditmemo.items, amountToRevert := r.creditmemo.amountToRevert)
    ensures !(tx.hasLineItems && cm.grandTotal > cm.amountToRevert) ==>
      r.data == [] && r.creditmemo == cm && r.ledger == InitLineItemsData(recorded, tx)
  {
    FormOfflineDataWith(cm, inv, tx, recorded, opts, rev, l => HasRemainingAmount(l))
  }

  /** Which ledger test decides that the line items are fully reversed: the
      source's (`AsWritten`, both amount and tax must remain) or the
      corrected one (`Corrected`, amount or tax). */
  datatype LedgerTest = AsWritten | Corrected

  predicate HasRemainingBy(test: LedgerTest, ledger: Ledger) {
    match test
    case AsWritten => HasRemainingAmountAsWritten(ledger)
    case Corrected => HasRemainingAmount(ledger)
  }

  /** The offline pass under the chosen ledger test. */
  function FormOfflineDataBy(test: LedgerTest, cm: Creditmemo, inv: Invoice, tx: Transaction, recorded: Option<Ledger>,
                             opts: Options, rev: Reverter): (r: OfflineResult)
    ensures r.fullyReversed <==> !HasRemainingBy(test, r.ledger)
    ensures r.creditmemo == cm.(items := r.creditmemo.items, amountToRevert := r.creditmemo.amountToRevert)
    ensures !(tx.hasLineItems && cm.grandTotal > cm.amountToRevert) ==>
      r.data == [] && r.creditmemo == cm && r.ledger == InitLineItemsData(recorded, tx)
  {
    match test
    case AsWritten => FormOfflineDataAsWritten(cm, inv, tx, recorded, opts, rev)
    case Corrected => FormOfflineData(cm, inv, tx, recorded, opts, rev)
  }

  /** The line items Stripe returned for the transaction: none when the call
      threw, otherwise whether the list was non-empty and the HTTP code. */
  datatype Fetched = Fetched(nonEmpty: bool, code: int)

  function OnlineItemExtras(item: CreditmemoItem): (r: seq<Line>)
    ensures |r| == (if item.giftWrap.Some? then 1 else 0) + |item.fees|
  {
    var gw := match item.giftWrap
      case Some(g) => [FormItemGwData(item, g)]
      case None => [];
    gw + OnlineFees(item, item.fees)
  }

  function OnlineFees(item: CreditmemoItem, fees: seq<AdditionalFee>): (r: seq<Line>)
    ensures |r| == |fees|
    ensures forall i :: 0 <= i < |fees| ==> r[i] == FormItemAdditionalFeeData(item, fees[i])
  {
    if |fees| == 0 then [] else [FormItemAdditionalFeeData(item, fees[0])] + OnlineFees(item, fees[1..])
  }

  function OnlineCreditmemoFees(fees: seq<AdditionalFee>): (r: seq<Line>)
    ensures |r| == |fees|
    ensures forall i :: 0 <= i < |fees| ==> r[i] == FormCreditmemoAdditionalFeeData(fees[i])
  {
    if |fees| == 0 then [] else [FormCreditmemoAdditionalFeeData(fees[0])] + OnlineCreditmemoFees(fees[1..])
  }

  /** One credit-memo item online: skipped items contribute only the gift
      wrapping and fees of a dynamic bundle parent. */
  function OnlineItem(item: CreditmemoItem): (r: seq<Line>)
    ensures !(item.isDummy || item.qty <= 0) ==> |r| >= 1 && r[0] == FormData(item)
    ensures (item.isDummy || item.qty <= 0) && !item.childrenCalculated ==> r == []
  {
    if item.isDummy || item.qty <= 0 then
      if item.childrenCalculated then OnlineItemExtras(item) else []
    else [FormData(item)] + OnlineItemExtras(item)
  }

  function OnlineItems(items: seq<CreditmemoItem>): (r: seq<Line>)
    ensures (forall i :: 0 <= i < |items| ==> items[i].isDummy && !items[i].childrenCalculated) ==> r == []
    ensures |r| >= |items| - CountSkipped(items)
  {
    if |items| == 0 then [] else OnlineItem(items[0]) + OnlineItems(items[1..])
  }

  /** The items the online pass does not revert themselves. */
  function CountSkipped(items: seq<CreditmemoItem>): (n: nat)
    ensures n <= |items|
  {
    if |items| == 0 then 0
    else (if items[0].isDummy || items[0].qty <= 0 then 1 else 0) + CountSkipped(items[1..])
  }

  /** The online lines of a credit memo are its items' lines, concatenated
      in item order. */
  lemma {:induction false} OnlineItemsAppend(a: seq<CreditmemoItem>, b: seq<CreditmemoItem>)
    ensures OnlineItems(a + b) == OnlineItems(a) + OnlineItems(b)
    decreases |a|
  {
    if |a| == 0 {
      assert a + b == b;
    } else {
      assert (a + b)[1..] == a[1..] + b;
      OnlineItemsAppend(a[1..], b);
    }
  }

  lemma OnlineItemsSingle(item: CreditmemoItem)
    ensures OnlineItems([item]) == OnlineItem(item)
  {
    assert [item][1..] == [];
  }

  /** The online pass: empty unless Stripe returned a non-empty list with
      HTTP 200; otherwise every item, then the order gift options the request
      includes, then the credit memo's fees. */
  function FormOnlineData(cm: Creditmemo, fetched: Option<Fetched>, opts: Options): (r: seq<Line>)
    ensures !(fetched.Some? && fetched.value.nonEmpty && fetched.value.code == 200) ==> r == []
    ensures (fetched.Some? && fetched.value.nonEmpty && fetched.value.code == 200) ==>
      |r| >= |cm.fees| && r[|r| - |cm.fees|..] == OnlineCreditmemoFees(cm.fees)
  {
    if fetched.Some? && fetched.value.nonEmpty && fetched.value.code == 200 then
      OnlineItems(cm.items)
      + (if opts.includeOrderGw then [FormOrderGiftOptionData(cm.orderGiftWrap)] else [])
      + (if opts.includeOrderPrintedCard then [FormOrderGiftOptionData(cm.printedCard)] else [])
      + OnlineCreditmemoFees(cm.fees)
    else []
  }

  /** The line items go into the request iff at least one line was formed. */
  predicate CanIncludeInRequest(data: seq<Line>) {
    |data| > 0
  }

  /** Reverting an item offline conserves it: when the ledger had something
      left (or nothing) and the item was not over-reverted, what remains in
      the ledger plus what the item has reverted is unchanged. */
  lemma OfflineStepConserves(item: CreditmemoItem, ledger: Ledger)
    requires item.reference in ledger
    requires ledger[item.reference].remainingAmount >= 0 && item.amountReverted <= item.amount
    requires ledger[item.reference].remainingAmountTax >= 0 && item.amountTaxReverted <= item.taxAmount
    ensures var (line, item') := ReversalLineItem.FormOfflineData(item, ledger[item.reference]);
      var ledger' := UpdateRemainingAmounts(ledger, item.reference, line.amount, line.amountTax);
      && ledger'[item.reference].remainingAmount + item'.amountReverted
         == ledger[item.reference].remainingAmount + item.amountReverted
      && ledger'[item.reference].remainingAmountTax + item'.amountTaxReverted
         == ledger[item.reference].remainingAmountTax + item.amountTaxReverted
      && ledger'[item.reference].remainingAmount >= 0
      && ledger'[item.reference].remainingAmountTax >= 0
  {
    OfflineRevertsWithinRemainder(item, ledger[item.reference]);
  }

  /** The verdicts of the two ledger tests differ exactly on a ledger where
      some reference has amount but no tax left (or tax but no amount) and
      none has both. */
  lemma {:induction false} AsWrittenOnlyMissesOneSided(ledger: Ledger)
    ensures HasRemainingAmountAsWritten(ledger) ==> HasRemainingAmount(ledger)
    ensures HasRemainingAmount(ledger) && !HasRemainingAmountAsWritten(ledger) ==>
      exists k :: k in ledger && (ledger[k].remainingAmount <= 0 || ledger[k].remainingAmountTax <= 0)
                  && ItemHasRemainingAmount(ledger, k)
  {
    if HasRemainingAmountAsWritten(ledger) {
      var k :| k in ledger && ledger[k].remainingAmount > 0 && ledger[k].remainingAmountTax > 0;
      assert ItemHasRemainingAmount(ledger, k);
    }
    if HasRemainingAmount(ledger) && !HasRemainingAmountAsWritten(ledger) {
      var k :| k in ledger && ItemHasRemainingAmount(ledger, k);
      assert ledger[k].remainingAmount <= 0 || ledger[k].remainingAmountTax <= 0;
    }
  }

  /** A zero-rated product (no tax) of which nothing was refunded still has
      its whole amount in the ledger, yet the source's test reports the line
      items as fully reversed; the corrected test does not. */
  lemma ZeroRatedItemCounterexample()
    ensures var ledger := map["sku-1" := LedgerEntry(Some("li_1"), 5000, 0)];
      && !HasRemainingAmountAsWritten(ledger)
      && HasRemainingAmount(ledger)
      && ItemHasRemainingAmount(ledger, "sku-1")
  {
    var ledger := map["sku-1" := LedgerEntry(Some("li_1"), 5000, 0)];
    assert ItemHasRemainingAmount(ledger, "sku-1");
  }
}
