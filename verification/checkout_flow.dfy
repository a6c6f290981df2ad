/** The per-request checkout flow: the flags other parts of the integration
    consult while an order is being placed. */
module CheckoutFlow {
  import opened Wrappers
  import opened Php

  /** The flow's state. `disableZeroInitialPrices` is private in the class:
      only `Disable` and `Enable` change it. The remaining public flags of
      the class are not read by the modelled code. */
  datatype Flow = Flow(
    shouldIncrementCouponUsage: bool,
    isNewOrderBeingPlaced: bool,
    isRecurringSubscriptionOrderBeingPlaced: bool,
    isFutureSubscriptionSetup: bool,
    disableZeroInitialPrices: bool)

  const StripePayments: string := "stripe_payments"

  /** The flow as built for a request. `incrementAfterOrderPlaced` is the
      store's `increment_coupon_usage_after_order_placed` setting (None when
      unset); a truthy setting defers the coupon usage update until the
      order has been placed. */
  function Create(incrementAfterOrderPlaced: Option<string>): (f: Flow)
    ensures f.shouldIncrementCouponUsage <==> incrementAfterOrderPlaced.None? || Empty(incrementAfterOrderPlaced.value)
    ensures !f.isNewOrderBeingPlaced && !f.isRecurringSubscriptionOrderBeingPlaced
    ensures !f.isFutureSubscriptionSetup && !f.disableZeroInitialPrices
  {
    var deferred := incrementAfterOrderPlaced.Some? && !Empty(incrementAfterOrderPlaced.value);
    Flow(!deferred, false, false, false, false)
  }

  /** Trial subscription items are left unbilled only while a new, non
      recurring order is placed and zero initial prices are not switched off. */
  predicate ShouldNotBillTrialSubscriptionItems(f: Flow) {
    f.isNewOrderBeingPlaced && !f.isRecurringSubscriptionOrderBeingPlaced && !f.disableZeroInitialPrices
  }

  function Disable(f: Flow): (g: Flow)
    ensures g.disableZeroInitialPrices
    ensures g.(disableZeroInitialPrices := f.disableZeroInitialPrices) == f
    ensures !ShouldNotBillTrialSubscriptionItems(g)
  {
    f.(disableZeroInitialPrices := true)
  }

  function Enable(f: Flow): (g: Flow)
    ensures !g.disableZeroInitialPrices
    ensures g.(disableZeroInitialPrices := f.disableZeroInitialPrices) == f
    ensures ShouldNotBillTrialSubscriptionItems(g) <==> f.isNewOrderBeingPlaced && !f.isRecurringSubscriptionOrderBeingPlaced
  {
    f.(disableZeroInitialPrices := false)
  }

  /** Switching zero initial prices off and on again gives back the flow
      exactly when they were on to begin with: `Enable` does not restore a
      prior `Disable`. */
  lemma EnableAfterDisable(f: Flow)
    ensures Enable(Disable(f)) == f <==> !f.disableZeroInitialPrices
    ensures ShouldNotBillTrialSubscriptionItems(Enable(Disable(f))) <==>
      f.isNewOrderBeingPlaced && !f.isRecurringSubscriptionOrderBeingPlaced
  {
  }

  /** Whether Magento's coupon usage update may run for a quote paid with
      `paymentMethod`: always for other methods, and for Stripe card
      payments only when the flow's flag allows it. */
  function ShouldIncrementCouponUsage(f: Flow, paymentMethod: string): (r: bool)
    ensures paymentMethod != StripePayments ==> r
    ensures !r <==> paymentMethod == StripePayments && !f.shouldIncrementCouponUsage
  {
    if paymentMethod != StripePayments then true
    else f.shouldIncrementCouponUsage
  }

  /** With the deferral setting on, a Stripe card payment's coupon usage is
      held back by a fresh flow, and nothing else is. */
  lemma DeferredSettingHoldsBackStripeOnly(setting: string, paymentMethod: string)
    requires !Empty(setting)
    ensures !ShouldIncrementCouponUsage(Create(Some(setting)), paymentMethod) <==> paymentMethod == StripePayments
  {
  }
}

/** Coupon usage accounting around order placement: the plugin on Magento's
    `UpdateCouponUsages::execute` and the order-service plugin that runs the
    deferred update once the order is saved. */
module CouponUsage {
  import opened Wrappers
  import opened Php
  import opened CheckoutFlow

  /** The fields of a quote these plugins read. A missing coupon code is "". */
  datatype CouponQuote = CouponQuote(quoteId: nat, paymentMethod: string, couponCode: string)

  /** One run of Magento's own usage update, with its arguments. */
  datatype UsageUpdate = UsageUpdate(quote: CouponQuote, increment: bool)

  /** The flow together with the usage updates performed so far. */
  datatype State = State(flow: Flow, updates: seq<UsageUpdate>)

  /** The around-plugin on the usage update: it forwards the call, with its
      arguments unchanged, exactly when the flow allows it. */
  function AroundExecute(s: State, quote: CouponQuote, increment: bool): (r: State)
    ensures r.flow == s.flow
    ensures r.updates == s.updates + [UsageUpdate(quote, increment)] || r.updates == s.updates
    ensures |r.updates| == |s.updates| + 1 <==> ShouldIncrementCouponUsage(s.flow, quote.paymentMethod)
    ensures quote.paymentMethod != StripePayments ==> r.updates == s.updates + [UsageUpdate(quote, increment)]
  {
    if !ShouldIncrementCouponUsage(s.flow, quote.paymentMethod) then s
    else s.(updates := s.updates + [UsageUpdate(quote, increment)])
  }

  /** The deferred usage update after an order is saved. It does nothing for
      a quote without a coupon or when usage was already counted; otherwise
      it marks usage as counted and runs the update (through the plugin
      above) with `increment` set. */
  function IncrementCouponUsages(s: State, quote: CouponQuote): (r: State)
    ensures Empty(quote.couponCode) || s.flow.shouldIncrementCouponUsage ==> r == s
    ensures !Empty(quote.couponCode) && !s.flow.shouldIncrementCouponUsage ==>
      r.flow == s.flow.(shouldIncrementCouponUsage := true) && r.updates == s.updates + [UsageUpdate(quote, true)]
    ensures r.flow.shouldIncrementCouponUsage <==> s.flow.shouldIncrementCouponUsage || !Empty(quote.couponCode)
  {
    if Empty(quote.couponCode) then s
    else if s.flow.shouldIncrementCouponUsage then s
    else
      var flow := s.flow.(shouldIncrementCouponUsage := true);
      AroundExecute(State(flow, s.updates), quote, true)
  }

  /** The deferred update counts a coupon at most once: a second call for the
      same quote changes nothing. */
  lemma IncrementIsIdempotent(s: State, quote: CouponQuote)
    ensures IncrementCouponUsages(IncrementCouponUsages(s, quote), quote) == IncrementCouponUsages(s, quote)
    ensures |IncrementCouponUsages(s, quote).updates| <= |s.updates| + 1
  {
  }

  /** What `postProcess` does to a saved order, by payment method. */
  datatype Effect =
    | SavePaymentMethod(kind: string)
    | SetPendingPayment(comment: string)
    | SaveOrder
    | ProcessEvent(eventId: string)
    | RecordEventError(eventId: string, message: string)

  /** A webhook event that arrived before the order was saved; `failure` is
      the message of the exception its processing raises, if any. */
  datatype EarlyEvent = EarlyEvent(id: string, failure: Option<string>)

  const PendingComment: string := "A payment is pending for this order."

  /** The event types processed early: regular orders, subscriptions and
      trial subscriptions. */
  const EarlyEventTypes: seq<string> := ["charge.succeeded", "invoice.payment_succeeded", "setup_intent.succeeded"]

  /** The webhook event store's query for early events of a payment intent. */
  type EventLookup = (string, seq<string>) -> seq<EarlyEvent>

  /** Processing the early events one by one; a failure is recorded on the
      event and processing goes on. */
  function ProcessEvents(events: seq<EarlyEvent>): (r: seq<Effect>)
    ensures |r| == |events|
    ensures forall i :: 0 <= i < |events| ==>
      (events[i].failure.None? ==> r[i] == ProcessEvent(events[i].id))
      && (events[i].failure.Some? ==> r[i] == RecordEventError(events[i].id, events[i].failure.value))
  {
    if |events| == 0 then []
    else
      var e := events[0];
      var head := if e.failure.None? then ProcessEvent(e.id) else RecordEventError(e.id, e.failure.value);
      var rest := ProcessEvents(events[1..]);
      assert forall i :: 1 <= i < |events| ==> events[i] == events[1..][i - 1];
      [head] + rest
  }

  /** The follow-up on a saved order. `transactionId` is the payment's
      `server_side_transaction_id` ("" when absent). */
  function PostProcess(paymentMethod: string, transactionId: string, lookup: EventLookup): (r: seq<Effect>)
    ensures paymentMethod == "stripe_payments_bank_transfers" ==> r == [SavePaymentMethod("customer_balance"), SaveOrder]
    ensures paymentMethod == "stripe_payments_invoice" ==> r == [SetPendingPayment(PendingComment), SaveOrder]
    ensures paymentMethod in {"stripe_payments", "stripe_payments_express"} ==>
      (Empty(transactionId) ==> r == [])
      && (!Empty(transactionId) ==> |r| == |lookup(transactionId, EarlyEventTypes)|)
    ensures (exists i :: 0 <= i < |r| && (r[i].ProcessEvent? || r[i].RecordEventError?)) ==>
      paymentMethod in {"stripe_payments", "stripe_payments_express"} && !Empty(transactionId)
    ensures paymentMethod !in {"stripe_payments_bank_transfers", "stripe_payments_invoice", "stripe_payments", "stripe_payments_express"} ==> r == []
  {
    if paymentMethod == "stripe_payments_bank_transfers" then [SavePaymentMethod("customer_balance"), SaveOrder]
    else if paymentMethod == "stripe_payments_invoice" then [SetPendingPayment(PendingComment), SaveOrder]
    else if paymentMethod == "stripe_payments" || paymentMethod == "stripe_payments_express" then
      if Empty(transactionId) then [] else ProcessEvents(lookup(transactionId, EarlyEventTypes))
    else []
  }

  /** How an order placement ends. */
  datatype Outcome =
    | Placed(effects: seq<Effect>)
    | Rethrown(message: string)
    | Converted(message: string)

  /** The order as the placement plugin sees it: the quote it came from
      (0 for none) and, once saved, its payment fields. */
  datatype SavedOrder = SavedOrder(paymentMethod: string, transactionId: string)

  /** The placement plugin. The quote is the one with the order's quote id,
      or the session's quote when the order has none; `proceed` is the
      result of saving the order; `isAuthenticationRequired` is the logger's
      test of an error message. A failed save leaves coupon usage alone; an
      authentication error is passed on unchanged and any other is rethrown
      as the integration's own error with the same message. */
  function AroundPlace(s: State, orderQuoteId: nat, quoteById: nat -> CouponQuote, sessionQuote: CouponQuote,
                       proceed: Result<SavedOrder>, isAuthenticationRequired: string -> bool,
                       lookup: EventLookup): (r: (Outcome, State))
    ensures proceed.Failure? ==> r.1 == s
    ensures proceed.Failure? && isAuthenticationRequired(proceed.error) ==> r.0 == Rethrown(proceed.error)
    ensures proceed.Failure? && !isAuthenticationRequired(proceed.error) ==> r.0 == Converted(proceed.error)
    ensures proceed.Success? ==>
      r.0 == Placed(PostProcess(proceed.value.paymentMethod, proceed.value.transactionId, lookup))
      && r.1 == IncrementCouponUsages(s, if orderQuoteId != 0 then quoteById(orderQuoteId) else sessionQuote)
  {
    var quote := if orderQuoteId != 0 then quoteById(orderQuoteId) else sessionQuote;
    match proceed
    case Failure(msg) =>
      if isAuthenticationRequired(msg) then (Rethrown(msg), s) else (Converted(msg), s)
    case Success(order) =>
      var after := IncrementCouponUsages(s, quote);
      (Placed(PostProcess(order.paymentMethod, order.transactionId, lookup)), after)
  }

  /** With deferral on, Magento's own usage update for a Stripe card quote
      is held back, and placing the order then counts the coupon exactly
      once, with `increment` set. */
  lemma DeferredCouponCountedOnce(s: State, quote: CouponQuote, order: SavedOrder, lookup: EventLookup,
                                  isAuthenticationRequired: string -> bool)
    requires !s.flow.shouldIncrementCouponUsage && !Empty(quote.couponCode)
    requires quote.paymentMethod == StripePayments
    ensures var r := AroundPlace(s, quote.quoteId, _ => quote, quote, Success(order), isAuthenticationRequired, lookup).1;
      AroundExecute(s, quote, true) == s
      && r.updates == s.updates + [UsageUpdate(quote, true)]
  {
  }
}
