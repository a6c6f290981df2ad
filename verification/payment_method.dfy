/** The card payment method's decisions around an order's payment: whether
    it may be edited or captured, which payment action applies, how an
    authorization or capture is routed, how a saved SetupIntent's status is
    answered, and how refunds and voids are turned into a cancellation. */
module PaymentMethod {
  import opened Wrappers
  import opened Php

  /** The payment's fields these decisions read. Additional-information
      values PHP treats as falsy (missing, `false`, "", "0") are held as "". */
  datatype Info = Info(
    transactionId: string,
    lastTransId: string,
    token: string,
    confirmationToken: string,
    customerStripeId: string,
    paymentAction: string,
    isMigratedSubscription: bool,
    isRecurringSubscription: bool,
    cancelOfflineWithComment: string)

  // ----- Editing and capturing -------------------------------------------

  /** A payment may be edited only while no transaction was recorded and it
      holds a saved `pm_` payment method of a known Stripe customer. */
  function CanEdit(info: Info): (r: bool)
    ensures r ==> StartsWith(info.token, "pm_") && !Empty(info.customerStripeId)
    ensures r <==> Empty(info.transactionId) && Empty(info.lastTransId) && !Empty(info.token)
                   && !Empty(info.customerStripeId) && StartsWith(info.token, "pm_")
  {
    if !Empty(info.transactionId) then false
    else if !Empty(info.lastTransId) then false
    else if Empty(info.token) then false
    else if Empty(info.customerStripeId) then false
    else StartsWith(info.token, "pm_")
  }

  /** Recording a transaction, or a last transaction id, ends editing. */
  lemma RecordedTransactionEndsEditing(info: Info, id: string)
    requires !Empty(id)
    ensures !CanEdit(info.(transactionId := id))
    ensures !CanEdit(info.(lastTransId := id))
  {
  }

  /** An "order" payment with a token can always be captured; otherwise
      Magento's own answer (`parent`) stands. `info` is `None` when the
      method has no payment attached. */
  function CanCapture(info: Option<Info>, parent: bool): (r: bool)
    ensures info.Some? && info.value.paymentAction == "order" && !Empty(info.value.token) ==> r
    ensures !(info.Some? && info.value.paymentAction == "order" && !Empty(info.value.token)) ==> r == parent
  {
    if info.Some? && info.value.paymentAction == "order" && !Empty(info.value.token) then true
    else parent
  }

  /** The payment action in force: authorize only for a migrated
      subscription or a subscription update; authorize and capture whenever
      the cart has subscriptions; the configured action otherwise. */
  function GetConfigPaymentAction(info: Option<Info>, isSubscriptionUpdate: bool, hasSubscriptions: bool,
                                  configured: string): (r: string)
    ensures (info.Some? && info.value.isMigratedSubscription) || isSubscriptionUpdate ==> r == "authorize"
    ensures !((info.Some? && info.value.isMigratedSubscription) || isSubscriptionUpdate) && hasSubscriptions ==>
      r == "authorize_capture"
    ensures r != configured ==> r in {"authorize", "authorize_capture"}
  {
    if (info.Some? && info.value.isMigratedSubscription) || isSubscriptionUpdate then "authorize"
    else if hasSubscriptions then "authorize_capture"
    else configured
  }

  /** Subscriptions never run in authorize-only mode, except for the
      migrated and updated ones. */
  lemma SubscriptionsAreCapturedUnlessMigratedOrUpdated(info: Option<Info>, isSubscriptionUpdate: bool, configured: string)
    ensures GetConfigPaymentAction(info, isSubscriptionUpdate, true, configured) == "authorize"
      <==> (info.Some? && info.value.isMigratedSubscription) || isSubscriptionUpdate
  {
  }

  // ----- Authorize and capture routing ------------------------------------

  /** Where an authorization or capture goes. */
  datatype Route =
    | UpdateSubscription
    | DoNotPay
    | CreateOrderFromCharge
    | Pay
    | NewCharge
    | CaptureAuthorized(token: string)
    | CaptureMultishipping(token: string)

  /** The conditions the routing reads from the session and the flow. */
  datatype Session = Session(
    isSubscriptionUpdate: bool,
    isMultiShipping: bool,
    creatingOrderFromCharge: bool,
    isAdmin: bool)

  /** `authorize`: a subscription update, then a multi-shipping checkout,
      then a migrated subscription, then an order created from a charge
      take precedence, in that order, over paying. */
  function Authorize(info: Info, s: Session): (r: Route)
    ensures s.isSubscriptionUpdate ==> r == UpdateSubscription
    ensures !s.isSubscriptionUpdate && (s.isMultiShipping || info.isMigratedSubscription) ==> r == DoNotPay
    ensures r == Pay <==>
      !s.isSubscriptionUpdate && !s.isMultiShipping && !info.isMigratedSubscription && !s.creatingOrderFromCharge
    ensures r == CreateOrderFromCharge <==>
      !s.isSubscriptionUpdate && !s.isMultiShipping && !info.isMigratedSubscription && s.creatingOrderFromCharge
    ensures r in {UpdateSubscription, DoNotPay, CreateOrderFromCharge, Pay}
  {
    if s.isSubscriptionUpdate then UpdateSubscription
    else if s.isMultiShipping then DoNotPay
    else if info.isMigratedSubscription then DoNotPay
    else if s.creatingOrderFromCharge then CreateOrderFromCharge
    else Pay
  }

  const NoTransactions: string := "This order cannot be captured because no transactions have been recorded against it."
  const CliSubscription: string := "It is not possible to capture subscription orders that were created from the CLI."
  const NotAuthorized: string := "It is not possible to capture the payment because the transaction has not yet been authorized."

  /** The token `capture` works with: the transaction id, or else the last
      transaction id. */
  function CaptureToken(info: Info): (t: string)
    ensures Empty(t) <==> Empty(info.transactionId) && Empty(info.lastTransId)
    ensures !Empty(info.transactionId) ==> t == info.transactionId
  {
    if !Empty(info.transactionId) then info.transactionId else info.lastTransId
  }

  /** A non-"order" capture with a recorded transaction to capture. */
  predicate CapturesRecorded(info: Info) {
    info.paymentAction != "order" && !Empty(CaptureToken(info))
  }

  /** A non-"order" capture with no transaction recorded, which is refused
      or routed like an authorization. */
  predicate NothingRecorded(info: Info) {
    info.paymentAction != "order" && Empty(CaptureToken(info))
  }

  /** Neither refusal applies to a capture with nothing recorded. */
  predicate CaptureAllowed(info: Info, s: Session, orderState: string) {
    NothingRecorded(info) && !info.isMigratedSubscription && !(s.isAdmin && orderState == "pending_payment")
  }

  /** `capture`. An "order" payment is charged anew; a recorded token
      captures the authorization (for a multi-shipping quote only when more
      than one order shares it); then the CLI-migrated and not-yet-authorized
      cases are refused, and the rest routes as an authorization does,
      without its subscription update case. */
  function Capture(info: Info, s: Session, orderState: string, isMultishippingQuote: bool,
                   ordersWithToken: nat, cleanToken: string -> string): (r: Result<Route>)
    ensures r == Success(NewCharge) <==> info.paymentAction == "order"
    ensures r == Success(CaptureAuthorized(cleanToken(CaptureToken(info)))) <==>
      CapturesRecorded(info) && !isMultishippingQuote
    ensures r == Success(CaptureMultishipping(cleanToken(CaptureToken(info)))) <==>
      CapturesRecorded(info) && isMultishippingQuote && ordersWithToken > 1
    ensures r == Failure(NoTransactions) <==>
      CapturesRecorded(info) && isMultishippingQuote && ordersWithToken <= 1
    ensures r == Failure(CliSubscription) <==> NothingRecorded(info) && info.isMigratedSubscription
    ensures r == Failure(NotAuthorized) <==>
      NothingRecorded(info) && !info.isMigratedSubscription && s.isAdmin && orderState == "pending_payment"
    ensures r == Success(DoNotPay) <==> CaptureAllowed(info, s, orderState) && s.isMultiShipping
    ensures r == Success(CreateOrderFromCharge) <==>
      CaptureAllowed(info, s, orderState) && !s.isMultiShipping && s.creatingOrderFromCharge
    ensures r == Success(Pay) <==>
      CaptureAllowed(info, s, orderState) && !s.isMultiShipping && !s.creatingOrderFromCharge
    ensures r.Failure? ==> r.error in {NoTransactions, CliSubscription, NotAuthorized}
  {
    var token := CaptureToken(info);
    if info.paymentAction == "order" then Success(NewCharge)
    else if !Empty(token) then
      var clean := cleanToken(token);
      if isMultishippingQuote then
        if ordersWithToken > 1 then Success(CaptureMultishipping(clean)) else Failure(NoTransactions)
      else Success(CaptureAuthorized(clean))
    else if info.isMigratedSubscription then Failure(CliSubscription)
    else if s.isAdmin && orderState == "pending_payment" then Failure(NotAuthorized)
    else if s.isMultiShipping then Success(DoNotPay)
    else if s.creatingOrderFromCharge then Success(CreateOrderFromCharge)
    else Success(Pay)
  }

  /** Once neither refusal applies, a capture with nothing recorded goes
      where an authorization outside a subscription update goes. */
  lemma UnrecordedCaptureRoutesAsAuthorize(info: Info, s: Session, orderState: string, isMultishippingQuote: bool,
                                           ordersWithToken: nat, cleanToken: string -> string)
    requires CaptureAllowed(info, s, orderState) && !s.isSubscriptionUpdate
    ensures Capture(info, s, orderState, isMultishippingQuote, ordersWithToken, cleanToken) == Success(Authorize(info, s))
  {
  }

  /** What `doNotPay` marks on the payment and its order. */
  datatype PaymentMarks = PaymentMarks(isFraudDetected: bool, isTransactionPending: bool,
                                       isTransactionClosed: bool, canSendNewEmail: bool)

  function DoNotPayMarks(): (m: PaymentMarks)
    ensures m.isTransactionPending && !m.isTransactionClosed && !m.isFraudDetected && !m.canSendNewEmail
  {
    PaymentMarks(false, true, false, false)
  }

  // ----- Saving a payment method with a SetupIntent ------------------------

  datatype SetupIntent = SetupIntent(id: string, status: string, paymentMethod: string,
                                     nextActionType: string, clientSecret: string)

  const SaveFailed: string := "The payment method could not be saved. Please try again."
  const SomethingWrong: string := "Something went wrong. Please try again."
  const AuthenticationPrefix: string := "Authentication Required: "

  /** A SetupIntent is confirmed only while it awaits confirmation or a
      payment method. */
  predicate NeedsConfirmation(status: string) {
    status == "requires_confirmation" || status == "requires_payment_method"
  }

  /** The answer to the intent's final status: `Success(true)` when the
      customer is sent to a redirect, `Success(false)` when the method is
      saved or being saved, an error otherwise. */
  function StatusOutcome(si: SetupIntent): (r: Result<bool>)
    ensures r == Success(true) <==> si.status == "requires_action" && si.nextActionType == "redirect_to_url"
    ensures r == Success(false) <==> si.status in {"succeeded", "processing"}
    ensures si.status == "requires_action" && si.nextActionType != "redirect_to_url" ==>
      r == Failure(AuthenticationPrefix + si.clientSecret)
    ensures si.status == "canceled" ==> r == Failure(SaveFailed)
    ensures si.status !in {"requires_action", "canceled", "succeeded", "processing"} ==> r == Failure(SomethingWrong)
  {
    if si.status == "requires_action" then
      if si.nextActionType == "redirect_to_url" then Success(true)
      else Failure(AuthenticationPrefix + si.clientSecret)
    else if si.status == "canceled" then Failure(SaveFailed)
    else if si.status == "succeeded" || si.status == "processing" then Success(false)
    else Failure(SomethingWrong)
  }

  /** `order`: the intent saved for the quote (or a new one) is recorded on
      the payment, confirmed if it needs it, and its status answered. The
      payment's token becomes the intent's payment method and any
      confirmation token is dropped before the status is looked at. */
  function Order(info: Info, si: SetupIntent, confirm: SetupIntent -> SetupIntent,
                 customerStripeId: string, configuredAction: string): (r: (Info, Result<bool>))
    ensures r.0 == info.(customerStripeId := customerStripeId, paymentAction := configuredAction,
                         token := si.paymentMethod, confirmationToken := "")
    ensures !NeedsConfirmation(si.status) ==> r.1 == StatusOutcome(si)
    ensures NeedsConfirmation(si.status) ==> r.1 == StatusOutcome(confirm(si))
  {
    var saved := info.(customerStripeId := customerStripeId, paymentAction := configuredAction,
                       token := si.paymentMethod, confirmationToken := "");
    var final := if NeedsConfirmation(si.status) then confirm(si) else si;
    (saved, StatusOutcome(final))
  }

  /** An intent that already succeeded is not confirmed again, and the
      order goes through without a redirect. */
  lemma SucceededIntentIsAccepted(info: Info, si: SetupIntent, confirm: SetupIntent -> SetupIntent,
                                  customerStripeId: string, configuredAction: string)
    requires si.status == "succeeded"
    ensures Order(info, si, confirm, customerStripeId, configuredAction).1 == Success(false)
  {
  }

  // ----- Paying ------------------------------------------------------------

  const NoPaymentMethod: string := "Cannot place order because a payment method was not provided."

  /** Where `pay` goes before it reaches Stripe. */
  datatype PayStart = AlreadyPaid | ConfirmPayment

  /** A recurring subscription payment needs nothing; otherwise a token or a
      confirmation token must be present. */
  function PayGuard(info: Info): (r: Result<PayStart>)
    ensures info.isRecurringSubscription ==> r == Success(AlreadyPaid)
    ensures r.Failure? <==> !info.isRecurringSubscription && Empty(info.token) && Empty(info.confirmationToken)
    ensures r.Failure? ==> r.error == NoPaymentMethod
    ensures r == Success(ConfirmPayment) ==> !Empty(info.token) || !Empty(info.confirmationToken)
  {
    if info.isRecurringSubscription then Success(AlreadyPaid)
    else if Empty(info.token) && Empty(info.confirmationToken) then Failure(NoPaymentMethod)
    else Success(ConfirmPayment)
  }

  // ----- Refund, void and cancel -------------------------------------------

  /** How the refund attempt ended: done, refused with an offline-refund
      message, or failed with another error. */
  datatype RefundAttempt = Done | Offline(message: string) | Error(message: string)

  datatype CancelEffect =
    | OverrideCancelComment(text: string)
    | RefundCall(multishipping: bool, amount: Option<int>)
    | AdminWarning(text: string)
    | OrderComment(text: string)

  const RefundFailedPrefix: string := "Could not refund payment: "

  /** `cancel`. An offline cancellation with a comment only records that
      comment. Otherwise the payment intent is refunded (a multi-shipping
      intent awaiting capture by its own route); an offline-refund refusal is
      reported as a warning to an admin and as the cancellation comment or
      an order comment, and any other error fails with its message. */
  function Cancel(info: Info, amount: Option<int>, multishippingAwaitingCapture: bool, attempt: RefundAttempt,
                  isAdmin: bool, isCancelation: bool): (r: Result<seq<CancelEffect>>)
    ensures !Empty(info.cancelOfflineWithComment) ==> r == Success([OverrideCancelComment(info.cancelOfflineWithComment)])
    ensures Empty(info.cancelOfflineWithComment) ==>
      (r.Failure? <==> attempt.Error?)
      && (r.Failure? ==> r.error == RefundFailedPrefix + attempt.message)
      && (r.Success? ==> |r.value| >= 1 && r.value[0] == RefundCall(multishippingAwaitingCapture, amount))
    ensures r.Success? && attempt.Offline? && Empty(info.cancelOfflineWithComment) ==>
      (isCancelation <==> OverrideCancelComment(attempt.message) in r.value)
      && (isAdmin <==> AdminWarning(attempt.message) in r.value)
  {
    if !Empty(info.cancelOfflineWithComment) then Success([OverrideCancelComment(info.cancelOfflineWithComment)])
    else
      var call := RefundCall(multishippingAwaitingCapture, amount);
      match attempt
      case Done => Success([call])
      case Error(m) => Failure(RefundFailedPrefix + m)
      case Offline(m) =>
        var warning := if isAdmin then [AdminWarning(m)] else [];
        var note := if isCancelation then OverrideCancelComment(m) else OrderComment(m);
        Success([call] + warning + [note])
  }

  /** `refund` and `void` are cancellations, with and without an amount. */
  function Refund(info: Info, amount: int, multishippingAwaitingCapture: bool, attempt: RefundAttempt,
                  isAdmin: bool, isCancelation: bool): (r: Result<seq<CancelEffect>>)
    ensures r == Cancel(info, Some(amount), multishippingAwaitingCapture, attempt, isAdmin, isCancelation)
    ensures Empty(info.cancelOfflineWithComment) && r.Success? ==> r.value[0] == RefundCall(multishippingAwaitingCapture, Some(amount))
  {
    Cancel(info, Some(amount), multishippingAwaitingCapture, attempt, isAdmin, isCancelation)
  }

  function Void(info: Info, multishippingAwaitingCapture: bool, attempt: RefundAttempt,
                isAdmin: bool, isCancelation: bool): (r: Result<seq<CancelEffect>>)
    ensures r == Cancel(info, None, multishippingAwaitingCapture, attempt, isAdmin, isCancelation)
    ensures Empty(info.cancelOfflineWithComment) && r.Success? ==> r.value[0] == RefundCall(multishippingAwaitingCapture, None)
  {
    Cancel(info, None, multishippingAwaitingCapture, attempt, isAdmin, isCancelation)
  }

  /** With an offline comment, nothing reaches Stripe whatever the refund
      would have done. */
  lemma OfflineCommentShortCircuits(info: Info, amount: Option<int>, ms: bool, a: RefundAttempt, b: RefundAttempt,
                                    isAdmin: bool, isCancelation: bool)
    requires !Empty(info.cancelOfflineWithComment)
    ensures Cancel(info, amount, ms, a, isAdmin, isCancelation) == Cancel(info, amount, ms, b, isAdmin, isCancelation)
    ensures forall e :: e in Cancel(info, amount, ms, a, isAdmin, isCancelation).value ==> !e.RefundCall?
  {
  }
}
