/** What is known about the cart while a new order is placed: whether it
    holds subscriptions, trials, future start dates, regular products, and
    whether its first payment is zero. */
module CartInfo {
  import opened Wrappers
  import opened SubscriptionProduct
  import opened QuoteHelper
  import opened CheckoutFlow

  datatype Info = Info(
    hasSubscriptions: bool,
    hasTrialSubscriptions: bool,
    hasFutureStartDateSubscriptions: bool,
    hasRegularProducts: bool,
    isZeroTotal: bool)

  /** The state before any quote is read: a cart is zero-total until an item
      shows otherwise. */
  const Initial: Info := Info(false, false, false, false, true)

  const OutsideOrderPlacement: string := "Do not call this method outside order placements."

  /** A subscription item whose first payment is on its start date. */
  predicate StartsLater(item: QuoteItem, ctx: Ctx) {
    IsSubscriptionItem(item, ctx) && StartsOnStartDate(Model(item, ctx))
  }

  /** A regular item that costs something now. */
  predicate ChargedRegular(item: QuoteItem, ctx: Ctx) {
    !IsSubscriptionItem(item, ctx) && item.rowTotal > 0
  }

  /** An item that makes the first payment non-zero. */
  predicate Charged(item: QuoteItem, ctx: Ctx) {
    (IsSubscriptionItem(item, ctx) && !IsZeroPriced(item, ctx)) || ChargedRegular(item, ctx)
  }

  /** What one item tells about the cart; an item the subscription model
      refuses raises its error. */
  datatype Traits = Traits(isSubscription: bool, hasTrial: bool, startsLater: bool, charged: bool)

  function Classify(item: QuoteItem, ctx: Ctx): (r: Result<Traits>)
    ensures r.Failure? <==> !QuoteHelper.Valid(item)
    ensures r.Failure? ==> r.error == InvalidQuoteItem
    ensures r.Success? ==>
      && (r.value.isSubscription <==> IsSubscriptionItem(item, ctx))
      && (r.value.hasTrial <==> HasTrial(item, ctx))
      && (r.value.startsLater <==> StartsLater(item, ctx))
      && (r.value.charged <==> Charged(item, ctx))
  {
    var sp :- FromQuoteItem(Unloaded, item.productId, ctx.catalog, ctx.opts);
    if IsSubscriptionProduct(sp) then
      assert sp == Model(item, ctx);
      var trial := HasTrialPeriod(sp).value;
      var zero := HasZeroInitialOrderPrice(sp, ctx.calendar, ctx.isSubscriptionUpdate).value;
      Success(Traits(true, trial, StartsOnStartDate(sp), !zero))
    else
      Success(Traits(false, false, false, item.rowTotal > 0))
  }

  /** One pass of the loop: the flags only ever go from their initial value
      to the other one, and a future start date also marks the checkout flow. */
  function Step(s: (Info, Flow), t: Traits): (r: (Info, Flow))
    ensures r.1 == s.1.(isFutureSubscriptionSetup := r.1.isFutureSubscriptionSetup)
  {
    var (info, flow) := s;
    if t.isSubscription then
      var info1 := info.(hasSubscriptions := true,
                         hasTrialSubscriptions := info.hasTrialSubscriptions || t.hasTrial,
                         hasFutureStartDateSubscriptions := info.hasFutureStartDateSubscriptions || t.startsLater,
                         isZeroTotal := info.isZeroTotal && !t.charged);
      var flow1 := if t.startsLater then flow.(isFutureSubscriptionSetup := true) else flow;
      (info1, flow1)
    else
      (info.(hasRegularProducts := true, isZeroTotal := info.isZeroTotal && !t.charged), flow)
  }

  /** The state after reading `items` in order, stopping at the first item
      the model refuses; `r.2` is that item's error. */
  function Fold(s: (Info, Flow), items: seq<QuoteItem>, ctx: Ctx): (r: (Info, Flow, Option<string>))
    decreases |items|
    ensures r.2.Some? <==> exists i :: 0 <= i < |items| && !QuoteHelper.Valid(items[i])
    ensures r.2.Some? ==> r.2.value == InvalidQuoteItem
    ensures r.1 == s.1.(isFutureSubscriptionSetup := r.1.isFutureSubscriptionSetup)
    ensures !s.0.isZeroTotal ==> !r.0.isZeroTotal
  {
    if |items| == 0 then (s.0, s.1, None)
    else
      var n := |items| - 1;
      var front := items[..n];
      assert forall i :: 0 <= i < n ==> front[i] == items[i];
      var p := Fold(s, front, ctx);
      if p.2.Some? then p
      else
        match Classify(items[n], ctx)
        case Failure(e) => (p.0, p.1, Some(e))
        case Success(t) =>
          var q := Step((p.0, p.1), t);
          (q.0, q.1, None)
  }

  /** A fold that raised nothing is the fold of all but the last item,
      followed by one step for the last item. */
  lemma FoldLast(s: (Info, Flow), items: seq<QuoteItem>, ctx: Ctx)
    requires |items| > 0 && Fold(s, items, ctx).2.None?
    ensures var p := Fold(s, items[..|items| - 1], ctx);
      && p.2.None? && Classify(items[|items| - 1], ctx).Success?
      && var q := Step((p.0, p.1), Classify(items[|items| - 1], ctx).value);
         Fold(s, items, ctx) == (q.0, q.1, None)
  {
  }

  /** The subscription flag is set iff some item is a subscription. */
  lemma {:induction false} FoldSubscriptions(s: (Info, Flow), items: seq<QuoteItem>, ctx: Ctx)
    ensures var r := Fold(s, items, ctx); r.2.None? ==>
      (r.0.hasSubscriptions <==> s.0.hasSubscriptions || exists i :: 0 <= i < |items| && IsSubscriptionItem(items[i], ctx))
  {
    if |items| > 0 && Fold(s, items, ctx).2.None? {
      var front := items[..|items| - 1];
      assert forall i :: 0 <= i < |front| ==> front[i] == items[i];
      FoldLast(s, items, ctx);
      FoldSubscriptions(s, front, ctx);
    }
  }

  /** The trial flag is set iff some subscription has a trial. */
  lemma {:induction false} FoldTrials(s: (Info, Flow), items: seq<QuoteItem>, ctx: Ctx)
    ensures var r := Fold(s, items, ctx); r.2.None? ==>
      (r.0.hasTrialSubscriptions <==> s.0.hasTrialSubscriptions || exists i :: 0 <= i < |items| && HasTrial(items[i], ctx))
  {
    if |items| > 0 && Fold(s, items, ctx).2.None? {
      var front := items[..|items| - 1];
      assert forall i :: 0 <= i < |front| ==> front[i] == items[i];
      FoldLast(s, items, ctx);
      FoldTrials(s, front, ctx);
    }
  }

  /** The start-date flag, and the checkout flow's future-setup flag with it,
      are set iff some subscription's first payment is on its start date. */
  lemma {:induction false} FoldFutureStartDates(s: (Info, Flow), items: seq<QuoteItem>, ctx: Ctx)
    ensures var r := Fold(s, items, ctx); r.2.None? ==>
      && (r.0.hasFutureStartDateSubscriptions <==>
            s.0.hasFutureStartDateSubscriptions || exists i :: 0 <= i < |items| && StartsLater(items[i], ctx))
      && (r.1.isFutureSubscriptionSetup <==>
            s.1.isFutureSubscriptionSetup || exists i :: 0 <= i < |items| && StartsLater(items[i], ctx))
  {
    if |items| > 0 && Fold(s, items, ctx).2.None? {
      var front := items[..|items| - 1];
      assert forall i :: 0 <= i < |front| ==> front[i] == items[i];
      FoldLast(s, items, ctx);
      FoldFutureStartDates(s, front, ctx);
    }
  }

  /** The regular-products flag is set iff some item is not a subscription. */
  lemma {:induction false} FoldRegularProducts(s: (Info, Flow), items: seq<QuoteItem>, ctx: Ctx)
    ensures var r := Fold(s, items, ctx); r.2.None? ==>
      (r.0.hasRegularProducts <==> s.0.hasRegularProducts || exists i :: 0 <= i < |items| && !IsSubscriptionItem(items[i], ctx))
  {
    if |items| > 0 && Fold(s, items, ctx).2.None? {
      var front := items[..|items| - 1];
      assert forall i :: 0 <= i < |front| ==> front[i] == items[i];
      FoldLast(s, items, ctx);
      FoldRegularProducts(s, front, ctx);
    }
  }

  /** The cart stays zero-total iff it was and no item is charged now: a
      subscription without a zero initial order price, or a regular item
      with a positive row total. */
  lemma {:induction false} FoldZeroTotal(s: (Info, Flow), items: seq<QuoteItem>, ctx: Ctx)
    ensures var r := Fold(s, items, ctx); r.2.None? ==>
      (r.0.isZeroTotal <==> s.0.isZeroTotal && forall i :: 0 <= i < |items| ==> !Charged(items[i], ctx))
  {
    if |items| > 0 && Fold(s, items, ctx).2.None? {
      var front := items[..|items| - 1];
      assert forall i :: 0 <= i < |front| ==> front[i] == items[i];
      FoldLast(s, items, ctx);
      FoldZeroTotal(s, front, ctx);
    }
  }

  /** Once an item is refused, later items are not read. */
  lemma {:induction false} FoldStopsAtError(s: (Info, Flow), items: seq<QuoteItem>, k: nat, ctx: Ctx)
    requires k <= |items| && Fold(s, items[..k], ctx).2.Some?
    ensures Fold(s, items, ctx) == Fold(s, items[..k], ctx)
    decreases |items| - k
  {
    if k < |items| {
      assert items[..k + 1][..k] == items[..k];
      FoldStopsAtError(s, items, k + 1, ctx);
    } else {
      assert items[..k] == items;
    }
  }

  /** `initFromQuote`: the loop over the quote's items. On a refused item
      the error is raised and the flags read so far stay set. */
  method InitFromQuote(info: Info, flow: Flow, items: seq<QuoteItem>, ctx: Ctx)
    returns (info': Info, flow': Flow, error: Option<string>)
    ensures (info', flow', error) == Fold((info, flow), items, ctx)
    ensures error.None? <==> forall i :: 0 <= i < |items| ==> QuoteHelper.Valid(items[i])
    ensures error.None? ==>
      (info'.hasSubscriptions <==> info.hasSubscriptions || exists i :: 0 <= i < |items| && IsSubscriptionItem(items[i], ctx))
      && (info'.isZeroTotal <==> info.isZeroTotal && forall i :: 0 <= i < |items| ==> !Charged(items[i], ctx))
  {
    info', flow', error := info, flow, None;
    var i := 0;
    while i < |items|
      invariant 0 <= i <= |items|
      invariant (info', flow', error) == Fold((info, flow), items[..i], ctx)
      invariant error.None?
    {
      assert items[..i + 1][..i] == items[..i];
      var t := Classify(items[i], ctx);
      if t.Failure? {
        error := Some(t.error);
        FoldStopsAtError((info, flow), items, i + 1, ctx);
        return;
      }
      var q := Step((info', flow'), t.value);
      info', flow' := q.0, q.1;
      i := i + 1;
    }
    assert items[..i] == items;
    FoldSubscriptions((info, flow), items, ctx);
    FoldZeroTotal((info, flow), items, ctx);
  }

  /** The flags a getter may return. */
  datatype Flag = Subscriptions | TrialSubscriptions | FutureStartDateSubscriptions | RegularProducts | ZeroTotal

  function Field(info: Info, flag: Flag): bool {
    match flag
    case Subscriptions => info.hasSubscriptions
    case TrialSubscriptions => info.hasTrialSubscriptions
    case FutureStartDateSubscriptions => info.hasFutureStartDateSubscriptions
    case RegularProducts => info.hasRegularProducts
    case ZeroTotal => info.isZeroTotal
  }

  /** Every getter refuses to answer outside an order placement. */
  function Get(info: Info, flow: Flow, flag: Flag): (r: Result<bool>)
    ensures r.Failure? <==> !flow.isNewOrderBeingPlaced
    ensures r.Failure? ==> r.error == OutsideOrderPlacement
    ensures r.Success? ==> r.value == Field(info, flag)
  {
    if !flow.isNewOrderBeingPlaced then Failure(OutsideOrderPlacement)
    else Success(Field(info, flag))
  }

  /** Read from a fresh state during an order placement, the zero-total flag
      answers whether nothing in the cart is charged now, and the trial flag
      whether some subscription has a trial. */
  lemma FreshInfoAnswers(flow: Flow, items: seq<QuoteItem>, ctx: Ctx)
    requires flow.isNewOrderBeingPlaced
    requires forall i :: 0 <= i < |items| ==> QuoteHelper.Valid(items[i])
    ensures var r := Fold((Initial, flow), items, ctx);
      && Get(r.0, r.1, ZeroTotal) == Success(forall i :: 0 <= i < |items| ==> !Charged(items[i], ctx))
      && Get(r.0, r.1, TrialSubscriptions) == Success(exists i :: 0 <= i < |items| && HasTrial(items[i], ctx))
  {
    FoldZeroTotal((Initial, flow), items, ctx);
    FoldTrials((Initial, flow), items, ctx);
  }
}
