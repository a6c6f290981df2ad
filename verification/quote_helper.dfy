/** Questions asked of a quote's items: does it hold subscriptions, trials,
    only trials, fully discounted subscriptions; which items are not billed
    now; and the quote cache and totals re-collection around them. */
module QuoteHelper {
  import opened Wrappers
  import opened Php
  import opened SubscriptionProduct

  /** The quote-item fields the helpers read.
      - `productId` is `None` when the item has no product (the subscription
        model refuses such an item).
      - `id` and `parentItemId` are 0 for PHP `null`; an item with a parent
        has a non-zero `parentItemId`.
      - Prices are Dec4 amounts. */
  datatype QuoteItem = QuoteItem(
    id: nat,
    productId: Option<nat>,
    parentItemId: nat,
    isVirtual: bool,
    qty: int,
    basePrice: int,
    baseDiscountAmount: int,
    rowTotal: int)

  /** What the subscription model needs: the catalog, the stored options,
      the server's calendar, and whether a subscription update is under
      way in the checkout session. */
  datatype Ctx = Ctx(catalog: Catalog, opts: OptionsLookup, calendar: Calendar, isSubscriptionUpdate: bool)

  const InvalidQuoteItem: string := "Invalid quote item."

  /** The subscription model accepts the item. */
  predicate Valid(item: QuoteItem) {
    item.productId.Some?
  }

  predicate IsSubscriptionItem(item: QuoteItem, ctx: Ctx) {
    item.productId.Some? && IsSubscriptionProductDef(ctx.catalog(item.productId.value), ctx.opts)
  }

  /** The model loaded from a subscription item. */
  function Model(item: QuoteItem, ctx: Ctx): (sp: SubscriptionProduct)
    requires IsSubscriptionItem(item, ctx)
    ensures sp.product.Some? && sp.details.Some?
    ensures FromQuoteItem(Unloaded, item.productId, ctx.catalog, ctx.opts) == Success(sp)
  {
    Load(Unloaded, ctx.catalog(item.productId.value), ctx.opts)
  }

  predicate HasTrial(item: QuoteItem, ctx: Ctx) {
    IsSubscriptionItem(item, ctx) && GetTrialDays(Model(item, ctx)).value.Some?
  }

  predicate IsZeroPriced(item: QuoteItem, ctx: Ctx) {
    IsSubscriptionItem(item, ctx) && HasZeroInitialOrderPrice(Model(item, ctx), ctx.calendar, ctx.isSubscriptionUpdate).value
  }

  /** A subscription whose base price is positive and fully discounted. */
  predicate IsFullyDiscounted(item: QuoteItem, ctx: Ctx) {
    IsSubscriptionItem(item, ctx) && 0 < item.basePrice <= item.baseDiscountAmount
  }

  /** The helpers' early-exit scan: the first item the model refuses raises
      an error, the first item meeting `p` answers true, and otherwise the
      answer is false. */
  function FindFirst(items: seq<QuoteItem>, p: QuoteItem -> bool): (r: Result<bool>)
    ensures r.Failure? ==> r.error == InvalidQuoteItem
    ensures r == Success(true) <==>
      exists i :: 0 <= i < |items| && Valid(items[i]) && p(items[i]) && forall j :: 0 <= j < i ==> Valid(items[j])
    ensures r.Failure? <==>
      exists i :: 0 <= i < |items| && !Valid(items[i]) && forall j :: 0 <= j < i ==> Valid(items[j]) && !p(items[j])
  {
    if |items| == 0 then Success(false)
    else if !Valid(items[0]) then Failure(InvalidQuoteItem)
    else if p(items[0]) then Success(true)
    else
      var rest := FindFirst(items[1..], p);
      assert forall i :: 1 <= i < |items| ==> items[i] == items[1..][i - 1];
      if rest == Success(true) then
        var i :| 0 <= i < |items[1..]| && Valid(items[1..][i]) && p(items[1..][i])
                 && forall j :: 0 <= j < i ==> Valid(items[1..][j]);
        assert Valid(items[i + 1]) && p(items[i + 1]) && forall j :: 0 <= j < i + 1 ==> Valid(items[j]);
        rest
      else if rest.Failure? then
        var i :| 0 <= i < |items[1..]| && !Valid(items[1..][i])
                 && forall j :: 0 <= j < i ==> Valid(items[1..][j]) && !p(items[1..][j]);
        assert !Valid(items[i + 1]) && forall j :: 0 <= j < i + 1 ==> Valid(items[j]) && !p(items[j]);
        rest
      else
        rest
  }

  /** On items the model accepts, the scan is plain existence. */
  lemma {:induction false} FindFirstOnValidItems(items: seq<QuoteItem>, p: QuoteItem -> bool)
    ensures (forall i :: 0 <= i < |items| ==> Valid(items[i])) ==>
      FindFirst(items, p) == Success(exists i :: 0 <= i < |items| && p(items[i]))
  {
    if |items| > 0 && Valid(items[0]) && !p(items[0]) {
      FindFirstOnValidItems(items[1..], p);
      assert forall j :: 0 <= j < |items| - 1 ==> items[1..][j] == items[j + 1];
    }
  }

  function HasSubscriptionsIn(items: seq<QuoteItem>, ctx: Ctx): (r: Result<bool>)
    ensures r == Success(true) <==>
      exists i :: 0 <= i < |items| && IsSubscriptionItem(items[i], ctx) && forall j :: 0 <= j < i ==> Valid(items[j])
    ensures (forall i :: 0 <= i < |items| ==> Valid(items[i])) ==>
      r == Success(exists i :: 0 <= i < |items| && IsSubscriptionItem(items[i], ctx))
  {
    var p := (item: QuoteItem) => IsSubscriptionItem(item, ctx);
    FindFirstOnValidItems(items, p);
    FindFirst(items, p)
  }

  function HasTrialSubscriptionsIn(items: seq<QuoteItem>, ctx: Ctx): (r: Result<bool>)
    ensures r == Success(true) <==>
      exists i :: 0 <= i < |items| && HasTrial(items[i], ctx) && forall j :: 0 <= j < i ==> Valid(items[j])
    ensures (forall i :: 0 <= i < |items| ==> Valid(items[i])) ==>
      r == Success(exists i :: 0 <= i < |items| && HasTrial(items[i], ctx))
  {
    var p := (item: QuoteItem) => HasTrial(item, ctx);
    FindFirstOnValidItems(items, p);
    FindFirst(items, p)
  }

  /** Some subscription's base price is positive and wholly discounted (a
      100% coupon that will eventually expire). */
  function HasFullyDiscountedSubscriptions(items: seq<QuoteItem>, ctx: Ctx): (r: Result<bool>)
    ensures r == Success(true) <==>
      exists i :: 0 <= i < |items| && IsFullyDiscounted(items[i], ctx) && forall j :: 0 <= j < i ==> Valid(items[j])
    ensures (forall i :: 0 <= i < |items| ==> Valid(items[i])) ==>
      r == Success(exists i :: 0 <= i < |items| && IsFullyDiscounted(items[i], ctx))
  {
    var p := (item: QuoteItem) => IsFullyDiscounted(item, ctx);
    FindFirstOnValidItems(items, p);
    FindFirst(items, p)
  }

  /** The scan behind `hasOnlyTrialSubscriptions`: false at the first item
      that is not a trial subscription, true when every item is one. */
  function AllTrials(items: seq<QuoteItem>, ctx: Ctx): (r: Result<bool>)
    ensures r.Failure? ==> r.error == InvalidQuoteItem
    ensures r == Success(true) <==> forall i :: 0 <= i < |items| ==> HasTrial(items[i], ctx)
    ensures r.Failure? <==>
      exists i :: 0 <= i < |items| && !Valid(items[i]) && forall j :: 0 <= j < i ==> HasTrial(items[j], ctx)
  {
    if |items| == 0 then Success(true)
    else if !Valid(items[0]) then Failure(InvalidQuoteItem)
    else if !HasTrial(items[0], ctx) then Success(false)
    else
      var rest := AllTrials(items[1..], ctx);
      assert forall i :: 1 <= i < |items| ==> items[i] == items[1..][i - 1];
      if rest.Failure? then
        var i :| 0 <= i < |items[1..]| && !Valid(items[1..][i])
                 && forall j :: 0 <= j < i ==> HasTrial(items[1..][j], ctx);
        assert !Valid(items[i + 1]) && forall j :: 0 <= j < i + 1 ==> HasTrial(items[j], ctx);
        rest
      else
        rest
  }

  /** A saved quote (`id` 0 is an unsaved one) and its items. */
  datatype QuoteRef = QuoteRef(id: nat, items: seq<QuoteItem>)

  /** True iff the quote is saved, has items, and every item is a
      subscription with a trial. */
  function HasOnlyTrialSubscriptions(quote: Option<QuoteRef>, ctx: Ctx): (r: Result<bool>)
    ensures quote.None? || quote.value.id == 0 ==> r == Success(false)
    ensures r == Success(true) <==>
      quote.Some? && quote.value.id != 0 && |quote.value.items| > 0
      && forall i :: 0 <= i < |quote.value.items| ==> HasTrial(quote.value.items[i], ctx)
    ensures r.Failure? ==> r.error == InvalidQuoteItem
  {
    if quote.None? || quote.value.id == 0 then Success(false)
    else
      var all :- AllTrials(quote.value.items, ctx);
      Success(all && |quote.value.items| > 0)
  }

  /** The ids of the items in `all` whose parent is `parentId`, in order. */
  function ChildIds(all: seq<QuoteItem>, parentId: nat): (r: seq<nat>)
    ensures forall k :: 0 <= k < |r| ==> exists j :: 0 <= j < |all| && all[j].parentItemId == parentId && all[j].id == r[k]
    ensures forall j :: 0 <= j < |all| && all[j].parentItemId == parentId ==> all[j].id in r
  {
    if |all| == 0 then []
    else
      var rest := ChildIds(all[1..], parentId);
      var r := if all[0].parentItemId == parentId then [all[0].id] + rest else rest;
      var shift := if all[0].parentItemId == parentId then 1 else 0;
      assert forall k :: shift <= k < |r| ==> r[k] == rest[k - shift];
      assert forall k :: 0 <= k < |r| ==> exists j :: 0 <= j < |all| && all[j].parentItemId == parentId && all[j].id == r[k] by {
        forall k | 0 <= k < |r|
          ensures exists j :: 0 <= j < |all| && all[j].parentItemId == parentId && all[j].id == r[k]
        {
          if k < shift {
            assert all[0].parentItemId == parentId && all[0].id == r[k];
          } else {
            var j :| 0 <= j < |all[1..]| && all[1..][j].parentItemId == parentId && all[1..][j].id == rest[k - shift];
            assert all[j + 1] == all[1..][j];
          }
        }
      }
      assert forall j :: 0 <= j < |all| && all[j].parentItemId == parentId ==> all[j].id in r by {
        forall j | 0 <= j < |all| && all[j].parentItemId == parentId
          ensures all[j].id in r
        {
          if j > 0 {
            assert all[1..][j - 1] == all[j];
          }
        }
      }
      r
  }

  /** What one non-billable subscription item adds: itself, or for the child
      of a bundle or configurable product, the parent and all its children. */
  function Contribution(x: QuoteItem, all: seq<QuoteItem>): seq<nat> {
    if x.parentItemId != 0 then [x.parentItemId] + ChildIds(all, x.parentItemId) else [x.id]
  }

  /** The id an item is known by when it is removed or left unbilled: its
      parent's for the child of a bundle or configurable product. */
  function ParentOrSelf(x: QuoteItem): nat {
    if x.parentItemId != 0 then x.parentItemId else x.id
  }

  /** `id` is an item the non-billable item `x` brings in: the item itself,
      or for a child, its parent and the parent's children. */
  predicate CoveredBy(id: nat, x: QuoteItem, all: seq<QuoteItem>) {
    id in Contribution(x, all)
  }

  /** Every id in `ids` is brought in by some non-billable item of `rest`. */
  ghost predicate AllCovered(ids: seq<nat>, rest: seq<QuoteItem>, all: seq<QuoteItem>, zero: QuoteItem -> bool) {
    forall k :: 0 <= k < |ids| ==> exists i :: 0 <= i < |rest| && zero(rest[i]) && CoveredBy(ids[k], rest[i], all)
  }

  /** Everything a non-billable item of `rest` brings in is in `ids`. */
  ghost predicate AllContributed(ids: seq<nat>, rest: seq<QuoteItem>, all: seq<QuoteItem>, zero: QuoteItem -> bool) {
    forall i, y :: 0 <= i < |rest| && zero(rest[i]) && y in Contribution(rest[i], all) ==> y in ids
  }

  /** Reference order of the non-billable ids: the contributions of the
      items that pass `zero`, in item order, each parent followed by its
      children in item order. */
  function Contributions(rest: seq<QuoteItem>, all: seq<QuoteItem>, zero: QuoteItem -> bool): seq<nat> {
    if |rest| == 0 then []
    else (if zero(rest[0]) then Contribution(rest[0], all) else []) + Contributions(rest[1..], all, zero)
  }

  function NonBillableFrom(rest: seq<QuoteItem>, all: seq<QuoteItem>, zero: QuoteItem -> bool): (r: Result<seq<nat>>)
    ensures r.Failure? <==> exists i :: 0 <= i < |rest| && !Valid(rest[i])
    ensures r.Failure? ==> r.error == InvalidQuoteItem
    ensures r.Success? ==> AllCovered(r.value, rest, all, zero)
    ensures r.Success? ==> AllContributed(r.value, rest, all, zero)
    ensures r.Success? ==> r.value == Contributions(rest, all, zero)
  {
    if |rest| == 0 then Success([])
    else
      assert forall i :: 1 <= i < |rest| ==> rest[i] == rest[1..][i - 1];
      var x := rest[0];
      if !Valid(x) then Failure(InvalidQuoteItem)
      else
        var tail :- NonBillableFrom(rest[1..], all, zero);
        var c := if zero(x) then Contribution(x, all) else [];
        NonBillableCons(rest, all, zero, tail);
        Success(c + tail)
  }

  /** Adding the head's contribution in front of what the tail brought in
      keeps both directions of the characterisation. */
  lemma NonBillableCons(rest: seq<QuoteItem>, all: seq<QuoteItem>, zero: QuoteItem -> bool, tail: seq<nat>)
    requires |rest| > 0
    requires AllCovered(tail, rest[1..], all, zero)
    requires AllContributed(tail, rest[1..], all, zero)
    ensures var c := if zero(rest[0]) then Contribution(rest[0], all) else [];
      && AllCovered(c + tail, rest, all, zero)
      && AllContributed(c + tail, rest, all, zero)
  {
    ConsCovered(rest, all, zero, tail);
    ConsContributed(rest, all, zero, tail);
  }

  lemma ConsCovered(rest: seq<QuoteItem>, all: seq<QuoteItem>, zero: QuoteItem -> bool, tail: seq<nat>)
    requires |rest| > 0
    requires AllCovered(tail, rest[1..], all, zero)
    ensures AllCovered((if zero(rest[0]) then Contribution(rest[0], all) else []) + tail, rest, all, zero)
  {
    var c := if zero(rest[0]) then Contribution(rest[0], all) else [];
    var r := c + tail;
    forall k | 0 <= k < |r|
      ensures exists i :: 0 <= i < |rest| && zero(rest[i]) && CoveredBy(r[k], rest[i], all)
    {
      if k < |c| {
        assert r[k] == c[k] && zero(rest[0]) && CoveredBy(r[k], rest[0], all);
      } else {
        assert r[k] == tail[k - |c|];
        var i :| 0 <= i < |rest[1..]| && zero(rest[1..][i]) && CoveredBy(tail[k - |c|], rest[1..][i], all);
        assert rest[i + 1] == rest[1..][i];
      }
    }
  }

  lemma ConsContributed(rest: seq<QuoteItem>, all: seq<QuoteItem>, zero: QuoteItem -> bool, tail: seq<nat>)
    requires |rest| > 0
    requires AllContributed(tail, rest[1..], all, zero)
    ensures AllContributed((if zero(rest[0]) then Contribution(rest[0], all) else []) + tail, rest, all, zero)
  {
    var c := if zero(rest[0]) then Contribution(rest[0], all) else [];
    forall i, y | 0 <= i < |rest| && zero(rest[i]) && y in Contribution(rest[i], all)
      ensures y in c + tail
    {
      if i > 0 {
        assert rest[1..][i - 1] == rest[i];
      }
    }
  }

  /** Every item belongs to what it contributes. */
  lemma IdInContribution(all: seq<QuoteItem>, j: nat)
    requires j < |all|
    ensures all[j].id in Contribution(all[j], all)
  {
    if all[j].parentItemId != 0 {
      assert all[j].id in ChildIds(all, all[j].parentItemId);
    }
  }

  /** The test `getNonBillableSubscriptionItems` applies to each item. */
  function ZeroPricedTest(ctx: Ctx): (test: QuoteItem -> bool)
    ensures forall item :: test(item) <==> IsZeroPriced(item, ctx)
  {
    (item: QuoteItem) => IsZeroPriced(item, ctx)
  }

  /** The items a first order does not bill: the subscriptions with a zero
      initial order price, each with its parent and siblings. */
  function GetNonBillableSubscriptionItems(items: seq<QuoteItem>, ctx: Ctx): (r: Result<seq<nat>>)
    ensures r.Failure? <==> exists i :: 0 <= i < |items| && !Valid(items[i])
    ensures r.Failure? ==> r.error == InvalidQuoteItem
    ensures r.Success? ==> AllCovered(r.value, items, items, ZeroPricedTest(ctx))
    ensures r.Success? ==> AllContributed(r.value, items, items, ZeroPricedTest(ctx))
    ensures r.Success? ==> r.value == Contributions(items, items, ZeroPricedTest(ctx))
    ensures r.Success? ==>
      forall i :: 0 <= i < |items| && ZeroPricedTest(ctx)(items[i]) ==> items[i].id in r.value
    ensures r.Success? ==>
      forall i :: 0 <= i < |items| && IsZeroPriced(items[i], ctx) && items[i].parentItemId != 0 ==>
        && items[i].parentItemId in r.value
        && forall j :: 0 <= j < |items| && items[j].parentItemId == items[i].parentItemId ==> items[j].id in r.value
  {
    var zero := ZeroPricedTest(ctx);
    var r := NonBillableFrom(items, items, zero);
    if r.Success? then
      OwnIdsIncluded(items, zero, r.value);
      ParentAndSiblingsIncluded(items, zero, r.value);
      r
    else r
  }

  /** A non-billable child brings in its parent and every item of that parent. */
  lemma ParentAndSiblingsIncluded(items: seq<QuoteItem>, zero: QuoteItem -> bool, ids: seq<nat>)
    requires AllContributed(ids, items, items, zero)
    ensures forall i :: 0 <= i < |items| && zero(items[i]) && items[i].parentItemId != 0 ==>
      && items[i].parentItemId in ids
      && forall j :: 0 <= j < |items| && items[j].parentItemId == items[i].parentItemId ==> items[j].id in ids
  {
    forall i | 0 <= i < |items| && zero(items[i]) && items[i].parentItemId != 0
      ensures items[i].parentItemId in ids
      ensures forall j :: 0 <= j < |items| && items[j].parentItemId == items[i].parentItemId ==> items[j].id in ids
    {
      var c := Contribution(items[i], items);
      assert c[0] == items[i].parentItemId;
      forall j | 0 <= j < |items| && items[j].parentItemId == items[i].parentItemId
        ensures items[j].id in ids
      {
        assert items[j].id in ChildIds(items, items[i].parentItemId);
        assert items[j].id in c;
      }
    }
  }

  /** Every non-billable item's own id is among the ids its items bring in. */
  lemma OwnIdsIncluded(items: seq<QuoteItem>, zero: QuoteItem -> bool, ids: seq<nat>)
    requires AllContributed(ids, items, items, zero)
    ensures forall i :: 0 <= i < |items| && zero(items[i]) ==> items[i].id in ids
  {
    forall i | 0 <= i < |items| && zero(items[i])
      ensures items[i].id in ids
    {
      IdInContribution(items, i);
    }
  }

  /** What `removeSubscriptions` does: the ids handed to the quote's
      `removeItem` (a child's parent, or the item itself), and whether any
      was handed over. */
  datatype Removal = Removal(removedIds: seq<nat>, removed: bool)

  /** Every id in `ids` is the removal id of some item `sub` selects. */
  ghost predicate AllRemovedFrom(ids: seq<nat>, items: seq<QuoteItem>, sub: QuoteItem -> bool) {
    forall k :: 0 <= k < |ids| ==> exists i :: 0 <= i < |items| && sub(items[i]) && ids[k] == ParentOrSelf(items[i])
  }

  /** Every item `sub` selects has its removal id in `ids`. */
  ghost predicate AllRemovedIncluded(ids: seq<nat>, items: seq<QuoteItem>, sub: QuoteItem -> bool) {
    forall i :: 0 <= i < |items| && sub(items[i]) ==> ParentOrSelf(items[i]) in ids
  }

  /** The removal ids of the items `sub` selects, in quote order. */
  function RemovedIdsFrom(items: seq<QuoteItem>, sub: QuoteItem -> bool): (r: Result<seq<nat>>)
    ensures r.Failure? <==> exists i :: 0 <= i < |items| && !Valid(items[i])
    ensures r.Failure? ==> r.error == InvalidQuoteItem
    ensures r.Success? ==> AllRemovedFrom(r.value, items, sub) && AllRemovedIncluded(r.value, items, sub)
  {
    if |items| == 0 then Success([])
    else
      assert forall i :: 1 <= i < |items| ==> items[i] == items[1..][i - 1];
      if !Valid(items[0]) then Failure(InvalidQuoteItem)
      else
        var tail :- RemovedIdsFrom(items[1..], sub);
        RemovedCons(items, sub, tail);
        Success((if sub(items[0]) then [ParentOrSelf(items[0])] else []) + tail)
  }

  lemma RemovedCons(items: seq<QuoteItem>, sub: QuoteItem -> bool, tail: seq<nat>)
    requires |items| > 0
    requires AllRemovedFrom(tail, items[1..], sub) && AllRemovedIncluded(tail, items[1..], sub)
    ensures var r := (if sub(items[0]) then [ParentOrSelf(items[0])] else []) + tail;
      AllRemovedFrom(r, items, sub) && AllRemovedIncluded(r, items, sub)
  {
    var c := if sub(items[0]) then [ParentOrSelf(items[0])] else [];
    var r := c + tail;
    forall k | 0 <= k < |r|
      ensures exists i :: 0 <= i < |items| && sub(items[i]) && r[k] == ParentOrSelf(items[i])
    {
      if k < |c| {
        assert sub(items[0]) && r[k] == ParentOrSelf(items[0]);
      } else {
        assert r[k] == tail[k - |c|];
        var i :| 0 <= i < |items[1..]| && sub(items[1..][i]) && tail[k - |c|] == ParentOrSelf(items[1..][i]);
        assert items[i + 1] == items[1..][i];
      }
    }
    forall i | 0 <= i < |items| && sub(items[i])
      ensures ParentOrSelf(items[i]) in r
    {
      if i == 0 {
        assert r[0] == ParentOrSelf(items[0]);
      } else {
        assert items[1..][i - 1] == items[i];
      }
    }
  }

  /** Something is removed iff some item is selected. */
  lemma RemovedNonEmpty(ids: seq<nat>, items: seq<QuoteItem>, sub: QuoteItem -> bool)
    requires AllRemovedFrom(ids, items, sub) && AllRemovedIncluded(ids, items, sub)
    ensures |ids| > 0 <==> exists i :: 0 <= i < |items| && sub(items[i])
  {
    if |ids| > 0 {
      var first := ids[0];
      assert exists i :: 0 <= i < |items| && sub(items[i]) && first == ParentOrSelf(items[i]);
    }
    if exists i :: 0 <= i < |items| && sub(items[i]) {
      var i :| 0 <= i < |items| && sub(items[i]);
      assert ParentOrSelf(items[i]) in ids;
    }
  }

  /** The test `removeSubscriptions` applies to each item. */
  function SubscriptionTest(ctx: Ctx): (test: QuoteItem -> bool)
    ensures forall item :: test(item) <==> IsSubscriptionItem(item, ctx)
  {
    (item: QuoteItem) => IsSubscriptionItem(item, ctx)
  }

  function RemovedIds(items: seq<QuoteItem>, ctx: Ctx): (r: Result<seq<nat>>)
    ensures r.Failure? <==> exists i :: 0 <= i < |items| && !Valid(items[i])
    ensures r.Failure? ==> r.error == InvalidQuoteItem
    ensures r.Success? ==> (|r.value| > 0 <==> exists i :: 0 <= i < |items| && SubscriptionTest(ctx)(items[i]))
    ensures r.Success? ==> AllRemovedFrom(r.value, items, SubscriptionTest(ctx))
    ensures r.Success? ==> AllRemovedIncluded(r.value, items, SubscriptionTest(ctx))
  {
    var sub := SubscriptionTest(ctx);
    var r := RemovedIdsFrom(items, sub);
    if r.Success? then
      RemovedNonEmpty(r.value, items, sub);
      r
    else r
  }

  /** Every subscription item is removed (through its parent when it has
      one); the answer is true iff something was removed. */
  function RemoveSubscriptions(items: seq<QuoteItem>, ctx: Ctx): (r: Result<Removal>)
    ensures r.Failure? <==> exists i :: 0 <= i < |items| && !Valid(items[i])
    ensures r.Success? ==> (r.value.removed <==> exists i :: 0 <= i < |items| && SubscriptionTest(ctx)(items[i]))
    ensures r.Success? ==> r.value.removed == (|r.value.removedIds| > 0)
    ensures r.Success? ==> AllRemovedIncluded(r.value.removedIds, items, SubscriptionTest(ctx))
  {
    var ids :- RemovedIds(items, ctx);
    Success(Removal(ids, |ids| > 0))
  }

  /** The quote cache: a non-numeric id (`None`) loads nothing; a cached id
      is served from the cache; any other id is loaded once and cached. */
  function LoadQuoteById<Q>(cache: map<nat, Q>, quoteId: Option<nat>, load: nat -> Q): (r: (Option<Q>, map<nat, Q>))
    ensures quoteId.None? ==> r == (None, cache)
    ensures quoteId.Some? ==>
      && quoteId.value in r.1 && r.0 == Some(r.1[quoteId.value])
      && (quoteId.value in cache ==> r.1 == cache && r.0 == Some(cache[quoteId.value]))
      && (quoteId.value !in cache ==> r.1 == cache[quoteId.value := load(quoteId.value)])
  {
    match quoteId
    case None => (None, cache)
    case Some(id) =>
      if id in cache then (Some(cache[id]), cache)
      else
        var updated := cache[id := load(id)];
        (Some(updated[id]), updated)
  }

  /** Loading twice gives the same quote and leaves the cache as the first
      load left it. */
  lemma LoadQuoteByIdIdempotent<Q>(cache: map<nat, Q>, quoteId: Option<nat>, load: nat -> Q)
    ensures var (q1, c1) := LoadQuoteById(cache, quoteId, load);
      LoadQuoteById(c1, quoteId, load) == (q1, c1)
  {
  }

  /** The quote state `reCollectTotals` touches: the cached item lists of
      both addresses, whether shipping rates are to be collected, each item's
      tax-calculation price (`None` once unset), the totals-collected flag,
      and the shipping method. */
  datatype QuoteTotals = QuoteTotals(
    isVirtual: bool,
    billingCachedItems: bool,
    shippingCachedItems: bool,
    collectShippingRates: bool,
    taxCalculationPrices: seq<Option<int>>,
    totalsCollectedFlag: bool,
    shippingMethod: string)

  /** The quote as handed to Magento's total collection. */
  function PrepareForCollect(q: QuoteTotals): (r: QuoteTotals)
    ensures !r.billingCachedItems && !r.totalsCollectedFlag
    ensures |r.taxCalculationPrices| == |q.taxCalculationPrices|
    ensures forall i :: 0 <= i < |r.taxCalculationPrices| ==> r.taxCalculationPrices[i].None?
    ensures q.isVirtual ==> r.shippingCachedItems == q.shippingCachedItems && r.collectShippingRates == q.collectShippingRates
    ensures !q.isVirtual ==> !r.shippingCachedItems && r.collectShippingRates
    ensures r.isVirtual == q.isVirtual && r.shippingMethod == q.shippingMethod
  {
    var cleared := seq(|q.taxCalculationPrices|, _ => None);
    var base := q.(billingCachedItems := false, taxCalculationPrices := cleared, totalsCollectedFlag := false);
    if q.isVirtual then base
    else base.(shippingCachedItems := false, collectShippingRates := true)
  }

  /** Re-collects the totals with `collect` (Magento's total collection,
      which may reset the shipping method) and puts a non-virtual quote's
      shipping method back. */
  function ReCollectTotals(q: QuoteTotals, collect: QuoteTotals -> QuoteTotals): (r: QuoteTotals)
    ensures !q.isVirtual && !Empty(q.shippingMethod) ==>
      r == collect(PrepareForCollect(q)).(shippingMethod := q.shippingMethod)
    ensures q.isVirtual || Empty(q.shippingMethod) ==> r == collect(PrepareForCollect(q))
  {
    var shippingMethod := if q.isVirtual then "" else q.shippingMethod;
    var after := collect(PrepareForCollect(q));
    if !Empty(shippingMethod) then after.(shippingMethod := shippingMethod) else after
  }

  /** Whatever the collection does to it, a non-virtual quote keeps its
      shipping method. */
  lemma ReCollectKeepsShippingMethod(q: QuoteTotals, collect: QuoteTotals -> QuoteTotals)
    requires !q.isVirtual && !Empty(q.shippingMethod)
    ensures ReCollectTotals(q, collect).shippingMethod == q.shippingMethod
  {
  }
}
