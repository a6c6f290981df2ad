/** The subscription helper's pricing and reconciliation rules: the price
    profile of one subscription item and its totals, the expiring-coupon
    offset, combining several profiles into one price, and the decision to
    patch or recreate an existing Stripe subscription. */
module Subscriptions {
  import opened Wrappers
  import opened Php
  import opened Values

  /** A subscription item's price profile. Magento amounts are Dec4; the
      `...Stripe` amounts are in the currency's minor unit; `taxPercent` is a
      Dec4 percentage; `qty` is a whole number of units. */
  datatype Profile = Profile(
    qty: int,
    amountMagento: int,
    baseAmountMagento: int,
    shippingMagento: int,
    discountAmountMagento: int,
    baseDiscountAmountMagento: int,
    discountAmountStripe: int,
    taxPercent: int,
    taxAmountShipping: int,
    taxAmountItem: int,
    baseTaxAmountItem: int,
    taxAmountItemStripe: int,
    expiringCoupon: bool,
    expiringTaxAmountItem: int,
    expiringBaseTaxAmountItem: int,
    expiringDiscountAmountMagento: int,
    expiringBaseDiscountAmountMagento: int,
    trialDays: int,
    currency: string,
    interval: string,
    intervalCount: int,
    productId: nat)

  /** The two tax display settings the totals depend on. */
  datatype TaxConfig = TaxConfig(shippingIncludesTax: bool, priceIncludesTax: bool)

  /** The Magento to Stripe amount conversion (not part of this model). */
  type ToStripe = (int, string) -> int

  /** The amount charged per period before rounding: item price times
      quantity, plus shipping, minus the discount, plus whichever taxes the
      prices do not already include. */
  function ExactTotal(p: Profile, c: TaxConfig): int {
    p.qty * p.amountMagento + p.shippingMagento - p.discountAmountMagento
    + (if c.shippingIncludesTax then 0 else p.taxAmountShipping)
    + (if c.priceIncludesTax then 0 else p.taxAmountItem)
  }

  /** The profile total, rounded to two decimals. */
  function GetSubscriptionTotalFromProfile(p: Profile, c: TaxConfig): (r: int)
    ensures r % 100 == 0
    ensures 2 * Abs(ExactTotal(p, c) - r) <= 100
    ensures NearestAwayFromZero(ExactTotal(p, c), 100, r / 100)
  {
    RoundDec4(ExactTotal(p, c), 2)
  }

  /** With an expiring coupon the discount is added back, so that the coupon
      can bring the price down again while it lasts. */
  function GetSubscriptionTotalWithDiscountAdjustmentFromProfile(p: Profile, c: TaxConfig): (r: int)
    ensures !p.expiringCoupon ==> r == GetSubscriptionTotalFromProfile(p, c)
    ensures p.expiringCoupon ==> r == GetSubscriptionTotalFromProfile(p, c) + p.discountAmountMagento
  {
    var total := GetSubscriptionTotalFromProfile(p, c);
    if p.expiringCoupon then total + p.discountAmountMagento else total
  }

  /** The Stripe discount adjustment applies to trial carts with an expiring
      coupon only; `None` is a subscription without a profile. */
  function GetStripeDiscountAdjustment(profile: Option<Profile>): (r: int)
    ensures r != 0 ==> profile.Some? && profile.value.trialDays != 0 && profile.value.expiringCoupon
    ensures profile.Some? && profile.value.trialDays != 0 && profile.value.expiringCoupon ==>
      r == profile.value.discountAmountStripe
  {
    match profile
    case None => 0
    case Some(p) =>
      if p.trialDays == 0 then 0
      else if p.expiringCoupon then p.discountAmountStripe
      else 0
  }

  /** `round($amount * $qty * ($taxPercent / 100), $precision)` as a Dec4
      amount. */
  function TaxAtPercent(amount: int, qty: int, taxPercent: int, precision: nat): (r: int)
    requires precision <= 4
    ensures r % Pow10(4 - precision) == 0
    ensures NearestAwayFromZero(amount * qty * taxPercent, 100 * Scale * Pow10(4 - precision), r / Pow10(4 - precision))
  {
    var unit := Pow10(4 - precision);
    var k := RoundDiv(amount * qty * taxPercent, 100 * Scale * unit);
    MultipleDivMod(k, unit);
    k * unit
  }

  /** With an expiring coupon the item tax is raised to the tax of the
      undiscounted amount, the discount is raised by the same difference
      (so the charge does not move while the coupon lasts), and the
      difference is recorded in the `expiring...` fields. */
  function ApplyExpiringCoupon(p: Profile, precision: nat, basePrecision: nat, toStripe: ToStripe): (r: Profile)
    requires precision <= 4 && basePrecision <= 4
    ensures !p.expiringCoupon ==> r == p
    ensures p.expiringCoupon ==>
      && r.taxAmountItem == TaxAtPercent(p.amountMagento, p.qty, p.taxPercent, precision)
      && r.baseTaxAmountItem == TaxAtPercent(p.baseAmountMagento, p.qty, p.taxPercent, basePrecision)
      && r.taxAmountItemStripe == toStripe(r.taxAmountItem, p.currency)
      && r.discountAmountMagento - p.discountAmountMagento == r.taxAmountItem - p.taxAmountItem
      && r.baseDiscountAmountMagento - p.baseDiscountAmountMagento == r.baseTaxAmountItem - p.baseTaxAmountItem
      && r.discountAmountStripe - p.discountAmountStripe == r.taxAmountItemStripe - p.taxAmountItemStripe
      && r.expiringTaxAmountItem == r.expiringDiscountAmountMagento == r.taxAmountItem - p.taxAmountItem
      && r.expiringBaseTaxAmountItem == r.expiringBaseDiscountAmountMagento == r.baseTaxAmountItem - p.baseTaxAmountItem
      && r.(taxAmountItem := p.taxAmountItem, baseTaxAmountItem := p.baseTaxAmountItem,
            taxAmountItemStripe := p.taxAmountItemStripe, discountAmountMagento := p.discountAmountMagento,
            baseDiscountAmountMagento := p.baseDiscountAmountMagento, discountAmountStripe := p.discountAmountStripe,
            expiringTaxAmountItem := p.expiringTaxAmountItem, expiringBaseTaxAmountItem := p.expiringBaseTaxAmountItem,
            expiringDiscountAmountMagento := p.expiringDiscountAmountMagento,
            expiringBaseDiscountAmountMagento := p.expiringBaseDiscountAmountMagento) == p
  {
    if !p.expiringCoupon then p
    else
      var tax := TaxAtPercent(p.amountMagento, p.qty, p.taxPercent, precision);
      var baseTax := TaxAtPercent(p.baseAmountMagento, p.qty, p.taxPercent, basePrecision);
      var taxStripe := toStripe(tax, p.currency);
      var diff := tax - p.taxAmountItem;
      var baseDiff := baseTax - p.baseTaxAmountItem;
      var stripeDiff := taxStripe - p.taxAmountItemStripe;
      p.(taxAmountItem := p.taxAmountItem + diff,
         baseTaxAmountItem := p.baseTaxAmountItem + baseDiff,
         taxAmountItemStripe := p.taxAmountItemStripe + stripeDiff,
         discountAmountMagento := p.discountAmountMagento + diff,
         baseDiscountAmountMagento := p.baseDiscountAmountMagento + baseDiff,
         discountAmountStripe := p.discountAmountStripe + stripeDiff,
         expiringTaxAmountItem := diff,
         expiringBaseTaxAmountItem := baseDiff,
         expiringDiscountAmountMagento := diff,
         expiringBaseDiscountAmountMagento := baseDiff)
  }

  /** When prices exclude tax, the expiring-coupon offset leaves the profile
      total where it was: the extra tax and the extra discount cancel. */
  lemma ExpiringCouponKeepsTotal(p: Profile, c: TaxConfig, precision: nat, basePrecision: nat, toStripe: ToStripe)
    requires precision <= 4 && basePrecision <= 4
    requires !c.priceIncludesTax
    ensures GetSubscriptionTotalFromProfile(ApplyExpiringCoupon(p, precision, basePrecision, toStripe), c)
         == GetSubscriptionTotalFromProfile(p, c)
  {
    var r := ApplyExpiringCoupon(p, precision, basePrecision, toStripe);
    assert ExactTotal(r, c) == ExactTotal(p, c);
  }

  /** The only parameters Stripe lets an existing subscription change. */
  const Updateable: set<string> := {"metadata", "trial_end", "description", "default_payment_method"}

  function FilterToUpdateableParams(params: map<string, Value>): (r: map<string, Value>)
    ensures r.Keys == params.Keys * Updateable
    ensures forall k :: k in r ==> r[k] == params[k]
  {
    map k | k in params && k in Updateable :: params[k]
  }

  /** Filtering twice is filtering once. */
  lemma FilterIdempotent(params: map<string, Value>)
    ensures FilterToUpdateableParams(FilterToUpdateableParams(params)) == FilterToUpdateableParams(params)
  {
    var once := FilterToUpdateableParams(params);
    var twice := FilterToUpdateableParams(once);
    assert twice.Keys == once.Keys;
  }

  /** A line of the subscription's latest invoice; a non-empty recurring
      interval marks a subscription line, an empty one a one-time line. */
  datatype InvoiceLine = InvoiceLine(recurringInterval: string, priceId: string, quantity: int)

  datatype LatestInvoice = LatestInvoice(lines: seq<InvoiceLine>)

  /** The Stripe subscription as retrieved, with its latest invoice expanded. */
  datatype StripeSubscription = StripeSubscription(id: string, latestInvoice: Option<LatestInvoice>)

  /** One subscription item of the creation parameters. */
  datatype ParamItem = ParamItem(itemType: string, productIds: string, priceId: string, quantity: int)

  /** One `add_invoice_items` entry: a one-time charge on the first invoice. */
  datatype OneTimeItem = OneTimeItem(priceId: string, quantity: int)

  /** The creation parameters the cached subscription is checked against. */
  datatype SubscriptionParams = SubscriptionParams(
    customer: string,
    items: seq<ParamItem>,
    addInvoiceItems: seq<OneTimeItem>,
    coupon: string)

  /** What the latest invoice's discount must be: not checked without a
      latest invoice, unset without a requested coupon, the coupon otherwise. */
  datatype DiscountExpectation = NotChecked | MustBeUnset | MustBeCoupon(id: string)

  /** The values the subscription must still have to be reused. */
  datatype Expected = Expected(customer: string, items: seq<ParamItem>, discount: DiscountExpectation)

  /** The comparison helper (not part of this model): the reason the
      subscription differs from the expected values, if it does. */
  type Comparer = Expected -> Option<string>

  /** The comparison helper on one invoice line against a one-time item. */
  type LineComparer = (InvoiceLine, OneTimeItem) -> bool

  const ChangedPrefix: string := "Non-updateable subscription details have changed: "
  const RegularAdded: string := ChangedPrefix + "Regular items were added to the cart."
  const RegularRemoved: string := ChangedPrefix + "Regular items were removed from the cart."
  const OneTimeChanged: string := ChangedPrefix + "One time payment amount has changed."

  predicate IsRecurring(l: InvoiceLine) {
    !Empty(l.recurringInterval)
  }

  function Lines(s: StripeSubscription): seq<InvoiceLine> {
    if s.latestInvoice.Some? then s.latestInvoice.value.lines else []
  }

  function ExpectedValues(s: StripeSubscription, params: SubscriptionParams): (r: Expected)
    ensures r.customer == params.customer && r.items == params.items
    ensures s.latestInvoice.None? ==> r.discount == NotChecked
    ensures s.latestInvoice.Some? && Empty(params.coupon) ==> r.discount == MustBeUnset
    ensures s.latestInvoice.Some? && !Empty(params.coupon) ==> r.discount == MustBeCoupon(params.coupon)
  {
    var discount :=
      if s.latestInvoice.None? then NotChecked
      else if !Empty(params.coupon) then MustBeCoupon(params.coupon)
      else MustBeUnset;
    Expected(params.customer, params.items, discount)
  }

  /** Some one-time line of the invoice differs from the one-time item. */
  function OneTimeLineDiffers(lines: seq<InvoiceLine>, item: OneTimeItem, differs: LineComparer): (r: bool)
    ensures r <==> exists i :: 0 <= i < |lines| && !IsRecurring(lines[i]) && differs(lines[i], item)
  {
    if |lines| == 0 then false
    else
      var rest := OneTimeLineDiffers(lines[1..], item, differs);
      assert forall i :: 1 <= i < |lines| ==> lines[i] == lines[1..][i - 1];
      (!IsRecurring(lines[0]) && differs(lines[0], item)) || rest
  }

  /** The invoice has a one-time line. */
  function HasRegularLine(lines: seq<InvoiceLine>): (r: bool)
    ensures r <==> exists i :: 0 <= i < |lines| && !IsRecurring(lines[i])
  {
    if |lines| == 0 then false
    else
      var rest := HasRegularLine(lines[1..]);
      assert forall i :: 1 <= i < |lines| ==> lines[i] == lines[1..][i - 1];
      !IsRecurring(lines[0]) || rest
  }

  /** Fails when the cached subscription can no longer serve the cart:
      - with one-time items requested, the latest invoice must have lines, a
        one-time line, and no one-time line differing from the last
        requested item (the loop over the items keeps only the last);
      - without them, the invoice must have no one-time line;
      - then the customer, the items and the discount must match. */
  function InvalidateSubscription(s: StripeSubscription, params: SubscriptionParams,
                                  lineDiffers: LineComparer, differs: Comparer): (r: Result<()>)
    ensures |params.addInvoiceItems| > 0 && |Lines(s)| == 0 ==> r == Failure(RegularAdded)
    ensures |params.addInvoiceItems| > 0 && |Lines(s)| > 0 ==>
      var last := params.addInvoiceItems[|params.addInvoiceItems| - 1];
      && ((exists i :: 0 <= i < |Lines(s)| && !IsRecurring(Lines(s)[i]) && lineDiffers(Lines(s)[i], last))
            ==> r == Failure(OneTimeChanged))
      && ((forall i :: 0 <= i < |Lines(s)| ==> IsRecurring(Lines(s)[i])) ==> r == Failure(RegularAdded))
    ensures |params.addInvoiceItems| == 0 && (exists i :: 0 <= i < |Lines(s)| && !IsRecurring(Lines(s)[i])) ==>
      r == Failure(RegularRemoved)
    ensures r.Failure? && r.error != RegularAdded && r.error != RegularRemoved && r.error != OneTimeChanged ==>
      differs(ExpectedValues(s, params)).Some? && r.error == ChangedPrefix + differs(ExpectedValues(s, params)).value
    ensures r.Success? <==>
      && (|params.addInvoiceItems| > 0 ==>
            && |Lines(s)| > 0
            && HasRegularLine(Lines(s))
            && !OneTimeLineDiffers(Lines(s), params.addInvoiceItems[|params.addInvoiceItems| - 1], lineDiffers))
      && (|params.addInvoiceItems| == 0 ==> !HasRegularLine(Lines(s)))
      && differs(ExpectedValues(s, params)).None?
  {
    var lines := Lines(s);
    if |params.addInvoiceItems| > 0 then
      var last := params.addInvoiceItems[|params.addInvoiceItems| - 1];
      if |lines| == 0 then Failure(RegularAdded)
      else if OneTimeLineDiffers(lines, last, lineDiffers) then Failure(OneTimeChanged)
      else if !HasRegularLine(lines) then Failure(RegularAdded)
      else CompareExpected(s, params, differs)
    else if HasRegularLine(lines) then Failure(RegularRemoved)
    else CompareExpected(s, params, differs)
  }

  function CompareExpected(s: StripeSubscription, params: SubscriptionParams, differs: Comparer): (r: Result<()>)
    ensures r.Success? <==> differs(ExpectedValues(s, params)).None?
    ensures r.Failure? ==> r.error == ChangedPrefix + differs(ExpectedValues(s, params)).value
  {
    match differs(ExpectedValues(s, params))
    case Some(reason) => Failure(ChangedPrefix + reason)
    case None => Success(())
  }

  /** What happens to an existing subscription when its order is placed
      again: recreated (the old one cancelled), only recorded, patched with
      the updateable parameters, or left as it is. */
  datatype UpdateAction = Recreate | RecordOnly | Update(params: map<string, Value>) | Unchanged

  /** `sameAsSubscription` is the comparison helper's verdict on the
      updateable parameters against the subscription. */
  function DecideUpdate(check: Result<()>, params: map<string, Value>,
                        sameAsSubscription: map<string, Value> -> bool): (r: UpdateAction)
    ensures r == Recreate <==> check.Failure?
    ensures check.Success? && FilterToUpdateableParams(params) == map[] ==> r == RecordOnly
    ensures r.Update? ==>
      && r.params == FilterToUpdateableParams(params)
      && r.params.Keys <= Updateable
      && r.params != map[]
      && !sameAsSubscription(r.params)
    ensures r == Unchanged ==> sameAsSubscription(FilterToUpdateableParams(params))
  {
    if check.Failure? then Recreate
    else
      var update := FilterToUpdateableParams(params);
      if update == map[] then RecordOnly
      else if !sameAsSubscription(update) then Update(update)
      else Unchanged
  }

  /** A subscription whose non-updateable details still match is never
      recreated, and an update never carries a non-updateable key. */
  lemma MatchingSubscriptionIsPatched(s: StripeSubscription, sp: SubscriptionParams, params: map<string, Value>,
                                      lineDiffers: LineComparer, differs: Comparer,
                                      sameAsSubscription: map<string, Value> -> bool)
    requires InvalidateSubscription(s, sp, lineDiffers, differs).Success?
    ensures var a := DecideUpdate(InvalidateSubscription(s, sp, lineDiffers, differs), params, sameAsSubscription);
      a != Recreate && (a.Update? ==> forall k :: k in a.params ==> k in Updateable && a.params[k] == params[k])
  {
  }

  /** The price of several subscriptions bought together. */
  datatype CombinedProfile = CombinedProfile(
    magentoAmount: int,
    stripeAmount: int,
    interval: string,
    intervalCount: int,
    currency: string,
    productIds: seq<nat>)

  const MixedCurrencies: string := "It is not possible to buy multiple subscriptions in different currencies."
  const MixedIntervals: string := "Subscriptions that do not renew together must be bought separately."
  const NoSubscriptions: string := "No subscriptions specified."

  function SumAdjusted(ps: seq<Profile>, c: TaxConfig): int {
    if |ps| == 0 then 0
    else SumAdjusted(ps[..|ps| - 1], c) + GetSubscriptionTotalWithDiscountAdjustmentFromProfile(ps[|ps| - 1], c)
  }

  function ProductIds(ps: seq<Profile>): (r: seq<nat>)
    ensures |r| == |ps|
    ensures forall i :: 0 <= i < |ps| ==> r[i] == ps[i].productId
  {
    if |ps| == 0 then [] else ProductIds(ps[..|ps| - 1]) + [ps[|ps| - 1].productId]
  }

  /** A field the loop fills from the first profile with a truthy value and
      then requires every later profile to repeat (a falsy value included). */
  function MergeField(acc: string, next: string): Option<string> {
    if Empty(acc) then Some(next) else if acc != next then None else Some(acc)
  }

  function MergeCount(acc: int, next: int): Option<int> {
    if acc == 0 then Some(next) else if acc != next then None else Some(acc)
  }

  /** The two string fields the combination settles. */
  datatype StrField = CurrencyOf | IntervalOf

  function Get(f: StrField, p: Profile): string {
    match f
    case CurrencyOf => p.currency
    case IntervalOf => p.interval
  }

  /** Among the first `n` profiles, once one carries a truthy value of the
      string field `f`, every later one carries the same value. */
  predicate FieldConsistent(ps: seq<Profile>, n: nat, f: StrField)
    requires n <= |ps|
  {
    forall j, k :: 0 <= j < k < n && !Empty(Get(f, ps[j])) ==> Get(f, ps[k]) == Get(f, ps[j])
  }

  /** The same for the interval count, whose falsy value is 0. */
  predicate CountConsistent(ps: seq<Profile>, n: nat)
    requires n <= |ps|
  {
    forall j, k :: 0 <= j < k < n && ps[j].intervalCount != 0 ==> ps[k].intervalCount == ps[j].intervalCount
  }

  /** The first `n` profiles agree on currency, interval and interval count. */
  predicate Consistent(ps: seq<Profile>, n: nat)
    requires n <= |ps|
  {
    FieldConsistent(ps, n, CurrencyOf) && FieldConsistent(ps, n, IntervalOf) && CountConsistent(ps, n)
  }

  /** Profile `k` is the first to disagree, and it disagrees on the currency. */
  predicate CurrencyBreaksAt(ps: seq<Profile>, k: nat)
    requires k < |ps|
  {
    Consistent(ps, k) && !FieldConsistent(ps, k + 1, CurrencyOf)
  }

  /** Profile `k` is the first to disagree, with the same currency but a
      different interval or interval count. */
  predicate RenewalBreaksAt(ps: seq<Profile>, k: nat)
    requires k < |ps|
  {
    Consistent(ps, k) && FieldConsistent(ps, k + 1, CurrencyOf) && !Consistent(ps, k + 1)
  }

  predicate SomeCurrency(ps: seq<Profile>) {
    exists i :: 0 <= i < |ps| && !Empty(ps[i].currency)
  }

  /** Some profile is the first to disagree, on the currency. */
  predicate CurrencyBreaks(ps: seq<Profile>) {
    exists k :: 0 <= k < |ps| && CurrencyBreaksAt(ps, k)
  }

  /** Some profile is the first to disagree, on the interval or its count. */
  predicate RenewalBreaks(ps: seq<Profile>) {
    exists k :: 0 <= k < |ps| && RenewalBreaksAt(ps, k)
  }

  lemma ConsistentPrefix(ps: seq<Profile>, m: nat, n: nat)
    requires m <= n <= |ps| && Consistent(ps, n)
    ensures Consistent(ps, m)
  {
  }

  lemma BrokenStaysBroken(ps: seq<Profile>, m: nat, n: nat)
    requires m <= n <= |ps| && !Consistent(ps, m)
    ensures !Consistent(ps, n)
  {
    if Consistent(ps, n) {
      ConsistentPrefix(ps, m, n);
    }
  }

  /** Only the first disagreement counts: at most one profile breaks. */
  lemma {:induction false} FirstBreakUnique(ps: seq<Profile>, k: nat, k': nat)
    requires k < |ps| && k' < |ps|
    requires Consistent(ps, k) && !Consistent(ps, k + 1)
    requires Consistent(ps, k') && !Consistent(ps, k' + 1)
    ensures k == k'
  {
    if k < k' {
      ConsistentPrefix(ps, k + 1, k');
    } else if k' < k {
      ConsistentPrefix(ps, k' + 1, k);
    }
  }

  /** Profiles that all agree break nowhere. */
  lemma Unbroken(ps: seq<Profile>)
    requires Consistent(ps, |ps|)
    ensures !CurrencyBreaks(ps) && !RenewalBreaks(ps)
  {
    forall k | 0 <= k < |ps|
      ensures !CurrencyBreaksAt(ps, k) && !RenewalBreaksAt(ps, k)
    {
      ConsistentPrefix(ps, k + 1, |ps|);
    }
  }

  /** A currency break at `k` rules out success and a renewal break. */
  lemma CurrencyBreakExcludes(ps: seq<Profile>, k: nat)
    requires k < |ps| && CurrencyBreaksAt(ps, k)
    ensures CurrencyBreaks(ps) && !RenewalBreaks(ps) && !Consistent(ps, |ps|)
  {
    BrokenStaysBroken(ps, k + 1, |ps|);
    forall k' | 0 <= k' < |ps|
      ensures !RenewalBreaksAt(ps, k')
    {
      if RenewalBreaksAt(ps, k') {
        FirstBreakUnique(ps, k, k');
      }
    }
  }

  /** A renewal break at `k` rules out success and a currency break. */
  lemma RenewalBreakExcludes(ps: seq<Profile>, k: nat)
    requires k < |ps| && RenewalBreaksAt(ps, k)
    ensures RenewalBreaks(ps) && !CurrencyBreaks(ps) && !Consistent(ps, |ps|)
  {
    BrokenStaysBroken(ps, k + 1, |ps|);
    forall k' | 0 <= k' < |ps|
      ensures !CurrencyBreaksAt(ps, k')
    {
      if CurrencyBreaksAt(ps, k') {
        FirstBreakUnique(ps, k, k');
      }
    }
  }

  /** What the loop knows about a string field after `i` profiles, `v`
      being the value it has settled on ("" while none is truthy, otherwise
      the value of some profile already read). */
  ghost predicate StrFieldInv(ps: seq<Profile>, i: nat, v: string, f: StrField)
    requires i <= |ps|
  {
    && (Empty(v) <==> forall j :: 0 <= j < i ==> Empty(Get(f, ps[j])))
    && (forall j :: 0 <= j < i ==> Empty(Get(f, ps[j])) || Get(f, ps[j]) == v)
    && FieldConsistent(ps, i, f)
  }

  lemma StrFieldStep(ps: seq<Profile>, i: nat, v: string, f: StrField)
    requires i < |ps| && StrFieldInv(ps, i, v, f)
    requires MergeField(v, Get(f, ps[i])).Some?
    ensures StrFieldInv(ps, i + 1, MergeField(v, Get(f, ps[i])).value, f)
  {
    var v' := MergeField(v, Get(f, ps[i])).value;
    if Empty(v) && !Empty(v') {
      assert Get(f, ps[i]) == v';
    }
  }

  /** A settled field that the next profile contradicts breaks consistency. */
  lemma StrFieldBreak(ps: seq<Profile>, i: nat, v: string, f: StrField)
    requires i < |ps| && StrFieldInv(ps, i, v, f)
    requires MergeField(v, Get(f, ps[i])).None?
    ensures !FieldConsistent(ps, i + 1, f)
  {
    var j :| 0 <= j < i && !Empty(Get(f, ps[j]));
    assert !Empty(Get(f, ps[j])) && Get(f, ps[i]) != Get(f, ps[j]);
  }

  /** The settled string fields, read back per profile. */
  lemma CurrencyFieldDone(ps: seq<Profile>, v: string)
    requires StrFieldInv(ps, |ps|, v, CurrencyOf)
    ensures forall i :: 0 <= i < |ps| ==> Empty(ps[i].currency) || ps[i].currency == v
    ensures forall j, k :: 0 <= j < k < |ps| && !Empty(ps[j].currency) ==> ps[k].currency == ps[j].currency
    ensures Empty(v) <==> !SomeCurrency(ps)
  {
    assert forall j :: 0 <= j < |ps| ==> Get(CurrencyOf, ps[j]) == ps[j].currency;
    if !Empty(v) {
      var j :| 0 <= j < |ps| && !Empty(Get(CurrencyOf, ps[j]));
      assert !Empty(ps[j].currency);
    }
  }

  lemma IntervalFieldDone(ps: seq<Profile>, v: string)
    requires StrFieldInv(ps, |ps|, v, IntervalOf)
    ensures forall i :: 0 <= i < |ps| ==> Empty(ps[i].interval) || ps[i].interval == v
    ensures forall j, k :: 0 <= j < k < |ps| && !Empty(ps[j].interval) ==> ps[k].interval == ps[j].interval
  {
    assert forall j :: 0 <= j < |ps| ==> Get(IntervalOf, ps[j]) == ps[j].interval;
  }

  ghost predicate CountFieldInv(ps: seq<Profile>, i: nat, v: int)
    requires i <= |ps|
  {
    && (v == 0 <==> forall j :: 0 <= j < i ==> ps[j].intervalCount == 0)
    && (forall j :: 0 <= j < i ==> ps[j].intervalCount == 0 || ps[j].intervalCount == v)
    && CountConsistent(ps, i)
  }

  lemma CountFieldStep(ps: seq<Profile>, i: nat, v: int)
    requires i < |ps| && CountFieldInv(ps, i, v)
    requires MergeCount(v, ps[i].intervalCount).Some?
    ensures CountFieldInv(ps, i + 1, MergeCount(v, ps[i].intervalCount).value)
  {
    var v' := MergeCount(v, ps[i].intervalCount).value;
    if v == 0 && v' != 0 {
      assert ps[i].intervalCount == v';
    }
  }

  lemma CountFieldBreak(ps: seq<Profile>, i: nat, v: int)
    requires i < |ps| && CountFieldInv(ps, i, v)
    requires MergeCount(v, ps[i].intervalCount).None?
    ensures !CountConsistent(ps, i + 1)
  {
    var j :| 0 <= j < i && ps[j].intervalCount != 0;
    assert ps[j].intervalCount != 0 && ps[i].intervalCount != ps[j].intervalCount;
  }

  /** The loop's state at profile `i` when that profile contradicts the
      settled currency. */
  lemma CurrencyBreakFrom(ps: seq<Profile>, i: nat, cur: string, itv: string, cnt: int)
    requires i < |ps| && StrFieldInv(ps, i, cur, CurrencyOf) && StrFieldInv(ps, i, itv, IntervalOf)
    requires CountFieldInv(ps, i, cnt)
    requires MergeField(cur, ps[i].currency).None?
    ensures CurrencyBreaksAt(ps, i)
  {
    StrFieldBreak(ps, i, cur, CurrencyOf);
  }

  /** The loop's state at profile `i` when that profile repeats the currency
      but contradicts the settled interval or interval count. */
  lemma RenewalBreakFrom(ps: seq<Profile>, i: nat, cur: string, itv: string, cnt: int)
    requires i < |ps| && StrFieldInv(ps, i + 1, cur, CurrencyOf) && StrFieldInv(ps, i, itv, IntervalOf)
    requires CountFieldInv(ps, i, cnt)
    requires MergeField(itv, ps[i].interval).None? || MergeCount(cnt, ps[i].intervalCount).None?
    ensures RenewalBreaksAt(ps, i)
  {
    assert FieldConsistent(ps, i, CurrencyOf);
    if MergeField(itv, ps[i].interval).None? {
      StrFieldBreak(ps, i, itv, IntervalOf);
    } else {
      CountFieldBreak(ps, i, cnt);
    }
  }

  /** Where the loop over the profiles ends: at the first profile that
      disagrees (on the currency or not), or after the last one with the
      settled fields and the summed amount. */
  datatype Scan = Broke(at: nat, onCurrency: bool) | Settled(currency: string, interval: string, count: int)

  /** What the loop knows after `i` profiles, the state being `Settled`. */
  ghost predicate ScanInv(ps: seq<Profile>, i: nat, s: Scan)
    requires i <= |ps|
  {
    && s.Settled?
    && StrFieldInv(ps, i, s.currency, CurrencyOf)
    && StrFieldInv(ps, i, s.interval, IntervalOf)
    && CountFieldInv(ps, i, s.count)
  }

  /** One profile read by the loop: either it is the first to disagree, or
      the fields settle further. */
  function ScanStep(ps: seq<Profile>, i: nat, s: Scan): (next: Scan)
    requires i < |ps| && ScanInv(ps, i, s)
    ensures next.Broke? ==> next.at == i && (next.onCurrency ==> CurrencyBreaksAt(ps, i))
                                         && (!next.onCurrency ==> RenewalBreaksAt(ps, i))
    ensures next.Settled? ==> ScanInv(ps, i + 1, next)
  {
    var p := ps[i];
    var mergedCurrency := MergeField(s.currency, p.currency);
    if mergedCurrency.None? then
      CurrencyBreakFrom(ps, i, s.currency, s.interval, s.count);
      Broke(i, true)
    else
      StrFieldStep(ps, i, s.currency, CurrencyOf);
      var mergedInterval := MergeField(s.interval, p.interval);
      var mergedCount := MergeCount(s.count, p.intervalCount);
      if mergedInterval.None? || mergedCount.None? then
        RenewalBreakFrom(ps, i, mergedCurrency.value, s.interval, s.count);
        Broke(i, false)
      else
        StrFieldStep(ps, i, s.interval, IntervalOf);
        CountFieldStep(ps, i, s.count);
        Settled(mergedCurrency.value, mergedInterval.value, mergedCount.value)
  }

  /** The loop of the combination over the currency, interval and interval
      count from profile `i` on, stopping at the first disagreement. */
  function ScanFrom(ps: seq<Profile>, i: nat, s: Scan): (r: Scan)
    requires i <= |ps| && ScanInv(ps, i, s)
    ensures r.Broke? ==> r.at < |ps| && (r.onCurrency ==> CurrencyBreaksAt(ps, r.at))
                                      && (!r.onCurrency ==> RenewalBreaksAt(ps, r.at))
    ensures r.Settled? ==> ScanInv(ps, |ps|, r)
    decreases |ps| - i
  {
    if i == |ps| then s
    else
      var next := ScanStep(ps, i, s);
      if next.Broke? then next else ScanFrom(ps, i + 1, next)
  }

  /** Combines the profiles in order: once a profile sets the currency, the
      interval or the interval count, every later profile must repeat it (the
      first mismatch is an error); the amount is the sum of the adjusted
      totals and the product ids keep the input order. No profile at all (no
      currency) is an error. */
  method GetCombinedProfileFromSubscriptions(ps: seq<Profile>, c: TaxConfig, toStripe: ToStripe)
    returns (r: Result<CombinedProfile>)
    ensures |ps| == 0 ==> r == Failure(NoSubscriptions)
    ensures r.Failure? ==> r.error == MixedCurrencies || r.error == MixedIntervals || r.error == NoSubscriptions
    ensures r.Success? <==> Consistent(ps, |ps|) && SomeCurrency(ps)
    ensures r == Failure(NoSubscriptions) <==> Consistent(ps, |ps|) && !SomeCurrency(ps)
    ensures r == Failure(MixedCurrencies) <==> CurrencyBreaks(ps)
    ensures r == Failure(MixedIntervals) <==> RenewalBreaks(ps)
    ensures r.Success? ==>
      && r.value.magentoAmount == SumAdjusted(ps, c)
      && r.value.productIds == ProductIds(ps)
      && r.value.stripeAmount == toStripe(r.value.magentoAmount, r.value.currency)
      && !Empty(r.value.currency)
      && (forall i :: 0 <= i < |ps| ==> Empty(ps[i].currency) || ps[i].currency == r.value.currency)
      && (forall i :: 0 <= i < |ps| ==> Empty(ps[i].interval) || ps[i].interval == r.value.interval)
      && (forall i :: 0 <= i < |ps| ==> ps[i].intervalCount == 0 || ps[i].intervalCount == r.value.intervalCount)
    ensures r.Success? ==>
      && (forall j, k :: 0 <= j < k < |ps| && !Empty(ps[j].currency) ==> ps[k].currency == ps[j].currency)
      && (forall j, k :: 0 <= j < k < |ps| && !Empty(ps[j].interval) ==> ps[k].interval == ps[j].interval)
      && (forall j, k :: 0 <= j < k < |ps| && ps[j].intervalCount != 0 ==> ps[k].intervalCount == ps[j].intervalCount)
  {
    var s := ScanFrom(ps, 0, Settled("", "", 0));
    match s
    case Broke(k, onCurrency) =>
      if onCurrency {
        CurrencyBreakExcludes(ps, k);
        r := Failure(MixedCurrencies);
      } else {
        RenewalBreakExcludes(ps, k);
        r := Failure(MixedIntervals);
      }
    case Settled(currency, interval, count) =>
      CurrencyFieldDone(ps, currency);
      Unbroken(ps);
      if Empty(currency) {
        r := Failure(NoSubscriptions);
      } else {
        IntervalFieldDone(ps, interval);
        var amount := SumAdjusted(ps, c);
        r := Success(CombinedProfile(amount, toStripe(amount, currency), interval, count, currency, ProductIds(ps)));
      }
  }
}
