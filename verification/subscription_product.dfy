/** A catalog product seen as a subscription: whether it is one, when it
    starts, whether it has a trial, and what its initial fee comes to. */
module SubscriptionProduct {
  import opened Wrappers
  import opened Php

  /** The catalog fields the model reads; an `id` of 0 is a product without
      an id. */
  datatype Product = Product(id: nat, typeId: string)

  /** A product's stored subscription options.
      - `subIntervalCount` is the stored count after PHP's `(int)` cast.
      - `startDate` is `None` when the stored value is not a string.
      - `subTrial` and `subInitialFee` are `None` when the stored value is not
        numeric; the initial fee is a Dec4 amount. */
  datatype Options = Options(
    subEnabled: bool,
    subInterval: string,
    subIntervalCount: int,
    startOnSpecificDate: bool,
    startDate: Option<string>,
    firstPayment: string,
    subTrial: Option<int>,
    subInitialFee: Option<int>,
    upgradesDowngrades: bool,
    prorateUpgrades: bool,
    prorateDowngrades: bool)

  /** The model's state: the product and its options, both set together once
      a product is recognised as a subscription. */
  datatype SubscriptionProduct = SubscriptionProduct(product: Option<Product>, details: Option<Options>)

  const Unloaded := SubscriptionProduct(None, None)

  type Catalog = nat -> Product
  type OptionsLookup = nat -> Option<Options>

  const InvalidSubscriptionProduct: string := "Invalid subscription product."
  const DetailsNotFound: string := "Subscription details not found."

  /** A product is a subscription iff it has an id, is simple or virtual, and
      has enabled options with an interval and a non-negative interval count. */
  predicate IsSubscriptionProductDef(p: Product, opts: OptionsLookup) {
    && p.id != 0
    && (p.typeId == "simple" || p.typeId == "virtual")
    && opts(p.id).Some?
    && opts(p.id).value.subEnabled
    && !Empty(opts(p.id).value.subInterval)
    && opts(p.id).value.subIntervalCount >= 0
  }

  /** The state invariant: a loaded product is a subscription and carries its
      own options. */
  ghost predicate Valid(sp: SubscriptionProduct, opts: OptionsLookup) {
    sp.product.Some? ==>
      IsSubscriptionProductDef(sp.product.value, opts) && sp.details == opts(sp.product.value.id)
  }

  /** The shared tail of the three loaders: a subscription product replaces
      the state; any other product leaves it as it was. */
  function Load(prior: SubscriptionProduct, p: Product, opts: OptionsLookup): (r: SubscriptionProduct)
    ensures IsSubscriptionProductDef(p, opts) ==> r.product == Some(p) && r.details.Some?
    ensures !IsSubscriptionProductDef(p, opts) ==> r == prior
    ensures Valid(prior, opts) ==> Valid(r, opts)
  {
    if IsSubscriptionProductDef(p, opts) then SubscriptionProduct(Some(p), opts(p.id))
    else prior
  }

  /** `productId` is the quote item's product id, `None` for a missing item
      or a missing product. */
  function FromQuoteItem(prior: SubscriptionProduct, productId: Option<nat>, catalog: Catalog,
                         opts: OptionsLookup): (r: Result<SubscriptionProduct>)
    ensures r.Failure? <==> productId.None?
    ensures r.Failure? ==> r.error == "Invalid quote item."
    ensures r.Success? ==> r.value == Load(prior, catalog(productId.value), opts)
  {
    match productId
    case None => Failure("Invalid quote item.")
    case Some(id) => Success(Load(prior, catalog(id), opts))
  }

  /** An order item's product id; 0 (no product) is refused. */
  function FromOrderItem(prior: SubscriptionProduct, productId: nat, catalog: Catalog,
                         opts: OptionsLookup): (r: Result<SubscriptionProduct>)
    ensures r.Failure? <==> productId == 0
    ensures r.Failure? ==> r.error == "Invalid order item."
    ensures r.Success? ==> r.value == Load(prior, catalog(productId), opts)
  {
    if productId == 0 then Failure("Invalid order item.") else Success(Load(prior, catalog(productId), opts))
  }

  function FromProductId(prior: SubscriptionProduct, productId: nat, catalog: Catalog,
                         opts: OptionsLookup): (r: Result<SubscriptionProduct>)
    ensures r.Failure? <==> productId == 0
    ensures r.Failure? ==> r.error == "Invalid product ID."
    ensures r.Success? ==> r.value == Load(prior, catalog(productId), opts)
  {
    if productId == 0 then Failure("Invalid product ID.") else Success(Load(prior, catalog(productId), opts))
  }

  /** Every loader keeps the state invariant, from the unloaded state on. */
  lemma LoadersKeepValid(prior: SubscriptionProduct, productId: nat, catalog: Catalog, opts: OptionsLookup)
    requires Valid(prior, opts)
    ensures FromProductId(prior, productId, catalog, opts).Success? ==>
      Valid(FromProductId(prior, productId, catalog, opts).value, opts)
    ensures FromOrderItem(prior, productId, catalog, opts).Success? ==>
      Valid(FromOrderItem(prior, productId, catalog, opts).value, opts)
    ensures FromQuoteItem(prior, Some(productId), catalog, opts).Success? ==>
      Valid(FromQuoteItem(prior, Some(productId), catalog, opts).value, opts)
  {
  }

  predicate IsDigit(c: char) {
    '0' <= c <= '9'
  }

  /** `YYYY-MM-DD` in ASCII digits. */
  predicate IsIsoDate(s: string) {
    |s| == 10 && s[4] == '-' && s[7] == '-'
    && IsDigit(s[0]) && IsDigit(s[1]) && IsDigit(s[2]) && IsDigit(s[3])
    && IsDigit(s[5]) && IsDigit(s[6]) && IsDigit(s[8]) && IsDigit(s[9])
  }

  /** PCRE's `/^\d{4}-\d{2}-\d{2}$/`: without the D modifier, `$` also
      matches just before a final newline. */
  predicate MatchesDatePattern(s: string) {
    IsIsoDate(s) || (|s| == 11 && s[10] == '\n' && IsIsoDate(s[..10]))
  }

  /** The product starts on a specific date iff it is loaded, the option is
      on, and the start date is a string matching the date pattern. */
  function HasStartDate(sp: SubscriptionProduct): (r: bool)
    ensures r ==> sp.product.Some? && sp.details.Some? && sp.details.value.startDate.Some?
    ensures r ==> |sp.details.value.startDate.value| >= 10
    ensures r <==> && sp.product.Some? && sp.details.Some? && sp.details.value.startOnSpecificDate
                   && sp.details.value.startDate.Some? && MatchesDatePattern(sp.details.value.startDate.value)
  {
    if sp.product.None? then false
    else if sp.details.None? then false
    else
      var o := sp.details.value;
      if !o.startOnSpecificDate || o.startDate.None? || Empty(o.startDate.value) then false
      else MatchesDatePattern(o.startDate.value)
  }

  function StartsOnOrderDate(sp: SubscriptionProduct): (r: bool)
    ensures r ==> HasStartDate(sp) && sp.details.value.firstPayment == "on_order_date"
  {
    HasStartDate(sp) && sp.details.value.firstPayment == "on_order_date"
  }

  function StartsOnStartDate(sp: SubscriptionProduct): (r: bool)
    ensures r ==> HasStartDate(sp) && sp.details.value.firstPayment == "on_start_date"
    ensures r ==> !StartsOnOrderDate(sp)
  {
    HasStartDate(sp) && sp.details.value.firstPayment == "on_start_date"
  }

  /** The server's calendar. `today` is `date("d")`; `dayOf(s)` is the day
      of the month of `date("d", strtotime(s))`. `strtotime` rolls a
      calendar-invalid date such as "2024-02-31" over into the next month,
      and a string it cannot read gives `false`, which `date` reads as the
      epoch, so the day is an input and not the string's characters 8-9. */
  datatype Calendar = Calendar(today: nat, dayOf: string -> nat)

  /** "Today" is decided on the day of the month alone: the clock's day
      against the start date's day, whatever their months and years. */
  function StartDateIsToday(sp: SubscriptionProduct, cal: Calendar): (r: bool)
    ensures r ==> HasStartDate(sp)
    ensures HasStartDate(sp) ==> (r <==> cal.dayOf(sp.details.value.startDate.value) == cal.today)
  {
    if !HasStartDate(sp) then false
    else cal.dayOf(sp.details.value.startDate.value) == cal.today
  }

  /** Trial days: an error on an unloaded state; none when a start date is
      set (the start date wins) or the stored trial is non-numeric or below 1. */
  function GetTrialDays(sp: SubscriptionProduct): (r: Result<Option<int>>)
    ensures sp.product.None? ==> r == Failure(InvalidSubscriptionProduct)
    ensures sp.product.Some? && sp.details.None? ==> r == Failure(DetailsNotFound)
    ensures r.Failure? <==> sp.product.None? || sp.details.None?
    ensures r.Success? && HasStartDate(sp) ==> r.value.None?
    ensures r.Success? && r.value.Some? ==>
      r.value.value >= 1 && !HasStartDate(sp) && sp.details.value.subTrial == Some(r.value.value)
  {
    if sp.product.None? then Failure(InvalidSubscriptionProduct)
    else if sp.details.None? then Failure(DetailsNotFound)
    else if HasStartDate(sp) then Success(None)
    else
      match sp.details.value.subTrial
      case None => Success(None)
      case Some(n) => if n < 1 then Success(None) else Success(Some(n))
  }

  function HasTrialPeriod(sp: SubscriptionProduct): (r: Result<bool>)
    ensures r.Failure? <==> GetTrialDays(sp).Failure?
    ensures r.Success? ==> (r.value <==> GetTrialDays(sp).value.Some?)
  {
    var days :- GetTrialDays(sp);
    Success(days.Some?)
  }

  /** A start date always excludes a trial. */
  lemma StartDateExcludesTrial(sp: SubscriptionProduct)
    requires HasStartDate(sp)
    ensures HasTrialPeriod(sp) == Success(false)
  {
  }

  /** The first order is free for a trial, for a start date other than today
      (when the first payment is on the start date), and during a
      subscription update. An unloaded state is an error. */
  function HasZeroInitialOrderPrice(sp: SubscriptionProduct, cal: Calendar, isSubscriptionUpdate: bool): (r: Result<bool>)
    ensures r.Failure? <==> sp.product.None? || sp.details.None?
    ensures r.Success? ==>
      (r.value <==> HasTrialPeriod(sp).value
                    || (StartsOnStartDate(sp) && !StartDateIsToday(sp, cal))
                    || isSubscriptionUpdate)
  {
    var trial :- HasTrialPeriod(sp);
    if trial then Success(true)
    else if StartsOnStartDate(sp) && !StartDateIsToday(sp, cal) then Success(true)
    else Success(isSubscriptionUpdate)
  }

  predicate CanChangeShipping(sp: SubscriptionProduct) {
    sp.product.Some? && sp.product.value.typeId == "simple"
  }

  predicate IsSubscriptionProduct(sp: SubscriptionProduct) {
    sp.product.Some?
  }

  function GetSubscriptionDetails(sp: SubscriptionProduct): (r: Result<Options>)
    ensures r.Failure? <==> sp.details.None?
    ensures r.Success? ==> r.value == sp.details.value
    ensures r.Failure? ==> r.error == DetailsNotFound
  {
    match sp.details
    case Some(o) => Success(o)
    case None => Failure(DetailsNotFound)
  }

  /** Prorations apply only when upgrades and downgrades are allowed. */
  function UseProrationsForUpgrades(sp: SubscriptionProduct): (r: Result<bool>)
    ensures r.Failure? <==> sp.details.None?
    ensures r.Success? ==> (r.value <==> sp.details.value.upgradesDowngrades && sp.details.value.prorateUpgrades)
  {
    var o :- GetSubscriptionDetails(sp);
    if !o.upgradesDowngrades then Success(false) else Success(o.prorateUpgrades)
  }

  function UseProrationsForDowngrades(sp: SubscriptionProduct): (r: Result<bool>)
    ensures r.Failure? <==> sp.details.None?
    ensures r.Success? ==> (r.value <==> sp.details.value.upgradesDowngrades && sp.details.value.prorateDowngrades)
  {
    var o :- GetSubscriptionDetails(sp);
    if !o.upgradesDowngrades then Success(false) else Success(o.prorateDowngrades)
  }

  /** PHP's `ucfirst` on ASCII. */
  function Ucfirst(s: string): (r: string)
    ensures |r| == |s|
    ensures |s| >= 1 ==> r[1..] == s[1..] && (r[0] == s[0] || 'A' <= r[0] <= 'Z')
  {
    if |s| == 0 then s
    else if 'a' <= s[0] <= 'z' then [(s[0] as int - 32) as char] + s[1..]
    else s
  }

  /** "<count> <Interval>", pluralised for a count above one: "3 Months". */
  function GetFormattedInterval(sp: SubscriptionProduct): (r: Result<string>)
    ensures r.Failure? <==> sp.details.None?
    ensures r.Success? ==>
      var o := sp.details.value;
      && StartsWith(r.value, IntToString(o.subIntervalCount) + " ")
      && |r.value| == |IntToString(o.subIntervalCount)| + 1 + |o.subInterval| + (if o.subIntervalCount > 1 then 1 else 0)
      && var h := |IntToString(o.subIntervalCount)| + 1;
         && r.value[h..h + |o.subInterval|] == Ucfirst(o.subInterval)
         && r.value[h + |o.subInterval|..] == (if o.subIntervalCount > 1 then "s" else "")
  {
    var o :- GetSubscriptionDetails(sp);
    var head := IntToString(o.subIntervalCount) + " ";
    var middle := Ucfirst(o.subInterval);
    var plural := if o.subIntervalCount > 1 then "s" else "";
    var r := head + middle + plural;
    assert r[..|head|] == head;
    assert r[|head|..|head| + |middle|] == middle;
    assert r[|head| + |middle|..] == plural;
    Success(r)
  }

  /** For an interval that does not itself end in "s" (day, week, month,
      year), the text ends in "s" exactly when the count is above one. */
  lemma PluralIffCountAboveOne(sp: SubscriptionProduct)
    requires sp.details.Some?
    requires |sp.details.value.subInterval| >= 1
    requires sp.details.value.subInterval[|sp.details.value.subInterval| - 1] != 's'
    ensures var t := GetFormattedInterval(sp).value;
      t[|t| - 1] == 's' <==> sp.details.value.subIntervalCount > 1
  {
    var o := sp.details.value;
    var u := Ucfirst(o.subInterval);
    assert u[|u| - 1] != 's' by {
      if |u| > 1 {
        assert u[|u| - 1] == u[1..][|u| - 2] == o.subInterval[1..][|u| - 2];
      }
    }
  }

  /** The stored initial fee, or 0 when it is non-numeric or negative. */
  function GetBaseInitialFeeAmount(sp: SubscriptionProduct): (r: Result<int>)
    ensures r.Failure? <==> sp.details.None?
    ensures r.Success? ==> r.value >= 0
    ensures r.Success? && sp.details.value.subInitialFee.Some? && sp.details.value.subInitialFee.value >= 0 ==>
      r.value == sp.details.value.subInitialFee.value
    ensures r.Success? && (sp.details.value.subInitialFee.None? || sp.details.value.subInitialFee.value < 0) ==>
      r.value == 0
  {
    var o :- GetSubscriptionDetails(sp);
    match o.subInitialFee
    case None => Success(0)
    case Some(fee) => if fee < 0 then Success(0) else Success(fee)
  }

  /** Currency rates are decimals with twelve fractional digits (Magento's
      `decimal(24,12)` rate column), held as integers of this scale. */
  const RateScale: int := 1_000_000_000_000

  /** The store's base and current currency codes and its rate table (0 where
      no rate is known). */
  datatype Store = Store(baseCurrency: string, currentCurrency: string, rate: (string, string) -> int)

  /** The rate the fee is converted at: the given one when truthy, else the
      store's rate from its base currency to the requested (or current)
      currency; `None` means no conversion happens. */
  function ConversionRate(rate: int, currencyCode: string, store: Store): Option<int> {
    if rate == RateScale then None
    else if rate != 0 then Some(rate)
    else
      var current := if !Empty(currencyCode) then currencyCode else store.currentCurrency;
      if Empty(store.baseCurrency) || Empty(current) then None
      else if store.baseCurrency == current then None
      else
        var looked := store.rate(store.baseCurrency, current);
        if looked == 0 then None else Some(looked)
  }

  /** The initial fee for `qty` units (a Dec4 amount): 0 when the base fee
      times the quantity is not positive; otherwise that amount, converted at
      the rate (`rate` 0 stands for none given) and rounded to two decimals
      when a conversion applies. */
  function GetInitialFeeAmount(sp: SubscriptionProduct, qty: int, rate: int, currencyCode: string,
                               store: Store): (r: Result<int>)
    ensures r.Failure? <==> sp.details.None?
    ensures r.Success? ==>
      var base := GetBaseInitialFeeAmount(sp).value * qty;
      && (base <= 0 ==> r.value == 0)
      && (base > 0 && ConversionRate(rate, currencyCode, store).None? ==> r.value == base)
      && (base > 0 && ConversionRate(rate, currencyCode, store).Some? ==>
            r.value % 100 == 0
            && NearestAwayFromZero(base * ConversionRate(rate, currencyCode, store).value, RateScale * 100, r.value / 100))
  {
    var fee :- GetBaseInitialFeeAmount(sp);
    var base := fee * qty;
    if base <= 0 then Success(0)
    else
      match ConversionRate(rate, currencyCode, store)
      case None => Success(base)
      case Some(x) => Success(RoundDiv(base * x, RateScale * 100) * 100)
  }

  /** A rate of exactly 1 leaves the fee as it is. */
  lemma UnitRateKeepsFee(sp: SubscriptionProduct, qty: int, currencyCode: string, store: Store)
    requires sp.details.Some?
    ensures GetInitialFeeAmount(sp, qty, RateScale, currencyCode, store).value
         == Max(0, GetBaseInitialFeeAmount(sp).value * qty)
  {
  }
}
