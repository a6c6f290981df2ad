/** Address selection for a Stripe Tax calculation: which Magento address
    becomes the customer's tax location, and when the request falls back to
    the shopper's IP address instead. */
module TaxCustomerDetails {
  import opened Wrappers
  import opened Php

  /** A Magento address, with PHP `null` strings held as "". */
  datatype Address = Address(
    countryId: string,
    postcode: string,
    regionId: string,
    city: string,
    street: seq<string>,
    addressType: string)

  /** The `data` array sent to Stripe as the customer address. */
  datatype AddressData = AddressData(
    country: string,
    postalCode: string,
    state: string,
    city: string,
    line1: Option<string>)

  datatype Details = Details(data: AddressData, source: string)

  /** The directory's region collection: region id to region code. */
  type RegionLookup = string -> Option<string>

  /** The state sent to Stripe: the region code when the directory has a
      truthy one, the raw region id otherwise (PHP's `?:`). */
  function State(regionId: string, regions: RegionLookup): (r: string)
    ensures (regions(regionId).Some? && !Empty(regions(regionId).value)) ==> r == regions(regionId).value
    ensures (regions(regionId).None? || Empty(regions(regionId).value)) ==> r == regionId
  {
    match regions(regionId)
    case Some(code) => if Empty(code) then regionId else code
    case None => regionId
  }

  /** An address can be used iff it exists, has a country, and is not a US
      address without a postcode (those fall back to the IP address). */
  predicate Usable(address: Option<Address>) {
    address.Some? && !Empty(address.value.countryId)
    && !(address.value.countryId == "US" && Empty(address.value.postcode))
  }

  function GetDetailsFromAddress(address: Option<Address>, source: string, regions: RegionLookup): (r: Option<Details>)
    ensures r.Some? <==> Usable(address)
    ensures r.Some? ==>
      && r.value.source == source
      && r.value.data.country == address.value.countryId
      && r.value.data.postalCode == address.value.postcode
      && r.value.data.state == State(address.value.regionId, regions)
      && r.value.data.city == address.value.city
      && r.value.data.line1 == (if |address.value.street| > 0 then Some(address.value.street[0]) else None)
  {
    if address.Some? && !Empty(address.value.countryId) then
      var a := address.value;
      if a.countryId == "US" && Empty(a.postcode) then None
      else
        var line1 := if |a.street| > 0 then Some(a.street[0]) else None;
        Some(Details(AddressData(a.countryId, a.postcode, State(a.regionId, regions), a.city, line1), source))
    else
      None
  }

  /** The quote fields the virtual test reads; quantities are Dec4. */
  datatype Quote = Quote(isVirtual: bool, itemsQty: int, virtualItemsQty: int)

  predicate IsQuoteVirtual(q: Quote) {
    q.isVirtual || q.itemsQty == q.virtualItemsQty
  }

  /** The customer's default addresses, as the account service returns them. */
  datatype DefaultAddresses = DefaultAddresses(billing: Option<Address>, shipping: Option<Address>)

  /** A virtual quote is taxed at the default billing address; any other at
      the default shipping address, falling back to the default billing one. */
  function GetAddressFromDefaultAddresses(defaults: DefaultAddresses, q: Quote, regions: RegionLookup): (r: Option<Details>)
    ensures r.Some? ==> r.value.source == "billing" || r.value.source == "shipping"
    ensures IsQuoteVirtual(q) ==> (r.Some? <==> Usable(defaults.billing)) && (r.Some? ==> r.value.source == "billing")
    ensures !IsQuoteVirtual(q) ==>
      (r.Some? <==> Usable(defaults.shipping) || Usable(defaults.billing))
      && (r.Some? && r.value.source == "shipping" <==> Usable(defaults.shipping))
  {
    if IsQuoteVirtual(q) then
      GetDetailsFromAddress(defaults.billing, "billing", regions)
    else
      var fromShipping := GetDetailsFromAddress(defaults.shipping, "shipping", regions);
      if fromShipping.None? then GetDetailsFromAddress(defaults.billing, "billing", regions)
      else fromShipping
  }
}

/** The `customer_details` part of a Stripe Tax calculation request. */
module TaxCustomerDetailsRequest {
  import opened Wrappers
  import opened Values
  import opened TaxCustomerDetails

  /** The builder's state; every field starts as PHP `null`. */
  datatype CustomerDetails = CustomerDetails(
    address: Option<AddressData>,
    addressSource: Option<string>,
    ipAddress: Option<string>)

  const Initial := CustomerDetails(None, None, None)

  /** The shipping-assignment address whose tax is calculated; a customer id
      of 0 stands for a guest (a falsy PHP id). */
  datatype QuoteAddress = QuoteAddress(address: Address, customerId: nat)

  /** Quote tax: the shipping-assignment address first, then (for a logged-in
      customer only) the default addresses, then the shopper's IP address.
      A field the branch does not set keeps its earlier value. */
  function FormData(prior: CustomerDetails, a: QuoteAddress, q: Quote, defaults: DefaultAddresses,
                    ip: string, regions: RegionLookup): (r: CustomerDetails)
    ensures Usable(Some(a.address)) ==>
      (r.address == Some(GetDetailsFromAddress(Some(a.address), a.address.addressType, regions).value.data)
       && r.addressSource == Some(a.address.addressType) && r.ipAddress == prior.ipAddress)
    ensures !Usable(Some(a.address)) && a.customerId == 0 ==>
      r == prior.(ipAddress := Some(ip))
    ensures !Usable(Some(a.address)) && a.customerId != 0 ==>
      var fromDefaults := GetAddressFromDefaultAddresses(defaults, q, regions);
      (fromDefaults.None? ==> r == prior.(ipAddress := Some(ip)))
      && (fromDefaults.Some? ==> (r.address == Some(fromDefaults.value.data)
                                  && r.addressSource == Some(fromDefaults.value.source)
                                  && r.ipAddress == prior.ipAddress))
  {
    var fromAssignment := GetDetailsFromAddress(Some(a.address), a.address.addressType, regions);
    var found :=
      if fromAssignment.None? && a.customerId != 0 then GetAddressFromDefaultAddresses(defaults, q, regions)
      else fromAssignment;
    match found
    case Some(d) => prior.(address := Some(d.data), addressSource := Some(d.source))
    case None => prior.(ipAddress := Some(ip))
  }

  /** The order fields invoice tax reads. */
  datatype Order = Order(isVirtual: bool, billingAddress: Option<Address>, shippingAddress: Option<Address>)

  /** PHP's fatal Error for a method called on `null`. */
  const NullAddressError := "Call to a member function getAddressType() on null"

  /** Invoice tax: the billing address of a virtual order, the shipping
      address of any other. A missing address is a fatal Error, because its
      type is read before anything else; an address that exists but is not
      usable clears both fields (PHP reads the offsets of `null` as `null`).
      The IP address is left as it was. */
  function FormDataForInvoiceTax(prior: CustomerDetails, o: Order, regions: RegionLookup): (r: Result<CustomerDetails>)
    ensures var used := if o.isVirtual then o.billingAddress else o.shippingAddress;
      (r.Failure? <==> used.None?)
      && (r.Failure? ==> r.error == NullAddressError)
      && (r.Success? ==>
            r.value.ipAddress == prior.ipAddress
            && (r.value.address.Some? <==> Usable(used))
            && (r.value.address.Some? ==>
                  (r.value.addressSource == Some(used.value.addressType)
                   && r.value.address.value.country == used.value.countryId
                   && r.value.address.value.postalCode == used.value.postcode
                   && r.value.address.value.state == State(used.value.regionId, regions)
                   && r.value.address.value.city == used.value.city
                   && r.value.address.value.line1 ==
                        (if |used.value.street| > 0 then Some(used.value.street[0]) else None)))
            && (r.value.address.None? ==> r.value.addressSource.None?))
  {
    var used := if o.isVirtual then o.billingAddress else o.shippingAddress;
    if used.None? then Failure(NullAddressError)
    else
      match GetDetailsFromAddress(used, used.value.addressType, regions)
      case Some(d) => Success(prior.(address := Some(d.data), addressSource := Some(d.source)))
      case None => Success(prior.(address := None, addressSource := None))
  }

  function OptionalStr(s: Option<string>): Value {
    match s
    case Some(v) => Str(v)
    case None => Null
  }

  function AddressValue(d: AddressData): Value {
    Dict(map[
      "country" := Str(d.country),
      "postal_code" := Str(d.postalCode),
      "state" := Str(d.state),
      "city" := Str(d.city),
      "line1" := OptionalStr(d.line1)])
  }

  /** The request array: the address with its source, or else the IP
      address; never both. */
  function ToArray(c: CustomerDetails): (r: map<string, Value>)
    ensures c.address.Some? ==>
      r.Keys == {"address", "address_source"} && r["address_source"] == OptionalStr(c.addressSource)
    ensures c.address.None? ==> r.Keys == {"ip_address"} && r["ip_address"] == OptionalStr(c.ipAddress)
    ensures !("address" in r && "ip_address" in r)
  {
    match c.address
    case Some(d) => map["address" := AddressValue(d), "address_source" := OptionalStr(c.addressSource)]
    case None => map["ip_address" := OptionalStr(c.ipAddress)]
  }

  /** A fresh builder sends the shopper's IP address exactly when no address
      was found along the whole fallback chain. */
  lemma FreshRequestUsesIpIffNoAddress(a: QuoteAddress, q: Quote, defaults: DefaultAddresses,
                                       ip: string, regions: RegionLookup)
    ensures var arr := ToArray(FormData(Initial, a, q, defaults, ip, regions));
      ("ip_address" in arr <==>
         !Usable(Some(a.address))
         && (a.customerId == 0 || GetAddressFromDefaultAddresses(defaults, q, regions).None?))
      && ("ip_address" in arr ==> arr["ip_address"] == Str(ip))
  {
  }
}
