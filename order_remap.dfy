/** `remapVtexOrderToLocalStructure`: turns the commerce platform's nested
    order detail into the flat record the detail window displays. Every
    property of the vendor record may be missing; nested objects that are
    missing count as empty objects. */
module OrderRemap {
  import opened Wrappers
  import opened JsText
  import opened VtexEmail
  import opened OrderStatus

  // ---------------------------------------------------------------------
  // The vendor's order detail
  // ---------------------------------------------------------------------

  /** One ordered item; `price` is in minor currency units. */
  datatype VendorItem = VendorItem(name: Option<string>, quantity: Option<int>, price: Option<int>)

  datatype ClientProfile = ClientProfile(
    firstName: Option<string>, lastName: Option<string>, email: Option<string>,
    phone: Option<string>, document: Option<string>)

  datatype Address = Address(
    street: Option<string>, number: Option<string>, city: Option<string>,
    neighborhood: Option<string>, postalCode: Option<string>)

  datatype ShippingData = ShippingData(address: Option<Address>)

  /** The order detail; `value` is the total in minor currency units. */
  datatype VendorOrderDetail = VendorOrderDetail(
    orderId: Option<string>, creationDate: Option<string>, value: Option<int>,
    status: Option<string>, statusDescription: Option<string>,
    items: Option<seq<VendorItem>>, clientProfileData: Option<ClientProfile>,
    shippingData: Option<ShippingData>)

  const EmptyProfile := ClientProfile(None, None, None, None, None)
  const EmptyAddress := Address(None, None, None, None, None)

  /** The record `{}`. */
  const EmptyDetail := VendorOrderDetail(None, None, None, None, None, None, None, None)

  // ---------------------------------------------------------------------
  // The local record
  // ---------------------------------------------------------------------

  /** `precio` is in major units; `None` stands for the NaN that
      `undefined / 100` gives. */
  datatype LocalItem = LocalItem(nombre: Option<string>, cantidad: Option<int>, precio: Option<real>)

  datatype ContactDetails = ContactDetails(
    email: Option<string>, telefono: Option<string>, documento: Option<string>)

  datatype ShippingDetails = ShippingDetails(
    ciudad: string, calle: string, codigoPostal: Option<string>)

  datatype LocalOrder = LocalOrder(
    id: Option<string>, cliente: string, fecha: Option<string>, total: Option<real>,
    estado: Estado, items: seq<LocalItem>,
    contactDetails: ContactDetails, shippingDetails: ShippingDetails)

  // ---------------------------------------------------------------------
  // The pieces of the remapping
  // ---------------------------------------------------------------------

  /** `minor / 100`: minor currency units to major ones, over the reals. */
  function MajorUnits(minor: Option<int>): (major: Option<real>)
    ensures major.Some? <==> minor.Some?
    ensures minor.Some? ==> major.value * 100.0 == minor.value as real
  {
    match minor
    case None => None
    case Some(m) => Some(m as real / 100.0)
  }

  /** `vtexOrder.clientProfileData || {}`: a missing profile reads as one
      with every field missing. */
  function Profile(d: VendorOrderDetail): (p: ClientProfile)
    ensures d.clientProfileData.Some? ==> p == d.clientProfileData.value
    ensures d.clientProfileData.None? ==> p == EmptyProfile
  {
    d.clientProfileData.GetOr(EmptyProfile)
  }

  /** `vtexOrder.shippingData ? (vtexOrder.shippingData.address || {}) : {}`:
      the address when both levels are present, otherwise one with every
      field missing. */
  function ShippingAddress(d: VendorOrderDetail): (a: Address)
    ensures d.shippingData.Some? && d.shippingData.value.address.Some? ==>
      a == d.shippingData.value.address.value
    ensures d.shippingData.None? || d.shippingData.value.address.None? ==> a == EmptyAddress
  {
    match d.shippingData
    case None => EmptyAddress
    case Some(sd) => sd.address.GetOr(EmptyAddress)
  }

  /** The `.map` callback over the items. */
  function RemapItem(item: VendorItem): (l: LocalItem)
    ensures l.nombre == item.name && l.cantidad == item.quantity
    ensures l.precio.Some? <==> item.price.Some?
    ensures item.price.Some? ==> l.precio.value * 100.0 == item.price.value as real
  {
    LocalItem(item.name, item.quantity, MajorUnits(item.price))
  }

  /** `items.map(...)`: same length, same order, one entry per item. */
  function RemapItems(items: seq<VendorItem>): (r: seq<LocalItem>)
    ensures |r| == |items|
    ensures forall i :: 0 <= i < |items| ==> r[i] == RemapItem(items[i])
  {
    if items == [] then [] else [RemapItem(items[0])] + RemapItems(items[1..])
  }

  /** `` `${firstName || ''} ${lastName || ''}`.trim() ``: no whitespace at
      either end, and "" when neither name is there. */
  function FullName(p: ClientProfile): (name: string)
    ensures Tidy(name)
    ensures p.firstName.None? && p.lastName.None? ==> name == ""
  {
    TrimAllWhitespace(" ");
    Trim(OrEmpty(p.firstName) + " " + OrEmpty(p.lastName))
  }

  /** `city || neighborhood || 'No disponible'`: one of the three, and
      never empty (`CityFallback` says which). */
  function City(a: Address): (c: string)
    ensures c != ""
    ensures c == a.city.GetOr("") || c == a.neighborhood.GetOr("") || c == "No disponible"
  {
    Or(a.city, Or(a.neighborhood, "No disponible"))
  }

  /** `` `${street || ''}, ${number || ''}`.trim() ``: no whitespace at
      either end (`StreetKeepsComma`, `StreetCases` say more). */
  function Street(a: Address): (line: string)
    ensures Tidy(line)
  {
    Trim(OrEmpty(a.street) + ", " + OrEmpty(a.number))
  }

  /** The local record for one vendor order detail. Its `estado` is
      computed from the raw status code alone: the source first stores the
      status description there and then always overwrites it, so that
      first value never reaches the result. */
  function Remap(d: VendorOrderDetail): (r: LocalOrder)
    ensures r.id == d.orderId && r.fecha == d.creationDate
    ensures r.cliente == FullName(Profile(d))
    ensures r.shippingDetails.ciudad == City(ShippingAddress(d))
    ensures r.shippingDetails.calle == Street(ShippingAddress(d))
    ensures r.estado == Classify(d.status)
    ensures r.total.Some? <==> d.value.Some?
    ensures d.value.Some? ==> r.total.value * 100.0 == d.value.value as real
    ensures |r.items| == |d.items.GetOr([])|
    ensures forall i :: 0 <= i < |r.items| ==>
      r.items[i].nombre == d.items.value[i].name &&
      r.items[i].cantidad == d.items.value[i].quantity &&
      r.items[i].precio == MajorUnits(d.items.value[i].price)
    ensures r.contactDetails.email == CleanEmail(Profile(d).email)
    ensures r.contactDetails.telefono == Profile(d).phone
    ensures r.contactDetails.documento == Profile(d).document
    ensures r.shippingDetails.codigoPostal == ShippingAddress(d).postalCode
  {
    var profile := Profile(d);
    var address := ShippingAddress(d);
    LocalOrder(
      d.orderId,
      FullName(profile),
      d.creationDate,
      MajorUnits(d.value),
      Classify(d.status),
      RemapItems(d.items.GetOr([])),
      ContactDetails(CleanEmail(profile.email), profile.phone, profile.document),
      ShippingDetails(City(address), Street(address), address.postalCode))
  }

  /** The detail window's caller: a detail fetch that failed (`null`)
      shows nothing; anything else is remapped and posted. */
  function DetailForWindow(fetched: Option<VendorOrderDetail>): (shown: Option<LocalOrder>)
    ensures fetched.None? ==> shown.None?
    ensures fetched.Some? ==> shown == Some(Remap(fetched.value))
    ensures fetched.Some? ==> shown.Some? && shown.value.estado == Classify(fetched.value.status)
  {
    match fetched
    case None => None
    case Some(d) => Some(Remap(d))
  }

  // ---------------------------------------------------------------------
  // Properties
  // ---------------------------------------------------------------------

  /** The status description never influences the local record: `Remap`
      does not read it, since the value the source writes first to `estado`
      is always overwritten by the bucket. */
  lemma RemapIgnoresDescription(d: VendorOrderDetail, description: Option<string>)
    ensures Remap(d.(statusDescription := description)) == Remap(d)
  {
  }

  /** `estado` is one of the three bucket literals and a function of the
      status code alone. */
  lemma EstadoOnlyFromStatus(d1: VendorOrderDetail, d2: VendorOrderDetail)
    ensures EstadoText(Remap(d1).estado) in {"Entregado", "Procesando", "Enviado"}
    ensures d1.status == d2.status ==> Remap(d1).estado == Remap(d2).estado
  {
  }

  /** The city falls back from `city` to `neighborhood` to the literal,
      an empty string counting as missing; it is never empty. */
  lemma CityFallback(a: Address)
    ensures Truthy(a.city) ==> City(a) == a.city.value
    ensures !Truthy(a.city) && Truthy(a.neighborhood) ==> City(a) == a.neighborhood.value
    ensures !Truthy(a.city) && !Truthy(a.neighborhood) ==> City(a) == "No disponible"
    ensures City(a) != ""
  {
  }

  /** The customer name for each combination of present name parts, for
      parts that carry no surrounding whitespace. */
  lemma FullNameCases(p: ClientProfile)
    requires Tidy(OrEmpty(p.firstName)) && Tidy(OrEmpty(p.lastName))
    ensures var f, l := OrEmpty(p.firstName), OrEmpty(p.lastName);
      && (f != "" && l != "" ==> FullName(p) == f + " " + l)
      && (f != "" && l == "" ==> FullName(p) == f)
      && (f == "" && l != "" ==> FullName(p) == l)
      && (f == "" && l == "" ==> FullName(p) == "")
  {
    var f, l := OrEmpty(p.firstName), OrEmpty(p.lastName);
    if f != "" && l != "" {
      TrimTidy(f + " " + l);
    } else if f != "" {
      assert f + " " + l == f + " ";
      TrimEndAppendSpace(f);
    } else if l != "" {
      assert f + " " + l == " " + l;
      TrimStartPrependSpace(l);
    } else {
      TrimAllWhitespace(" ");
    }
  }

  /** The street line for each combination of present parts, for parts
      that carry no surrounding whitespace: a missing number leaves a
      trailing comma, a missing street a leading ", ". */
  lemma StreetCases(a: Address)
    requires Tidy(OrEmpty(a.street)) && Tidy(OrEmpty(a.number))
    ensures var s, n := OrEmpty(a.street), OrEmpty(a.number);
      && (s != "" && n != "" ==> Street(a) == s + ", " + n)
      && (s != "" && n == "" ==> Street(a) == s + ",")
      && (s == "" && n != "" ==> Street(a) == ", " + n)
      && (s == "" && n == "" ==> Street(a) == ",")
  {
    var s, n := OrEmpty(a.street), OrEmpty(a.number);
    if n == "" {
      assert s + ", " + n == (s + ",") + " ";
      TrimEndAppendSpace(s + ",");
      TrimTidy(s + ",");
    } else {
      TrimTidy(s + ", " + n);
    }
  }

  /** Trimming never removes the comma between street and number. */
  lemma StreetKeepsComma(a: Address)
    ensures ',' in Street(a)
  {
    var raw := OrEmpty(a.street) + ", " + OrEmpty(a.number);
    var k := |OrEmpty(a.street)|;
    assert raw[k] == ',';
    var m := TrimStart(raw);
    TrimStartSpec(raw);
    var lo := |raw| - |m|;
    assert lo <= k;
    assert m[k - lo] == ',';
    var t := TrimEnd(m);
    TrimEndSpec(m);
    assert k - lo < |t|;
    assert t[k - lo] == ',';
  }

  /** Remapping `{}` succeeds and gives the documented defaults. */
  lemma RemapEmptyRecord()
    ensures Remap(EmptyDetail) == LocalOrder(
      None, "", None, None, Enviado, [],
      ContactDetails(None, None, None),
      ShippingDetails("No disponible", ",", None))
  {
    FullNameCases(EmptyProfile);
    StreetCases(EmptyAddress);
  }
}
