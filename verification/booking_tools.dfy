/** The provider contract (reserve, confirm, cancel a hold) and the three
    deterministic mock providers. A mock keeps no state, so each of its
    operations is a function of its arguments; latency is not modelled. Any
    other provider is modelled the same way: a call is a function of its
    arguments and leaves the item it is given unchanged. */
module BookingTools {
  import opened BookingSchemas

  /** What a provider call answers. `raw` always holds a map. */
  datatype ProviderResponse = ProviderResponse(
    success: bool,
    holdId: Option<string>,
    confirmedId: Option<string>,
    raw: Meta)

  /** Building a response: a missing `raw` becomes the empty map. */
  function NewProviderResponse(success: bool, holdId: Option<string>,
                               confirmedId: Option<string>, raw: Option<Meta>): (r: ProviderResponse)
    ensures r.success == success && r.holdId == holdId && r.confirmedId == confirmedId
    ensures raw.None? ==> r.raw == map[]
    ensures raw.Some? ==> r.raw == raw.value
  {
    ProviderResponse(success, holdId, confirmedId, if raw.Some? then raw.value else map[])
  }

  /** Outcome of a call that may raise instead of returning. */
  datatype Call<+T> = Returned(value: T) | Raised

  /** Opaque proof of payment handed to `confirm`. */
  datatype PaymentAuth = PaymentAuth(kind: string, id: string)

  /** The capability every booking backend offers. */
  datatype Provider = Provider(
    reserve: BookingItem -> ProviderResponse,
    confirm: (BookingItem, PaymentAuth) -> ProviderResponse,
    cancelHold: string -> Call<bool>)

  /** The three mock providers. */
  datatype Mock = MockFlightProvider | MockHotelProvider | MockCabProvider

  function HoldPrefix(m: Mock): string
  {
    match m
    case MockFlightProvider => "hold-flight-"
    case MockHotelProvider => "hold-hotel-"
    case MockCabProvider => "hold-cab-"
  }

  function ProviderLabel(m: Mock): string
  {
    match m
    case MockFlightProvider => "mock_flight"
    case MockHotelProvider => "mock_hotel"
    case MockCabProvider => "mock_cab"
  }

  function ConfirmPrefix(m: Mock): string
  {
    match m
    case MockFlightProvider => "CONF-FLT-"
    case MockHotelProvider => "CONF-HOT-"
    case MockCabProvider => "CONF-CAB-"
  }

  /** The key under which a mock's confirmation reports its own reference. */
  function ReferenceKey(m: Mock): string
  {
    match m
    case MockFlightProvider => "ticket_id"
    case MockHotelProvider => "booking_reference"
    case MockCabProvider => "ride_id"
  }

  function ReferencePrefix(m: Mock): string
  {
    match m
    case MockFlightProvider => "TICKET-"
    case MockHotelProvider => "BOOK-"
    case MockCabProvider => "RIDE-"
  }

  /** A mock reservation always succeeds, holds `HoldPrefix(m) + itemId`, and
      reports the item's price and the provider's label. */
  function MockReserve(m: Mock, item: BookingItem): (r: ProviderResponse)
    ensures r.success && r.confirmedId == None
    ensures r.holdId == Some(HoldPrefix(m) + item.itemId)
    ensures r.raw.Keys == {"price", "provider"}
    ensures r.raw["price"] == Amount(item.price) && r.raw["provider"] == Text(ProviderLabel(m))
  {
    NewProviderResponse(true, Some(HoldPrefix(m) + item.itemId), None,
                        Some(map["price" := Amount(item.price), "provider" := Text(ProviderLabel(m))]))
  }

  /** A mock confirmation always succeeds, confirms `ConfirmPrefix(m) + itemId`,
      and reports one reference under a key that is neither reservation key. */
  function MockConfirm(m: Mock, item: BookingItem, auth: PaymentAuth): (r: ProviderResponse)
    ensures r.success && r.holdId == None
    ensures r.confirmedId == Some(ConfirmPrefix(m) + item.itemId)
    ensures r.raw.Keys == {ReferenceKey(m)} && ReferenceKey(m) !in {"price", "provider"}
    ensures r.raw[ReferenceKey(m)] == Text(ReferencePrefix(m) + item.itemId)
  {
    NewProviderResponse(true, None, Some(ConfirmPrefix(m) + item.itemId),
                        Some(map[ReferenceKey(m) := Text(ReferencePrefix(m) + item.itemId)]))
  }

  /** A mock release returns true for any hold id and never raises. */
  function MockCancelHold(m: Mock, holdId: string): (r: Call<bool>)
    ensures r.Returned? && r.value
  {
    Returned(true)
  }

  function MockProvider(m: Mock): Provider
  {
    Provider(item => MockReserve(m, item),
             (item, auth) => MockConfirm(m, item, auth),
             holdId => MockCancelHold(m, holdId))
  }

  /** The registry the demo and the checkout wire up: no attraction provider. */
  const MockRegistry: map<ItemType, Provider> :=
    map[Flight := MockProvider(MockFlightProvider),
        Hotel := MockProvider(MockHotelProvider),
        Cab := MockProvider(MockCabProvider)]

  /** The mock serving an item type in `MockRegistry`, if any. */
  function MockFor(t: ItemType): (r: Option<Mock>)
    ensures r.Some? <==> t in MockRegistry
    ensures r.Some? ==> MockRegistry[t] == MockProvider(r.value)
  {
    match t
    case Flight => Some(MockFlightProvider)
    case Hotel => Some(MockHotelProvider)
    case Cab => Some(MockCabProvider)
    case Attraction => None
  }

  /** Reading a hold id back: which mock issued it, and for which item id.
      This is the inverse of the hold ids the mocks build. */
  function ParseHoldId(h: string): (r: Option<(Mock, string)>)
    ensures r.Some? ==> h == HoldPrefix(r.value.0) + r.value.1
  {
    if HoldPrefix(MockFlightProvider) <= h then Some((MockFlightProvider, h[|HoldPrefix(MockFlightProvider)|..]))
    else if HoldPrefix(MockHotelProvider) <= h then Some((MockHotelProvider, h[|HoldPrefix(MockHotelProvider)|..]))
    else if HoldPrefix(MockCabProvider) <= h then Some((MockCabProvider, h[|HoldPrefix(MockCabProvider)|..]))
    else None
  }

  /** Reading a confirmation id back: which mock issued it, for which item id. */
  function ParseConfirmedId(c: string): (r: Option<(Mock, string)>)
    ensures r.Some? ==> c == ConfirmPrefix(r.value.0) + r.value.1
  {
    if ConfirmPrefix(MockFlightProvider) <= c then Some((MockFlightProvider, c[|ConfirmPrefix(MockFlightProvider)|..]))
    else if ConfirmPrefix(MockHotelProvider) <= c then Some((MockHotelProvider, c[|ConfirmPrefix(MockHotelProvider)|..]))
    else if ConfirmPrefix(MockCabProvider) <= c then Some((MockCabProvider, c[|ConfirmPrefix(MockCabProvider)|..]))
    else None
  }

  /** The hold id a mock issues names that mock and the item id. */
  lemma MockHoldIdRoundTrip(m: Mock, item: BookingItem)
    ensures ParseHoldId(MockReserve(m, item).holdId.value) == Some((m, item.itemId))
  {
    var h := HoldPrefix(m) + item.itemId;
    assert h[..|HoldPrefix(m)|] == HoldPrefix(m);
    match m
    case MockFlightProvider =>
    case MockHotelProvider =>
      assert h[5] == 'h';
    case MockCabProvider =>
      assert h[5] == 'c';
  }

  /** The confirmation id a mock issues names that mock and the item id. */
  lemma MockConfirmedIdRoundTrip(m: Mock, item: BookingItem, auth: PaymentAuth)
    ensures ParseConfirmedId(MockConfirm(m, item, auth).confirmedId.value) == Some((m, item.itemId))
  {
    var c := ConfirmPrefix(m) + item.itemId;
    assert c[..|ConfirmPrefix(m)|] == ConfirmPrefix(m);
    match m
    case MockFlightProvider =>
    case MockHotelProvider =>
      assert c[5] == 'H';
    case MockCabProvider =>
      assert c[5] == 'C';
  }

  /** Two mock holds coincide only for the same mock and the same item id,
      and likewise two mock confirmations. */
  lemma MockIdsUnique(m1: Mock, a: BookingItem, m2: Mock, b: BookingItem, auth1: PaymentAuth, auth2: PaymentAuth)
    ensures MockReserve(m1, a).holdId == MockReserve(m2, b).holdId ==> m1 == m2 && a.itemId == b.itemId
    ensures MockConfirm(m1, a, auth1).confirmedId == MockConfirm(m2, b, auth2).confirmedId ==> m1 == m2 && a.itemId == b.itemId
  {
    MockHoldIdRoundTrip(m1, a);
    MockHoldIdRoundTrip(m2, b);
    MockConfirmedIdRoundTrip(m1, a, auth1);
    MockConfirmedIdRoundTrip(m2, b, auth2);
  }

  /** Each registered mock answers through the registry exactly as its own
      functions do. */
  lemma MockRegistryDispatch(t: ItemType, item: BookingItem, auth: PaymentAuth, h: string)
    requires t in MockRegistry
    ensures MockFor(t).Some?
    ensures MockRegistry[t].reserve(item) == MockReserve(MockFor(t).value, item)
    ensures MockRegistry[t].confirm(item, auth) == MockConfirm(MockFor(t).value, item, auth)
    ensures MockRegistry[t].cancelHold(h) == Returned(true)
  {
  }
}
