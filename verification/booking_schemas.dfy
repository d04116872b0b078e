/** The booking data model: one bookable item, one itinerary-level request,
    their closed status and type domains, and the defaults a new record gets.
    Monetary amounts are carried as opaque `real` values: nothing in the
    saga computes with them. */
module BookingSchemas {

  datatype Option<+T> = None | Some(value: T)

  /** The four kinds of bookable item; providers are dispatched by this type. */
  datatype ItemType = Flight | Hotel | Attraction | Cab

  /** Item lifecycle: pending -> held -> confirmed, with failed and cancelled on the side. */
  datatype ItemStatus = Pending | Held | Confirmed | Failed | Cancelled

  /** Aggregate status of a request. */
  datatype RequestStatus = Created | Authorized | Confirmed | Failed | Cancelled

  /** A value stored in an item's diagnostic `meta` map. */
  datatype MetaValue = Text(text: string) | Amount(amount: real)

  /** Provider diagnostics attached to an item. */
  type Meta = map<string, MetaValue>

  datatype BookingItem = BookingItem(
    itemId: string,
    itemType: ItemType,
    description: string,
    provider: string,
    price: real,
    currency: string,
    taxes: real,
    total: real,
    holdId: Option<string>,
    confirmedId: Option<string>,
    status: ItemStatus,
    meta: Meta)

  datatype BookingRequest = BookingRequest(
    userId: string,
    itineraryId: string,
    items: seq<BookingItem>,
    totalAmount: real,
    currency: string,
    idempotencyKey: Option<string>,
    status: RequestStatus)

  /** The literal spelling of each item type. */
  function ItemTypeName(t: ItemType): string
  {
    match t
    case Flight => "flight"
    case Hotel => "hotel"
    case Attraction => "attraction"
    case Cab => "cab"
  }

  /** Validation of an `item_type` string against its literal domain:
      exactly the four names are accepted, each as the type it spells. */
  function ParseItemType(s: string): (r: Option<ItemType>)
    ensures r.Some? ==> ItemTypeName(r.value) == s
    ensures r.None? ==> forall t: ItemType :: ItemTypeName(t) != s
  {
    if s == "flight" then Some(Flight)
    else if s == "hotel" then Some(Hotel)
    else if s == "attraction" then Some(Attraction)
    else if s == "cab" then Some(Cab)
    else None
  }

  /** The literal spelling of each item status. */
  function ItemStatusName(s: ItemStatus): string
  {
    match s
    case Pending => "pending"
    case Held => "held"
    case Confirmed => "confirmed"
    case Failed => "failed"
    case Cancelled => "cancelled"
  }

  /** Validation of an item `status` string against its literal domain. */
  function ParseItemStatus(s: string): (r: Option<ItemStatus>)
    ensures r.Some? ==> ItemStatusName(r.value) == s
    ensures r.None? ==> forall st: ItemStatus :: ItemStatusName(st) != s
  {
    if s == "pending" then Some(Pending)
    else if s == "held" then Some(Held)
    else if s == "confirmed" then Some(ItemStatus.Confirmed)
    else if s == "failed" then Some(ItemStatus.Failed)
    else if s == "cancelled" then Some(ItemStatus.Cancelled)
    else None
  }

  /** The literal spelling of each request status. */
  function RequestStatusName(s: RequestStatus): string
  {
    match s
    case Created => "created"
    case Authorized => "authorized"
    case Confirmed => "confirmed"
    case Failed => "failed"
    case Cancelled => "cancelled"
  }

  /** Validation of a request `status` string against its literal domain. */
  function ParseRequestStatus(s: string): (r: Option<RequestStatus>)
    ensures r.Some? ==> RequestStatusName(r.value) == s
    ensures r.None? ==> forall st: RequestStatus :: RequestStatusName(st) != s
  {
    if s == "created" then Some(Created)
    else if s == "authorized" then Some(Authorized)
    else if s == "confirmed" then Some(RequestStatus.Confirmed)
    else if s == "failed" then Some(RequestStatus.Failed)
    else if s == "cancelled" then Some(RequestStatus.Cancelled)
    else None
  }

  /** Every spelling is accepted back as the value it spells, so the three
      literal domains are exactly the enumerations above. */
  lemma NamesRoundTrip(t: ItemType, s: ItemStatus, q: RequestStatus)
    ensures ParseItemType(ItemTypeName(t)) == Some(t)
    ensures ParseItemStatus(ItemStatusName(s)) == Some(s)
    ensures ParseRequestStatus(RequestStatusName(q)) == Some(q)
  {
  }

  /** A new item as the record's defaults make it: `taxes` is 0 when not
      given, nothing is held or confirmed yet, the status is pending and
      `meta` is empty. `total` is stored as given and never derived from
      `price` and `taxes`. */
  function NewBookingItem(itemId: string, itemType: ItemType, description: string,
                          provider: string, price: real, currency: string,
                          taxes: Option<real>, total: real): (it: BookingItem)
    ensures it.status == Pending && it.holdId == None && it.confirmedId == None
    ensures it.meta == map[]
    ensures it.taxes == (if taxes.Some? then taxes.value else 0.0)
    ensures it.total == total && it.price == price
    ensures it.itemId == itemId && it.itemType == itemType
  {
    BookingItem(itemId, itemType, description, provider, price, currency,
                if taxes.Some? then taxes.value else 0.0, total,
                None, None, Pending, map[])
  }

  /** A new request starts `created`; its idempotency key is absent unless
      given, and `totalAmount` is stored as given, unrelated to the items. */
  function NewBookingRequest(userId: string, itineraryId: string, items: seq<BookingItem>,
                             totalAmount: real, currency: string,
                             idempotencyKey: Option<string>): (r: BookingRequest)
    ensures r.status == Created
    ensures r.items == items && r.totalAmount == totalAmount
    ensures r.idempotencyKey == idempotencyKey
  {
    BookingRequest(userId, itineraryId, items, totalAmount, currency, idempotencyKey, Created)
  }

  /** `a` and `b` agree on every field the caller owns; the orchestrator
      owns only `status`, `holdId`, `confirmedId` and `meta`. */
  predicate SameBooking(a: BookingItem, b: BookingItem)
  {
    && a.itemId == b.itemId && a.itemType == b.itemType
    && a.description == b.description && a.provider == b.provider
    && a.price == b.price && a.currency == b.currency
    && a.taxes == b.taxes && a.total == b.total
  }

  /** Python's `dict.update`: every key of `incoming` is written over `meta`,
      every other key of `meta` is kept. */
  function Update(meta: Meta, incoming: Meta): (r: Meta)
    ensures r.Keys == meta.Keys + incoming.Keys
    ensures forall k :: k in incoming ==> r[k] == incoming[k]
    ensures forall k :: k in meta && k !in incoming ==> r[k] == meta[k]
  {
    meta + incoming
  }
}
