/** Properties of whole runs of the saga: `reserve_all` followed by
    `confirm_all` on the same orchestrator, for any providers and for the
    mock registry. */
module SagaProperties {
  import opened BookingSchemas
  import opened BookingTools
  import opened TxnManager

  /** The request after `reserve_all` and then `confirm_all`. */
  function SagaState(request: BookingRequest, providers: map<ItemType, Provider>, auth: PaymentAuth): BookingRequest
  {
    ConfirmAllState(ReserveAllState(request, providers), providers, auth)
  }

  /** After the reserve phase every held item has a provider, so the confirm
      phase that follows never raises, and it leaves every item confirmed or
      failed. */
  lemma ReserveThenConfirmLoop(request: BookingRequest, providers: map<ItemType, Provider>, auth: PaymentAuth)
    ensures var reserved := ReserveItems(request.items, providers);
      var loop := ConfirmItems(reserved, providers, auth);
      && !loop.raised
      && forall k :: 0 <= k < |loop.items| ==>
           loop.items[k].status in {ItemStatus.Confirmed, ItemStatus.Failed}
           && SameBooking(loop.items[k], request.items[k])
  {
    var reserved := ReserveItems(request.items, providers);
    forall k | 0 <= k < |reserved|
      ensures reserved[k].status in {Held, ItemStatus.Failed}
      ensures reserved[k].status == Held ==> reserved[k].itemType in providers
      ensures SameBooking(reserved[k], request.items[k])
    {
      ReserveItemsAt(request.items, providers, k);
    }
    ConfirmRaisesIff(reserved, providers, auth);
    var loop := ConfirmItems(reserved, providers, auth);
    forall k | 0 <= k < |loop.items|
      ensures loop.items[k].status in {ItemStatus.Confirmed, ItemStatus.Failed}
      ensures SameBooking(loop.items[k], request.items[k])
    {
      ConfirmOutcome(reserved, providers, auth, k);
    }
  }

  /** All-or-nothing, for any providers: after reserve then confirm, the
      request is confirmed or failed, and it is confirmed exactly when every
      item is confirmed. No item is left pending or held. An item left
      failed has no hold id to release, no provider, or a release that
      raised. The caller-owned fields of every item are unchanged. */
  lemma SagaAllOrNothing(request: BookingRequest, providers: map<ItemType, Provider>, auth: PaymentAuth)
    ensures var final := SagaState(request, providers, auth);
      && |final.items| == |request.items|
      && final.status in {RequestStatus.Confirmed, RequestStatus.Failed}
      && (final.status == RequestStatus.Confirmed <==>
            forall k :: 0 <= k < |final.items| ==> final.items[k].status == ItemStatus.Confirmed)
      && forall k :: 0 <= k < |final.items| ==>
           && final.items[k].status in {ItemStatus.Confirmed, ItemStatus.Failed, ItemStatus.Cancelled}
           && SameBooking(final.items[k], request.items[k])
           && (final.items[k].status == ItemStatus.Failed ==>
                 || !HasHold(final.items[k])
                 || final.items[k].itemType !in providers
                 || providers[final.items[k].itemType].cancelHold(final.items[k].holdId.value).Raised?)
  {
    var reserved := ReserveAllState(request, providers);
    ReserveThenConfirmLoop(request, providers, auth);
    var loop := ConfirmItems(reserved.items, providers, auth).items;
    ConfirmAllDecision(reserved, providers, auth);
    var final := SagaState(request, providers, auth);
    if final.status == RequestStatus.Failed {
      forall k | 0 <= k < |final.items|
        ensures final.items[k].status in {ItemStatus.Confirmed, ItemStatus.Failed, ItemStatus.Cancelled}
        ensures SameBooking(final.items[k], request.items[k])
        ensures final.items[k].status == ItemStatus.Failed ==>
                  || !HasHold(final.items[k])
                  || final.items[k].itemType !in providers
                  || providers[final.items[k].itemType].cancelHold(final.items[k].holdId.value).Raised?
      {
        CompensateOutcome(loop, providers, k);
      }
      var j :| 0 <= j < |loop| && loop[j].status == ItemStatus.Failed;
      CompensateOutcome(loop, providers, j);
      assert final.items[j].status != ItemStatus.Confirmed;
    }
  }

  /** `confirm_all` on a request with no held and no failed item calls no
      provider and marks the request confirmed, whatever the items' status:
      a request whose items are still pending ends confirmed. */
  lemma ConfirmWithNothingHeld(request: BookingRequest, providers: map<ItemType, Provider>, auth: PaymentAuth)
    requires forall k :: 0 <= k < |request.items| ==>
               request.items[k].status != Held && request.items[k].status != ItemStatus.Failed
    ensures ConfirmAllState(request, providers, auth) == request.(status := RequestStatus.Confirmed)
  {
    ConfirmRaisesIff(request.items, providers, auth);
    var loop := ConfirmItems(request.items, providers, auth).items;
    forall k | 0 <= k < |request.items|
      ensures loop[k] == request.items[k]
    {
      ConfirmOutcome(request.items, providers, auth, k);
    }
    ConfirmAllDecision(request, providers, auth);
  }

  /** The item at `k` after the reserve phase with the mock registry, when a
      mock serves its type. */
  lemma MockReserved(items: seq<BookingItem>, k: int)
    requires 0 <= k < |items| && items[k].itemType in MockRegistry
    ensures var m, r := MockFor(items[k].itemType).value, ReserveItems(items, MockRegistry)[k];
      r == items[k].(holdId := Some(HoldPrefix(m) + items[k].itemId), status := Held,
                     meta := MockReserve(m, items[k]).raw)
  {
    ReserveItemsAt(items, MockRegistry, k);
    MockRegistryDispatch(items[k].itemType, items[k], PaymentAuth("", ""), "");
  }

  /** The item at `k` after the reserve and confirm loops with the mock
      registry, when a mock serves its type: confirmed, with the hold id and
      the confirmation id its mock builds from the item id, and the
      reservation's `price` and `provider` kept beside the confirmation's
      reference. */
  lemma MockConfirmed(items: seq<BookingItem>, auth: PaymentAuth, k: int)
    requires 0 <= k < |items| && items[k].itemType != Attraction
    ensures var loop := ConfirmItems(ReserveItems(items, MockRegistry), MockRegistry, auth);
      var it, m := items[k], MockFor(items[k].itemType).value;
      && !loop.raised
      && loop.items[k].status == ItemStatus.Confirmed
      && loop.items[k].holdId == Some(HoldPrefix(m) + it.itemId)
      && loop.items[k].confirmedId == Some(ConfirmPrefix(m) + it.itemId)
      && loop.items[k].meta.Keys == {"price", "provider", ReferenceKey(m)}
      && loop.items[k].meta["price"] == Amount(it.price)
  {
    var reserved := ReserveItems(items, MockRegistry);
    ReserveThenConfirmLoop(BookingRequest("", "", items, 0.0, "", None, Created), MockRegistry, auth);
    MockReserved(items, k);
    MockRegistryDispatch(items[k].itemType, reserved[k], auth, "");
    ConfirmOutcome(reserved, MockRegistry, auth, k);
  }

  /** With the three mocks registered, a request of flight, hotel and cab
      items ends confirmed, and every item as `MockConfirmed` describes. */
  lemma MockSagaConfirmsAll(request: BookingRequest, auth: PaymentAuth)
    requires forall k :: 0 <= k < |request.items| ==> request.items[k].itemType != Attraction
    ensures var final := SagaState(request, MockRegistry, auth);
      && final.status == RequestStatus.Confirmed
      && forall k :: 0 <= k < |final.items| ==> final.items[k].status == ItemStatus.Confirmed
  {
    var reserved := ReserveAllState(request, MockRegistry);
    ReserveThenConfirmLoop(request, MockRegistry, auth);
    var loop := ConfirmItems(reserved.items, MockRegistry, auth).items;
    forall k | 0 <= k < |loop|
      ensures loop[k].status == ItemStatus.Confirmed
    {
      MockConfirmed(request.items, auth, k);
    }
    ConfirmAllDecision(reserved, MockRegistry, auth);
  }

  /** With the mock registry, an attraction item has no provider: it fails
      with the `no_provider` marker and the request ends failed, while every
      flight, hotel and cab item stays confirmed, since compensation leaves
      confirmed items alone. */
  lemma MockSagaWithAttraction(request: BookingRequest, auth: PaymentAuth, j: int)
    requires 0 <= j < |request.items| && request.items[j].itemType == Attraction
    ensures var final := SagaState(request, MockRegistry, auth);
      && final.status == RequestStatus.Failed
      && final.items[j].status == ItemStatus.Failed
      && final.items[j].meta == map["error" := Text("no_provider")]
      && forall k :: 0 <= k < |final.items| && request.items[k].itemType != Attraction ==>
           final.items[k].status == ItemStatus.Confirmed
  {
    var reserved := ReserveAllState(request, MockRegistry);
    ReserveThenConfirmLoop(request, MockRegistry, auth);
    var loop := ConfirmItems(reserved.items, MockRegistry, auth).items;
    ReserveOutcome(request.items, MockRegistry, j);
    ConfirmOutcome(reserved.items, MockRegistry, auth, j);
    assert loop[j].status == ItemStatus.Failed;
    ConfirmAllDecision(reserved, MockRegistry, auth);
    var final := SagaState(request, MockRegistry, auth);
    assert final.items == CompensateItems(loop, MockRegistry);
    CompensateOutcome(loop, MockRegistry, j);
    forall k | 0 <= k < |final.items| && request.items[k].itemType != Attraction
      ensures final.items[k].status == ItemStatus.Confirmed
    {
      MockConfirmed(request.items, auth, k);
      CompensateOutcome(loop, MockRegistry, k);
    }
  }
}
