/** The booking saga: reserve every item, confirm the held ones, and release
    the holds of a request in which something failed. The per-item step
    functions and the phase functions below specify the loops of the class
    `TransactionManager` at the end of this module. */
module TxnManager {
  import opened BookingSchemas
  import opened BookingTools

  /** Python truthiness of `item.hold_id`: present and non-empty. */
  predicate HasHold(item: BookingItem)
  {
    item.holdId.Some? && item.holdId.value != ""
  }

  /** True when any item of the request is failed. */
  predicate AnyFailed(items: seq<BookingItem>)
  {
    exists k :: 0 <= k < |items| && items[k].status == ItemStatus.Failed
  }

  // ---------------------------------------------------------------------
  // Reserve phase

  /** One pass of the reserve loop over `item`. */
  function ReserveItem(item: BookingItem, providers: map<ItemType, Provider>): (r: BookingItem)
    ensures r.status == Held || r.status == ItemStatus.Failed
    ensures SameBooking(r, item) && r.confirmedId == item.confirmedId
    ensures r.status == Held ==> item.itemType in providers
  {
    if item.itemType !in providers then
      item.(status := ItemStatus.Failed, meta := map["error" := Text("no_provider")])
    else
      var resp := providers[item.itemType].reserve(item);
      if resp.success then
        item.(holdId := resp.holdId, status := Held, meta := resp.raw)
      else
        item.(status := ItemStatus.Failed, meta := resp.raw)
  }

  /** The reserve loop over all items, in order. */
  function ReserveItems(items: seq<BookingItem>, providers: map<ItemType, Provider>): (r: seq<BookingItem>)
    ensures |r| == |items|
  {
    if items == [] then [] else [ReserveItem(items[0], providers)] + ReserveItems(items[1..], providers)
  }

  /** The request after `reserve_all`: only the items change. */
  function ReserveAllState(request: BookingRequest, providers: map<ItemType, Provider>): BookingRequest
  {
    request.(items := ReserveItems(request.items, providers))
  }

  lemma {:induction false} ReserveItemsAt(items: seq<BookingItem>, providers: map<ItemType, Provider>, k: int)
    requires 0 <= k < |items|
    ensures ReserveItems(items, providers)[k] == ReserveItem(items[k], providers)
  {
    if k > 0 {
      ReserveItemsAt(items[1..], providers, k - 1);
    }
  }

  /** After the reserve phase no item is pending: every item is held or failed. */
  lemma {:induction false} ReserveLeavesNoPending(items: seq<BookingItem>, providers: map<ItemType, Provider>)
    ensures forall k :: 0 <= k < |items| ==>
              ReserveItems(items, providers)[k].status in {Held, ItemStatus.Failed}
  {
    forall k | 0 <= k < |items|
      ensures ReserveItems(items, providers)[k].status in {Held, ItemStatus.Failed}
    {
      ReserveItemsAt(items, providers, k);
    }
  }

  /** What the reserve phase does to the item at position `k`: an item with
      no provider fails with the `no_provider` marker; otherwise the
      provider's answer decides, and its `raw` replaces `meta`. Caller-owned
      fields, the confirmation id and, unless the hold succeeds, the hold id
      are left as they were. */
  lemma ReserveOutcome(items: seq<BookingItem>, providers: map<ItemType, Provider>, k: int)
    requires 0 <= k < |items|
    ensures var it, r := items[k], ReserveItems(items, providers)[k];
      && SameBooking(r, it) && r.confirmedId == it.confirmedId
      && (it.itemType !in providers ==>
            r.status == ItemStatus.Failed && r.meta == map["error" := Text("no_provider")] && r.holdId == it.holdId)
      && (it.itemType in providers ==>
            var resp := providers[it.itemType].reserve(it);
            r.meta == resp.raw
            && (resp.success ==> r.status == Held && r.holdId == resp.holdId)
            && (!resp.success ==> r.status == ItemStatus.Failed && r.holdId == it.holdId))
  {
    ReserveItemsAt(items, providers, k);
  }

  // ---------------------------------------------------------------------
  // Confirm phase

  /** One pass of the confirm loop over `item`. Only held items reach the
      provider; a held item whose type has no provider makes the loop raise
      (the lookup yields no provider object to call). */
  function ConfirmItem(item: BookingItem, providers: map<ItemType, Provider>, auth: PaymentAuth): (r: Call<BookingItem>)
    ensures r.Raised? <==> item.status == Held && item.itemType !in providers
    ensures r.Returned? ==> SameBooking(r.value, item) && r.value.holdId == item.holdId
    ensures item.status != Held ==> r == Returned(item)
    ensures r.Returned? && item.status == Held ==>
              r.value.status in {ItemStatus.Confirmed, ItemStatus.Failed}
              && r.value.meta.Keys >= item.meta.Keys
  {
    if item.status != Held then Returned(item)
    else if item.itemType !in providers then Raised
    else
      var resp := providers[item.itemType].confirm(item, auth);
      if resp.success then
        Returned(item.(confirmedId := resp.confirmedId, status := ItemStatus.Confirmed,
                       meta := Update(item.meta, resp.raw)))
      else
        Returned(item.(status := ItemStatus.Failed, meta := Update(item.meta, resp.raw)))
  }

  /** State of the item sequence after a loop that may have raised part way. */
  datatype Progress = Progress(items: seq<BookingItem>, raised: bool)

  /** The confirm loop over all items, in order. If it raises at an item,
      the items before it stay updated and that item and the rest are left
      as they were. */
  function ConfirmItems(items: seq<BookingItem>, providers: map<ItemType, Provider>, auth: PaymentAuth): (r: Progress)
    ensures |r.items| == |items|
  {
    if items == [] then Progress([], false)
    else match ConfirmItem(items[0], providers, auth)
      case Raised => Progress(items, true)
      case Returned(it) =>
        var rest := ConfirmItems(items[1..], providers, auth);
        Progress([it] + rest.items, rest.raised)
  }

  /** The request after `confirm_all`: the confirm loop, then, unless it
      raised, either compensation and `failed` or `confirmed`. */
  function ConfirmAllState(request: BookingRequest, providers: map<ItemType, Provider>, auth: PaymentAuth): BookingRequest
  {
    var loop := ConfirmItems(request.items, providers, auth);
    if loop.raised then request.(items := loop.items)
    else if AnyFailed(loop.items) then
      request.(items := CompensateItems(loop.items, providers), status := RequestStatus.Failed)
    else request.(items := loop.items, status := RequestStatus.Confirmed)
  }

  /** The confirm loop raises exactly when some item is held but its type
      has no provider. */
  lemma {:induction false} ConfirmRaisesIff(items: seq<BookingItem>, providers: map<ItemType, Provider>, auth: PaymentAuth)
    ensures ConfirmItems(items, providers, auth).raised <==>
              exists k :: 0 <= k < |items| && items[k].status == Held && items[k].itemType !in providers
  {
    if items != [] {
      ConfirmRaisesIff(items[1..], providers, auth);
      if ConfirmItems(items[1..], providers, auth).raised {
        var j :| 0 <= j < |items[1..]| && items[1..][j].status == Held && items[1..][j].itemType !in providers;
        assert items[j + 1] == items[1..][j];
      }
      if exists k :: 0 <= k < |items| && items[k].status == Held && items[k].itemType !in providers {
        var k :| 0 <= k < |items| && items[k].status == Held && items[k].itemType !in providers;
        if k > 0 {
          assert items[1..][k - 1] == items[k];
        }
      }
    }
  }

  /** When every step returns, the loop does not raise and updates each item
      on its own. */
  lemma {:induction false} ConfirmItemsReturned(items: seq<BookingItem>, providers: map<ItemType, Provider>, auth: PaymentAuth)
    requires forall k :: 0 <= k < |items| ==> ConfirmItem(items[k], providers, auth).Returned?
    ensures !ConfirmItems(items, providers, auth).raised
    ensures forall k :: 0 <= k < |items| ==>
              ConfirmItem(items[k], providers, auth) == Returned(ConfirmItems(items, providers, auth).items[k])
  {
    if items != [] {
      var tail := items[1..];
      forall k | 0 <= k < |tail|
        ensures ConfirmItem(tail[k], providers, auth).Returned?
      {
        assert tail[k] == items[k + 1];
      }
      ConfirmItemsReturned(tail, providers, auth);
      var rest := ConfirmItems(tail, providers, auth);
      var all := ConfirmItems(items, providers, auth);
      assert all == Progress([ConfirmItem(items[0], providers, auth).value] + rest.items, rest.raised);
      forall k | 0 <= k < |items|
        ensures ConfirmItem(items[k], providers, auth) == Returned(all.items[k])
      {
        if k > 0 {
          assert items[k] == tail[k - 1];
          assert all.items[k] == rest.items[k - 1];
        }
      }
    }
  }

  /** When step `j` is the first to raise, the loop raises with the items
      before `j` updated and the others untouched. */
  lemma {:induction false} ConfirmItemsRaisedAt(items: seq<BookingItem>, providers: map<ItemType, Provider>, auth: PaymentAuth, j: int)
    requires 0 <= j < |items|
    requires forall k :: 0 <= k < j ==> ConfirmItem(items[k], providers, auth).Returned?
    requires ConfirmItem(items[j], providers, auth).Raised?
    ensures ConfirmItems(items, providers, auth).raised
    ensures forall k :: 0 <= k < j ==>
              ConfirmItem(items[k], providers, auth) == Returned(ConfirmItems(items, providers, auth).items[k])
    ensures forall k :: j <= k < |items| ==> ConfirmItems(items, providers, auth).items[k] == items[k]
  {
    if j > 0 {
      var tail := items[1..];
      forall k | 0 <= k < j - 1
        ensures ConfirmItem(tail[k], providers, auth).Returned?
      {
        assert tail[k] == items[k + 1];
      }
      assert tail[j - 1] == items[j];
      ConfirmItemsRaisedAt(tail, providers, auth, j - 1);
      var rest := ConfirmItems(tail, providers, auth);
      var all := ConfirmItems(items, providers, auth);
      assert all == Progress([ConfirmItem(items[0], providers, auth).value] + rest.items, rest.raised);
      forall k | 0 <= k < j
        ensures ConfirmItem(items[k], providers, auth) == Returned(all.items[k])
      {
        if k > 0 {
          assert items[k] == tail[k - 1];
          assert all.items[k] == rest.items[k - 1];
        }
      }
      forall k | j <= k < |items|
        ensures all.items[k] == items[k]
      {
        assert items[k] == tail[k - 1];
        assert all.items[k] == rest.items[k - 1];
      }
    }
  }

  /** What the confirm phase does to the item at position `k` when it does
      not raise: an item that is not held is untouched; a held item becomes
      confirmed (taking the confirmation id) or failed, as the provider
      answers, and its `meta` keeps every earlier key except those the
      answer supplies, which take the answer's value. The hold id is kept. */
  lemma ConfirmOutcome(items: seq<BookingItem>, providers: map<ItemType, Provider>, auth: PaymentAuth, k: int)
    requires 0 <= k < |items|
    requires !ConfirmItems(items, providers, auth).raised
    ensures var it, r := items[k], ConfirmItems(items, providers, auth).items[k];
      && SameBooking(r, it) && r.holdId == it.holdId
      && (it.status != Held ==> r == it)
      && (it.status == Held ==>
            it.itemType in providers
            && var resp := providers[it.itemType].confirm(it, auth);
            && r.meta.Keys == it.meta.Keys + resp.raw.Keys
            && (forall key :: key in resp.raw ==> r.meta[key] == resp.raw[key])
            && (forall key :: key in it.meta && key !in resp.raw ==> r.meta[key] == it.meta[key])
            && (resp.success ==> r.status == ItemStatus.Confirmed && r.confirmedId == resp.confirmedId)
            && (!resp.success ==> r.status == ItemStatus.Failed && r.confirmedId == it.confirmedId))
  {
    ConfirmRaisesIff(items, providers, auth);
    ConfirmItemsReturned(items, providers, auth);
  }

  /** The all-or-nothing decision: when the confirm loop does not raise, the
      request ends failed exactly when some item is failed after the loop,
      and then its items are the compensated ones; otherwise it ends
      confirmed with the loop's items. Only `items` and `status` change. */
  lemma ConfirmAllDecision(request: BookingRequest, providers: map<ItemType, Provider>, auth: PaymentAuth)
    requires !ConfirmItems(request.items, providers, auth).raised
    ensures var loop, after := ConfirmItems(request.items, providers, auth).items,
                               ConfirmAllState(request, providers, auth);
      && after == request.(items := after.items, status := after.status)
      && (after.status == RequestStatus.Failed <==>
            exists k :: 0 <= k < |loop| && loop[k].status == ItemStatus.Failed)
      && (after.status == RequestStatus.Failed ==> after.items == CompensateItems(loop, providers))
      && (after.status != RequestStatus.Failed ==> after.status == RequestStatus.Confirmed && after.items == loop)
  {
  }

  // ---------------------------------------------------------------------
  // Compensation

  /** One pass of the compensation loop over `item`. Only an item with a
      hold id is released; a release that returns (whatever it returns)
      cancels the item unless it is confirmed; a release that raises, or a
      missing provider, is swallowed and leaves the item as it was. */
  function CompensateItem(item: BookingItem, providers: map<ItemType, Provider>): (r: BookingItem)
    ensures r == item.(status := r.status)
    ensures r.status == item.status || r.status == ItemStatus.Cancelled
    ensures item.status == ItemStatus.Confirmed ==> r == item
    ensures !HasHold(item) ==> r == item
  {
    if !HasHold(item) then item
    else if item.itemType !in providers then item
    else match providers[item.itemType].cancelHold(item.holdId.value)
      case Raised => item
      case Returned(_) =>
        if item.status != ItemStatus.Confirmed then item.(status := ItemStatus.Cancelled) else item
  }

  /** The compensation loop over all items, in order. */
  function CompensateItems(items: seq<BookingItem>, providers: map<ItemType, Provider>): (r: seq<BookingItem>)
    ensures |r| == |items|
  {
    if items == [] then [] else [CompensateItem(items[0], providers)] + CompensateItems(items[1..], providers)
  }

  lemma {:induction false} CompensateItemsAt(items: seq<BookingItem>, providers: map<ItemType, Provider>, k: int)
    requires 0 <= k < |items|
    ensures CompensateItems(items, providers)[k] == CompensateItem(items[k], providers)
  {
    if k > 0 {
      CompensateItemsAt(items[1..], providers, k - 1);
    }
  }

  /** What compensation does to the item at position `k`: it changes at most
      the status, never touches a confirmed item or an item without a hold
      id, cancels a held-once item whose release returns, and leaves it
      unchanged when the release raises or no provider is registered. */
  lemma CompensateOutcome(items: seq<BookingItem>, providers: map<ItemType, Provider>, k: int)
    requires 0 <= k < |items|
    ensures var it, r := items[k], CompensateItems(items, providers)[k];
      && r == it.(status := r.status)
      && (it.status == ItemStatus.Confirmed || !HasHold(it) || it.itemType !in providers ==> r == it)
      && (HasHold(it) && it.itemType in providers && it.status != ItemStatus.Confirmed ==>
            (providers[it.itemType].cancelHold(it.holdId.value).Returned? ==> r.status == ItemStatus.Cancelled)
            && (providers[it.itemType].cancelHold(it.holdId.value).Raised? ==> r == it))
  {
    CompensateItemsAt(items, providers, k);
  }

  /** Compensating twice, where the second pass may get different answers
      from the providers (`second`) than the first (`first`): the second
      pass changes only items the first pass left untouched although they
      had a hold id, were neither confirmed nor cancelled, and their release
      raised or found no provider; such an item becomes cancelled and
      nothing else about it changes. An item the first pass cancelled stays
      as the first pass left it. */
  lemma {:induction false} CompensateTwice(items: seq<BookingItem>, first: map<ItemType, Provider>,
                                           second: map<ItemType, Provider>)
    ensures |CompensateItems(CompensateItems(items, first), second)| == |items|
    ensures forall k :: 0 <= k < |items| ==>
      var it, once, twice := items[k], CompensateItems(items, first)[k],
                             CompensateItems(CompensateItems(items, first), second)[k];
      && (once != it ==> twice == once)
      && (twice != once ==>
            && once == it && twice == it.(status := ItemStatus.Cancelled)
            && HasHold(it) && it.status != ItemStatus.Confirmed && it.status != ItemStatus.Cancelled
            && (it.itemType !in first || first[it.itemType].cancelHold(it.holdId.value).Raised?))
  {
    var once := CompensateItems(items, first);
    forall k | 0 <= k < |items|
      ensures var it, twice := items[k], CompensateItems(once, second)[k];
        && (once[k] != it ==> twice == once[k])
        && (twice != once[k] ==>
              && once[k] == it && twice == it.(status := ItemStatus.Cancelled)
              && HasHold(it) && it.status != ItemStatus.Confirmed && it.status != ItemStatus.Cancelled
              && (it.itemType !in first || first[it.itemType].cancelHold(it.holdId.value).Raised?))
    {
      CompensateItemsAt(items, first, k);
      CompensateItemsAt(once, second, k);
    }
  }

  /** Compensating twice is the same as compensating once, when every
      release answers the second time as it did the first (the registry is
      the same and its calls are functions of the hold id). */
  lemma {:induction false} CompensateIdempotent(items: seq<BookingItem>, providers: map<ItemType, Provider>)
    ensures CompensateItems(CompensateItems(items, providers), providers) == CompensateItems(items, providers)
  {
    var once := CompensateItems(items, providers);
    var twice := CompensateItems(once, providers);
    forall k | 0 <= k < |items|
      ensures twice[k] == once[k]
    {
      CompensateItemsAt(items, providers, k);
      CompensateItemsAt(once, providers, k);
    }
  }

  // ---------------------------------------------------------------------
  // The orchestrator

  /** Drives one booking request through reserve, confirm and compensate,
      with providers looked up by item type. */
  class TransactionManager {
    var request: BookingRequest
    const providers: map<ItemType, Provider>

    constructor (bookingRequest: BookingRequest, providers: map<ItemType, Provider>)
      ensures request == bookingRequest && this.providers == providers
    {
      request := bookingRequest;
      this.providers := providers;
    }

    /** Places a hold for every item; returns the updated request. */
    method ReserveAll() returns (r: BookingRequest)
      modifies this
      ensures request == ReserveAllState(old(request), providers)
      ensures r == request
    {
      var i := 0;
      while i < |request.items|
        invariant 0 <= i <= |request.items| == |old(request.items)|
        invariant request == old(request).(items := request.items)
        invariant forall k :: 0 <= k < i ==> request.items[k] == ReserveItem(old(request.items)[k], providers)
        invariant forall k :: i <= k < |request.items| ==> request.items[k] == old(request.items)[k]
      {
        var item := request.items[i];
        if item.itemType !in providers {
          item := item.(status := ItemStatus.Failed, meta := map["error" := Text("no_provider")]);
        } else {
          var resp := providers[item.itemType].reserve(item);
          if resp.success {
            item := item.(holdId := resp.holdId, status := Held, meta := resp.raw);
          } else {
            item := item.(status := ItemStatus.Failed, meta := resp.raw);
          }
        }
        request := request.(items := request.items[i := item]);
        i := i + 1;
      }
      forall k | 0 <= k < |request.items|
        ensures request.items[k] == ReserveItems(old(request.items), providers)[k]
      {
        ReserveItemsAt(old(request.items), providers, k);
      }
      r := request;
    }

    /** Confirms the held items, then settles the request: failed (after
        compensation) when any item is failed, confirmed otherwise. Raises
        when a held item's type has no provider. */
    method ConfirmAll(auth: PaymentAuth) returns (r: Call<BookingRequest>)
      modifies this
      ensures request == ConfirmAllState(old(request), providers, auth)
      ensures r == if ConfirmItems(old(request.items), providers, auth).raised then Raised else Returned(request)
    {
      var i := 0;
      while i < |request.items|
        invariant 0 <= i <= |request.items| == |old(request.items)|
        invariant request == old(request).(items := request.items)
        invariant forall k :: 0 <= k < i ==>
                    ConfirmItem(old(request.items)[k], providers, auth) == Returned(request.items[k])
        invariant forall k :: i <= k < |request.items| ==> request.items[k] == old(request.items)[k]
      {
        var item := request.items[i];
        if item.status != Held {
          i := i + 1;
          continue;
        }
        if item.itemType !in providers {
          ConfirmItemsRaisedAt(old(request.items), providers, auth, i);
          return Raised;
        }
        var resp := providers[item.itemType].confirm(item, auth);
        if resp.success {
          item := item.(confirmedId := resp.confirmedId, status := ItemStatus.Confirmed,
                        meta := Update(item.meta, resp.raw));
        } else {
          item := item.(status := ItemStatus.Failed, meta := Update(item.meta, resp.raw));
        }
        request := request.(items := request.items[i := item]);
        i := i + 1;
      }
      ConfirmItemsReturned(old(request.items), providers, auth);
      assert request.items == ConfirmItems(old(request.items), providers, auth).items;
      if AnyFailed(request.items) {
        Compensate();
        request := request.(status := RequestStatus.Failed);
        return Returned(request);
      }
      request := request.(status := RequestStatus.Confirmed);
      r := Returned(request);
    }

    /** Releases the hold of every item that has a hold id. */
    method Compensate()
      modifies this
      ensures request == old(request).(items := CompensateItems(old(request.items), providers))
    {
      var i := 0;
      while i < |request.items|
        invariant 0 <= i <= |request.items| == |old(request.items)|
        invariant request == old(request).(items := request.items)
        invariant forall k :: 0 <= k < i ==> request.items[k] == CompensateItem(old(request.items)[k], providers)
        invariant forall k :: i <= k < |request.items| ==> request.items[k] == old(request.items)[k]
      {
        var item := request.items[i];
        if HasHold(item) && item.itemType in providers {
          var outcome := providers[item.itemType].cancelHold(item.holdId.value);
          if outcome.Returned? && item.status != ItemStatus.Confirmed {
            request := request.(items := request.items[i := item.(status := ItemStatus.Cancelled)]);
          }
        }
        i := i + 1;
      }
      forall k | 0 <= k < |request.items|
        ensures request.items[k] == CompensateItems(old(request.items), providers)[k]
      {
        CompensateItemsAt(old(request.items), providers, k);
      }
    }
  }
}
