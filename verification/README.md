# Booking saga orchestrator — a Dafny model

This project models the core of a travel-booking service that books a
multi-item itinerary (flights, hotels, cabs, attractions) across independent
providers with a reserve-then-confirm saga and compensation on failure.

- `booking_schemas.dfy` (module `BookingSchemas`): the `BookingItem` and
  `BookingRequest` records, their closed literal domains (item type, item
  status, request status) with validation of the literal spellings, the
  defaults of a new record, and `Update`, the right-biased `dict.update`
  used on an item's diagnostic `meta`.
- `booking_tools.dfy` (module `BookingTools`): the provider response, the
  provider contract as three total functions (`reserve`, `confirm`,
  `cancelHold`, the last returning or raising), and the three deterministic
  mock providers with the registry the demo and the checkout wire up. Hold
  ids and confirmation ids built by the mocks are read back by
  `ParseHoldId` and `ParseConfirmedId`, which proves them unique per mock and
  item id.
- `txn_manager.dfy` (module `TxnManager`): the class `TransactionManager`
  holding the request and the provider registry, with `ReserveAll`,
  `ConfirmAll` and `Compensate` as loops over the items. Each loop is proved
  against a function of the old state (`ReserveItems`, `ConfirmItems`,
  `CompensateItems`, built from per-item steps), and the lemmas beside them
  state what each phase does to each item.
- `saga_properties.dfy` (module `SagaProperties`): whole runs — reserve then
  confirm — for any providers (all-or-nothing) and for the mock registry
  (the demo scenario, and an itinerary with an unserved attraction).

Where the code does not do what its own docstrings and comments say (the
`confirm_all` docstring at `txn_manager.py:41-45`, "cleanup holds to avoid
partial bookings" at `txn_manager.py:60`, "cancel any holds" at
`txn_manager.py:68-70`), the model follows the code:

- A failed reservation or confirmation stores the provider's `raw` map; the
  fallback diagnostics `reserve_failed` / `confirm_failed` in
  `txn_manager.py:37` and `txn_manager.py:58` can never be used, because a
  `ProviderResponse` always has a `raw` attribute (empty when none was given,
  `booking_tools.py:10`).
- Compensation does not cancel a confirmed item: after a confirm failure the
  items already confirmed stay `confirmed` (a half-booked itinerary), and the
  item whose confirmation failed ends `cancelled` once its hold is released,
  not `failed` (`MockSagaWithAttraction`, `SagaAllOrNothing`).
- The request ends `confirmed` exactly when no item is `failed` after the
  confirm loop; items that are neither held nor failed (for instance still
  pending, if `reserve_all` was not run) do not prevent it
  (`ConfirmWithNothingHeld`). Only after `reserve_all` does `confirmed` mean
  that every item is confirmed (`SagaAllOrNothing`).
- The return value of `cancel_hold` is ignored: a release that returns
  `False` still cancels the item. Compensation failures are swallowed, not
  collected.
- Confirmation does not clear `hold_id`; no phase clears it except a
  successful reservation whose response carries no hold id.
- `reserve_all` re-reserves every item whatever its status, including
  confirmed ones; there is no idempotent replay.
- A held item whose type has no registered provider makes `confirm_all`
  raise (it calls `confirm` on the missing provider) after the earlier items
  have been updated; the model returns `Raised` with that partial state. In
  `compensate` the same lookup failure happens inside the `try` and is
  swallowed.

## Model

| member | source | states |
|---|---|---|
| BookingSchemas.ParseItemType | booking_schemas.py:7 | an accepted `item_type` string is the spelling of one of flight, hotel, attraction, cab; any other string is rejected |
| BookingSchemas.ParseItemStatus | booking_schemas.py:16 | an accepted item status string spells one of pending, held, confirmed, failed, cancelled; any other is rejected |
| BookingSchemas.ParseRequestStatus | booking_schemas.py:27 | an accepted request status string spells one of created, authorized, confirmed, failed, cancelled; any other is rejected |
| BookingSchemas.NamesRoundTrip | booking_schemas.py:7-27 | every literal spelling is accepted back as the value it spells |
| BookingSchemas.NewBookingItem | booking_schemas.py:5-17 | a new item is pending with no hold id, no confirmation id and empty meta; taxes default to 0; total is stored as given, not derived from price and taxes |
| BookingSchemas.NewBookingRequest | booking_schemas.py:20-27 | a new request is `created`; the idempotency key is absent unless given; total_amount is stored as given, independent of the items |
| BookingSchemas.Update | txn_manager.py:55 | `meta.update(raw)`: keys are the union, the new response wins on shared keys, every other old key keeps its value |
| BookingTools.NewProviderResponse | booking_tools.py:5-10 | a response keeps success and ids as given; a missing raw becomes the empty map, so raw is never null |
| BookingTools.MockReserve | booking_tools.py:18-22 | a mock reservation always succeeds with hold id `HoldPrefix(m) + item_id` and raw holding exactly `price` (the item's price) and `provider` |
| BookingTools.MockConfirm | booking_tools.py:24-27 | a mock confirmation always succeeds with confirmation id `ConfirmPrefix(m) + item_id` and raw holding one reference key, distinct from `price` and `provider` |
| BookingTools.MockCancelHold | booking_tools.py:29-31 | a mock release returns true for any hold id and never raises |
| BookingTools.MockFor | example_run.py:59-64 | the registry serves exactly flight, hotel and cab, each by the mock of that kind |
| BookingTools.ParseHoldId | booking_tools.py:21-53 | a parsed hold id is the issuing mock's prefix followed by the parsed item id |
| BookingTools.ParseConfirmedId | booking_tools.py:26-59 | a parsed confirmation id is the issuing mock's prefix followed by the parsed item id |
| BookingTools.MockHoldIdRoundTrip | booking_tools.py:21-53 | the hold id a mock issues parses back to that mock and the item id |
| BookingTools.MockConfirmedIdRoundTrip | booking_tools.py:26-59 | the confirmation id a mock issues parses back to that mock and the item id |
| BookingTools.MockIdsUnique | booking_tools.py:21-59 | two mock hold ids (or confirmation ids) are equal only for the same mock and the same item id |
| TxnManager.ReserveItem | txn_manager.py:25-37 | one reserve step leaves the item held or failed, held only when a provider exists, with caller fields and confirmation id unchanged |
| TxnManager.ReserveItems | txn_manager.py:24 | the reserve loop keeps the number of items |
| TxnManager.ReserveItemsAt | txn_manager.py:24-37 | the reserve loop applies the reserve step to each item in place, in order |
| TxnManager.ReserveLeavesNoPending | txn_manager.py:24-37 | after reserve every item is held or failed; none is pending |
| TxnManager.ReserveOutcome | txn_manager.py:25-37 | no provider: failed with meta `{error: no_provider}`, hold id kept; success: held with the provider's hold id and meta replaced by raw; failure: failed, meta replaced by raw, hold id kept |
| TxnManager.ConfirmItem | txn_manager.py:46-58 | a step changes only held items; it raises exactly for a held item with no provider; a held item ends confirmed or failed with every old meta key kept; the hold id is kept |
| TxnManager.ConfirmItems | txn_manager.py:46 | the confirm loop keeps the number of items |
| TxnManager.ConfirmRaisesIff | txn_manager.py:49-50 | the confirm loop raises exactly when some item is held and its type has no provider |
| TxnManager.ConfirmItemsReturned | txn_manager.py:46-58 | when no step raises, the loop applies the confirm step to each item in place |
| TxnManager.ConfirmItemsRaisedAt | txn_manager.py:49-50 | when step j is the first to raise, items before j are updated and the rest are untouched |
| TxnManager.ConfirmOutcome | txn_manager.py:46-58 | non-held items untouched; held items confirmed with the confirmation id, or failed; new meta is old meta overwritten by raw on shared keys only |
| TxnManager.ConfirmAllDecision | txn_manager.py:59-65 | the request ends failed exactly when some item is failed after the loop, with compensated items; otherwise confirmed; nothing else in the request changes |
| TxnManager.CompensateItem | txn_manager.py:72-81 | a step changes at most the status, to cancelled; confirmed items and items without a hold id are untouched |
| TxnManager.CompensateItems | txn_manager.py:71 | the compensation loop keeps the number of items |
| TxnManager.CompensateItemsAt | txn_manager.py:71-81 | the compensation loop applies the step to each item in place |
| TxnManager.CompensateOutcome | txn_manager.py:71-81 | only status changes; confirmed, hold-less or provider-less items are untouched; a returning release cancels a non-confirmed item; a raising release leaves it unchanged |
| TxnManager.CompensateTwice | txn_manager.py:67-81 | a second compensation pass, whose releases may answer differently from the first, changes only items the first pass left untouched although they held a hold id, were neither confirmed nor cancelled, and had a raising release or no provider; each such item only becomes cancelled; items the first pass cancelled stay as they were |
| TxnManager.CompensateIdempotent | txn_manager.py:67-81 | when every release answers as it did the first time, compensating twice gives the same items as compensating once |
| TxnManager.TransactionManager.constructor | txn_manager.py:14-16 | the orchestrator holds the given request and provider registry |
| TxnManager.TransactionManager.ReserveAll | txn_manager.py:18-38 | the new request is the old one with the reserve loop applied to its items; status and all other fields unchanged; the updated request is returned |
| TxnManager.TransactionManager.ConfirmAll | txn_manager.py:40-65 | the new request is `ConfirmAllState` of the old one; the call raises exactly when the confirm loop raises, otherwise returns the updated request |
| TxnManager.TransactionManager.Compensate | txn_manager.py:67-81 | the new request is the old one with the compensation loop applied to its items; nothing else changes |
| SagaProperties.ReserveThenConfirmLoop | txn_manager.py:24-58 | after reserve, the confirm loop never raises and leaves each item confirmed or failed with caller fields unchanged |
| SagaProperties.SagaAllOrNothing | txn_manager.py:18-81 | after reserve then confirm the request is confirmed or failed, confirmed exactly when every item is confirmed; no item pending or held; a failed item has no hold, no provider, or a raising release |
| SagaProperties.ConfirmWithNothingHeld | txn_manager.py:46-65 | with no held and no failed item, confirm changes no item and marks the request confirmed |
| SagaProperties.MockReserved | booking_tools.py:18-22 | with the mock registry, a served item is held with the mock's hold id and the reservation's raw as meta |
| SagaProperties.MockConfirmed | booking_tools.py:18-59 | with the mock registry, a flight, hotel or cab item after reserve and confirm is confirmed, with the hold id and confirmation id its mock builds from the item id, and meta holding exactly `price` (the item price), `provider` and the confirmation's reference key |
| SagaProperties.MockSagaConfirmsAll | example_run.py:59-77 | with the three mocks registered, a request of flight, hotel and cab items ends confirmed with every item confirmed |
| SagaProperties.MockSagaWithAttraction | txn_manager.py:25-29 | with the mock registry an attraction item fails with `no_provider`, the request ends failed, and the other items stay confirmed |

## Left out

- CompensateIdempotent: holds only for releases that answer the same way every time (as the mocks do). A real provider whose `cancel_hold` raises once and then returns is covered by `CompensateTwice`, which lets the second pass cancel the items whose first release raised.
- Provider calls are modelled as functions of their arguments that do not change the item passed in: equal items get equal answers, and two calls within one run cannot answer differently. Only the mocks are stateless in the code; a real provider may keep state or mutate the item, and the model does not capture that (`CompensateTwice` covers a second compensation pass with different answers).
- Timing: the mocks' `time.sleep` latency is not modelled; the phases are sequential loops, as in the code.
- Exceptions raised by a provider's `reserve` or `confirm` are not modelled: both are total functions returning a response. Only `cancel_hold` may raise (`Call.Raised`), and the missing-provider `AttributeError` in `confirm_all` is modelled.
- Aliasing: the request and its items are values; the Python caller sees the updated request through the shared object, the model through the returned value and the `request` field. A `raw` dict stored in `meta` and later updated in place also mutates the provider's response object; the model does not capture this sharing.
- Duck typing: a provider response is always a `ProviderResponse`; the `getattr` defaults for objects without `success` or `raw` are not modelled.
- `price`, `taxes`, `total` and `total_amount` are opaque `real` values; float rounding is not modelled, and no arithmetic is done on them.
- `meta` values are text or amounts; arbitrary JSON-like values a provider may return are not modelled.
- The registry is keyed by item type; entries for keys that are not item types, and providers that are falsy objects, are not modelled.
- Pydantic's validation on construction is modelled only as the `Parse*` functions for the literal domains; type coercion of other fields is not modelled.
- LLM itinerary planning, retrieval, search tools, payment checkout sessions, webhook handling and persistence are not part of this model.
