# Pritech PMS: a Dafny model of its stateful protocols

This project models the parts of Pritech PMS (a multi-tenant property-management system in Django,
with an offline-capable browser client) in which state moves step by step, and proves what the code
promises about them over every input, every run and, where transactions interleave, every
interleaving.  `dafny verify dfyconfig.toml` checks all of it.

Tables are finite maps keyed by id, money is integers of hundredths, dates are integer days of one
clock.  Code that updates rows in place is a class whose methods are proved against specification
functions; the theorems are lemmas about those functions and about runs of them.

| files | what they model |
|---|---|
| `Rows`, `Decimals`, `Calendar` | tables and sums, decimal numbering, Gregorian months |
| `Inventory` | reservations, the conflict query, availability, capacity |
| `BookingProtocol`, `BookingRaces` | interleaved booking transactions: row locks, the advisory lock, reads of committed rows, edits with the lock and without; runs that double-book |
| `Desk`, `DeskTheorems`, `FolioAccounts`, `FrontDesk` | the front desk one operation at a time: what each does, what all keep, what a stay costs, and the services as a class over the tables |
| `ForeignUnits` | check-ins into units of another property |
| `SyncServer`, `SyncBatch` | the sync handlers under duplicated deliveries, and the batch endpoint |
| `OfflineStore`, `OfflinePasses`, `ServiceWorker` | the two client queues, and passes over the first that overlap |
| `Billing`, `BillingTheorems`, `BillingJobs` | subscriptions, invoices, payments and the daily jobs |
| `PaymentRaces` | deliveries of one payment at the same time |
| `PayChangu`, `Slugs`, `Leases`, `FcyReturns` | the webhook ledger, public slugs, lease renewals, monthly foreign-currency returns |

## Where the code and its words differ

The model follows the code.

- The services' docstring (apps/hospitality/reservations/services.py:9-14) says check-out and
  cancellation lock the units; they do not.  The main theorem holds all the same, because they only
  free rooms.
- The check-out docstring and the signal's (services.py:231-232, signals.py:14) promise a
  housekeeping task, and tests/test_hospitality/test_reservations.py:128 expects one; none is created
  (`DeskTheorems.NoSignal`).
- tests/test_hospitality/test_reservations.py:83 expects a check-in into a unit under maintenance to
  be refused; since the status guard was removed (services.py:152-159) it is not.
- services.py:16-18 says availability must not be checked outside the lock; the edit view does so when
  room and rate stay the same (views.py:247-250, `BookingRaces.UnlockedEditDoubleBooks`).
- An edit whose new rate is refused under the lock keeps its new dates and its room: they are saved
  before the attach and nothing takes them back (views.py:240-262,
  `BookingRaces.RefusedRateDoubleBooks`).
- Nothing at check-in compares a unit's property with the reservation's, while the conflict query is
  scoped by property (`ForeignUnits.CheckInSafeForeverIff` says exactly when that double-books, then
  or later).
- apps/core/sync/handlers.py:4-5 wants all handlers idempotent; charges and payments without a
  reference are not, as lines 30-38 of the same file admit, and neither is an operation answered
  `deleted` (`SyncServer.DeletedRepliesCanActLater`).
- The batch tally counts rejected operations as synced (apps/core/sync/views.py:64-70).
- renew_lease accepts EXPIRED leases without looking at the unit, and stores no link to the old lease
  although it says it preserves the chain (apps/property/leases/services.py:57-62).
- Any payment moves the billing period, full or not (apps/shared/billing/services.py:291-298);
  `BillingTheorems.InvoicesFormAChainIff` says exactly when that costs the chain of invoices, and
  `BillingTheorems.EveryRunFitsIff` when payments on PAID and VOID invoices, which the views accept, do.
- record_subscription_payment and the sync handler of payments call themselves idempotent
  (apps/shared/billing/services.py:255-258, apps/core/sync/handlers.py:159-161); nothing locks between
  the look-up and the insert, so deliveries at the same time are not (`PaymentRaces.NeverDoublesIff`).
- Coming back online starts two passes over the offline queue (static/js/offline-store.js:47-51 and
  templates/partials/_offline_indicator.html:66-71).  They send everything twice, and the later update
  can make an accepted operation pending again (`OfflinePasses.AcceptedIsSentAgain`;
  `OfflinePasses.SentAgainIff` says exactly when an entry can be sent again).

## Model

| member | source | states |
|---|---|---|
| Inventory.ConflictIsATakenNight | apps/hospitality/reservations/models.py:189-220 | On a well-dated table the half-open interval test reports a unit if and only if some night of the range is taken by a blocking reservation of the property; on an empty or inverted range, which has no nights, exactly the units a stay spans. |
| Inventory.AvailableMeansEveryNightFree | apps/hospitality/reservations/services.py:38-87 | For a range with a night, a unit is offered if and only if it is the property's, active, out of maintenance, of the wanted type, and free on every night. |
| Inventory.OnlyMaintenanceMatters | apps/hospitality/reservations/services.py:43-52 | Changing a unit's housekeeping state between any two statuses other than MAINTENANCE changes no availability answer. |
| Inventory.SubtractingOwnUnits | apps/hospitality/reservations/forms.py:239-251 | Taking a reservation's own units out of the conflicts equals leaving the reservation out of the query if and only if none of its units is disputed by another blocking reservation. |
| Inventory.UndisputedWithoutDoubleBooking | apps/hospitality/reservations/models.py:205-219 | With no double booking the two forms of the query agree for every blocking reservation. |
| Inventory.RowIsSafeIff | apps/hospitality/reservations/services.py:16-18 | Writing a blocking row leaves a table free of double bookings if and only if the conflict query asked at that moment finds none of its units: the exact condition for one write, with no other transaction open. |
| Inventory.FreeRowKeepsTable | apps/hospitality/reservations/services.py:109-125 | A row whose units belong to its property and are free for its dates can be added or replaced without a double booking. |
| Inventory.NoShowsKeepTable | apps/hospitality/reservations/tasks.py:116-123 | The no-show sweep keeps the table free of double bookings, its rooms in their properties and its dates in order. |
| Inventory.SweepFlagsTheOverdue | apps/hospitality/reservations/tasks.py:116-123 | Afterwards no confirmation of the property is overdue, and only the status of those that were has changed. |
| Inventory.NoShowsBlockLess | apps/hospitality/reservations/tasks.py:116-123 | The sweep adds no unit to any conflict query. |
| Inventory.BookedRoomsInject | apps/hospitality/reservations/models.py:209-220 | On every night the booked rooms map one-to-one into the property's units. |
| Inventory.NightsCountedBothWays | apps/hospitality/reservations/models.py:179-181 | Room-nights counted night by night equal rooms times nights counted stay by stay. |
| Inventory.CapacityNeverExceeded | apps/hospitality/reservations/models.py:209-220 | Rooms times nights sold in a range never exceed the property's units times the nights. |
| BookingProtocol.RunSoundIffCommitsFit | apps/hospitality/reservations/services.py:9-18 | Over every interleaving, with any number of transitions in flight on a reservation, edits with the lock or without and check-ins into any units, the inventory invariant holds all along if and only if every commit fits when it is made. |
| BookingProtocol.CommitSoundIff | apps/hospitality/reservations/services.py:138-225 | A commit keeps the invariant if and only if its row's rooms are in its property and, if it blocks, are found by no conflict query for its dates and written by no open transaction of another reservation for overlapping dates; otherwise the table or another transaction is broken. |
| BookingProtocol.StepKeepsSound | apps/hospitality/reservations/services.py:9-18 | Every statement other than a commit keeps the invariant, whatever else is going on. |
| BookingProtocol.FittingRunsNeverDoubleBook | apps/hospitality/reservations/services.py:94-225 | From any database at rest in order, no interleaving whose commits fit publishes, under READ COMMITTED, two blocking reservations of one unit for overlapping dates. |
| BookingProtocol.LockedCommitsFit | apps/hospitality/reservations/services.py:9-18 | With one transition in flight on each reservation and units of the own property, every commit other than an edit fits: that is what the lock from check to commit gives. |
| BookingProtocol.EditFitsIff | apps/hospitality/reservations/views.py:247-262 | And an edit fits if and only if the rooms it keeps unchecked do. |
| BookingProtocol.NoInterleavingDoubleBooks | apps/hospitality/reservations/services.py:94-225 | So no interleaving of creations, check-ins, check-outs, cancellations, audits and edits that fit, one transition in flight on each reservation, double-books. |
| BookingProtocol.RunSafeIffEditsFit | apps/hospitality/reservations/views.py:227-262 | Over runs of the views with one transition in flight on each reservation, edits as the view runs them, the invariant with what each transaction knows of its own row holds all along if and only if every edit that commits fits at that moment. |
| BookingProtocol.EditKeepsSafeIff | apps/hospitality/reservations/views.py:247-262 | The commit of an edit keeps the invariant if and only if the conflict query finds none of the rooms it keeps unchecked and no other open transaction has written one of them for overlapping dates. |
| BookingProtocol.UnfitEditBreaks | apps/hospitality/reservations/views.py:247-262 | Otherwise the table is double-booked at once, or another open transaction has lost a unit it had checked under its lock. |
| BookingProtocol.LostUnitDoubleBooks | apps/hospitality/reservations/services.py:16-18 | A transaction that has lost a unit so double-books with its own commit. |
| BookingProtocol.LockedEditsFit | apps/hospitality/reservations/views.py:251-262 | An edit that takes the lock fits whenever its check succeeds, and also when a new room is refused; what can fail to fit are the edits that skip the lock and those refused a new rate. |
| BookingProtocol.StepKeepsSafe | apps/hospitality/reservations/services.py:9-18 | Every single database statement keeps the inventory invariant: each open transaction holds the lock of every unit it has written and that unit is free for its dates. |
| BookingProtocol.CheckKeepsSafe | apps/hospitality/reservations/services.py:183-198 | A check made under the lock justifies the write that follows it. |
| BookingProtocol.CommitKeepsSafe | apps/hospitality/reservations/services.py:138-225 | A commit publishes only free units and invalidates no other transaction's check. |
| BookingProtocol.PublishedRoomsAreFree | apps/hospitality/reservations/services.py:171-210 | The rooms a blocking commit publishes belong to the row's property and are free of every other blocking reservation; outside edits all of them were locked and checked by the transaction, so swapped-out rooms are gone. |
| BookingProtocol.NumbersStayConsecutive | apps/hospitality/reservations/models.py:151-173 | Under every interleaving, edits that do not fit and several transitions on one reservation included, the committed numbers of each day are exactly 1..n and all printed reservation numbers differ. |
| BookingProtocol.ChosenNumberIsFresh | apps/hospitality/reservations/models.py:168-173 | The number a creation has chosen is not among the committed ones, so its insert never meets the unique constraint. |
| BookingProtocol.StepKeepsNumbered | apps/hospitality/reservations/models.py:151-173 | Every statement keeps the numbering invariant: a creation past the advisory lock owns its day and, once it has counted, its number is the next one. |
| BookingProtocol.PrefixMeansDay | apps/hospitality/reservations/models.py:168-170 | The startswith filter selects exactly the numbers of the day. |
| BookingProtocol.NumberTextInjective | apps/hospitality/reservations/models.py:172 | Different (day, index) pairs never print alike, also past 9999. |
| BookingProtocol.CapacityUnderInterleaving | apps/hospitality/reservations/services.py:9-18 | The capacity bound holds in every state an interleaving whose commits fit reaches. |
| BookingRaces.UnlockedEditDoubleBooks | apps/hospitality/reservations/views.py:247-250 | A run of the views in which an edit that skips the lock double-books. |
| BookingRaces.RefusedRateDoubleBooks | apps/hospitality/reservations/views.py:253-262 | A run in which an edit asks for a new rate, is refused under the lock, and double-books all the same: the new dates are saved before and committed with the room. |
| BookingRaces.CleanEditStillBreaks | apps/hospitality/reservations/views.py:247-250 | A run in which the query finds nothing when an unlocked edit commits, and the table is double-booked by the creation that had checked the unit before. |
| BookingRaces.TwoInFlightDoubleBook | apps/hospitality/reservations/services.py:138-225 | A run with two transitions in flight on one reservation, all else in order, double-books: the services lock units, not reservations. |
| DeskTheorems.FormAcceptsMeans | apps/hospitality/reservations/forms.py:139-198 | The booking form accepts if and only if the dates are in order and the unit is the property's, active, out of maintenance and free of every other blocking reservation of the property. |
| DeskTheorems.CreateEffect | apps/hospitality/reservations/views.py:126-150 | A sequential creation succeeds if and only if the id is fresh and the form accepts; it adds one CONFIRMED row with one room, otherwise nothing changes. |
| DeskTheorems.EditEffect | apps/hospitality/reservations/views.py:227-262 | An accepted edit always succeeds, keeps the status, and leaves the new dates and exactly the wanted room and rate; for a no-show the signal frees its occupied units. |
| DeskTheorems.CheckInEffect | apps/hospitality/reservations/services.py:138-225 | A check-in succeeds if and only if the reservation is CONFIRMED, some unit is assigned, all exist and no other blocking reservation of the property overlaps on them; it then holds exactly those units, OCCUPIED, and has a folio. |
| DeskTheorems.CheckOutEffect | apps/hospitality/reservations/services.py:228-268 | A check-out succeeds if and only if the guest is in house and charges equal payments (or there is no folio); it stamps every room, flips only OCCUPIED units to CLEANING, settles the folio, and creates no housekeeping task. |
| DeskTheorems.NoSignal | apps/hospitality/reservations/signals.py:17-30 | After the service has flipped the units, the signal finds none OCCUPIED: its task-creating branch is never taken. |
| DeskTheorems.CancelFreesTheRooms | apps/hospitality/reservations/services.py:271-296 | A cancellation is refused exactly in house or after departure; otherwise every conflict query afterwards equals the query that leaves the reservation out. |
| DeskTheorems.ReachableInOrder | apps/hospitality/reservations/services.py:138-296 | In every state reached from a hotel without reservations by operations whose successful check-ins use units of their own property: CHECKED_IN iff the folio is OPEN, CHECKED_OUT iff SETTLED, both hold a room, and no unit is double-booked. |
| DeskTheorems.RunsStayInOrder | apps/hospitality/reservations/services.py:138-296 | The same from any state in order, over every such run of create, edit, check-in, check-out, cancel, audit, charge and payment. |
| DeskTheorems.ApplyKeepsOrder | apps/hospitality/reservations/services.py:94-296 | Each single operation keeps that invariant, failed ones included. |
| DeskTheorems.DepartureIsFinal | apps/hospitality/reservations/services.py:161-164 | A CHECKED_OUT reservation's row never changes again, whatever is done afterwards. |
| DeskTheorems.OnlyCheckOutDeparts | apps/hospitality/reservations/services.py:228-268 | No other operation makes a reservation CHECKED_OUT. |
| DeskTheorems.DepartureIsPaid | apps/hospitality/reservations/services.py:239-244 | CHECKED_OUT is entered only by a check-out of a guest in house whose folio balance is zero, and it is still zero after. |
| FolioAccounts.AuditEffect | apps/hospitality/reservations/tasks.py:89-108 | One audit adds exactly the sum of the room rates to every open in-house folio of the property, one row per room, and changes no other folio. |
| FolioAccounts.RoomChargesTotal | apps/hospitality/reservations/tasks.py:100-108 | The charges posted for a reservation are one per room and add up to its rates. |
| FolioAccounts.StayAddsUp | apps/hospitality/folios/models.py:30-40 | Over any run during which a guest stays, audit-posted charges grow by the room rates once per audit and the balance moves by exactly the audits, charges and payments. |
| FolioAccounts.AuditsSinceArrival | apps/hospitality/reservations/tasks.py:89-108 | From check-in on, k audits leave exactly k times the room rates in audit charges, and the balance is charges minus payments. |
| FrontDesk.HotelDb.Attach | apps/hospitality/reservations/services.py:94-131 | Refuses exactly a unit held by another reservation; otherwise the room is there at the given rate, its timestamps kept. |
| FrontDesk.HotelDb.CreateReservation | apps/hospitality/reservations/views.py:126-150 | Row saved, attached, and deleted again on failure: the tables end as Desk.Create says. |
| FrontDesk.HotelDb.EditReservation | apps/hospitality/reservations/views.py:227-262 | Save, signal, skip or replace, as Desk.Edit says, new dates kept even when the attach fails. |
| FrontDesk.HotelDb.OnReservationNoShow | apps/hospitality/reservations/signals.py:32-37 | The loop over a no-show's rooms frees exactly their OCCUPIED units. |
| FrontDesk.HotelDb.AssignRoom | apps/hospitality/reservations/services.py:179-213 | One assignment is held if and only if no other reservation holds the unit; then the room carries rate and arrival and the unit is OCCUPIED. |
| FrontDesk.HotelDb.CheckInReservation | apps/hospitality/reservations/services.py:138-225 | The loop of locks, checks and writes, with rollback on a conflict, ends as Desk.CheckIn says for any list of assignments. |
| FrontDesk.HotelDb.CheckOutReservation | apps/hospitality/reservations/services.py:228-268 | Settling, releasing, saving and the signal together end as Desk.CheckOut says. |
| FrontDesk.HotelDb.ReleaseRooms | apps/hospitality/reservations/services.py:253-263 | Every room is stamped and every OCCUPIED unit of the reservation goes to CLEANING, no other unit changes. |
| FrontDesk.HotelDb.OnReservationCheckedOut | apps/hospitality/reservations/signals.py:17-30 | The receiver's loop over rooms with its side effects on units, tasks and timestamps. |
| FrontDesk.HotelDb.CancelReservation | apps/hospitality/reservations/services.py:271-296 | Rooms deleted and status set as Desk.Cancel says. |
| FrontDesk.HotelDb.PostInHouse | apps/hospitality/reservations/tasks.py:89-108 | The nested posting loops charge every in-house reservation with an open folio and count the rows posted. |
| FrontDesk.HotelDb.PostRooms | apps/hospitality/reservations/tasks.py:100-108 | The inner loop posts one charge per room, in row order. |
| FrontDesk.HotelDb.RunNightAudit | apps/hospitality/reservations/tasks.py:72-128 | Posting, then the no-show sweep; both counters as reported. |
| SyncServer.ReplaysLeaveNoTrace | apps/core/sync/handlers.py:4-7 | Replays of synced housekeeping, referenced-payment and check-in/check-out operations, and of any operation answered `deleted` whose row is still missing, any number of times at any later points among deliveries and desk work, leave the final state as if they had not been replayed. |
| SyncServer.DeletedIffMissing | apps/core/sync/handlers.py:70-76 | The answer is `deleted` if and only if the operation's row does not exist, and then nothing changes. |
| SyncServer.SyncedSettles | apps/core/sync/handlers.py:80-104 | Any synced answer other than `deleted` leaves the operation's mark: status reached, reference present, guest in or out. |
| SyncServer.SettledIsInert | apps/core/sync/handlers.py:181-195 | Once the mark is there another delivery by anyone at any time changes nothing. |
| SyncServer.GrowthKeepsSettled | apps/core/sync/handlers.py:84-97 | No later operation takes the mark away. |
| SyncServer.DeskGrows | apps/hospitality/housekeeping/models.py:54-61 | Desk operations never undo a task's progress, a payment, an arrival or a departure. |
| SyncServer.HandleGrows | apps/hospitality/housekeeping/models.py:54-61 | Nor do deliveries: tasks only move on, their start and completion are stamped once. |
| SyncServer.ImmediateRepeatIsInert | apps/core/sync/handlers.py:4-7 | A repeat right after the first delivery changes nothing even when the first was refused or answered `deleted`. |
| SyncServer.EveryChargeCounts | apps/core/sync/handlers.py:112-147 | Over any deliveries a folio gains exactly one charge row per delivered charge, in order. |
| SyncServer.KReplaysKRows | apps/core/sync/handlers.py:30-38 | After k arrivals of one charge operation the folio has k equal rows more. |
| SyncServer.PaymentActsIff | apps/core/sync/handlers.py:152-210 | A payment delivery adds a row if and only if the folio exists, the payload is complete and no payment of the folio carries its nonempty reference. |
| SyncServer.DeletedRepliesCanActLater | apps/core/sync/handlers.py:176-179 | A `deleted` answer is no protection: a concrete payment is answered `synced` and acts when delivered again after the check-in. |
| ForeignUnits.CheckInDoubleBooksIff | apps/core/sync/handlers.py:266-277 | A successful check-in double-books at once if and only if a blocking reservation of another property holds one of its units for overlapping dates. |
| ForeignUnits.OwnPropertyBooksAgain | apps/hospitality/reservations/forms.py:181-198 | While a reservation holds an active unit of another property, that property's form accepts a booking of the unit for the same dates, and the creation double-books. |
| ForeignUnits.CheckInSafeForeverIff | apps/hospitality/reservations/services.py:138-225 | From a state in order, a successful check-in into active units leaves no double booking in any continuation if and only if all the units belong to the reservation's property. |
| ForeignUnits.RunAlwaysSafeIff | apps/hospitality/reservations/services.py:138-225 | From a state in order, every state of a run is safe for every continuation if and only if the run's successful check-ins use units of their reservations' properties. |
| ForeignUnits.ForeignCheckInDoubleBooks | apps/hospitality/reservations/services.py:179-213 | A concrete check-in into a unit let at its own property. |
| ForeignUnits.NextCreationDoubleBooks | apps/hospitality/reservations/services.py:179-213 | A concrete check-in into a unit free at its own property: no double booking then, but an ordinary creation there double-books next. |
| SyncServer.CleanedUnitsAreReleased | apps/hospitality/housekeeping/signals.py:7-23 | A task synced as completed or inspected leaves its unit out of CLEANING and changes no other unit and no other status. |
| SyncServer.OnlyAppliedActs | apps/core/sync/views.py:93-115 | Conflict, failure, rejection, duplicate and deleted answers leave the state exactly as it was. |
| SyncServer.OnlySyncedMatter | apps/core/sync/views.py:55-73 | A batch ends in the state of its synced operations alone, and those are then all synced again. |
| SyncBatch.SyncView.SaveTask | apps/hospitality/housekeeping/signals.py:7-23 | Saving a task stamps it and makes a cleaned or inspected unit available. |
| SyncBatch.SyncView.HandleHousekeeping | apps/core/sync/handlers.py:52-104 | Duplicate, conflict and transition answers with their effects. |
| SyncBatch.SyncView.HandleCharge | apps/core/sync/handlers.py:112-147 | Deleted, failed or one more charge. |
| SyncBatch.SyncView.HandlePayment | apps/core/sync/handlers.py:152-210 | Deleted, duplicate by reference, failed or one more payment. |
| SyncBatch.SyncView.HandleReservation | apps/core/sync/handlers.py:232-294 | Wraps the desk's check-in and check-out, with its own duplicate and failure answers. |
| SyncBatch.SyncView.ApplyOperation | apps/core/sync/views.py:75-115 | Dispatch and rollback: anything but a synced answer leaves all tables as they were. |
| SyncBatch.SyncView.Post | apps/core/sync/views.py:55-73 | Results match the operations in order and number, the final state is that of the synced operations alone, and the tally counts rejected operations as synced. |
| OfflineStore.Store.QueueOperation | static/js/offline-store.js:59-81 | A fresh pending entry without retries. |
| OfflineStore.Store.SyncPendingOperations | static/js/offline-store.js:84-138 | Sends exactly the pending entries, oldest first, and ends as one complete pass; offline it does nothing. |
| OfflineStore.ByCreationIsSorted | static/js/offline-store.js:87-89 | The sending order is by creation time. |
| OfflineStore.RepliesDecide | static/js/offline-store.js:91-123 | Over any run of complete passes, one at a time, an entry is sent until its first decisive reply, at most six times; its status is the one the last reply and their number call for, and an entry that is gone was accepted. |
| OfflineStore.SettledStays | static/js/offline-store.js:125-130 | An entry no longer pending is never sent again and disappears only if it was synced. |
| OfflineStore.SixPassesClearTheQueue | static/js/offline-store.js:84-123 | Whatever has happened since the store was empty, after six complete passes nothing that was waiting before them is pending. |
| OfflineStore.SentAtMostSixTimes | static/js/offline-store.js:110-121 | With complete passes, one at a time, no operation is ever sent more than six times. |
| OfflinePasses.StatusHasReason | static/js/offline-store.js:91-130 | However passes overlap or are cut off, an entry marked synced, or gone, was accepted by the server, one marked a conflict was answered so, and one given up was sent in vain at least six times. |
| OfflinePasses.SentAtMostOncePerPass | static/js/offline-store.js:87-91 | However passes overlap or are cut off, no pass sends an entry twice, so it is sent at most as often as passes were opened. |
| OfflinePasses.OverlappingPassesSendEach | static/js/offline-store.js:87-91 | That bound is reached: n passes that overlap can send one entry n times. |
| OfflinePasses.SentAgainIff | static/js/offline-store.js:84-123 | In any state an entry is ever sent again if and only if it is pending, an open pass has it still to send, or an open pass is about to write an undecided reply over its row from a copy with fewer than five retries. |
| OfflinePasses.SettledApartIsFinal | static/js/offline-store.js:91-123 | After passes that kept apart, cut off or not, an entry that is no longer pending is never sent again, however passes overlap from then on. |
| OfflinePasses.ApartSendsAtMostSix | static/js/offline-store.js:110-121 | When no pass is opened while another is open, an entry is sent at most six times, and once more for each pass cut off between its reply and its update. |
| OfflinePasses.AcceptedIsSentAgain | static/js/offline-store.js:47-51 | The input for an accepted operation: after the two passes of one reconnection it is pending again, and the next pass sends it once more. |
| OfflinePasses.UninterruptedIsAfterPass | static/js/offline-store.js:84-138 | A pass whose fetches and updates follow one another leaves the store as one complete pass. |
| ServiceWorker.SyncQueue.OnSync | static/js/serviceworker.js:96-114 | One sync answers a prefix of the queue in order, leaves the rest intact, and ends by an exception exactly when something is left. |
| ServiceWorker.ExactPrefixIff | static/js/serviceworker.js:109-112 | Delivered and still queued split the queue exactly if and only if the sync did not end on a request that had arrived. |
| ServiceWorker.DeliveredInTurn | static/js/serviceworker.js:96-114 | Over any run of pushes and syncs the server sees the requests in order, skipping none and repeating one only immediately. |
| ServiceWorker.SyncIsAStep | static/js/serviceworker.js:96-114 | The positions of that theorem are those of the requests one sync delivers. |
| BillingTheorems.EveryRunFitsIff | apps/shared/billing/services.py:199-308 | From a trial's start, over every run whatever, payments on PAID and VOID invoices and shortened trials included, the non-VOID invoices stay a gap-free chain from the trial's end with only the last possibly unpaid if and only if each invoice a job issues is the next one or there already and each voided invoice a payment completes continues the chain. |
| BillingTheorems.PaymentFitsIff | apps/shared/billing/services.py:279-283 | Of gap-free invoices with any history, any payment on any invoice makes gap-free ones if and only if, when it completes a voided invoice, that begins where the chain ends, ends later, has no other after it, and all the others are paid. |
| BillingTheorems.ConversionFitsIff | apps/shared/billing/tasks.py:37-58 | A conversion makes gap-free ones if and only if its invoice is issued already, or all is paid and the period ends with the chain. |
| BillingTheorems.InvoicesFormAChainIff | apps/shared/billing/services.py:199-308 | With payments of any amount on open invoices and trials not shortened, that is so if and only if no renewal falls due while a partly paid invoice ends with the period. |
| BillingTheorems.RenewalKeepsChainIff | apps/shared/billing/tasks.py:66-93 | A renewal that falls due keeps the non-VOID invoices gap-free, all but the last paid, if and only if no partly paid invoice, open or VOID, ends where the period ends. |
| BillingTheorems.RenewalFitsIff | apps/shared/billing/services.py:199-231 | Of gap-free invoices with any history a renewal makes gap-free ones if and only if the period's invoice is issued already, or all is paid and the period ends with the last. |
| BillingTheorems.InvoicesFormAChain | apps/shared/billing/services.py:251-298 | With every payment completing its invoice the invoices form such a chain in every state of the run. |
| BillingTheorems.PaymentKeepsChain | apps/shared/billing/services.py:279-298 | Any payment on an open invoice, full or not, in its period or after, keeps the chain invariant. |
| BillingTheorems.AmountIsInFull | apps/shared/billing/services.py:251-283 | A payment of an invoice's amount completes it if and only if the payments before it do not come to less than nothing. |
| BillingTheorems.PartialPaymentBreaksTheChain | apps/shared/billing/services.py:291-298 | A payment of 1 moves the period on, and the renewal adds a second unpaid invoice. |
| BillingTheorems.PayingAgainBreaksTheChain | apps/shared/billing/views.py:443-465 | Paying the first of two PAID invoices again on its last day moves the period back, and the renewal bills the second period again. |
| BillingTheorems.RevivedInvoiceBreaksTheChain | apps/shared/billing/views.py:443-465 | Paying an invoice that was voided and billed again revives it beside its replacement. |
| BillingTheorems.ConversionKeepsChain | apps/shared/billing/tasks.py:37-58 | The first invoice starts where the trial's period ends. |
| BillingTheorems.FirstInvoiceTerms | apps/shared/billing/services.py:192-242 | The first invoice runs from the trial's end to the same day one month or twelve later, or that month's last day, due a week from today, at the plan's price in the subscription's currency. |
| BillingTheorems.RenewalKeepsChain | apps/shared/billing/tasks.py:66-93 | With no partly paid invoice ending with the period, a renewal starts where the last paid period ends, and never twice. |
| BillingTheorems.AgeingKeepsChain | apps/shared/billing/tasks.py:202-214 | Marking overdue keeps the chain. |
| BillingTheorems.PlanChangeKeepsChain | apps/shared/billing/services.py:87-127 | Voiding on a plan change takes at most the last invoice and leaves a chain. |
| BillingTheorems.PaidMeansCovered | apps/shared/billing/services.py:279-283 | Over every run, an invoice is PAID if and only if after some payment its payments so far came to its amount; if none of them is negative, if and only if it has a payment and they cover it now. |
| BillingTheorems.RedeliveryChangesNothing | apps/shared/billing/services.py:258-264 | After any further run, delivering a recorded charge id again, for any invoice and amount, changes nothing. |
| BillingTheorems.SuspensionIsJustified | apps/shared/billing/tasks.py:224-248 | Over every run, a suspension on day d has an OVERDUE invoice due on day d - 15 or before whose payments never covered it, and turns the tenant off. |
| BillingTheorems.PaidUpIsNeverSuspended | apps/shared/billing/tasks.py:224-248 | A tenant whose invoices are all VOID or have been covered at some time is not suspended. |
| BillingTheorems.NoSuspensionBeforeDay22 | apps/shared/billing/tasks.py:37-58 | A trial converted on day c, neither paid nor reactivated since, is not suspended before day c + 22. |
| BillingTheorems.SuspendedOwingNothingIff | apps/shared/billing/tasks.py:224-248 | After any run, a tenant who owes nothing is suspended if and only if PAST_DUE with an invoice of zero past grace on which nothing was ever paid. |
| BillingTheorems.FreePlanIsSuspended | apps/shared/billing/services.py:279-280 | A plan that costs nothing still gets its tenant suspended on day 22. |
| BillingJobs.Platform.SignUpTenant | apps/shared/billing/services.py:27-67 | A trial of the plan's length from today. |
| BillingJobs.Platform.GenerateInvoiceFor | apps/shared/billing/services.py:199-243 | Nothing while an unsettled invoice begins on the day, else one issued invoice at the plan's price in the subscription's currency. |
| BillingJobs.Platform.ProcessExpiredTrials | apps/shared/billing/tasks.py:37-58 | The loop converts exactly the expired trials and counts them. |
| BillingJobs.Platform.GeneratePeriodInvoices | apps/shared/billing/tasks.py:66-93 | The loop renews exactly the ACTIVE subscriptions ending within seven days. |
| BillingJobs.Platform.MarkInvoicesOverdue | apps/shared/billing/tasks.py:202-214 | The two bulk updates together. |
| BillingJobs.Platform.SuspendDelinquentTenants | apps/shared/billing/tasks.py:224-248 | The loop suspends exactly the PAST_DUE subscriptions with an invoice past the grace period. |
| BillingJobs.Platform.RecordPayment | apps/shared/billing/services.py:251-317 | A known charge id changes nothing; otherwise payment, invoice status, period, subscription status and tenant move together. |
| BillingJobs.Platform.CancelSubscription | apps/shared/billing/services.py:131-144 | Only the status changes; invoices stay. |
| BillingJobs.Platform.ReactivateSubscription | apps/shared/billing/services.py:170-185 | ACTIVE again, tenant on, invoices and period as they were. |
| BillingJobs.Platform.ChangeSubscriptionPlan | apps/shared/billing/services.py:87-127 | The same plan changes nothing; another voids the unsettled invoices. |
| PaymentRaces.NeverDoublesIff | apps/core/sync/handlers.py:183-206 | With deliveries at the same time, a reference or charge id that has at most one row never gets a second, however the open deliveries end, if and only if none arrives while another that found nothing is open. |
| PaymentRaces.CanDoubleIff | apps/shared/billing/services.py:258-277 | In any state the open deliveries can leave it more than one row if and only if its rows and the open deliveries that found nothing are more than one. |
| PaymentRaces.OnItsOwn | apps/core/sync/handlers.py:183-206 | A delivery on its own adds a row if and only if it has no reference or no row has it. |
| PaymentRaces.TwoAtOnceAreTwoRows | apps/shared/billing/services.py:258-277 | Two deliveries of one reference or charge id at the same time are two payments. |
| PayChangu.FinalStatus | apps/compliance/paychangu/views.py:104-168 | After any deliveries a charge has one row if it had one or an accepted delivery is for it; the row is SUCCESSFUL if it was or some delivery was successful and verified, otherwise FAILED, and untouched if not mentioned. |
| PayChangu.OrderAndRepetitionDoNotMatter | apps/compliance/paychangu/views.py:64-65 | Runs with the same deliveries among them, in any order and number, end with the same charges in the same statuses. |
| PayChangu.SuccessIsFinal | apps/compliance/paychangu/views.py:129-133 | A SUCCESSFUL row never changes again, link and amount included. |
| PayChangu.LinkedBySuccess | apps/compliance/paychangu/views.py:158-168 | The link is the one found by the delivery that made the row succeed, for good. |
| PayChangu.AmountIsTheFirst | apps/compliance/paychangu/views.py:119-127 | The amount and reference of a row stay those of its first accepted delivery. |
| PayChangu.PayChanguLedger.TryLink | apps/compliance/paychangu/views.py:177-212 | Given what the two lookups by reference find, a folio payment goes before a rent payment, and no match leaves the link. |
| PayChangu.PayChanguLedger.Webhook | apps/compliance/paychangu/views.py:47-174 | 403 and 400 without effect, otherwise exactly the ledger step, with the reply that goes with it. |
| Slugs.PropertyTable.Save | apps/core/properties/models.py:91-106 | A blank slug becomes the first candidate no other row has, after at most one probe more than there are other rows; a slug already set is kept. |
| Slugs.PropertyTable.FindSlug | apps/core/properties/models.py:97-104 | The search loop terminates within that bound at the first free candidate. |
| Slugs.CandidatesDiffer | apps/core/properties/models.py:103 | No two numbered candidates are equal. |
| Slugs.TakenAreFew | apps/core/properties/models.py:97-104 | n slugs in use can be at most n of the candidates. |
| Slugs.SavingKeepsSlugsDifferentIff | apps/core/properties/models.py:93 | All slugs stay different if and only if the slug was blank or nobody else has the one given. |
| Slugs.GivenSlugCollides | apps/core/properties/models.py:93 | A concrete slug set by hand that another property has. |
| Leases.RunsStayInOrder | apps/property/leases/services.py:12-94 | From a register without leases, every run keeps at most one ACTIVE lease per unit, a unit OCCUPIED exactly while it has one, and linear, gap-free renewals. |
| Leases.HistoryIsGapFree | apps/property/leases/services.py:55-94 | Along a renewal history each period begins where the one before ends, on the same unit, and every lease but the last is RENEWED. |
| Leases.RenewalKeepsOneActiveIff | apps/property/leases/services.py:61-62 | A renewal keeps one ACTIVE lease per unit if and only if the old lease was the ACTIVE one or the unit had none. |
| Leases.RenewingExpiredBreaks | apps/property/leases/services.py:61-62 | Renewing an EXPIRED lease of a unit let again leaves two ACTIVE leases. |
| Leases.RentNeverFallsByItself | apps/property/leases/services.py:64-71 | Without a new amount the rent never falls; an amount of zero leaves the old rent. |
| Leases.LeaseBook.ActivateLease | apps/property/leases/services.py:13-37 | Refusals, or ACTIVE and OCCUPIED together. |
| Leases.LeaseBook.TerminateLease | apps/property/leases/services.py:41-52 | Only an ACTIVE lease; TERMINATED and AVAILABLE together. |
| Leases.LeaseBook.RenewLease | apps/property/leases/services.py:56-94 | The successor starts at the old end, the old lease is RENEWED; an end not after the start is refused and changes nothing. |
| Leases.LeaseBook.DraftLease | apps/property/leases/models.py:98-102 | A draft needs an existing unit and an end after its start. |
| Calendar.NextStepsAgree | apps/property/rent_invoicing/tasks.py:15-22 | For every day of every Gregorian month the +32-day step equals the explicit December branch and the first of the next month. |
| Calendar.ThirtyTwoDaysIsNextMonth | apps/compliance/fcy/services.py:11 | First of the month plus 32 days, cut to day 1, is the first of the next month. |
| Calendar.PreviousMonthIsPrevious | apps/compliance/fcy/tasks.py:15 | The step back of one day lands on the first of the previous month. |
| Calendar.PreviousInvertsNext | apps/compliance/fcy/tasks.py:15 | The two steps undo each other. |
| Calendar.MonthOfIsUnique | apps/compliance/fcy/services.py:17-18 | Every day lies in exactly one month window. |
| Calendar.MonthWindow | apps/property/rent_invoicing/tasks.py:15-22 | Start and end are the first and last day of today's month and enclose today. |
| Calendar.AddMonthsLands | apps/shared/billing/services.py:192-195 | A period end lies exactly 1 or 12 months on, strictly later, on the same day of the month or, where the month is shorter, on its last day. |
| FcyReturns.ExactlyOneReturn | apps/compliance/fcy/services.py:13-19 | A payment is counted by exactly one monthly return: that of its month, property and currency, if it is USD or EUR by card or USD cash. |
| FcyReturns.NothingLostOrCountedTwice | apps/compliance/fcy/tasks.py:9-23 | When the monthly job runs once in each of a row of months, on any day, while payments keep being recorded, the receipts reported for a currency and a property active at each run add up to exactly the qualifying payments of the months covered, as the table at the end has them. |
| FcyReturns.ReturnOfMonth | apps/compliance/fcy/services.py:11-35 | A property has a return for a month and currency if and only if a run covered the month while the property was active and the final table has receipts, and the return says what that table says. |
| FcyReturns.SecondRunIsIdle | apps/compliance/fcy/services.py:26-35 | Running the job again for the same month changes nothing. |
| FcyReturns.GroupedIsDue | apps/compliance/fcy/services.py:13-22 | The grouped query has a row exactly for the currencies with receipts. |
| FcyReturns.Office.GenerateReturn | apps/compliance/fcy/services.py:8-36 | One row per currency with receipts, existing rows kept. |
| FcyReturns.Office.GenerateMonthlyReturns | apps/compliance/fcy/tasks.py:9-23 | The loop files the previous month's returns of every active property and counts the rows listed. |

## Left out

- BookingProtocol.NoInterleavingDoubleBooks: for one transition in flight on each reservation, check-ins into units of its property and edits that fit, none of which the code sees to; `BookingProtocol.RunSoundIffCommitsFit` covers every interleaving and says exactly when it keeps the inventory invariant.
- BookingProtocol.RunSoundIffCommitsFit: exact for the invariant, which also asks that no open transaction has lost a unit it has checked; such a transaction may still be refused for another unit or abort, and then a run that leaves the invariant ends without a double booking.  The same goes for `BookingProtocol.RunSafeIffEditsFit`.
- Whether units are active or under maintenance, and the no-show signal's effect on units, are in `Desk` and not in the interleaved model.
- DeskTheorems.ReachableInOrder: for runs whose successful check-ins use units of their reservations' properties, which the service does not look at; `ForeignUnits.RunAlwaysSafeIff` shows this is exact.  There the units are active; an inactive foreign unit is let again only once an administrator activates it, and activation is not modelled.
- DeskTheorems.RunsStayInOrder: the same.
- DeskTheorems.ApplyKeepsOrder: the same; `ForeignUnits.CheckInSafeForeverIff` is the exact condition for one check-in.
- SyncServer.ReplaysLeaveNoTrace: not for charges and payments without a reference that found their folio, nor for an operation answered `deleted` whose row exists by now, for which it is false.
- BillingTheorems.InvoicesFormAChainIff: for payments on open invoices and trials that are not shortened; `BillingTheorems.EveryRunFitsIff` covers every run, with a condition that looks at the chain.
- BillingTheorems.InvoicesFormAChain: the same.
- BillingTheorems.PaymentKeepsChain: for open invoices; `BillingTheorems.PaymentFitsIff` covers every invoice.
- OfflineStore.RepliesDecide: for complete passes, one at a time, none cut off between a fetch and its update; `OfflinePasses` models overlapping and cut-off passes.
- OfflineStore.SentAtMostSixTimes: for complete passes, one at a time; `OfflinePasses.ApartSendsAtMostSix` counts passes that are cut off, and for passes that overlap `OfflinePasses.SentAtMostOncePerPass` is the bound.
- OfflineStore.SixPassesClearTheQueue: for complete passes, one at a time; passes that overlap write back stale copies.
- PayChangu.PayChanguLedger.TryLink: what the lookups by reference find comes with the delivery; the tables of folio and rent payments are not part of this ledger.
- Leases.RunsStayInOrder: EXPIRED leases do not occur, since only the demonstration data carries that status; `Leases.RenewalKeepsOneActiveIff` covers them.
- Bookings, inserts of payments and offline passes are modelled as they interleave; all other operations one after another.
- Rows are visited in ascending id order where the source's query names no order; folio charges and payments are in order of creation.
- A folio is keyed by its reservation (the relation is one to one), also in the sync operations, which name it by its own id.
- Folio totals ignore the currencies of the rows, as the source's sums do.
- Several readings of the clock within one operation are one reading; datetimes of billing are days; time zones are not modelled.
- Endpoints and payloads arrive parsed; a missing key is None, values of a wrong type and lengths over a column's limit are not modelled.
- The form's offer of all active units while its dates are unparsed, guests, sources, rate plans, special requests and the default rate are not modelled.
- Deadlocks between check-ins of several units are an Abort; deletions by an administrator, which would leave gaps in a day's numbers, are not modelled.
- `activate_subscription` has no caller and would move the period without an invoice; `reactivate_subscription` has none in the application either and is modelled, being the only code that ends a suspension.
- Invoice numbers of subscriptions are counted without a lock; they are not modelled.
- Reminders, changes log, cached payment fields and failed-payment counters of billing carry no state the jobs read.
- The service worker's 72-hour retention and requests queued during a sync are not modelled; the loop takes any HTTP answer, errors included, as delivered, and so does the model.
- Signature, parsing and verification of PayChangu calls are booleans of each delivery; the verify endpoint's data and the timestamps of the ledger row are not modelled.
- The EIS invoice handler, whose row lacks required columns, the tourism levy, whose charge type does not exist and whose error the audit swallows, sale agreements and rent invoice totals.
- The HTTP shape between the browser and the sync endpoint: each side is modelled by itself.
- Views other than the two booking forms, templates, permissions, notifications and the tenants' provisioning.
