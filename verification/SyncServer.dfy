/** The sync handlers: operations a browser queued while offline, delivered to the server once or,
    when a reply was lost, several times.  Endpoints and payloads are already parsed: a payload
    that lacks a key the handler reads is None. */
module SyncServer {
  import opened Rows
  import opened Inventory
  import opened Desk
  import opened DeskTheorems

  datatype Paid = Paid(means: PaymentMethod, amount: Money)

  datatype NewCharge = NewCharge(kind: ChargeKind, amount: Money)

  /** The status a reservation operation asks for: CHIN with one room, CHOUT, or anything else. */
  datatype Wanted = WantIn(room: Option<Assignment>) | WantOut | WantOther

  datatype SyncOp =
    | HousekeepingStatus(task: TaskId, status: Option<TaskStatus>)
    | FolioCharge(folio: ReservationId, charge: Option<NewCharge>)
    | FolioPayment(folio: ReservationId, reference: string, paid: Option<Paid>)
    | FolioOther
    | ReservationStatus(reservation: ReservationId, wanted: Wanted)
    | Unregistered

  /** One arrival of an operation, with the requesting user and the server's time. */
  datatype Delivery = Delivery(op: SyncOp, user: UserId, now: Time)

  datatype Reply = Applied | Duplicate | Deleted

  datatype Verdict = Synced(reply: Reply) | Conflict | Failed | Rejected

  datatype Effect = Effect(hotel: Hotel, verdict: Verdict)

  // ── Housekeeping ──────────────────────────────────────────────────

  predicate Allowed(current: TaskStatus, wanted: TaskStatus)
  {
    match current
    case TaskPending => wanted == InProgress || wanted == Skipped
    case InProgress => wanted == Completed
    case Completed => wanted == Inspected
    case Inspected => false
    case Skipped => false
  }

  /** Saving a task in a new status stamps its start and completion once. */
  function Saved(t: Task, status: TaskStatus, user: UserId, now: Time): Task
  {
    t.(status := status,
       inspectedBy := if status == Inspected then Some(user) else t.inspectedBy,
       startedAt := if status == InProgress && t.startedAt == None then Some(now) else t.startedAt,
       completedAt := if (status == Completed || status == Inspected) && t.completedAt == None
                      then Some(now) else t.completedAt)
  }

  /** The post_save signal of a task: a cleaned or inspected unit becomes available. */
  function TaskSignal(units: map<UnitId, Unit>, u: UnitId, status: TaskStatus): map<UnitId, Unit>
  {
    if u in units
       && ((status == Completed && units[u].status == Cleaning)
           || (status == Inspected
               && (units[u].status == Cleaning || units[u].status == Available)))
    then units[u := units[u].(status := Available)] else units
  }

  function Housekeeping(h: Hotel, tid: TaskId, wanted: Option<TaskStatus>, user: UserId, now: Time)
    : Effect
  {
    if tid !in h.tasks then Effect(h, Synced(Deleted))
    else if wanted == Some(h.tasks[tid].status) then Effect(h, Synced(Duplicate))
    else if wanted == None || !Allowed(h.tasks[tid].status, wanted.value) then Effect(h, Conflict)
    else
      var t := h.tasks[tid];
      Effect(h.(tasks := h.tasks[tid := Saved(t, wanted.value, user, now)],
                units := TaskSignal(h.units, t.unit, wanted.value)),
             Synced(Applied))
  }

  // ── Folios ────────────────────────────────────────────────────────

  function AddCharge(h: Hotel, fid: ReservationId, charge: Option<NewCharge>, user: UserId): Effect
  {
    if fid !in h.folios then Effect(h, Synced(Deleted))
    else if charge == None then Effect(h, Failed)
    else
      Effect(PostCharge(h, fid, Charge(charge.value.kind, charge.value.amount, Some(user))).0,
             Synced(Applied))
  }

  predicate Referenced(payments: seq<Payment>, reference: string)
  {
    exists i :: 0 <= i < |payments| && payments[i].reference == reference
  }

  function AddPayment(h: Hotel, fid: ReservationId, reference: string, paid: Option<Paid>): Effect
  {
    if fid !in h.folios then Effect(h, Synced(Deleted))
    else if reference != "" && Referenced(h.folios[fid].payments, reference) then
      Effect(h, Synced(Duplicate))
    else if paid == None then Effect(h, Failed)
    else
      Effect(TakePayment(h, fid, Payment(paid.value.means, paid.value.amount, reference)).0,
             Synced(Applied))
  }

  // ── Reservations ──────────────────────────────────────────────────

  function Reported(step: (Hotel, Outcome)): Effect
  {
    Effect(step.0, if step.1 == Done then Synced(Applied) else Conflict)
  }

  /** The unit is looked up by id alone: nothing compares its property with the reservation's. */
  function ChangeReservation(h: Hotel, rid: ReservationId, wanted: Wanted, now: Time): Effect
  {
    if rid !in h.bookings then Effect(h, Synced(Deleted))
    else
      match wanted
      case WantIn(room) =>
        if h.bookings[rid].status == CheckedIn then Effect(h, Synced(Duplicate))
        else if room == None || room.value.unit !in h.units then Effect(h, Failed)
        else Reported(CheckIn(h, rid, [room.value], now))
      case WantOut =>
        if h.bookings[rid].status == CheckedOut then Effect(h, Synced(Duplicate))
        else Reported(CheckOut(h, rid, now))
      case WantOther => Effect(h, Synced(Applied))
  }

  function Handle(h: Hotel, d: Delivery): Effect
  {
    match d.op
    case HousekeepingStatus(task, status) => Housekeeping(h, task, status, d.user, d.now)
    case FolioCharge(folio, charge) => AddCharge(h, folio, charge, d.user)
    case FolioPayment(folio, reference, paid) => AddPayment(h, folio, reference, paid)
    case FolioOther => Effect(h, Conflict)
    case ReservationStatus(reservation, wanted) => ChangeReservation(h, reservation, wanted, d.now)
    case Unregistered => Effect(h, Rejected)
  }

  // ── Only synced operations act ────────────────────────────────────

  /** Conflict, failure and rejection leave everything as it was, and so do the replies that say
      the row is gone or the work was already done. */
  lemma {:induction false} OnlyAppliedActs(h: Hotel, d: Delivery)
    ensures Handle(h, d).verdict != Synced(Applied) ==> Handle(h, d).hotel == h
  {
  }

  function Deliver(h: Hotel, ds: seq<Delivery>): Hotel
    decreases |ds|
  {
    if ds == [] then h else Deliver(Handle(h, ds[0]).hotel, ds[1..])
  }

  function Verdicts(h: Hotel, ds: seq<Delivery>): (vs: seq<Verdict>)
    ensures |vs| == |ds|
    decreases |ds|
  {
    if ds == [] then [] else [Handle(h, ds[0]).verdict] + Verdicts(Handle(h, ds[0]).hotel, ds[1..])
  }

  /** The deliveries that were answered `synced` in a run from h. */
  function SyncedOf(h: Hotel, ds: seq<Delivery>): seq<Delivery>
    decreases |ds|
  {
    if ds == [] then []
    else
      var e := Handle(h, ds[0]);
      (if e.verdict.Synced? then [ds[0]] else []) + SyncedOf(e.hotel, ds[1..])
  }

  /** A batch ends in the same state as its synced operations alone, and those are then all
      synced again. */
  lemma {:induction false} OnlySyncedMatter(h: Hotel, ds: seq<Delivery>)
    ensures Deliver(h, ds) == Deliver(h, SyncedOf(h, ds))
    ensures forall i :: 0 <= i < |SyncedOf(h, ds)| ==> Verdicts(h, SyncedOf(h, ds))[i].Synced?
    decreases |ds|
  {
    if ds != [] {
      var e := Handle(h, ds[0]);
      OnlyAppliedActs(h, ds[0]);
      OnlySyncedMatter(e.hotel, ds[1..]);
      hide Handle;
      var kept := SyncedOf(h, ds);
      if e.verdict.Synced? {
        assert kept[0] == ds[0] && kept[1..] == SyncedOf(e.hotel, ds[1..]);
      } else {
        assert kept == SyncedOf(e.hotel, ds[1..]);
      }
    }
  }

  /** A task synced as completed or inspected leaves its unit out of CLEANING, turns no unit but
      this one, and never takes an occupied or blocked unit into service. */
  lemma {:induction false} CleanedUnitsAreReleased(h: Hotel, d: Delivery)
    requires d.op.HousekeepingStatus? && Handle(h, d).verdict == Synced(Applied)
    ensures
      var h', u := Handle(h, d).hotel, h.tasks[d.op.task].unit;
      && h'.units.Keys == h.units.Keys
      && (forall v :: v in h.units && v != u ==> h'.units[v] == h.units[v])
      && (u in h.units ==>
            var was, now := h.units[u].status, h'.units[u].status;
            && (d.op.status == Some(Completed) || d.op.status == Some(Inspected) ==> now != Cleaning)
            && (was != Cleaning ==> now == was)
            && (d.op.status != Some(Completed) && d.op.status != Some(Inspected) ==> now == was))
  {
  }

  // ── Replays ───────────────────────────────────────────────────────

  /** The operations a replay of which can be recognised. */
  predicate Keyed(op: SyncOp)
  {
    op.HousekeepingStatus? || op.ReservationStatus? || (op.FolioPayment? && op.reference != "")
  }

  /** On PEND - PROG - COMP - INSP, with SKIP beside it, `current` is `status` or past it. */
  predicate AtOrPast(current: TaskStatus, status: TaskStatus)
  {
    || current == status
    || status == TaskPending
    || (status == InProgress && (current == Completed || current == Inspected))
    || (status == Completed && current == Inspected)
  }

  /** What a keyed operation leaves behind for good. */
  predicate Settled(h: Hotel, op: SyncOp)
  {
    match op
    case HousekeepingStatus(tid, status) =>
      tid in h.tasks && status.Some? && AtOrPast(h.tasks[tid].status, status.value)
    case FolioPayment(fid, reference, _) =>
      reference != "" && fid in h.folios && Referenced(h.folios[fid].payments, reference)
    case ReservationStatus(rid, wanted) =>
      && rid in h.bookings
      && (wanted.WantIn? ==>
            h.bookings[rid].status == CheckedIn || h.bookings[rid].status == CheckedOut)
      && (wanted.WantOut? ==> h.bookings[rid].status == CheckedOut)
    case _ => false
  }

  lemma {:induction false} SyncedSettles(h: Hotel, d: Delivery)
    requires Keyed(d.op) && Handle(h, d).verdict.Synced?
    requires Handle(h, d).verdict != Synced(Deleted)
    ensures Settled(Handle(h, d).hotel, d.op)
  {
    match d.op
    case HousekeepingStatus(tid, status) =>
    case FolioPayment(fid, reference, paid) =>
      if Handle(h, d).verdict == Synced(Applied) {
        var payments := Handle(h, d).hotel.folios[fid].payments;
        assert payments[|payments| - 1].reference == reference;
      }
    case ReservationStatus(rid, wanted) =>
      if wanted.WantIn? && wanted.room.Some? {
        CheckInEffect(h, rid, [wanted.room.value], d.now);
      }
      CheckOutEffect(h, rid, d.now);
  }

  /** Once settled, another delivery of the operation, by anyone at any time, changes nothing. */
  lemma {:induction false} SettledIsInert(h: Hotel, d: Delivery)
    requires Settled(h, d.op)
    ensures Handle(h, d).hotel == h
  {
  }

  /** A task only moves on, and its start and completion are stamped once. */
  predicate MovesOn(was: Task, now: Task)
  {
    && now.unit == was.unit && now.kind == was.kind && AtOrPast(now.status, was.status)
    && (was.startedAt.Some? ==> now.startedAt == was.startedAt)
    && (was.completedAt.Some? ==> now.completedAt == was.completedAt)
    && (now.status != was.status && now.status == InProgress ==> now.startedAt.Some?)
    && (now.status != was.status && (now.status == Completed || now.status == Inspected) ==>
          now.completedAt.Some?)
  }

  /** What no operation ever takes back. */
  ghost predicate Grows(h: Hotel, h': Hotel)
  {
    && (forall t :: t in h.tasks ==> t in h'.tasks && MovesOn(h.tasks[t], h'.tasks[t]))
    && (forall f :: f in h.folios ==>
          f in h'.folios && h.folios[f].payments <= h'.folios[f].payments)
    && (forall r :: r in h.bookings ==>
          && r in h'.bookings
          && (h.bookings[r].status == CheckedOut ==> h'.bookings[r].status == CheckedOut)
          && (h.bookings[r].status == CheckedIn ==>
                h'.bookings[r].status == CheckedIn || h'.bookings[r].status == CheckedOut))
  }

  /** So what is settled stays settled. */
  lemma {:induction false} GrowthKeepsSettled(h: Hotel, h': Hotel, op: SyncOp)
    requires Grows(h, h') && Settled(h, op)
    ensures Settled(h', op)
  {
    if op.FolioPayment? {
      var was, now := h.folios[op.folio].payments, h'.folios[op.folio].payments;
      var i :| 0 <= i < |was| && was[i].reference == op.reference;
      assert now[i] == was[i];
    }
  }

  lemma {:induction false} CheckInGrows(h: Hotel, rid: ReservationId,
                                        assignments: seq<Assignment>, now: Time)
    ensures Grows(h, CheckIn(h, rid, assignments, now).0)
  {
  }

  lemma {:induction false} CheckOutGrows(h: Hotel, rid: ReservationId, now: Time)
    ensures Grows(h, CheckOut(h, rid, now).0)
  {
    CheckOutEffect(h, rid, now);
  }

  lemma {:induction false} AuditGrows(h: Hotel, property: PropertyId, today: Day)
    ensures Grows(h, NightAudit(h, property, today))
  {
    hide RoomCharges;
  }

  lemma {:induction false} CreateGrows(h: Hotel, rid: ReservationId, property: PropertyId,
                                       start: Day, end: Day, u: UnitId, rate: Money)
    ensures Grows(h, Create(h, rid, property, start, end, u, rate).0)
  {
    var saved := h.bookings[rid := Reservation(property, Confirmed, start, end, map[])];
    assert rid !in h.bookings ==> saved - {rid} == h.bookings;
    hide FormAccepts, FindConflictingUnitIds;
  }

  lemma {:induction false} EditGrows(h: Hotel, rid: ReservationId, property: PropertyId,
                                     start: Day, end: Day, u: UnitId, rate: Money)
    ensures Grows(h, Edit(h, rid, property, start, end, u, rate).0)
  {
    hide FormAccepts, FindConflictingUnitIds, Freed, WithRate;
  }

  lemma {:induction false} FolioGrows(h: Hotel, rid: ReservationId, charge: Charge,
                                      payment: Payment)
    ensures Grows(h, PostCharge(h, rid, charge).0) && Grows(h, TakePayment(h, rid, payment).0)
  {
  }

  lemma {:induction false} DeskGrows(h: Hotel, op: DeskOp)
    ensures Grows(h, Apply(h, op).0)
  {
    hide Create, Edit, CheckIn, CheckOut, NightAudit, PostCharge, TakePayment;
    match op
    case DoCreate(rid, p, start, end, u, rate) => CreateGrows(h, rid, p, start, end, u, rate);
    case DoEdit(rid, p, start, end, u, rate) => EditGrows(h, rid, p, start, end, u, rate);
    case DoCheckIn(rid, assignments, now) => CheckInGrows(h, rid, assignments, now);
    case DoCheckOut(rid, now) => CheckOutGrows(h, rid, now);
    case DoCancel(rid) =>
    case DoAudit(p, today) => AuditGrows(h, p, today);
    case DoCharge(rid, kind, amount, user) =>
      FolioGrows(h, rid, Charge(kind, amount, Some(user)), Payment(CashMwk, 0, ""));
    case DoPayment(rid, payment) =>
      FolioGrows(h, rid, Charge(Discount, 0, None), payment);
  }

  lemma {:induction false} HousekeepingGrows(h: Hotel, tid: TaskId, wanted: Option<TaskStatus>,
                                             user: UserId, now: Time)
    ensures Grows(h, Housekeeping(h, tid, wanted, user, now).hotel)
  {
    hide TaskSignal;
  }

  lemma {:induction false} HandleGrows(h: Hotel, d: Delivery)
    ensures Grows(h, Handle(h, d).hotel)
  {
    if Handle(h, d).hotel != h {
      match d.op
      case ReservationStatus(rid, wanted) =>
        if wanted.WantIn? { CheckInGrows(h, rid, [wanted.room.value], d.now); }
        CheckOutGrows(h, rid, d.now);
      case HousekeepingStatus(tid, status) => HousekeepingGrows(h, tid, status, d.user, d.now);
      case FolioCharge(fid, charge) =>
        FolioGrows(h, fid, Charge(charge.value.kind, charge.value.amount, Some(d.user)),
                   Payment(CashMwk, 0, ""));
      case FolioPayment(fid, reference, paid) =>
        FolioGrows(h, fid, Charge(Discount, 0, None),
                   Payment(paid.value.means, paid.value.amount, reference));
    }
  }

  /** A day at the hotel: desk work, deliveries, and deliveries marked as replays. */
  datatype Event = AtDesk(desk: DeskOp) | Arrives(d: Delivery) | Again(d: Delivery)

  function After(h: Hotel, e: Event): Hotel
  {
    match e
    case AtDesk(op) => Apply(h, op).0
    case Arrives(d) => Handle(h, d).hotel
    case Again(d) => Handle(h, d).hotel
  }

  function Final(h: Hotel, log: seq<Event>): Hotel
    decreases |log|
  {
    if log == [] then h else Final(After(h, log[0]), log[1..])
  }

  /** The row an operation is for. */
  predicate RowExists(h: Hotel, op: SyncOp)
  {
    match op
    case HousekeepingStatus(task, _) => task in h.tasks
    case FolioCharge(folio, _) => folio in h.folios
    case FolioPayment(folio, _, _) => folio in h.folios
    case ReservationStatus(reservation, _) => reservation in h.bookings
    case _ => true
  }

  /** An operation whose row is missing is answered `deleted` and changes nothing. */
  lemma DeletedIffMissing(h: Hotel, d: Delivery)
    ensures Handle(h, d).verdict == Synced(Deleted) <==> !RowExists(h, d.op)
    ensures !RowExists(h, d.op) ==> Handle(h, d).hotel == h
  {
  }

  /** Every event marked as a replay repeats an operation that was synced before: a keyed one that
      found its row, or any whose row was missing and is missing still. */
  predicate MarkedReplays(h: Hotel, log: seq<Event>, done: set<SyncOp>, gone: set<SyncOp>)
    decreases |log|
  {
    log == [] ||
    match log[0]
    case AtDesk(op) => MarkedReplays(After(h, log[0]), log[1..], done, gone)
    case Again(d) =>
      (d.op in done || (d.op in gone && !RowExists(h, d.op)))
      && MarkedReplays(After(h, log[0]), log[1..], done, gone)
    case Arrives(d) =>
      var v := Handle(h, d).verdict;
      var found := if Keyed(d.op) && v.Synced? && v != Synced(Deleted) then {d.op} else {};
      var missed := if v == Synced(Deleted) then {d.op} else {};
      MarkedReplays(After(h, log[0]), log[1..], done + found, gone + missed)
  }

  function WithoutReplays(log: seq<Event>): seq<Event>
  {
    if log == [] then []
    else (if log[0].Again? then [] else [log[0]]) + WithoutReplays(log[1..])
  }

  lemma {:induction false} ReplaysAreInert(h: Hotel, log: seq<Event>, done: set<SyncOp>,
                                           gone: set<SyncOp>)
    requires MarkedReplays(h, log, done, gone) && forall op :: op in done ==> Settled(h, op)
    ensures Final(h, log) == Final(h, WithoutReplays(log))
    decreases |log|
  {
    hide Apply, Handle, Settled, Grows, Keyed, RowExists;
    if log != [] {
      var h' := After(h, log[0]);
      var rest := WithoutReplays(log[1..]);
      match log[0] {
        case AtDesk(op) =>
          DeskGrows(h, op);
          forall p | p in done ensures Settled(h', p) { GrowthKeepsSettled(h, h', p); }
          ReplaysAreInert(h', log[1..], done, gone);
          assert WithoutReplays(log)[1..] == rest;
        case Again(d) =>
          if d.op in done { SettledIsInert(h, d); } else { DeletedIffMissing(h, d); }
          ReplaysAreInert(h', log[1..], done, gone);
          assert WithoutReplays(log) == rest;
        case Arrives(d) =>
          var v := Handle(h, d).verdict;
          var settles := Keyed(d.op) && v.Synced? && v != Synced(Deleted);
          if settles { SyncedSettles(h, d); }
          HandleGrows(h, d);
          forall p | p in done ensures Settled(h', p) { GrowthKeepsSettled(h, h', p); }
          ReplaysAreInert(h', log[1..], done + (if settles then {d.op} else {}),
                          gone + (if v == Synced(Deleted) then {d.op} else {}));
          assert WithoutReplays(log)[1..] == rest;
      }
    }
  }

  /** Main theorem: replaying synced housekeeping, referenced-payment and check-in or check-out
      operations, and any operation answered `deleted` whose row is still missing, any number of
      times at any later points, among any deliveries and desk work, leaves the final state as if
      they had not been replayed. */
  lemma {:induction false} ReplaysLeaveNoTrace(h: Hotel, log: seq<Event>)
    requires MarkedReplays(h, log, {}, {})
    ensures Final(h, log) == Final(h, WithoutReplays(log))
  {
    ReplaysAreInert(h, log, {}, {});
  }

  lemma {:induction false} RefusedAgain(h: Hotel, d: Delivery, again: Delivery)
    requires again.op == d.op && Handle(h, d).verdict != Synced(Applied)
    ensures Handle(h, again) == Handle(h, d)
  {
  }

  /** A repeat right after the first delivery changes nothing even when the first was refused or
      answered that the row is gone. */
  lemma {:induction false} ImmediateRepeatIsInert(h: Hotel, d: Delivery, again: Delivery)
    requires Keyed(d.op) && again.op == d.op
    ensures Handle(Handle(h, d).hotel, again).hotel == Handle(h, d).hotel
  {
    var e := Handle(h, d);
    if e.verdict.Synced? && e.verdict != Synced(Deleted) {
      SyncedSettles(h, d);
      SettledIsInert(e.hotel, again);
    } else {
      OnlyAppliedActs(h, d);
      RefusedAgain(h, d, again);
    }
  }

  // ── What has no key ───────────────────────────────────────────────

  /** The charge rows the deliveries ask for, in order. */
  function ChargesFor(fid: ReservationId, ds: seq<Delivery>): seq<Charge>
  {
    if ds == [] then []
    else
      (match ds[0].op
       case FolioCharge(folio, charge) =>
         if folio == fid && charge.Some?
         then [Charge(charge.value.kind, charge.value.amount, Some(ds[0].user))] else []
       case _ => [])
      + ChargesFor(fid, ds[1..])
  }

  lemma {:induction false} ReservationKeepsCharges(h: Hotel, rid: ReservationId, wanted: Wanted,
                                                   now: Time, fid: ReservationId)
    requires fid in h.folios
    ensures
      var h' := ChangeReservation(h, rid, wanted, now).hotel;
      fid in h'.folios && h'.folios[fid].charges == h.folios[fid].charges
  {
    if rid in h.bookings {
      if wanted.WantIn? && wanted.room.Some? { CheckInEffect(h, rid, [wanted.room.value], now); }
      CheckOutEffect(h, rid, now);
      hide CheckIn, CheckOut;
    }
  }

  lemma {:induction false} HandleCharges(h: Hotel, d: Delivery, fid: ReservationId)
    requires fid in h.folios
    ensures fid in Handle(h, d).hotel.folios
    ensures Handle(h, d).hotel.folios[fid].charges == h.folios[fid].charges + ChargesFor(fid, [d])
  {
    assert [d][1..] == [];
    hide ChangeReservation, Referenced;
    if d.op.ReservationStatus? {
      ReservationKeepsCharges(h, d.op.reservation, d.op.wanted, d.now, fid);
    }
  }

  lemma ChargesForSplit(fid: ReservationId, ds: seq<Delivery>)
    requires ds != []
    ensures ChargesFor(fid, ds) == ChargesFor(fid, [ds[0]]) + ChargesFor(fid, ds[1..])
  {
    assert [ds[0]][1..] == [];
  }

  /** Over any deliveries a folio gains exactly one row per delivered charge, in order: k arrivals
      of one charge operation are k rows. */
  lemma {:induction false} EveryChargeCounts(h: Hotel, ds: seq<Delivery>, fid: ReservationId)
    requires fid in h.folios
    ensures fid in Deliver(h, ds).folios
    ensures Deliver(h, ds).folios[fid].charges == h.folios[fid].charges + ChargesFor(fid, ds)
    decreases |ds|
  {
    if ds == [] {
      assert h.folios[fid].charges + ChargesFor(fid, []) == h.folios[fid].charges;
    } else {
      hide Handle, ChargesFor;
      HandleCharges(h, ds[0], fid);
      EveryChargeCounts(Handle(h, ds[0]).hotel, ds[1..], fid);
      ChargesForSplit(fid, ds);
      assert h.folios[fid].charges + ChargesFor(fid, [ds[0]]) + ChargesFor(fid, ds[1..])
             == h.folios[fid].charges + (ChargesFor(fid, [ds[0]]) + ChargesFor(fid, ds[1..]));
    }
  }

  lemma {:induction false} KTimesTheRow(fid: ReservationId, d: Delivery, k: nat)
    requires d.op.FolioCharge? && d.op.folio == fid && d.op.charge.Some?
    ensures ChargesFor(fid, seq(k, _ => d))
            == seq(k, _ => Charge(d.op.charge.value.kind, d.op.charge.value.amount, Some(d.user)))
    decreases k
  {
    if k > 0 {
      assert seq(k, _ => d)[1..] == seq(k - 1, _ => d);
      KTimesTheRow(fid, d, k - 1);
    }
  }

  /** k arrivals of one charge operation leave k equal rows more. */
  lemma {:induction false} KReplaysKRows(h: Hotel, fid: ReservationId, d: Delivery, k: nat)
    requires d.op.FolioCharge? && d.op.folio == fid && d.op.charge.Some? && fid in h.folios
    ensures
      var h' := Deliver(h, seq(k, _ => d));
      var row := Charge(d.op.charge.value.kind, d.op.charge.value.amount, Some(d.user));
      fid in h'.folios && h'.folios[fid].charges == h.folios[fid].charges + seq(k, _ => row)
  {
    KTimesTheRow(fid, d, k);
    EveryChargeCounts(h, seq(k, _ => d), fid);
  }

  /** A payment delivery adds a row exactly when the folio exists, the payload is complete and no
      payment of the folio carries its reference; without a reference it always does. */
  lemma {:induction false} PaymentActsIff(h: Hotel, d: Delivery)
    requires d.op.FolioPayment?
    ensures Handle(h, d).hotel != h <==>
              d.op.folio in h.folios && d.op.paid.Some?
              && (d.op.reference == "" || !Referenced(h.folios[d.op.folio].payments, d.op.reference))
  {
    if d.op.folio in h.folios && Handle(h, d).verdict == Synced(Applied) {
      assert |Handle(h, d).hotel.folios[d.op.folio].payments|
             == |h.folios[d.op.folio].payments| + 1;
    }
  }

  lemma OneGuestArrives(h: Hotel)
    requires h.bookings.Keys == {1} && h.bookings[1].status == Confirmed
    requires h.units.Keys == {5} && h.folios == map[]
    ensures
      var h' := Apply(h, DoCheckIn(1, [Assignment(5, 100)], 0)).0;
      1 in h'.folios && h'.folios[1].payments == []
  {
    CheckInEffect(h, 1, [Assignment(5, 100)], 0);
    assert UnitsIn([Assignment(5, 100)]) == {5} by { assert [Assignment(5, 100)][0].unit == 5; }
  }

  /** An answer that the row is gone is no protection: a payment for a folio not yet opened is
      answered `synced`, and the same operation delivered again after the check-in adds a row. */
  lemma {:induction false} DeletedRepliesCanActLater()
    returns (h: Hotel, d: Delivery, arrival: DeskOp)
    ensures Keyed(d.op) && Handle(h, d) == Effect(h, Synced(Deleted))
    ensures
      var h' := Apply(h, arrival).0;
      InOrder(h) && Handle(h', d).hotel != h'
  {
    h := Hotel(map[5 := Unit(0, RoomType, Available, true)],
               map[1 := Reservation(0, Confirmed, 0, 2, map[5 := Room(100, None, None)])],
               map[], map[], 0);
    d := Delivery(FolioPayment(1, "receipt", Some(Paid(CashMwk, 50))), 0, 0);
    arrival := DoCheckIn(1, [Assignment(5, 100)], 0);
    assert InOrder(h) by { assert h.bookings[1].rooms.Keys == {5}; }
    OneGuestArrives(h);
    hide Apply, InOrder;
    PaymentActsIff(Apply(h, arrival).0, d);
  }

  // ── Rows that refer to rows ───────────────────────────────────────

  ghost predicate RoomsExist(h: Hotel)
  {
    forall r :: r in h.bookings ==> h.bookings[r].rooms.Keys <= h.units.Keys
  }

  lemma CheckInKeepsUnits(h: Hotel, rid: ReservationId, assignments: seq<Assignment>, now: Time)
    ensures CheckIn(h, rid, assignments, now).0.units.Keys == h.units.Keys
  {
  }

  lemma {:induction false} HandleKeepsRooms(h: Hotel, d: Delivery)
    requires RoomsExist(h)
    ensures RoomsExist(Handle(h, d).hotel)
  {
    hide CheckIn, CheckOut, Balance, FindConflictingUnitIds, Referenced;
    if d.op.ReservationStatus? && d.op.reservation in h.bookings {
      var rid := d.op.reservation;
      if d.op.wanted.WantIn? && d.op.wanted.room.Some? {
        CheckInEffect(h, rid, [d.op.wanted.room.value], d.now);
        CheckInKeepsUnits(h, rid, [d.op.wanted.room.value], d.now);
      }
      CheckOutEffect(h, rid, d.now);
    }
  }
}
