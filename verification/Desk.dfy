/** What each front-desk operation does to the hotel's rows, one operation at a time.  A folio
    belongs to one reservation and is keyed by it. */
module Desk {
  import opened Rows
  import opened Inventory

  type UserId = nat
  type TaskId = nat

  datatype FolioStatus = Open | Settled | Void

  datatype ChargeKind = RoomCharge | FoodAndBeverage | Laundry | Minibar | Activity
                      | Miscellaneous | Discount

  /** postedBy is None for the charges the night audit posts. */
  datatype Charge = Charge(kind: ChargeKind, amount: Money, postedBy: Option<UserId>)

  datatype PaymentMethod = CashMwk | CashUsd | AirtelMoney | TnmMpamba | Card | BankTransfer

  datatype Payment = Payment(means: PaymentMethod, amount: Money, reference: string)

  datatype Folio = Folio(status: FolioStatus, charges: seq<Charge>, payments: seq<Payment>,
                         settledAt: Option<Time>)

  datatype TaskStatus = TaskPending | InProgress | Completed | Inspected | Skipped

  datatype TaskType = CheckoutClean | StayoverClean | DeepClean | Inspection

  datatype Task = Task(unit: UnitId, kind: TaskType, status: TaskStatus, startedAt: Option<Time>,
                       completedAt: Option<Time>, inspectedBy: Option<UserId>)

  datatype Hotel = Hotel(units: map<UnitId, Unit>, bookings: Bookings,
                         folios: map<ReservationId, Folio>, tasks: map<TaskId, Task>,
                         nextTask: TaskId)

  datatype Outcome = Done | NotFound | Invalid | WrongStatus | NothingAssigned | UnitTaken
                   | Outstanding

  // ── Folio totals ──────────────────────────────────────────────────

  function TotalCharges(charges: seq<Charge>): Money
  {
    if charges == [] then 0
    else TotalCharges(charges[..|charges| - 1]) + charges[|charges| - 1].amount
  }

  function TotalPayments(payments: seq<Payment>): Money
  {
    if payments == [] then 0
    else TotalPayments(payments[..|payments| - 1]) + payments[|payments| - 1].amount
  }

  function Balance(f: Folio): Money
  {
    TotalCharges(f.charges) - TotalPayments(f.payments)
  }

  // ── Booking ───────────────────────────────────────────────────────

  /** update_or_create with the given rate. */
  function WithRate(rooms: map<UnitId, Room>, u: UnitId, rate: Money): map<UnitId, Room>
  {
    rooms[u := if u in rooms then rooms[u].(rate := rate) else Room(rate, None, None)]
  }

  function AttachUnit(b: Bookings, rid: ReservationId, u: UnitId, rate: Money): Option<Bookings>
    requires rid in b
  {
    var row := b[rid];
    if u in FindConflictingUnitIds(b, row.property, row.checkIn, row.checkOut, Some(rid)) then None
    else Some(b[rid := row.(rooms := WithRate(row.rooms, u, rate))])
  }

  /** The reservation form: the dates in order, the unit among those offered (a reservation's own
      units are always offered), of the property, and free of every other reservation. */
  predicate FormAccepts(h: Hotel, editing: Option<ReservationId>, property: PropertyId,
                        start: Day, end: Day, u: UnitId)
  {
    var own := if editing.Some? && editing.value in h.bookings
               then h.bookings[editing.value].rooms.Keys else {};
    && start < end
    && u in AvailableUnits(h.units, h.bookings, property, start, end, None, own)
    && h.units[u].property == property
    && u !in FindConflictingUnitIds(h.bookings, property, start, end, editing)
  }

  function Create(h: Hotel, rid: ReservationId, property: PropertyId, start: Day, end: Day,
                  u: UnitId, rate: Money): (Hotel, Outcome)
  {
    if rid in h.bookings || !FormAccepts(h, None, property, start, end, u) then (h, Invalid)
    else
      var saved := h.bookings[rid := Reservation(property, Confirmed, start, end, map[])];
      match AttachUnit(saved, rid, u, rate)
      case None => (h.(bookings := saved - {rid}), UnitTaken)
      case Some(b) => (h.(bookings := b), Done)
  }

  /** The post_save signal of a no-show: its OCCUPIED units become AVAILABLE. */
  function Freed(units: map<UnitId, Unit>, us: set<UnitId>): map<UnitId, Unit>
  {
    map u | u in units ::
      if u in us && units[u].status == Occupied then units[u].(status := Available) else units[u]
  }

  /** Saving the form fires the signal.  Keeping room and rate skips the locked check.  A failed
      attach is caught by the view, so the new dates and the deleted rooms stay. */
  function Edit(h: Hotel, rid: ReservationId, property: PropertyId, start: Day, end: Day,
                u: UnitId, rate: Money): (Hotel, Outcome)
  {
    if rid !in h.bookings || !Editable(h.bookings[rid].status) then (h, NotFound)
    else if !FormAccepts(h, Some(rid), property, start, end, u) then (h, Invalid)
    else
      var row := h.bookings[rid].(property := property, checkIn := start, checkOut := end);
      var units := if row.status == NoShow then Freed(h.units, row.rooms.Keys) else h.units;
      if u in row.rooms && row.rooms[u].rate == rate then
        (h.(units := units, bookings := h.bookings[rid := row]), Done)
      else
        var kept := row.(rooms := map v | v in row.rooms && v == u :: row.rooms[v]);
        var saved := h.bookings[rid := kept];
        match AttachUnit(saved, rid, u, rate)
        case None => (h.(units := units, bookings := saved), UnitTaken)
        case Some(b) => (h.(units := units, bookings := b), Done)
  }

  // ── Check-in, check-out, cancel ───────────────────────────────────

  /** The rooms after update_or_create of each assignment in turn. */
  function Assigned(rooms: map<UnitId, Room>, assignments: seq<Assignment>, now: Time)
    : map<UnitId, Room>
  {
    if assignments == [] then rooms
    else
      var before := Assigned(rooms, assignments[..|assignments| - 1], now);
      var a := assignments[|assignments| - 1];
      before[a.unit := Room(a.rate, Some(now),
                            if a.unit in before then before[a.unit].departed else None)]
  }

  function Occupy(units: map<UnitId, Unit>, us: set<UnitId>): map<UnitId, Unit>
  {
    map u | u in units :: if u in us then units[u].(status := Occupied) else units[u]
  }

  function NewFolio(): Folio
  {
    Folio(Open, [], [], None)
  }

  function CheckIn(h: Hotel, rid: ReservationId, assignments: seq<Assignment>, now: Time)
    : (Hotel, Outcome)
  {
    if rid !in h.bookings || !(UnitsIn(assignments) <= h.units.Keys) then (h, NotFound)
    else
      var row := h.bookings[rid];
      if row.status != Confirmed then (h, WrongStatus)
      else if assignments == [] then (h, NothingAssigned)
      else if !(UnitsIn(assignments)
                !! FindConflictingUnitIds(h.bookings, row.property, row.checkIn, row.checkOut,
                                          Some(rid))) then (h, UnitTaken)
      else
        var kept := map u | u in row.rooms && u in UnitsIn(assignments) :: row.rooms[u];
        (h.(bookings := h.bookings[rid := row.(status := CheckedIn,
                                               rooms := Assigned(kept, assignments, now))],
            units := Occupy(h.units, UnitsIn(assignments)),
            folios := if rid in h.folios then h.folios else h.folios[rid := NewFolio()]),
         Done)
  }

  function Departed(rooms: map<UnitId, Room>, us: set<UnitId>, now: Time): map<UnitId, Room>
  {
    map u | u in rooms ::
      if u in us then rooms[u].(departed := Some(now)) else rooms[u]
  }

  function Vacate(units: map<UnitId, Unit>, us: set<UnitId>): map<UnitId, Unit>
  {
    map u | u in units ::
      if u in us && units[u].status == Occupied then units[u].(status := Cleaning) else units[u]
  }

  /** The rows the check-out signal may change besides the rooms. */
  datatype Cleaners = Cleaners(units: map<UnitId, Unit>, tasks: map<TaskId, Task>, next: TaskId)

  /** The signal at one room: a unit still OCCUPIED goes to CLEANING and gets a check-out task. */
  function SignalRoom(c: Cleaners, u: UnitId): Cleaners
  {
    if u in c.units && c.units[u].status == Occupied then
      Cleaners(c.units[u := c.units[u].(status := Cleaning)],
               c.tasks[c.next := Task(u, CheckoutClean, TaskPending, None, None, None)],
               c.next + 1)
    else c
  }

  /** The post_save signal of a checked-out reservation, over its rooms in order. */
  function OnCheckedOut(c: Cleaners, order: seq<UnitId>): Cleaners
    decreases |order|
  {
    if order == [] then c
    else SignalRoom(OnCheckedOut(c, order[..|order| - 1]), order[|order| - 1])
  }

  function CheckOut(h: Hotel, rid: ReservationId, now: Time): (Hotel, Outcome)
  {
    if rid !in h.bookings then (h, NotFound)
    else
      var row := h.bookings[rid];
      if row.status != CheckedIn then (h, WrongStatus)
      else if rid in h.folios && Balance(h.folios[rid]) != 0 then (h, Outstanding)
      else
        var vacated := Vacate(h.units, row.rooms.Keys);
        var c := OnCheckedOut(Cleaners(vacated, h.tasks, h.nextTask), Ordered(row.rooms.Keys));
        (Hotel(c.units,
               h.bookings[rid := row.(status := CheckedOut,
                                      rooms := Departed(row.rooms, row.rooms.Keys, now))],
               if rid in h.folios
               then h.folios[rid := h.folios[rid].(status := Settled, settledAt := Some(now))]
               else h.folios,
               c.tasks, c.next),
         Done)
  }

  function Cancel(h: Hotel, rid: ReservationId): (Hotel, Outcome)
  {
    if rid !in h.bookings then (h, NotFound)
    else if h.bookings[rid].status == CheckedIn || h.bookings[rid].status == CheckedOut then
      (h, WrongStatus)
    else
      (h.(bookings := h.bookings[rid := h.bookings[rid].(status := Cancelled, rooms := map[])]),
       Done)
  }

  // ── Night audit, charges, payments ────────────────────────────────

  /** One room charge per room, in row order. */
  function RoomCharges(rooms: map<UnitId, Room>): seq<Charge>
  {
    var order := Ordered(rooms.Keys);
    seq(|order|, i requires 0 <= i < |order| =>
      OrderedAt(rooms.Keys, i); Charge(RoomCharge, rooms[order[i]].rate, None))
  }

  predicate InHouse(h: Hotel, rid: ReservationId, property: PropertyId)
  {
    rid in h.bookings && h.bookings[rid].property == property
    && h.bookings[rid].status == CheckedIn
  }

  predicate Posts(h: Hotel, rid: ReservationId, property: PropertyId)
  {
    InHouse(h, rid, property) && rid in h.folios && h.folios[rid].status == Open
  }

  function Post(f: Folio, charges: seq<Charge>): Folio
  {
    f.(charges := f.charges + charges)
  }

  function NightAudit(h: Hotel, property: PropertyId, today: Day): Hotel
  {
    h.(folios := map r | r in h.folios ::
         if Posts(h, r, property) then Post(h.folios[r], RoomCharges(h.bookings[r].rooms))
         else h.folios[r],
       bookings := NoShows(h.bookings, property, today))
  }

  function PostCharge(h: Hotel, rid: ReservationId, charge: Charge): (Hotel, Outcome)
  {
    if rid !in h.folios then (h, NotFound)
    else (h.(folios := h.folios[rid := Post(h.folios[rid], [charge])]), Done)
  }

  function TakePayment(h: Hotel, rid: ReservationId, payment: Payment): (Hotel, Outcome)
  {
    if rid !in h.folios then (h, NotFound)
    else
      var f := h.folios[rid];
      (h.(folios := h.folios[rid := f.(payments := f.payments + [payment])]), Done)
  }

  // ── Operations ────────────────────────────────────────────────────

  /** Charges entered at the desk carry the user who posted them. */
  datatype DeskOp =
    | DoCreate(rid: ReservationId, property: PropertyId, start: Day, end: Day, unit: UnitId,
               rate: Money)
    | DoEdit(rid: ReservationId, property: PropertyId, start: Day, end: Day, unit: UnitId,
             rate: Money)
    | DoCheckIn(rid: ReservationId, assignments: seq<Assignment>, now: Time)
    | DoCheckOut(rid: ReservationId, now: Time)
    | DoCancel(rid: ReservationId)
    | DoAudit(property: PropertyId, today: Day)
    | DoCharge(rid: ReservationId, kind: ChargeKind, amount: Money, user: UserId)
    | DoPayment(rid: ReservationId, payment: Payment)

  function Apply(h: Hotel, op: DeskOp): (Hotel, Outcome)
  {
    match op
    case DoCreate(rid, property, start, end, u, rate) =>
      Create(h, rid, property, start, end, u, rate)
    case DoEdit(rid, property, start, end, u, rate) => Edit(h, rid, property, start, end, u, rate)
    case DoCheckIn(rid, assignments, now) => CheckIn(h, rid, assignments, now)
    case DoCheckOut(rid, now) => CheckOut(h, rid, now)
    case DoCancel(rid) => Cancel(h, rid)
    case DoAudit(property, today) => (NightAudit(h, property, today), Done)
    case DoCharge(rid, kind, amount, user) => PostCharge(h, rid, Charge(kind, amount, Some(user)))
    case DoPayment(rid, payment) => TakePayment(h, rid, payment)
  }

  /** The units of a check-in that succeeds belong to the reservation's property; the service does
      not look. */
  predicate OwnUnits(h: Hotel, op: DeskOp)
  {
    op.DoCheckIn? && Apply(h, op).1 == Done && op.rid in h.bookings ==>
      forall i :: 0 <= i < |op.assignments| && op.assignments[i].unit in h.units ==>
        h.units[op.assignments[i].unit].property == h.bookings[op.rid].property
  }

  function Run(h: Hotel, ops: seq<DeskOp>): Hotel
    decreases |ops|
  {
    if ops == [] then h else Run(Apply(h, ops[0]).0, ops[1..])
  }

  predicate RunsWithOwnUnits(h: Hotel, ops: seq<DeskOp>)
    decreases |ops|
  {
    ops == [] || (OwnUnits(h, ops[0]) && RunsWithOwnUnits(Apply(h, ops[0]).0, ops[1..]))
  }
}
