/** Interleaved reservation transactions over one database, under READ COMMITTED: a query sees the
    committed rows and the transaction's own writes; row locks and the advisory lock are held to
    the end of the transaction.  Each action below is one database statement of one transaction. */
module BookingProtocol {
  import opened Rows
  import opened Inventory
  import Decimals

  type TxnId = nat

  // ── Reservation numbers ───────────────────────────────────────────

  /** day is the eight digits of strftime('%Y%m%d'). */
  datatype Number = Number(day: nat, index: nat)

  predicate IsDay(day: nat)
  {
    day < 1_0000_0000
  }

  function DayPrefix(day: nat): string
  {
    "HTL-" + Decimals.Padded(day, 8)
  }

  /** The stored column reservation_number. */
  function NumberText(n: Number): string
  {
    DayPrefix(n.day) + "-" + Decimals.Padded(n.index, 4)
  }

  lemma PowerOfTenEight()
    ensures Decimals.PowerOfTen(8) == 1_0000_0000
  {
    assert Decimals.PowerOfTen(2) == 100;
    assert Decimals.PowerOfTen(4) == 10000;
    assert Decimals.PowerOfTen(6) == 1000000;
  }

  lemma {:induction false} DayPrefixInjective(a: nat, b: nat)
    requires IsDay(a) && IsDay(b)
    ensures |DayPrefix(a)| == |DayPrefix(b)| == 12
    ensures DayPrefix(a) == DayPrefix(b) ==> a == b
  {
    PowerOfTenEight();
    Decimals.PaddedLength(a, 8);
    Decimals.PaddedLength(b, 8);
    if DayPrefix(a) == DayPrefix(b) {
      assert Decimals.Padded(a, 8) == DayPrefix(a)[4..];
      assert Decimals.Padded(b, 8) == DayPrefix(b)[4..];
      Decimals.ValueOfPadded(a, 8);
      Decimals.ValueOfPadded(b, 8);
    }
  }

  /** The startswith filter picks out exactly the day's numbers. */
  lemma {:induction false} PrefixMeansDay(day: nat, n: Number)
    requires IsDay(day) && IsDay(n.day)
    ensures DayPrefix(day) <= NumberText(n) <==> n.day == day
  {
    DayPrefixInjective(day, n.day);
    assert NumberText(n)[..12] == DayPrefix(n.day);
    if DayPrefix(day) <= NumberText(n) {
      assert DayPrefix(day) == NumberText(n)[..12];
    }
  }

  /** Different (day, index) pairs never print the same number. */
  lemma {:induction false} NumberTextInjective(a: Number, b: Number)
    requires IsDay(a.day) && IsDay(b.day) && NumberText(a) == NumberText(b)
    ensures a == b
  {
    PrefixMeansDay(a.day, b);
    DayPrefixInjective(a.day, b.day);
    assert Decimals.Padded(a.index, 4) == NumberText(a)[13..];
    assert Decimals.Padded(b.index, 4) == NumberText(b)[13..];
    Decimals.ValueOfPadded(a.index, 4);
    Decimals.ValueOfPadded(b.index, 4);
  }

  /** Reservation.objects.filter(reservation_number__startswith=...) */
  function StartingWith(numbers: map<ReservationId, Number>, day: nat): set<ReservationId>
  {
    set r | r in numbers && DayPrefix(day) <= NumberText(numbers[r])
  }

  function OnDay(numbers: map<ReservationId, Number>, day: nat): set<ReservationId>
  {
    set r | r in numbers && numbers[r].day == day
  }

  // ── Transactions ──────────────────────────────────────────────────

  datatype Kind = Creating | CheckingIn | CheckingOut | Cancelling | Editing

  datatype Stage =
    | Unnumbered   // a new reservation before the advisory lock
    | Queued       // holds the advisory lock, has not counted yet
    | Working      // has assignments left to lock and check, or is ready to commit
    | Refused      // a conflict was found: the service raises

  /** One open transaction: what it read when it began and what it has written but not
      committed.  `dropped` are the room rows it deleted, `written` those it inserted or updated;
      `status` is the one it loaded, which an edit saves again with the whole row. */
  datatype Txn = Txn(
    kind: Kind, rid: ReservationId, status: ReservationStatus, property: PropertyId,
    checkIn: Day, checkOut: Day,
    day: nat, index: nat, stage: Stage,
    todo: seq<Assignment>, dropped: set<UnitId>, written: map<UnitId, Room>)

  datatype State = State(
    units: map<UnitId, PropertyId>,
    bookings: Bookings,
    numbers: map<ReservationId, Number>,
    unitLocks: map<UnitId, TxnId>,
    dayLocks: map<nat, TxnId>,
    active: map<TxnId, Txn>)

  datatype Action =
    | BeginCreate(t: TxnId, rid: ReservationId, property: PropertyId, checkIn: Day,
                  checkOut: Day, day: nat, assignment: Assignment)
    | BeginCheckIn(t: TxnId, rid: ReservationId, assignments: seq<Assignment>)
    | BeginCheckOut(t: TxnId, rid: ReservationId)
    | BeginCancel(t: TxnId, rid: ReservationId)
    | BeginEdit(t: TxnId, rid: ReservationId, property: PropertyId, checkIn: Day,
                checkOut: Day, assignment: Assignment)
    | LockDay(t: TxnId)
    | AssignNumber(t: TxnId)
    | LockUnit(t: TxnId)
    | CheckUnit(t: TxnId, now: Time)
    | Commit(t: TxnId)
    | Abort(t: TxnId)
    | Audit(property: PropertyId, today: Day)

  /** Which runs are considered; the code itself sees to none of this.  oneAtATime: no second
      transition starts on a reservation that has one in flight.  ownUnits: check-ins are into units
      of the reservation's property.  editsFit: an edit that keeps a room it has not checked under
      its lock commits only where the room still fits. */
  datatype Discipline = Discipline(oneAtATime: bool, ownUnits: bool, editsFit: bool)

  const SERVICES := Discipline(true, true, true)

  /** Edits as the view runs them. */
  const VIEWS := Discipline(true, true, false)

  predicate InFlight(s: State, rid: ReservationId)
  {
    exists t :: t in s.active && s.active[t].rid == rid
  }

  predicate MayBegin(d: Discipline, s: State, t: TxnId, rid: ReservationId)
  {
    t !in s.active && rid in s.bookings && (d.oneAtATime ==> !InFlight(s, rid))
  }

  /** A commit would publish the rooms written in a blocking reservation. */
  predicate WillBlock(txn: Txn)
  {
    txn.stage != Refused
    && (txn.kind == Creating || txn.kind == CheckingIn
        || (txn.kind == Editing && txn.status == Confirmed))
  }

  /** The rooms an edit leaves in place without a check under their locks: all of them when the
      wanted room is there at the wanted rate, and the wanted room when its attach was refused. */
  function Kept(b: Bookings, txn: Txn): set<UnitId>
  {
    if txn.rid in b then b[txn.rid].rooms.Keys - txn.dropped - txn.written.Keys else {}
  }

  /** Every room a CONFIRMED edit keeps is still free of the other reservations for the new dates,
      and no other open transaction has taken one of them for overlapping dates. */
  predicate EditFits(s: State, txn: Txn)
  {
    txn.kind == Editing && txn.status == Confirmed ==>
      && Kept(s.bookings, txn) !! FindConflictingUnitIds(s.bookings, txn.property, txn.checkIn,
                                                         txn.checkOut, Some(txn.rid))
      && forall v, u :: v in s.active && s.active[v].rid != txn.rid && WillBlock(s.active[v])
                        && u in s.active[v].written && u in Kept(s.bookings, txn)
           ==> !(txn.checkIn < s.active[v].checkOut && txn.checkOut > s.active[v].checkIn)
  }

  predicate Enabled(d: Discipline, s: State, a: Action)
  {
    match a
    case BeginCreate(t, rid, property, checkIn, checkOut, day, assignment) =>
      // a fresh primary key; the form has checked the dates and the unit's property
      t !in s.active && rid !in s.bookings && !InFlight(s, rid) && checkIn < checkOut && IsDay(day)
      && assignment.unit in s.units && s.units[assignment.unit] == property
    case BeginCheckIn(t, rid, assignments) =>
      MayBegin(d, s, t, rid) && s.bookings[rid].status == Confirmed && assignments != []
      && (forall i :: 0 <= i < |assignments| ==>
            assignments[i].unit in s.units
            && (d.ownUnits ==> s.units[assignments[i].unit] == s.bookings[rid].property))
    case BeginCheckOut(t, rid) =>
      MayBegin(d, s, t, rid) && s.bookings[rid].status == CheckedIn
    case BeginCancel(t, rid) =>
      MayBegin(d, s, t, rid)
      && s.bookings[rid].status != CheckedIn && s.bookings[rid].status != CheckedOut
    case BeginEdit(t, rid, property, checkIn, checkOut, assignment) =>
      // the form has checked the dates, the unit's property and, without a lock, the unit
      MayBegin(d, s, t, rid) && Editable(s.bookings[rid].status) && checkIn < checkOut
      && assignment.unit in s.units && s.units[assignment.unit] == property
      && assignment.unit !in FindConflictingUnitIds(s.bookings, property, checkIn, checkOut,
                                                    Some(rid))
    case LockDay(t) =>
      t in s.active && s.active[t].stage == Unnumbered && s.active[t].day !in s.dayLocks
    case AssignNumber(t) =>
      t in s.active && s.active[t].stage == Queued
    case LockUnit(t) =>
      t in s.active && s.active[t].stage == Working && s.active[t].todo != []
      && (var u := s.active[t].todo[0].unit; u in s.unitLocks ==> s.unitLocks[u] == t)
    case CheckUnit(t, now) =>
      t in s.active && s.active[t].stage == Working && s.active[t].todo != []
      && (var u := s.active[t].todo[0].unit; u in s.unitLocks && s.unitLocks[u] == t)
    case Commit(t) =>
      // an edit whose attach was refused commits what it has saved before
      t in s.active
      && ((s.active[t].stage == Working && s.active[t].todo == [])
          || (s.active[t].stage == Refused && s.active[t].kind == Editing))
      && (s.active[t].kind != Creating ==> s.active[t].rid in s.bookings)
      && (d.editsFit ==> EditFits(s, s.active[t]))
    case Abort(t) =>
      t in s.active
    case Audit(property, today) =>
      true
  }

  /** The reservation row a commit publishes. */
  function Published(b: Bookings, txn: Txn): Reservation
    requires txn.kind != Creating ==> txn.rid in b
  {
    match txn.kind
    case Creating =>
      Reservation(txn.property, Confirmed, txn.checkIn, txn.checkOut, txn.written)
    case CheckingIn =>
      b[txn.rid].(status := CheckedIn, rooms := (b[txn.rid].rooms - txn.dropped) + txn.written)
    case CheckingOut =>
      b[txn.rid].(status := CheckedOut)
    case Cancelling =>
      b[txn.rid].(status := Cancelled, rooms := b[txn.rid].rooms - txn.dropped)
    case Editing =>
      Reservation(txn.property, txn.status, txn.checkIn, txn.checkOut,
                  (b[txn.rid].rooms - txn.dropped) + txn.written)
  }

  function Loaded(b: Bookings, kind: Kind, rid: ReservationId, todo: seq<Assignment>,
                  dropped: set<UnitId>): Txn
    requires rid in b
  {
    Txn(kind, rid, b[rid].status, b[rid].property, b[rid].checkIn, b[rid].checkOut, 0, 0, Working,
        todo, dropped, map[])
  }

  /** The edit view saves the new dates and property; a wanted room that is there at the wanted rate
      is all it needs, otherwise the other rooms are dropped and the wanted one is attached. */
  function Edited(b: Bookings, rid: ReservationId, property: PropertyId, checkIn: Day,
                  checkOut: Day, wanted: Assignment): Txn
    requires rid in b
  {
    var rooms := b[rid].rooms;
    var same := wanted.unit in rooms && rooms[wanted.unit].rate == wanted.rate;
    Loaded(b, Editing, rid, if same then [] else [wanted],
           if same then {} else rooms.Keys - {wanted.unit})
      .(property := property, checkIn := checkIn, checkOut := checkOut)
  }

  /** The room row of an assignment: update_or_create. */
  function RoomFor(b: Bookings, txn: Txn, a: Assignment, now: Time): Room
  {
    var was := if txn.rid in b && a.unit in b[txn.rid].rooms then b[txn.rid].rooms[a.unit]
               else Room(a.rate, None, None);
    Room(a.rate, if txn.kind == CheckingIn then Some(now) else was.arrived, was.departed)
  }

  function Ended(s: State, t: TxnId): State
  {
    s.(active := s.active - {t},
       unitLocks := map u | u in s.unitLocks && s.unitLocks[u] != t :: s.unitLocks[u],
       dayLocks := map d | d in s.dayLocks && s.dayLocks[d] != t :: s.dayLocks[d])
  }

  function Step(d: Discipline, s: State, a: Action): State
    requires Enabled(d, s, a)
  {
    match a
    case BeginCreate(t, rid, property, checkIn, checkOut, day, assignment) =>
      s.(active := s.active[t := Txn(Creating, rid, Confirmed, property, checkIn, checkOut, day, 0,
                                     Unnumbered, [assignment], {}, map[])])
    case BeginCheckIn(t, rid, assignments) =>
      var dropped := s.bookings[rid].rooms.Keys - UnitsIn(assignments);
      s.(active := s.active[t := Loaded(s.bookings, CheckingIn, rid, assignments, dropped)])
    case BeginCheckOut(t, rid) =>
      s.(active := s.active[t := Loaded(s.bookings, CheckingOut, rid, [], {})])
    case BeginCancel(t, rid) =>
      s.(active := s.active[t := Loaded(s.bookings, Cancelling, rid, [],
                                        s.bookings[rid].rooms.Keys)])
    case BeginEdit(t, rid, property, checkIn, checkOut, assignment) =>
      s.(active := s.active[t := Edited(s.bookings, rid, property, checkIn, checkOut,
                                        assignment)])
    case LockDay(t) =>
      s.(active := s.active[t := s.active[t].(stage := Queued)],
         dayLocks := s.dayLocks[s.active[t].day := t])
    case AssignNumber(t) =>
      var index := |StartingWith(s.numbers, s.active[t].day)| + 1;
      s.(active := s.active[t := s.active[t].(stage := Working, index := index)])
    case LockUnit(t) =>
      s.(unitLocks := s.unitLocks[s.active[t].todo[0].unit := t])
    case CheckUnit(t, now) =>
      var txn := s.active[t];
      var u := txn.todo[0].unit;
      // the query leaves out the reservation itself, so no own write can appear in it
      if u in FindConflictingUnitIds(s.bookings, txn.property, txn.checkIn, txn.checkOut,
                                     Some(txn.rid)) then
        s.(active := s.active[t := txn.(stage := Refused)])
      else
        s.(active := s.active[t := txn.(todo := txn.todo[1..],
                                        written := txn.written[u := RoomFor(s.bookings, txn,
                                                                            txn.todo[0], now)])])
    case Commit(t) =>
      var txn := s.active[t];
      Ended(s.(bookings := s.bookings[txn.rid := Published(s.bookings, txn)],
               numbers := if txn.kind == Creating
                          then s.numbers[txn.rid := Number(txn.day, txn.index)] else s.numbers),
            t)
    case Abort(t) =>
      // also a refused creation, which deletes its own row and commits nothing
      Ended(s, t)
    case Audit(property, today) =>
      s.(bookings := NoShows(s.bookings, property, today))
  }

  /** s reaches s' by the actions, each enabled when it is taken. */
  ghost predicate Reaches(d: Discipline, s: State, actions: seq<Action>, s': State)
    decreases |actions|
  {
    if actions == [] then s == s'
    else Enabled(d, s, actions[0]) && Reaches(d, Step(d, s, actions[0]), actions[1..], s')
  }

  // ── The inventory invariant ───────────────────────────────────────

  /** What an open transaction may rely on: it has locked every unit it has written and, if its
      commit would block, the unit is free for its dates of every other blocking reservation. */
  ghost predicate HoldsItsUnits(s: State, t: TxnId, txn: Txn)
  {
    && txn.checkIn < txn.checkOut
    && (forall u :: u in txn.written ==>
          u in s.unitLocks && s.unitLocks[u] == t
          && (WillBlock(txn) ==>
                u !in FindConflictingUnitIds(s.bookings, txn.property, txn.checkIn, txn.checkOut,
                                             Some(txn.rid))))
  }

  ghost predicate Sound(s: State)
  {
    && NoDoubleBooking(s.bookings)
    && RoomsInProperty(s.units, s.bookings)
    && WellDated(s.bookings)
    && (forall t :: t in s.active ==> HoldsItsUnits(s, t, s.active[t]))
  }

  /** The row a commit would publish holds units of its property; and if it blocks, they are free of
      the other reservations for its dates, and no open transaction of another reservation of the
      property has taken one of them for overlapping dates. */
  predicate CommitFits(s: State, t: TxnId)
  {
    && t in s.active && (s.active[t].kind != Creating ==> s.active[t].rid in s.bookings)
    && var rid, row := s.active[t].rid, Published(s.bookings, s.active[t]);
    && (forall u :: u in row.rooms ==> u in s.units && s.units[u] == row.property)
    && (row.Blocking() ==>
          && row.rooms.Keys !! FindConflictingUnitIds(s.bookings, row.property, row.checkIn,
                                                      row.checkOut, Some(rid))
          && forall v, u :: v in s.active && s.active[v].rid != rid && WillBlock(s.active[v])
                            && s.active[v].property == row.property
                            && u in s.active[v].written && u in row.rooms
               ==> !row.Overlaps(s.active[v].checkIn, s.active[v].checkOut))
  }

  /** Putting a transaction that holds its units into the table, new or changed, keeps the
      invariant. */
  lemma {:induction false} PutKeepsSound(s: State, t: TxnId, txn: Txn)
    requires Sound(s) && HoldsItsUnits(s, t, txn)
    ensures Sound(s.(active := s.active[t := txn]))
  {
    hide NoDoubleBooking, RoomsInProperty, WellDated, FindConflictingUnitIds;
    var s' := s.(active := s.active[t := txn]);
    forall v | v in s'.active ensures HoldsItsUnits(s', v, s'.active[v]) {
      if v != t { assert HoldsItsUnits(s, v, s.active[v]); }
    }
  }

  lemma {:induction false} BeginKeepsSound(d: Discipline, s: State, a: Action)
    requires Sound(s) && Enabled(d, s, a)
    requires a.BeginCreate? || a.BeginCheckIn? || a.BeginCheckOut? || a.BeginCancel?
             || a.BeginEdit?
    ensures Sound(Step(d, s, a))
  {
    hide FindConflictingUnitIds, NoDoubleBooking, RoomsInProperty;
    var txn := Step(d, s, a).active[a.t];
    assert HoldsItsUnits(s, a.t, txn);
    PutKeepsSound(s, a.t, txn);
  }

  /** The invariant speaks of no day lock. */
  lemma {:induction false} DayLocksDoNotMatter(s: State, dayLocks: map<nat, TxnId>)
    requires Sound(s)
    ensures Sound(s.(dayLocks := dayLocks))
  {
  }

  lemma {:induction false} NumberingKeepsSound(d: Discipline, s: State, a: Action)
    requires Sound(s) && Enabled(d, s, a)
    requires a.LockDay? || a.AssignNumber?
    ensures Sound(Step(d, s, a))
  {
    hide FindConflictingUnitIds, NoDoubleBooking, RoomsInProperty, WellDated, StartingWith,
         EditFits, Published;
    var s' := Step(d, s, a);
    DayLocksDoNotMatter(s, s'.dayLocks);
    assert HoldsItsUnits(s, a.t, s.active[a.t]);
    PutKeepsSound(s.(dayLocks := s'.dayLocks), a.t, s'.active[a.t]);
  }

  lemma {:induction false} LockUnitKeepsSound(d: Discipline, s: State, t: TxnId)
    requires Sound(s) && Enabled(d, s, LockUnit(t))
    ensures Sound(Step(d, s, LockUnit(t)))
  {
    hide FindConflictingUnitIds, NoDoubleBooking, RoomsInProperty, WellDated;
    var u := s.active[t].todo[0].unit;
    var s' := Step(d, s, LockUnit(t));
    assert s' == s.(unitLocks := s.unitLocks[u := t]) && (u in s.unitLocks ==> s.unitLocks[u] == t);
    hide Step, Enabled;
    forall v | v in s'.active ensures HoldsItsUnits(s', v, s'.active[v]) {
      assert HoldsItsUnits(s, v, s.active[v]);
    }
  }

  lemma {:induction false} CheckedUnitIsHeld(d: Discipline, s: State, t: TxnId, now: Time)
    requires Enabled(d, s, CheckUnit(t, now)) && HoldsItsUnits(s, t, s.active[t])
    ensures HoldsItsUnits(s, t, Step(d, s, CheckUnit(t, now)).active[t])
  {
    hide FindConflictingUnitIds, RoomFor, UnitsIn;
  }

  lemma {:induction false} CheckKeepsSound(d: Discipline, s: State, t: TxnId, now: Time)
    requires Sound(s) && Enabled(d, s, CheckUnit(t, now))
    ensures Sound(Step(d, s, CheckUnit(t, now)))
  {
    hide FindConflictingUnitIds, HoldsItsUnits, RoomFor;
    CheckedUnitIsHeld(d, s, t, now);
    PutKeepsSound(s, t, Step(d, s, CheckUnit(t, now)).active[t]);
  }

  lemma {:induction false} EndKeepsSound(s: State, t: TxnId)
    requires Sound(s)
    ensures Sound(Ended(s, t))
  {
    hide FindConflictingUnitIds, NoDoubleBooking, RoomsInProperty, WellDated;
    var s' := Ended(s, t);
    forall v | v in s'.active ensures HoldsItsUnits(s', v, s'.active[v]) {
      assert HoldsItsUnits(s, v, s.active[v]);
    }
  }

  lemma {:induction false} AuditKeepsSound(s: State, property: PropertyId, today: Day)
    requires Sound(s)
    ensures Sound(s.(bookings := NoShows(s.bookings, property, today)))
  {
    hide FindConflictingUnitIds, NoDoubleBooking, RoomsInProperty, WellDated, NoShows;
    var s' := s.(bookings := NoShows(s.bookings, property, today));
    NoShowsKeepTable(s.units, s.bookings, property, today);
    forall v | v in s'.active ensures HoldsItsUnits(s', v, s'.active[v]) {
      var txn := s.active[v];
      assert HoldsItsUnits(s, v, txn);
      NoShowsBlockLess(s.bookings, property, today, txn.property, txn.checkIn, txn.checkOut,
                        Some(txn.rid));
    }
  }

  /** Every statement but a commit keeps the invariant, whatever else is going on. */
  lemma {:induction false} StepKeepsSound(d: Discipline, s: State, a: Action)
    requires Sound(s) && Enabled(d, s, a) && !a.Commit?
    ensures Sound(Step(d, s, a))
  {
    hide Sound, EditFits, FindConflictingUnitIds;
    match a
    case CheckUnit(t, now) => CheckKeepsSound(d, s, t, now);
    case Abort(t) => EndKeepsSound(s, t);
    case Audit(property, today) => AuditKeepsSound(s, property, today);
    case LockDay(_) => NumberingKeepsSound(d, s, a);
    case AssignNumber(_) => NumberingKeepsSound(d, s, a);
    case LockUnit(t) => LockUnitKeepsSound(d, s, t);
    case _ => BeginKeepsSound(d, s, a);
  }

  lemma {:induction false} FittingCommitKeepsTable(d: Discipline, s: State, t: TxnId)
    requires Sound(s) && Enabled(d, s, Commit(t)) && CommitFits(s, t)
    ensures
      var b := Step(d, s, Commit(t)).bookings;
      NoDoubleBooking(b) && RoomsInProperty(s.units, b) && WellDated(b)
  {
    var txn := s.active[t];
    assert HoldsItsUnits(s, t, txn);
    hide NoDoubleBooking, RoomsInProperty, FindConflictingUnitIds;
    FreeRowKeepsTable(s.units, s.bookings, txn.rid, Published(s.bookings, txn));
  }

  /** A commit that fits takes no unit from under another transaction. */
  lemma {:induction false} FittingCommitSparesOthers(d: Discipline, s: State, t: TxnId, v: TxnId)
    requires Sound(s) && Enabled(d, s, Commit(t)) && CommitFits(s, t)
    requires v in s.active && v != t
    ensures HoldsItsUnits(Step(d, s, Commit(t)), v, s.active[v])
  {
    hide NoDoubleBooking, RoomsInProperty, WellDated, EditFits;
    var other := s.active[v];
    var row, b := Published(s.bookings, s.active[t]), Step(d, s, Commit(t)).bookings;
    assert b == s.bookings[s.active[t].rid := row];
    assert HoldsItsUnits(s, v, other);
    hide Published;
    forall u | u in other.written && WillBlock(other)
      ensures u !in FindConflictingUnitIds(b, other.property, other.checkIn, other.checkOut,
                                           Some(other.rid))
    {
    }
  }

  lemma {:induction false} FittingCommitKeepsSound(d: Discipline, s: State, t: TxnId)
    requires Sound(s) && Enabled(d, s, Commit(t)) && CommitFits(s, t)
    ensures Sound(Step(d, s, Commit(t)))
  {
    hide NoDoubleBooking, RoomsInProperty, WellDated, HoldsItsUnits, Published, EditFits, CommitFits;
    var s' := Step(d, s, Commit(t));
    FittingCommitKeepsTable(d, s, t);
    forall v | v in s'.active ensures HoldsItsUnits(s', v, s'.active[v]) {
      FittingCommitSparesOthers(d, s, t, v);
    }
  }

  /** The transaction has written a unit which by now conflicts. */
  ghost predicate LostUnit(s: State, txn: Txn)
  {
    exists u :: u in txn.written
                && u in FindConflictingUnitIds(s.bookings, txn.property, txn.checkIn, txn.checkOut,
                                               Some(txn.rid))
  }

  lemma {:induction false} TakenUnitIsLost(d: Discipline, s: State, t: TxnId, v: TxnId, u: UnitId)
    requires Enabled(d, s, Commit(t)) && v in s.active && s.active[v].rid != s.active[t].rid
    requires
      var row := Published(s.bookings, s.active[t]);
      && row.Blocking() && u in row.rooms && row.property == s.active[v].property
      && row.Overlaps(s.active[v].checkIn, s.active[v].checkOut)
    requires WillBlock(s.active[v]) && u in s.active[v].written
    ensures
      var s' := Step(d, s, Commit(t));
      && v in s'.active && s'.active[v] == s.active[v] && LostUnit(s', s'.active[v])
      && !HoldsItsUnits(s', v, s'.active[v])
  {
    var other, s' := s.active[v], Step(d, s, Commit(t));
    var rid, row := s.active[t].rid, Published(s.bookings, s.active[t]);
    assert s'.bookings[rid] == row && Some(other.rid) != Some(rid);
    hide Published, EditFits;
    assert u in FindConflictingUnitIds(s'.bookings, other.property, other.checkIn, other.checkOut,
                                       Some(other.rid));
  }

  /** The table holds a double booking or a unit of another property, or an open transaction has
      lost a unit it had checked. */
  ghost predicate Broken(s: State)
  {
    || !NoDoubleBooking(s.bookings) || !RoomsInProperty(s.units, s.bookings)
    || exists v :: v in s.active && WillBlock(s.active[v]) && LostUnit(s, s.active[v])
  }

  lemma {:induction false} BrokenIsUnsound(s: State)
    requires Broken(s)
    ensures !Sound(s)
  {
    hide NoDoubleBooking, RoomsInProperty, WellDated, FindConflictingUnitIds;
    if v :| v in s.active && WillBlock(s.active[v]) && LostUnit(s, s.active[v]) {
      assert !HoldsItsUnits(s, v, s.active[v]);
    }
  }

  lemma {:induction false} ForeignRoomBreaks(d: Discipline, s: State, t: TxnId, u: UnitId)
    requires Enabled(d, s, Commit(t))
    requires
      var row := Published(s.bookings, s.active[t]);
      u in row.rooms && !(u in s.units && s.units[u] == row.property)
    ensures Broken(Step(d, s, Commit(t)))
  {
    hide NoDoubleBooking, Published, EditFits, FindConflictingUnitIds;
    var s' := Step(d, s, Commit(t));
    assert u in s'.bookings[s.active[t].rid].rooms;
  }

  lemma {:induction false} TakenRoomBreaks(d: Discipline, s: State, t: TxnId)
    requires Sound(s) && Enabled(d, s, Commit(t))
    requires
      var rid, row := s.active[t].rid, Published(s.bookings, s.active[t]);
      && (forall u :: u in row.rooms ==> u in s.units && s.units[u] == row.property)
      && row.Blocking()
      && !(row.rooms.Keys !! FindConflictingUnitIds(s.bookings, row.property, row.checkIn,
                                                    row.checkOut, Some(rid)))
    ensures Broken(Step(d, s, Commit(t)))
  {
    hide NoDoubleBooking, RoomsInProperty, WellDated, Published, EditFits, FindConflictingUnitIds;
    RowIsSafeIff(s.units, s.bookings, s.active[t].rid, Published(s.bookings, s.active[t]));
  }

  lemma {:induction false} UnfitCommitBreaks(d: Discipline, s: State, t: TxnId)
    requires Sound(s) && Enabled(d, s, Commit(t)) && !CommitFits(s, t)
    ensures Broken(Step(d, s, Commit(t)))
  {
    var rid, row := s.active[t].rid, Published(s.bookings, s.active[t]);
    hide Sound, Step, FindConflictingUnitIds, Published, EditFits, LostUnit, HoldsItsUnits;
    if u :| u in row.rooms && !(u in s.units && s.units[u] == row.property) {
      ForeignRoomBreaks(d, s, t, u);
    } else if row.rooms.Keys !! FindConflictingUnitIds(s.bookings, row.property, row.checkIn,
                                                       row.checkOut, Some(rid)) {
      var v, u :| v in s.active && s.active[v].rid != rid && WillBlock(s.active[v])
                  && s.active[v].property == row.property
                  && u in s.active[v].written && u in row.rooms
                  && row.Overlaps(s.active[v].checkIn, s.active[v].checkOut);
      TakenUnitIsLost(d, s, t, v, u);
    } else {
      TakenRoomBreaks(d, s, t);
    }
  }

  /** Main theorem on commits: within any discipline or none, a commit keeps the invariant exactly
      when it fits; one that does not leaves the table or another transaction broken. */
  lemma {:induction false} CommitSoundIff(d: Discipline, s: State, t: TxnId)
    requires Sound(s) && Enabled(d, s, Commit(t))
    ensures Sound(Step(d, s, Commit(t))) <==> CommitFits(s, t)
    ensures !CommitFits(s, t) ==> Broken(Step(d, s, Commit(t)))
  {
    hide Sound, CommitFits, Broken, Enabled, Step;
    if CommitFits(s, t) {
      FittingCommitKeepsSound(d, s, t);
    } else {
      UnfitCommitBreaks(d, s, t);
      BrokenIsUnsound(Step(d, s, Commit(t)));
    }
  }

  /** The invariant holds all along a run. */
  ghost predicate StaysSound(d: Discipline, s: State, actions: seq<Action>)
    decreases |actions|
  {
    Sound(s)
    && (actions != [] ==>
          Enabled(d, s, actions[0]) && StaysSound(d, Step(d, s, actions[0]), actions[1..]))
  }

  /** Every commit of the run fits when it is made. */
  ghost predicate CommitsFit(d: Discipline, s: State, actions: seq<Action>)
    decreases |actions|
  {
    actions != [] ==>
      && Enabled(d, s, actions[0])
      && (actions[0].Commit? ==> CommitFits(s, actions[0].t))
      && CommitsFit(d, Step(d, s, actions[0]), actions[1..])
  }

  /** Main theorem: within any discipline or none, a run keeps the invariant all along exactly when
      every commit fits at that moment. */
  lemma {:induction false} RunSoundIffCommitsFit(d: Discipline, s: State, actions: seq<Action>,
                                                 s': State)
    requires Sound(s) && Reaches(d, s, actions, s')
    ensures StaysSound(d, s, actions) <==> CommitsFit(d, s, actions)
    ensures CommitsFit(d, s, actions) ==> Sound(s')
    decreases |actions|
  {
    hide Sound, Enabled, Step, CommitFits;
    if actions != [] {
      var a, next := actions[0], Step(d, s, actions[0]);
      if a.Commit? { CommitSoundIff(d, s, a.t); } else { StepKeepsSound(d, s, a); }
      if !a.Commit? || CommitFits(s, a.t) {
        RunSoundIffCommitsFit(d, next, actions[1..], s');
      }
    }
  }

  // ── One transition at a time ──────────────────────────────────────

  /** With one transition in flight on each reservation, what a transaction has read of its own row
      stays true. */
  ghost predicate KnowsItsRow(s: State, txn: Txn)
  {
    if txn.kind == Creating then txn.rid !in s.bookings
    else if txn.kind == Editing then
      && txn.rid in s.bookings && Editable(txn.status)
      && |txn.todo| <= 1 && (txn.stage == Refused ==> txn.todo != [])
      && (txn.todo != [] ==> txn.written == map[])
      && (txn.todo != [] || txn.written != map[] ==>
            s.bookings[txn.rid].rooms.Keys - txn.dropped <= txn.written.Keys + UnitsIn(txn.todo))
      && (forall u :: u in s.bookings[txn.rid].rooms.Keys - txn.dropped ==>
            u in s.units && s.units[u] == txn.property)
    else
      && txn.rid in s.bookings
      && s.bookings[txn.rid].property == txn.property
      && s.bookings[txn.rid].checkIn == txn.checkIn
      && s.bookings[txn.rid].checkOut == txn.checkOut
      && (txn.kind == CheckingIn ==>
            s.bookings[txn.rid].rooms.Keys - txn.dropped
            <= txn.written.Keys + UnitsIn(txn.todo))
  }

  /** The units it has taken or will take are of its property. */
  ghost predicate InItsProperty(s: State, txn: Txn)
  {
    && (forall u :: u in txn.written ==> u in s.units && s.units[u] == txn.property)
    && (forall i :: 0 <= i < |txn.todo| ==>
          txn.todo[i].unit in s.units && s.units[txn.todo[i].unit] == txn.property)
  }

  ghost predicate Informed(s: State)
  {
    && (forall t :: t in s.active ==>
          KnowsItsRow(s, s.active[t]) && InItsProperty(s, s.active[t]))
    && (forall t, v :: t in s.active && v in s.active && t != v ==>
          s.active[t].rid != s.active[v].rid)
  }

  ghost predicate Safe(s: State)
  {
    Sound(s) && Informed(s)
  }

  lemma {:induction false} PutKeepsInformed(s: State, t: TxnId, txn: Txn)
    requires Informed(s) && KnowsItsRow(s, txn) && InItsProperty(s, txn)
    requires forall v :: v in s.active && v != t ==> s.active[v].rid != txn.rid
    ensures Informed(s.(active := s.active[t := txn]))
  {
    var s' := s.(active := s.active[t := txn]);
    forall v | v in s'.active
      ensures KnowsItsRow(s', s'.active[v]) && InItsProperty(s', s'.active[v])
    {
      if v != t { assert KnowsItsRow(s, s.active[v]) && InItsProperty(s, s.active[v]); }
    }
  }

  lemma OneAssignment(a: Assignment)
    ensures UnitsIn([a]) == {a.unit}
  {
    assert [a][0] == a;
  }

  lemma {:induction false} BeginKeepsInformed(s: State, a: Action)
    requires Safe(s) && Enabled(VIEWS, s, a)
    requires a.BeginCreate? || a.BeginCheckIn? || a.BeginCheckOut? || a.BeginCancel?
    ensures Informed(Step(VIEWS, s, a))
  {
    hide FindConflictingUnitIds, NoDoubleBooking, RoomsInProperty, WellDated, HoldsItsUnits;
    var txn := Step(VIEWS, s, a).active[a.t];
    assert !InFlight(s, txn.rid);
    PutKeepsInformed(s, a.t, txn);
  }

  lemma {:induction false} EditBeginKeepsInformed(s: State, a: Action)
    requires Safe(s) && Enabled(VIEWS, s, a) && a.BeginEdit?
    ensures Informed(Step(VIEWS, s, a))
  {
    hide FindConflictingUnitIds, NoDoubleBooking, WellDated, HoldsItsUnits;
    var txn := Step(VIEWS, s, a).active[a.t];
    assert !InFlight(s, txn.rid);
    OneAssignment(a.assignment);
    assert KnowsItsRow(s, txn);
    PutKeepsInformed(s, a.t, txn);
  }

  /** What transactions know speaks of no lock. */
  lemma {:induction false} LocksDoNotMatter(s: State, s': State)
    requires Informed(s)
    requires s'.active == s.active && s'.bookings == s.bookings && s'.units == s.units
    ensures Informed(s')
  {
    forall v | v in s'.active
      ensures KnowsItsRow(s', s'.active[v]) && InItsProperty(s', s'.active[v])
    {
      assert KnowsItsRow(s, s.active[v]) && InItsProperty(s, s.active[v]);
    }
  }

  lemma {:induction false} NumberingKeepsInformed(s: State, a: Action)
    requires Informed(s) && Enabled(VIEWS, s, a)
    requires a.LockDay? || a.AssignNumber?
    ensures Informed(Step(VIEWS, s, a))
  {
    hide FindConflictingUnitIds, StartingWith, EditFits, Published;
    var s' := Step(VIEWS, s, a);
    var txn, txn' := s.active[a.t], s'.active[a.t];
    assert KnowsItsRow(s, txn) && InItsProperty(s, txn);
    assert KnowsItsRow(s, txn') && InItsProperty(s, txn');
    hide KnowsItsRow, InItsProperty;
    PutKeepsInformed(s, a.t, txn');
    LocksDoNotMatter(s.(active := s.active[a.t := txn']), s');
  }

  lemma FirstAndRest(todo: seq<Assignment>)
    requires todo != []
    ensures UnitsIn(todo) == UnitsIn(todo[1..]) + {todo[0].unit}
  {
    forall i | 0 < i < |todo| ensures todo[i].unit in UnitsIn(todo[1..]) {
      assert todo[1..][i - 1] == todo[i];
    }
    forall i | 0 <= i < |todo[1..]| ensures todo[1..][i].unit in UnitsIn(todo) {
      assert todo[1..][i] == todo[i + 1];
    }
  }

  lemma {:induction false} CheckKeepsTheRow(s: State, t: TxnId, now: Time)
    requires Enabled(VIEWS, s, CheckUnit(t, now)) && KnowsItsRow(s, s.active[t])
    ensures
      var txn' := Step(VIEWS, s, CheckUnit(t, now)).active[t];
      KnowsItsRow(s, txn') && txn'.rid == s.active[t].rid
  {
    hide FindConflictingUnitIds, RoomFor, UnitsIn;
    FirstAndRest(s.active[t].todo);
  }

  lemma {:induction false} CheckKeepsInformed(s: State, t: TxnId, now: Time)
    requires Informed(s) && Enabled(VIEWS, s, CheckUnit(t, now))
    ensures Informed(Step(VIEWS, s, CheckUnit(t, now)))
  {
    hide FindConflictingUnitIds, KnowsItsRow, RoomFor;
    CheckKeepsTheRow(s, t, now);
    assert InItsProperty(s, s.active[t]);
    PutKeepsInformed(s, t, Step(VIEWS, s, CheckUnit(t, now)).active[t]);
  }

  lemma {:induction false} CommitKeepsInformed(s: State, t: TxnId)
    requires Informed(s) && Enabled(VIEWS, s, Commit(t))
    ensures Informed(Step(VIEWS, s, Commit(t)))
  {
    hide FindConflictingUnitIds, Published, EditFits;
    var s' := Step(VIEWS, s, Commit(t));
    forall v | v in s'.active
      ensures KnowsItsRow(s', s'.active[v]) && InItsProperty(s', s'.active[v])
    {
      assert KnowsItsRow(s, s.active[v]) && InItsProperty(s, s.active[v]);
      assert s.active[v].rid != s.active[t].rid;
    }
  }

  lemma {:induction false} EndKeepsInformed(s: State, t: TxnId)
    requires Informed(s)
    ensures Informed(Ended(s, t))
  {
    var s' := Ended(s, t);
    forall v | v in s'.active
      ensures KnowsItsRow(s', s'.active[v]) && InItsProperty(s', s'.active[v])
    {
      assert KnowsItsRow(s, s.active[v]) && InItsProperty(s, s.active[v]);
    }
  }

  lemma {:induction false} AuditKeepsInformed(s: State, property: PropertyId, today: Day)
    requires Informed(s)
    ensures Informed(s.(bookings := NoShows(s.bookings, property, today)))
  {
    var s' := s.(bookings := NoShows(s.bookings, property, today));
    forall v | v in s'.active
      ensures KnowsItsRow(s', s'.active[v]) && InItsProperty(s', s'.active[v])
    {
      assert KnowsItsRow(s, s.active[v]) && InItsProperty(s, s.active[v]);
    }
  }

  lemma {:induction false} StepKeepsInformed(s: State, a: Action)
    requires Safe(s) && Enabled(VIEWS, s, a)
    ensures Informed(Step(VIEWS, s, a))
  {
    hide Sound, Informed, EditFits, FindConflictingUnitIds;
    match a
    case CheckUnit(t, now) => CheckKeepsInformed(s, t, now);
    case Commit(t) => CommitKeepsInformed(s, t);
    case Abort(t) => EndKeepsInformed(s, t);
    case Audit(property, today) => AuditKeepsInformed(s, property, today);
    case LockDay(_) => NumberingKeepsInformed(s, a);
    case AssignNumber(_) => NumberingKeepsInformed(s, a);
    case LockUnit(_) => LocksDoNotMatter(s, Step(VIEWS, s, a));
    case BeginEdit(_, _, _, _, _, _) => EditBeginKeepsInformed(s, a);
    case _ => BeginKeepsInformed(s, a);
  }

  /** The row a commit publishes is of its transaction's property and dates; outside edits it holds,
      if it blocks, only units the transaction has checked. */
  lemma {:induction false} PublishedAsLoaded(s: State, t: TxnId)
    requires Safe(s) && Enabled(VIEWS, s, Commit(t))
    ensures
      var txn := s.active[t];
      var row := Published(s.bookings, txn);
      && row.property == txn.property && row.checkIn == txn.checkIn && row.checkOut == txn.checkOut
      && (forall u :: u in row.rooms ==> u in s.units && s.units[u] == row.property)
      && (row.Blocking() && txn.kind != Editing ==>
            WillBlock(txn) && row.rooms.Keys <= txn.written.Keys)
      && (txn.kind == Editing ==> row.rooms.Keys == Kept(s.bookings, txn) + txn.written.Keys)
      && (txn.kind == Editing && txn.stage == Refused ==> txn.written == map[])
  {
    var txn := s.active[t];
    hide FindConflictingUnitIds, NoDoubleBooking, WellDated, HoldsItsUnits, EditFits;
    assert KnowsItsRow(s, txn) && InItsProperty(s, txn);
    assert UnitsIn([]) == {};
  }

  /** A checked unit is written by nobody else. */
  lemma {:induction false} CheckedByOne(s: State, t: TxnId, v: TxnId, u: UnitId)
    requires Sound(s) && t in s.active && v in s.active && t != v
    requires u in s.active[t].written
    ensures u !in s.active[v].written
  {
    hide NoDoubleBooking, RoomsInProperty, WellDated, FindConflictingUnitIds;
    assert HoldsItsUnits(s, t, s.active[t]) && HoldsItsUnits(s, v, s.active[v]);
  }

  /** With one transition in flight on each reservation, every commit other than an edit fits. */
  lemma {:induction false} LockedCommitsFit(s: State, t: TxnId)
    requires Safe(s) && Enabled(VIEWS, s, Commit(t)) && s.active[t].kind != Editing
    ensures CommitFits(s, t)
  {
    var txn, row := s.active[t], Published(s.bookings, s.active[t]);
    PublishedAsLoaded(s, t);
    assert HoldsItsUnits(s, t, txn);
    hide NoDoubleBooking, RoomsInProperty, WellDated, FindConflictingUnitIds, Published, Informed;
    if row.Blocking() {
      forall v, u | v in s.active && s.active[v].rid != txn.rid && u in row.rooms
        ensures u !in s.active[v].written
      {
        CheckedByOne(s, t, v, u);
      }
    }
  }

  /** And an edit fits exactly when the rooms it keeps unchecked do. */
  lemma {:induction false} EditFitsIff(s: State, t: TxnId)
    requires Safe(s) && Enabled(VIEWS, s, Commit(t)) && s.active[t].kind == Editing
    ensures CommitFits(s, t) <==> EditFits(s, s.active[t])
  {
    var txn, row := s.active[t], Published(s.bookings, s.active[t]);
    PublishedAsLoaded(s, t);
    assert HoldsItsUnits(s, t, txn);
    assert row.Blocking() <==> txn.status == Confirmed by { assert KnowsItsRow(s, txn); }
    hide NoDoubleBooking, RoomsInProperty, WellDated, FindConflictingUnitIds, Published, Kept,
         KnowsItsRow;
    forall v, u | v in s.active && s.active[v].rid != txn.rid && u in row.rooms
                  && u in s.active[v].written
      ensures u in Kept(s.bookings, txn) && s.active[v].property == row.property
    {
      if u in txn.written { CheckedByOne(s, t, v, u); }
      assert InItsProperty(s, s.active[v]);
    }
  }

  lemma SameStep(s: State, a: Action)
    requires Enabled(SERVICES, s, a)
    ensures Enabled(VIEWS, s, a) && Step(VIEWS, s, a) == Step(SERVICES, s, a)
  {
  }

  lemma {:induction false} DisciplinedCommitFits(s: State, t: TxnId)
    requires Safe(s) && Enabled(SERVICES, s, Commit(t))
    ensures CommitFits(s, t)
  {
    SameStep(s, Commit(t));
    if s.active[t].kind == Editing { EditFitsIff(s, t); } else { LockedCommitsFit(s, t); }
    hide *;
  }

  /** The row a commit publishes holds only units of its property; if it blocks, they are all free
      for its dates: locked and checked, or kept by an edit they fit. */
  lemma {:induction false} PublishedRoomsAreFree(s: State, t: TxnId)
    requires Safe(s) && Enabled(SERVICES, s, Commit(t))
    ensures
      var txn := s.active[t];
      var row := Published(s.bookings, txn);
      && row.property == txn.property && row.checkIn == txn.checkIn && row.checkOut == txn.checkOut
      && (forall u :: u in row.rooms ==> u in s.units && s.units[u] == row.property)
      && (row.Blocking() ==>
            row.rooms.Keys !! FindConflictingUnitIds(s.bookings, row.property, row.checkIn,
                                                     row.checkOut, Some(txn.rid)))
      && (row.Blocking() && txn.kind != Editing ==> row.rooms.Keys <= txn.written.Keys)
  {
    SameStep(s, Commit(t));
    PublishedAsLoaded(s, t);
    DisciplinedCommitFits(s, t);
    hide Safe, FindConflictingUnitIds, Published, EditFits;
  }

  /** A check made under the lock keeps the invariant, the new write included. */
  lemma {:induction false} CheckKeepsSafe(s: State, t: TxnId, now: Time)
    requires Safe(s) && Enabled(SERVICES, s, CheckUnit(t, now))
    ensures Safe(Step(SERVICES, s, CheckUnit(t, now)))
  {
    hide Sound, Informed, Step, Enabled;
    SameStep(s, CheckUnit(t, now));
    CheckKeepsSound(VIEWS, s, t, now);
    CheckKeepsInformed(s, t, now);
  }

  lemma {:induction false} CommitKeepsSafe(s: State, t: TxnId)
    requires Safe(s) && Enabled(SERVICES, s, Commit(t))
    ensures Safe(Step(SERVICES, s, Commit(t)))
  {
    hide Sound, Informed, Step, Enabled, CommitFits;
    SameStep(s, Commit(t));
    DisciplinedCommitFits(s, t);
    CommitSoundIff(VIEWS, s, t);
    CommitKeepsInformed(s, t);
  }

  lemma {:induction false} StepKeepsSafe(s: State, a: Action)
    requires Safe(s) && Enabled(SERVICES, s, a)
    ensures Safe(Step(SERVICES, s, a))
  {
    hide Sound, Informed, Step, Enabled;
    SameStep(s, a);
    if a.Commit? {
      CommitKeepsSafe(s, a.t);
    } else {
      StepKeepsSound(VIEWS, s, a);
      StepKeepsInformed(s, a);
    }
  }

  // ── Edits as the view runs them ───────────────────────────────────

  /** An open transaction that has taken a unit which a committed blocking row of another
      reservation holds for overlapping dates double-books with its own commit. */
  lemma {:induction false} CommitOverConflict(d: Discipline, s: State, v: TxnId, r: ReservationId,
                                              u: UnitId)
    requires Enabled(d, s, Commit(v)) && WillBlock(s.active[v]) && KnowsItsRow(s, s.active[v])
    requires u in s.active[v].written && r in s.bookings && r != s.active[v].rid
    requires s.bookings[r].Blocking() && u in s.bookings[r].rooms
    requires s.bookings[r].Overlaps(s.active[v].checkIn, s.active[v].checkOut)
    ensures !NoDoubleBooking(Step(d, s, Commit(v)).bookings)
  {
    var other := s.active[v];
    var b := Step(d, s, Commit(v)).bookings;
    assert b == s.bookings[other.rid := Published(s.bookings, other)];
    assert b[other.rid].Blocking() && u in b[other.rid].rooms && b[r] == s.bookings[r];
    assert b[r].Overlaps(b[other.rid].checkIn, b[other.rid].checkOut);
  }

  /** An edit that takes the lock fits whenever its check succeeds, at a new rate or in a new room,
      and also when a new room is refused; what is left are the edits that skip the lock and those
      refused a new rate. */
  lemma {:induction false} LockedEditsFit(s: State, t: TxnId)
    requires Safe(s) && t in s.active && s.active[t].kind == Editing
    requires
      var txn := s.active[t];
      || (txn.stage == Working && txn.todo == [] && txn.written != map[])
      || (txn.stage == Refused && txn.todo[0].unit !in s.bookings[txn.rid].rooms)
    ensures EditFits(s, s.active[t])
  {
    var txn := s.active[t];
    assert KnowsItsRow(s, txn);
    assert UnitsIn([]) == {};
    if txn.todo != [] { assert UnitsIn(txn.todo) == {txn.todo[0].unit}; }
    assert Kept(s.bookings, txn) == {};
  }

  lemma {:induction false} EditKeepsRoomsInProperty(s: State, t: TxnId)
    requires Safe(s) && Enabled(VIEWS, s, Commit(t))
    ensures RoomsInProperty(Step(VIEWS, s, Commit(t)).units, Step(VIEWS, s, Commit(t)).bookings)
  {
    PublishedAsLoaded(s, t);
    hide Published, EditFits, NoDoubleBooking, WellDated, HoldsItsUnits, Informed;
  }

  /** Where the kept rooms do not fit, the table is double-booked at once, or another open
      transaction has lost a unit it has checked. */
  lemma {:induction false} UnfitEditBreaks(s: State, t: TxnId)
    requires Safe(s) && Enabled(VIEWS, s, Commit(t)) && !EditFits(s, s.active[t])
    ensures
      var txn, s' := s.active[t], Step(VIEWS, s, Commit(t));
      || !NoDoubleBooking(s'.bookings)
      || exists v :: v in s'.active && WillBlock(s'.active[v]) && LostUnit(s', s'.active[v])
    ensures !Safe(Step(VIEWS, s, Commit(t)))
  {
    assert t in s.active && s.active[t].kind == Editing;
    hide NoDoubleBooking, RoomsInProperty, Sound, Informed, CommitFits, LostUnit, EditFits, Step,
         Enabled, WillBlock;
    EditFitsIff(s, t);
    CommitSoundIff(VIEWS, s, t);
    EditKeepsRoomsInProperty(s, t);
  }

  /** Main theorem on edits: the commit of an edit keeps the invariant exactly when the rooms it
      keeps unchecked still fit. */
  lemma {:induction false} EditKeepsSafeIff(s: State, t: TxnId)
    requires Safe(s) && Enabled(VIEWS, s, Commit(t)) && s.active[t].kind == Editing
    ensures Safe(Step(VIEWS, s, Commit(t))) <==> EditFits(s, s.active[t])
  {
    hide Sound, Informed, CommitFits, Step, EditFits, Broken;
    EditFitsIff(s, t);
    CommitSoundIff(VIEWS, s, t);
    CommitKeepsInformed(s, t);
  }

  /** A transaction that has lost a unit double-books if it commits. */
  lemma {:induction false} LostUnitDoubleBooks(d: Discipline, s: State, v: TxnId)
    requires Enabled(d, s, Commit(v)) && WillBlock(s.active[v]) && KnowsItsRow(s, s.active[v])
    requires LostUnit(s, s.active[v])
    ensures !NoDoubleBooking(Step(d, s, Commit(v)).bookings)
  {
    var other := s.active[v];
    var u :| u in other.written
             && u in FindConflictingUnitIds(s.bookings, other.property, other.checkIn,
                                            other.checkOut, Some(other.rid));
    var r :| r in s.bookings && u in s.bookings[r].rooms && Some(other.rid) != Some(r)
             && s.bookings[r].Blocking() && s.bookings[r].Overlaps(other.checkIn, other.checkOut);
    CommitOverConflict(d, s, v, r, u);
  }

  /** The invariant holds all along a run. */
  ghost predicate StaysSafe(d: Discipline, s: State, actions: seq<Action>)
    decreases |actions|
  {
    Safe(s)
    && (actions != [] ==>
          Enabled(d, s, actions[0]) && StaysSafe(d, Step(d, s, actions[0]), actions[1..]))
  }

  /** Main theorem: a run of the views, edits included, stays safe all along exactly when every edit
      that commits fits at that moment. */
  lemma {:induction false} RunSafeIffEditsFit(s: State, actions: seq<Action>, s': State)
    requires Safe(s) && Reaches(VIEWS, s, actions, s')
    ensures StaysSafe(VIEWS, s, actions) <==> Reaches(SERVICES, s, actions, s')
    decreases |actions|
  {
    if actions != [] {
      var a := actions[0];
      var next := Step(VIEWS, s, a);
      if Enabled(SERVICES, s, a) {
        SameStep(s, a);
        StepKeepsSafe(s, a);
        RunSafeIffEditsFit(next, actions[1..], s');
      } else {
        UnfitEditBreaks(s, a.t);
      }
    }
  }

  // ── The numbering invariant ───────────────────────────────────────

  /** The day's numbers run from 1 without repetition or excess. */
  ghost predicate Consecutive(numbers: map<ReservationId, Number>)
  {
    && (forall r :: r in numbers ==>
          IsDay(numbers[r].day) && 1 <= numbers[r].index <= |OnDay(numbers, numbers[r].day)|)
    && (forall r, v :: r in numbers && v in numbers && r != v
                       && numbers[r].day == numbers[v].day
                       ==> numbers[r].index != numbers[v].index)
  }

  /** A creation past the advisory lock owns its day; once it has counted, its number is the
      next one. */
  ghost predicate OwnsItsDay(s: State, t: TxnId, txn: Txn)
  {
    && (txn.stage == Unnumbered || txn.stage == Queued ==> txn.kind == Creating)
    && (txn.kind == Creating ==> IsDay(txn.day))
    && (txn.kind == Creating && txn.stage != Unnumbered ==>
          txn.day in s.dayLocks && s.dayLocks[txn.day] == t)
    && (txn.kind == Creating && txn.stage == Working ==>
          txn.index == |OnDay(s.numbers, txn.day)| + 1)
  }

  ghost predicate Numbered(s: State)
  {
    && s.numbers.Keys == s.bookings.Keys
    && Consecutive(s.numbers)
    && (forall t :: t in s.active ==> OwnsItsDay(s, t, s.active[t]))
  }

  /** A reservation being created is not in the table and nobody else's. */
  ghost predicate NewRowsAreNew(s: State)
  {
    && (forall t :: t in s.active && s.active[t].kind == Creating ==>
          s.active[t].rid !in s.bookings)
    && (forall t, v :: t in s.active && v in s.active && t != v && s.active[t].kind == Creating ==>
          s.active[t].rid != s.active[v].rid)
  }

  lemma {:induction false} PutKeepsNewRows(s: State, t: TxnId, txn: Txn)
    requires NewRowsAreNew(s)
    requires txn.kind == Creating ==> txn.rid !in s.bookings
    requires forall v :: v in s.active && v != t
                         && (s.active[v].kind == Creating || txn.kind == Creating) ==>
               s.active[v].rid != txn.rid
    ensures NewRowsAreNew(s.(active := s.active[t := txn]))
  {
  }

  lemma {:induction false} BeginKeepsNewRows(d: Discipline, s: State, a: Action)
    requires NewRowsAreNew(s) && Enabled(d, s, a)
    requires a.BeginCreate? || a.BeginCheckIn? || a.BeginCheckOut? || a.BeginCancel?
             || a.BeginEdit?
    ensures NewRowsAreNew(Step(d, s, a))
  {
    hide FindConflictingUnitIds;
    var txn := Step(d, s, a).active[a.t];
    assert txn.kind != Creating ==> txn.rid in s.bookings;
    PutKeepsNewRows(s, a.t, txn);
  }

  lemma {:induction false} StepKeepsNewRows(d: Discipline, s: State, a: Action)
    requires NewRowsAreNew(s) && Enabled(d, s, a)
    ensures NewRowsAreNew(Step(d, s, a))
  {
    hide FindConflictingUnitIds, EditFits, Published, RoomFor, StartingWith;
    match a
    case LockDay(t) => PutKeepsNewRows(s, t, Step(d, s, a).active[t]);
    case AssignNumber(t) => PutKeepsNewRows(s, t, Step(d, s, a).active[t]);
    case CheckUnit(t, _) => PutKeepsNewRows(s, t, Step(d, s, a).active[t]);
    case LockUnit(_) =>
    case Commit(_) =>
    case Abort(_) =>
    case Audit(_, _) =>
    case _ => BeginKeepsNewRows(d, s, a);
  }

  lemma {:induction false} PutKeepsNumbered(s: State, t: TxnId, txn: Txn)
    requires Numbered(s) && OwnsItsDay(s, t, txn)
    ensures Numbered(s.(active := s.active[t := txn]))
  {
    var s' := s.(active := s.active[t := txn]);
    forall v | v in s'.active ensures OwnsItsDay(s', v, s'.active[v]) {
      if v != t { assert OwnsItsDay(s, v, s.active[v]); }
    }
  }

  lemma {:induction false} LockDayKeepsNumbered(d: Discipline, s: State, t: TxnId)
    requires Numbered(s) && Enabled(d, s, LockDay(t))
    ensures Numbered(Step(d, s, LockDay(t)))
  {
    var s' := Step(d, s, LockDay(t));
    forall v | v in s'.active ensures OwnsItsDay(s', v, s'.active[v]) {
      assert OwnsItsDay(s, v, s.active[v]);
    }
  }

  lemma {:induction false} PrefixFilterIsTheDay(numbers: map<ReservationId, Number>, day: nat)
    requires IsDay(day) && forall r :: r in numbers ==> IsDay(numbers[r].day)
    ensures StartingWith(numbers, day) == OnDay(numbers, day)
  {
    forall r | r in numbers
      ensures r in StartingWith(numbers, day) <==> r in OnDay(numbers, day)
    {
      PrefixMeansDay(day, numbers[r]);
    }
  }

  lemma {:induction false} AssignKeepsNumbered(d: Discipline, s: State, t: TxnId)
    requires Numbered(s) && Enabled(d, s, AssignNumber(t))
    ensures Numbered(Step(d, s, AssignNumber(t)))
  {
    var txn := s.active[t];
    assert OwnsItsDay(s, t, txn);
    PrefixFilterIsTheDay(s.numbers, txn.day);
    PutKeepsNumbered(s, t, Step(d, s, AssignNumber(t)).active[t]);
  }

  lemma {:induction false} OthersKeepNumbered(d: Discipline, s: State, a: Action)
    requires Numbered(s) && Enabled(d, s, a)
    requires a.BeginCreate? || a.BeginCheckIn? || a.BeginCheckOut? || a.BeginCancel?
             || a.BeginEdit? || a.CheckUnit?
    ensures Numbered(Step(d, s, a))
  {
    hide FindConflictingUnitIds, Consecutive, OnDay, IsDay;
    if a.CheckUnit? { assert OwnsItsDay(s, a.t, s.active[a.t]); }
    PutKeepsNumbered(s, a.t, Step(d, s, a).active[a.t]);
  }

  lemma {:induction false} FrameKeepsNumbered(d: Discipline, s: State, a: Action)
    requires Numbered(s) && Enabled(d, s, a)
    requires a.LockUnit? || a.Audit? || a.Abort?
    ensures Numbered(Step(d, s, a))
  {
    hide Consecutive, OnDay, FindConflictingUnitIds, IsDay;
    var s' := Step(d, s, a);
    forall v | v in s'.active ensures OwnsItsDay(s', v, s'.active[v]) {
      assert OwnsItsDay(s, v, s.active[v]);
    }
  }

  lemma {:induction false} OnDayGrows(numbers: map<ReservationId, Number>, r: ReservationId,
                                      n: Number, day: nat)
    requires r !in numbers
    ensures OnDay(numbers[r := n], day)
            == OnDay(numbers, day) + (if day == n.day then {r} else {})
    ensures |OnDay(numbers[r := n], day)|
            == |OnDay(numbers, day)| + (if day == n.day then 1 else 0)
  {
    assert OnDay(numbers[r := n], day)
           == OnDay(numbers, day) + (if day == n.day then {r} else {});
  }

  /** Adding the next number of a day keeps every day's numbers consecutive. */
  lemma {:induction false} NextNumberKeepsConsecutive(
    numbers: map<ReservationId, Number>, r: ReservationId, n: Number)
    requires Consecutive(numbers) && r !in numbers && IsDay(n.day)
    requires n.index == |OnDay(numbers, n.day)| + 1
    ensures Consecutive(numbers[r := n])
  {
    var numbers' := numbers[r := n];
    hide OnDay, IsDay;
    forall v | v in numbers'
      ensures IsDay(numbers'[v].day)
      ensures 1 <= numbers'[v].index <= |OnDay(numbers', numbers'[v].day)|
    {
      OnDayGrows(numbers, r, n, numbers'[v].day);
    }
  }

  lemma {:induction false} CommitKeepsOthersDays(d: Discipline, s: State, t: TxnId, v: TxnId)
    requires NewRowsAreNew(s) && Numbered(s) && Enabled(d, s, Commit(t))
    requires v in s.active && v != t
    ensures OwnsItsDay(Step(d, s, Commit(t)), v, s.active[v])
  {
    var txn, other := s.active[t], s.active[v];
    assert OwnsItsDay(s, t, txn) && OwnsItsDay(s, v, other);
    if txn.kind == Creating {
      OnDayGrows(s.numbers, txn.rid, Number(txn.day, txn.index), other.day);
    }
  }

  lemma {:induction false} CommitKeepsConsecutive(d: Discipline, s: State, t: TxnId)
    requires NewRowsAreNew(s) && Numbered(s) && Enabled(d, s, Commit(t))
    ensures
      var s' := Step(d, s, Commit(t));
      s'.numbers.Keys == s'.bookings.Keys && Consecutive(s'.numbers)
  {
    hide Consecutive, OnDay, FindConflictingUnitIds, EditFits;
    var txn := s.active[t];
    assert OwnsItsDay(s, t, txn);
    if txn.kind == Creating {
      NextNumberKeepsConsecutive(s.numbers, txn.rid, Number(txn.day, txn.index));
    }
  }

  lemma {:induction false} CommitKeepsNumbered(d: Discipline, s: State, t: TxnId)
    requires NewRowsAreNew(s) && Numbered(s) && Enabled(d, s, Commit(t))
    ensures Numbered(Step(d, s, Commit(t)))
  {
    var s' := Step(d, s, Commit(t));
    CommitKeepsConsecutive(d, s, t);
    forall v | v in s'.active ensures OwnsItsDay(s', v, s'.active[v]) {
      CommitKeepsOthersDays(d, s, t, v);
    }
  }

  lemma {:induction false} StepKeepsNumbered(d: Discipline, s: State, a: Action)
    requires NewRowsAreNew(s) && Numbered(s) && Enabled(d, s, a)
    ensures Numbered(Step(d, s, a))
  {
    match a
    case Commit(t) => CommitKeepsNumbered(d, s, t);
    case LockDay(t) => LockDayKeepsNumbered(d, s, t);
    case AssignNumber(t) => AssignKeepsNumbered(d, s, t);
    case CheckUnit(_, _) => OthersKeepNumbered(d, s, a);
    case BeginCreate(_, _, _, _, _, _, _) => OthersKeepNumbered(d, s, a);
    case BeginCheckIn(_, _, _) => OthersKeepNumbered(d, s, a);
    case BeginCheckOut(_, _) => OthersKeepNumbered(d, s, a);
    case BeginCancel(_, _) => OthersKeepNumbered(d, s, a);
    case BeginEdit(_, _, _, _, _, _) => OthersKeepNumbered(d, s, a);
    case LockUnit(_) => FrameKeepsNumbered(d, s, a);
    case Audit(_, _) => FrameKeepsNumbered(d, s, a);
    case Abort(_) => FrameKeepsNumbered(d, s, a);
  }

  // ── Whole runs ────────────────────────────────────────────────────

  /** A database at rest whose rows are in order: no open transaction. */
  ghost predicate AtRest(s: State)
  {
    && s.active == map[] && s.unitLocks == map[] && s.dayLocks == map[]
    && NoDoubleBooking(s.bookings) && RoomsInProperty(s.units, s.bookings)
    && WellDated(s.bookings)
    && s.numbers.Keys == s.bookings.Keys && Consecutive(s.numbers)
  }

  lemma {:induction false} ServicesFit(s: State, actions: seq<Action>, s': State)
    requires Safe(s) && Reaches(SERVICES, s, actions, s')
    ensures CommitsFit(SERVICES, s, actions)
    decreases |actions|
  {
    hide Safe, Enabled, Step, CommitFits;
    if actions != [] {
      if actions[0].Commit? { DisciplinedCommitFits(s, actions[0].t); }
      StepKeepsSafe(s, actions[0]);
      ServicesFit(Step(SERVICES, s, actions[0]), actions[1..], s');
    }
  }

  lemma {:induction false} RunKeepsNumbered(d: Discipline, s: State, actions: seq<Action>,
                                            s': State)
    requires NewRowsAreNew(s) && Numbered(s) && Reaches(d, s, actions, s')
    ensures NewRowsAreNew(s') && Numbered(s')
    decreases |actions|
  {
    if actions != [] {
      StepKeepsNewRows(d, s, actions[0]);
      StepKeepsNumbered(d, s, actions[0]);
      hide Enabled, Step, NewRowsAreNew, Numbered;
      RunKeepsNumbered(d, Step(d, s, actions[0]), actions[1..], s');
    }
  }

  /** Main theorem: from a database at rest, within any discipline or none, an interleaving whose
      commits fit never commits two blocking reservations of one unit for overlapping dates. */
  lemma {:induction false} FittingRunsNeverDoubleBook(d: Discipline, s: State,
                                                      actions: seq<Action>, s': State)
    requires AtRest(s) && Reaches(d, s, actions, s') && CommitsFit(d, s, actions)
    ensures NoDoubleBooking(s'.bookings)
    ensures RoomsInProperty(s'.units, s'.bookings) && WellDated(s'.bookings)
  {
    hide Reaches, CommitsFit, NoDoubleBooking, RoomsInProperty, WellDated;
    RunSoundIffCommitsFit(d, s, actions, s');
  }

  /** Main theorem: no interleaving of creations, check-ins, check-outs, cancellations, audits and
      edits that fit when they commit ever commits two blocking reservations of one unit for
      overlapping dates. */
  lemma {:induction false} NoInterleavingDoubleBooks(s: State, actions: seq<Action>, s': State)
    requires AtRest(s) && Reaches(SERVICES, s, actions, s')
    ensures NoDoubleBooking(s'.bookings)
    ensures RoomsInProperty(s'.units, s'.bookings) && WellDated(s'.bookings)
  {
    hide Reaches, CommitsFit, NoDoubleBooking, RoomsInProperty, WellDated;
    ServicesFit(s, actions, s');
    FittingRunsNeverDoubleBook(SERVICES, s, actions, s');
  }

  /** The indices in use on a day. */
  function IndicesOn(numbers: map<ReservationId, Number>, day: nat): set<nat>
  {
    set r | r in numbers && numbers[r].day == day :: numbers[r].index
  }

  lemma {:induction false} ConsecutiveIsOneToN(numbers: map<ReservationId, Number>, day: nat)
    requires Consecutive(numbers)
    ensures IndicesOn(numbers, day) == OneTo(|OnDay(numbers, day)|)
  {
    var today := OnDay(numbers, day);
    var index: map<ReservationId, nat> := map r | r in today :: numbers[r].index;
    InjectiveImageSize(today, index);
    var used := Image(today, index);
    forall k ensures k in used <==> k in IndicesOn(numbers, day) {
      if k in IndicesOn(numbers, day) {
        var r :| r in numbers && numbers[r].day == day && numbers[r].index == k;
        assert r in today && index[r] == k;
      }
    }
    assert used == IndicesOn(numbers, day);
    SubsetOfSameSize(used, OneTo(|today|));
  }

  /** Main theorem: under every interleaving, within any discipline or none, the committed numbers
      of each day are exactly 1..n and the printed reservation numbers are all different. */
  lemma {:induction false} NumbersStayConsecutive(d: Discipline, s: State,
                                                  actions: seq<Action>, s': State)
    requires AtRest(s) && Reaches(d, s, actions, s')
    ensures s'.numbers.Keys == s'.bookings.Keys
    ensures forall day: nat ::
              IndicesOn(s'.numbers, day) == OneTo(|OnDay(s'.numbers, day)|)
    ensures forall r, v :: r in s'.numbers && v in s'.numbers && r != v ==>
              NumberText(s'.numbers[r]) != NumberText(s'.numbers[v])
  {
    RunKeepsNumbered(d, s, actions, s');
    forall day: nat
      ensures IndicesOn(s'.numbers, day) == OneTo(|OnDay(s'.numbers, day)|)
    {
      ConsecutiveIsOneToN(s'.numbers, day);
    }
    forall r, v | r in s'.numbers && v in s'.numbers && r != v
      ensures NumberText(s'.numbers[r]) != NumberText(s'.numbers[v])
    {
      if NumberText(s'.numbers[r]) == NumberText(s'.numbers[v]) {
        NumberTextInjective(s'.numbers[r], s'.numbers[v]);
      }
    }
  }

  /** So the insert of a creation never meets the unique constraint: the number it has chosen is
      not among the committed ones. */
  lemma {:induction false} ChosenNumberIsFresh(d: Discipline, s: State,
                                               actions: seq<Action>, s': State, t: TxnId)
    requires AtRest(s) && Reaches(d, s, actions, s')
    requires t in s'.active && s'.active[t].kind == Creating && s'.active[t].stage == Working
    ensures forall r :: r in s'.numbers ==>
              NumberText(s'.numbers[r]) != NumberText(Number(s'.active[t].day, s'.active[t].index))
  {
    RunKeepsNumbered(d, s, actions, s');
    var txn := s'.active[t];
    assert OwnsItsDay(s', t, txn);
    forall r | r in s'.numbers
      ensures NumberText(s'.numbers[r]) != NumberText(Number(txn.day, txn.index))
    {
      if NumberText(s'.numbers[r]) == NumberText(Number(txn.day, txn.index)) {
        NumberTextInjective(s'.numbers[r], Number(txn.day, txn.index));
      }
    }
  }

  /** On every night of every state such a run reaches the property's capacity is respected. */
  lemma {:induction false} CapacityUnderInterleaving(d: Discipline, s: State,
                                                     actions: seq<Action>, s': State,
                                                     property: PropertyId, start: Day, end: Day)
    requires AtRest(s) && Reaches(d, s, actions, s') && CommitsFit(d, s, actions) && start <= end
    ensures SoldNights(s'.bookings, s'.bookings.Keys, property, start, end)
            <= |UnitsOf(s'.units, property)| * (end - start)
  {
    FittingRunsNeverDoubleBook(d, s, actions, s');
    CapacityNeverExceeded(s'.units, s'.bookings, property, start, end);
  }
}
