/** Check-ins into units of another property.  The service does not compare a unit's property with
    the reservation's, while the conflict query looks at one property only. */
module ForeignUnits {
  import opened Rows
  import opened Inventory
  import opened Desk
  import opened DeskTheorems

  // ── At the check-in itself ────────────────────────────────────────

  /** Another property's blocking reservation has one of the assigned units for overlapping
      dates. */
  ghost predicate HeldElsewhere(h: Hotel, rid: ReservationId, assignments: seq<Assignment>)
    requires rid in h.bookings
  {
    var row := h.bookings[rid];
    exists r, u :: r in h.bookings && r != rid && h.bookings[r].Blocking()
                   && h.bookings[r].property != row.property
                   && u in h.bookings[r].rooms && u in UnitsIn(assignments)
                   && h.bookings[r].Overlaps(row.checkIn, row.checkOut)
  }

  lemma CheckInKeepsDates(h: Hotel, rid: ReservationId, assignments: seq<Assignment>, now: Time)
    requires CheckIn(h, rid, assignments, now).1 == Done
    ensures
      var was, row := h.bookings[rid], CheckIn(h, rid, assignments, now).0.bookings[rid];
      && row.property == was.property && row.Blocking()
      && row.checkIn == was.checkIn && row.checkOut == was.checkOut
  {
  }

  /** A successful check-in double-books at once exactly when a blocking reservation of another
      property holds one of the units. */
  lemma {:induction false} CheckInDoubleBooksIff(h: Hotel, rid: ReservationId,
                                                 assignments: seq<Assignment>, now: Time)
    requires NoDoubleBooking(h.bookings) && CheckIn(h, rid, assignments, now).1 == Done
    ensures NoDoubleBooking(CheckIn(h, rid, assignments, now).0.bookings)
            <==> !HeldElsewhere(h, rid, assignments)
  {
    CheckInEffect(h, rid, assignments, now);
    CheckInKeepsDates(h, rid, assignments, now);
    var b, b' := h.bookings, CheckIn(h, rid, assignments, now).0.bookings;
    hide CheckIn;
    if HeldElsewhere(h, rid, assignments) {
      var r, u :| r in b && r != rid && b[r].Blocking() && b[r].property != b[rid].property
                  && u in b[r].rooms && u in UnitsIn(assignments)
                  && b[r].Overlaps(b[rid].checkIn, b[rid].checkOut);
      assert b'[r] == b[r] && u in b'[rid].rooms;
    } else {
      forall r, s, u | r in b' && s in b' && r != s && b'[r].Blocking() && b'[s].Blocking()
                       && u in b'[r].rooms && u in b'[s].rooms
        ensures !b'[r].Overlaps(b'[s].checkIn, b'[s].checkOut)
      {
        assert r != rid ==> b'[r] == b[r];
        assert s != rid ==> b'[s] == b[s];
      }
    }
  }

  // ── Whatever comes after ──────────────────────────────────────────

  predicate Foreign(h: Hotel, rid: ReservationId, u: UnitId)
    requires rid in h.bookings
  {
    u in h.units && h.units[u].property != h.bookings[rid].property
  }

  /** From h on, no run of operations whose check-ins use their own units double-books. */
  ghost predicate SafeForever(h: Hotel)
  {
    forall ops :: RunsWithOwnUnits(h, ops) ==> NoDoubleBooking(Run(h, ops).bookings)
  }

  lemma NewIdExists(ids: set<ReservationId>) returns (newId: ReservationId)
    ensures newId !in ids && forall x :: x in ids ==> x < newId
  {
    newId := 0;
    var rest := ids;
    while rest != {}
      invariant rest <= ids && forall x :: x in ids && x !in rest ==> x < newId
    {
      var x :| x in rest;
      if newId <= x { newId := x + 1; }
      rest := rest - {x};
    }
  }

  /** A reservation holding a foreign unit that nobody else has: the unit's own property still
      accepts a booking of it for the same dates. */
  lemma {:induction false} OwnPropertyBooksAgain(h: Hotel, rid: ReservationId, u: UnitId,
                                                 newId: ReservationId)
    requires rid in h.bookings && h.bookings[rid].Blocking() && u in h.bookings[rid].rooms
    requires h.bookings[rid].checkIn < h.bookings[rid].checkOut
    requires Foreign(h, rid, u) && h.units[u].active && h.units[u].status != Maintenance
    requires newId !in h.bookings && NoDoubleBooking(h.bookings)
    ensures
      var row := h.bookings[rid];
      var (h', outcome) := Create(h, newId, h.units[u].property, row.checkIn, row.checkOut, u, 0);
      outcome == Done && !NoDoubleBooking(h'.bookings)
  {
    var row, property := h.bookings[rid], h.units[u].property;
    FormAcceptsMeans(h, None, property, row.checkIn, row.checkOut, u);
    CreateEffect(h, newId, property, row.checkIn, row.checkOut, u, 0);
    var b := Create(h, newId, property, row.checkIn, row.checkOut, u, 0).0.bookings;
    assert b[rid] == row && u in b[newId].rooms && rid != newId;
  }

  lemma ForeignUnitStays(h: Hotel, rid: ReservationId, assignments: seq<Assignment>, now: Time,
                         u: UnitId)
    requires InOrder(h) && CheckIn(h, rid, assignments, now).1 == Done
    requires u in UnitsIn(assignments) && Foreign(h, rid, u) && h.units[u].active
    ensures
      var h' := CheckIn(h, rid, assignments, now).0;
      && rid in h'.bookings && h'.bookings[rid].Blocking() && u in h'.bookings[rid].rooms
      && h'.bookings[rid].checkIn < h'.bookings[rid].checkOut
      && Foreign(h', rid, u) && h'.units[u].active && h'.units[u].status != Maintenance
  {
    CheckInEffect(h, rid, assignments, now);
    CheckInKeepsDates(h, rid, assignments, now);
  }

  lemma OneStep(h: Hotel, op: DeskOp)
    requires op.DoCreate?
    ensures RunsWithOwnUnits(h, [op]) && Run(h, [op]) == Apply(h, op).0
  {
    assert [op][1..] == [];
  }

  /** So a check-in into an active foreign unit always has a continuation that double-books: none
      at all, or one creation. */
  lemma {:induction false} ForeignUnitBreaks(h: Hotel, rid: ReservationId,
                                             assignments: seq<Assignment>, now: Time, u: UnitId)
    returns (ops: seq<DeskOp>)
    requires InOrder(h) && CheckIn(h, rid, assignments, now).1 == Done
    requires u in UnitsIn(assignments) && Foreign(h, rid, u) && h.units[u].active
    ensures
      var h' := CheckIn(h, rid, assignments, now).0;
      && |ops| <= 1 && RunsWithOwnUnits(h', ops) && !NoDoubleBooking(Run(h', ops).bookings)
  {
    var h' := CheckIn(h, rid, assignments, now).0;
    if !NoDoubleBooking(h'.bookings) {
      ops := [];
    } else {
      ForeignUnitStays(h, rid, assignments, now, u);
      var row := h'.bookings[rid];
      var newId := NewIdExists(h'.bookings.Keys);
      OwnPropertyBooksAgain(h', rid, u, newId);
      var op := DoCreate(newId, h'.units[u].property, row.checkIn, row.checkOut, u, 0);
      ops := [op];
      hide InOrder, CheckIn, Create, NoDoubleBooking;
      OneStep(h', op);
    }
  }

  lemma OrderIsSafeForever(h: Hotel)
    requires InOrder(h)
    ensures SafeForever(h)
  {
    forall ops | RunsWithOwnUnits(h, ops) ensures NoDoubleBooking(Run(h, ops).bookings) {
      RunsStayInOrder(h, ops);
    }
  }

  lemma UnitsAreOwn(h: Hotel, rid: ReservationId, assignments: seq<Assignment>, now: Time)
    requires rid in h.bookings
    ensures (forall u :: u in UnitsIn(assignments) ==> !Foreign(h, rid, u)) ==>
              OwnUnits(h, DoCheckIn(rid, assignments, now))
  {
    forall i | 0 <= i < |assignments| ensures assignments[i].unit in UnitsIn(assignments) {}
  }

  /** Main theorem on one check-in: into active units, it leaves the hotel safe for whatever comes
      after exactly when all the units belong to the reservation's property. */
  lemma {:induction false} CheckInSafeForeverIff(h: Hotel, rid: ReservationId,
                                                 assignments: seq<Assignment>, now: Time)
    requires InOrder(h) && CheckIn(h, rid, assignments, now).1 == Done
    requires forall u :: u in UnitsIn(assignments) ==> h.units[u].active
    ensures SafeForever(CheckIn(h, rid, assignments, now).0)
            <==> forall u :: u in UnitsIn(assignments) ==> !Foreign(h, rid, u)
  {
    var h' := CheckIn(h, rid, assignments, now).0;
    if u :| u in UnitsIn(assignments) && Foreign(h, rid, u) {
      var ops := ForeignUnitBreaks(h, rid, assignments, now, u);
      assert RunsWithOwnUnits(h', ops);
    } else {
      UnitsAreOwn(h, rid, assignments, now);
      CheckInKeepsOrder(h, rid, assignments, now);
      OrderIsSafeForever(h');
    }
  }

  /** Every check-in of the run that succeeds is into active units. */
  predicate ActiveUnits(h: Hotel, ops: seq<DeskOp>)
    decreases |ops|
  {
    ops == []
    || ((ops[0].DoCheckIn? && Apply(h, ops[0]).1 == Done ==>
           forall i :: 0 <= i < |ops[0].assignments| && ops[0].assignments[i].unit in h.units ==>
             h.units[ops[0].assignments[i].unit].active)
        && ActiveUnits(Apply(h, ops[0]).0, ops[1..]))
  }

  /** The hotel is safe forever after each operation of the run. */
  ghost predicate AlwaysSafe(h: Hotel, ops: seq<DeskOp>)
    decreases |ops|
  {
    SafeForever(h) && (ops == [] || AlwaysSafe(Apply(h, ops[0]).0, ops[1..]))
  }

  lemma {:induction false} ForeignCheckInUnsafe(h: Hotel, op: DeskOp)
    requires InOrder(h) && !OwnUnits(h, op) && ActiveUnits(h, [op])
    ensures !SafeForever(Apply(h, op).0)
  {
    var i :| 0 <= i < |op.assignments| && op.assignments[i].unit in h.units
             && h.units[op.assignments[i].unit].property != h.bookings[op.rid].property;
    var u := op.assignments[i].unit;
    assert u in UnitsIn(op.assignments);
    var ops := ForeignUnitBreaks(h, op.rid, op.assignments, op.now, u);
    assert RunsWithOwnUnits(Apply(h, op).0, ops);
  }

  /** Main theorem on runs: from a hotel in order, a run stays safe for every continuation exactly
      when its check-ins that succeed use units of their reservations' properties. */
  lemma {:induction false} RunAlwaysSafeIff(h: Hotel, ops: seq<DeskOp>)
    requires InOrder(h) && ActiveUnits(h, ops)
    ensures AlwaysSafe(h, ops) <==> RunsWithOwnUnits(h, ops)
    decreases |ops|
  {
    hide InOrder, Apply, SafeForever;
    OrderIsSafeForever(h);
    if ops != [] {
      var h' := Apply(h, ops[0]).0;
      if OwnUnits(h, ops[0]) {
        ApplyKeepsOrder(h, ops[0]);
        RunAlwaysSafeIff(h', ops[1..]);
      } else {
        ForeignCheckInUnsafe(h, ops[0]);
      }
    }
  }

  // ── Two inputs ────────────────────────────────────────────────────

  /** Unit 3 of property 0 and unit 5 of property 1; reservation 10 of property 0 has unit 3, and
      reservation 20 of property 1, when it is there, unit 5 for the same nights. */
  function TwoProperties(taken: bool): Hotel
  {
    var guest := Reservation(0, Confirmed, 0, 2, map[3 := Room(100, None, None)]);
    var other := Reservation(1, Confirmed, 0, 2, map[5 := Room(100, None, None)]);
    Hotel(map[3 := Unit(0, RoomType, Available, true), 5 := Unit(1, RoomType, Available, true)],
          if taken then map[10 := guest, 20 := other] else map[10 := guest], map[], map[], 0)
  }

  lemma TwoPropertiesInOrder(taken: bool)
    ensures InOrder(TwoProperties(taken))
  {
    var h := TwoProperties(taken);
    assert h.bookings[10].rooms.Keys == {3};
    if taken { assert h.bookings[20].rooms.Keys == {5}; }
  }

  lemma ForeignCheckInIsDone(taken: bool)
    ensures
      var h := TwoProperties(taken);
      && CheckIn(h, 10, [Assignment(5, 100)], 0).1 == Done
      && HeldElsewhere(h, 10, [Assignment(5, 100)]) == taken
  {
    var h, room := TwoProperties(taken), [Assignment(5, 100)];
    assert UnitsIn(room) == {5} by { assert room[0].unit == 5; }
    CheckInEffect(h, 10, room, 0);
    if taken {
      assert h.bookings[20].Blocking() && 5 in h.bookings[20].rooms
             && h.bookings[20].Overlaps(0, 2);
    }
  }

  /** A check-in into a unit that is let at its own property double-books at once. */
  lemma {:induction false} ForeignCheckInDoubleBooks()
    ensures
      var h := TwoProperties(true);
      var (h', outcome) := CheckIn(h, 10, [Assignment(5, 100)], 0);
      InOrder(h) && outcome == Done && !NoDoubleBooking(h'.bookings)
  {
    TwoPropertiesInOrder(true);
    ForeignCheckInIsDone(true);
    hide CheckIn, HeldElsewhere, TwoProperties;
    CheckInDoubleBooksIff(TwoProperties(true), 10, [Assignment(5, 100)], 0);
  }

  lemma UnitsKeepProperties(h: Hotel, rid: ReservationId, assignments: seq<Assignment>, now: Time)
    ensures
      var h' := CheckIn(h, rid, assignments, now).0;
      && PropertyOf(h'.units) == PropertyOf(h.units)
      && (CheckIn(h, rid, assignments, now).1 == Done ==> h'.bookings.Keys == h.bookings.Keys)
  {
    HousekeepingKeepsProperty(h.units, UnitsIn(assignments));
  }

  /** Into one that is free there, it leaves a table without double bookings, and an ordinary
      creation at the unit's property double-books next. */
  lemma {:induction false} NextCreationDoubleBooks()
    ensures
      var h := TwoProperties(false);
      var (h1, outcome) := CheckIn(h, 10, [Assignment(5, 100)], 0);
      var (h2, created) := Create(h1, 20, 1, 0, 2, 5, 0);
      && InOrder(h) && outcome == Done && NoDoubleBooking(h1.bookings)
      && created == Done && !NoDoubleBooking(h2.bookings)
  {
    var h, room := TwoProperties(false), [Assignment(5, 100)];
    TwoPropertiesInOrder(false);
    ForeignCheckInIsDone(false);
    CheckInDoubleBooksIff(h, 10, room, 0);
    assert 5 in UnitsIn(room) by { assert room[0].unit == 5; }
    ForeignUnitStays(h, 10, room, 0, 5);
    CheckInKeepsDates(h, 10, room, 0);
    UnitsKeepProperties(h, 10, room, 0);
    hide InOrder, HeldElsewhere, UnitsIn;
    OwnPropertyBooksAgain(CheckIn(h, 10, room, 0).0, 10, 5, 20);
  }
}
