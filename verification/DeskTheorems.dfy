/** What every front-desk operation keeps, and what whole runs of operations add up to. */
module DeskTheorems {
  import opened Rows
  import opened Inventory
  import opened Desk

  function PropertyOf(units: map<UnitId, Unit>): map<UnitId, PropertyId>
  {
    map u | u in units :: units[u].property
  }

  /** Booked, no-show: one room.  Cancelled: none.  In house, departed: at least one. */
  ghost predicate RoomsFitStatus(row: Reservation)
  {
    && row.status != Pending
    && (row.status == Confirmed || row.status == NoShow ==> exists u :: row.rooms.Keys == {u})
    && (row.status == Cancelled ==> row.rooms == map[])
    && (row.status == CheckedIn || row.status == CheckedOut ==> row.rooms.Keys != {})
  }

  ghost predicate BookingsInOrder(units: map<UnitId, PropertyId>, b: Bookings)
  {
    && NoDoubleBooking(b) && RoomsInProperty(units, b) && WellDated(b)
    && (forall r :: r in b ==> RoomsFitStatus(b[r]))
  }

  ghost predicate FolioFitsStatus(h: Hotel, r: ReservationId)
    requires r in h.bookings
  {
    && (h.bookings[r].status == CheckedIn <==> r in h.folios && h.folios[r].status == Open)
    && (h.bookings[r].status == CheckedOut <==> r in h.folios && h.folios[r].status == Settled)
    && (r in h.folios ==> h.folios[r].status != Void)
  }

  ghost predicate InOrder(h: Hotel)
  {
    && BookingsInOrder(PropertyOf(h.units), h.bookings)
    && h.folios.Keys <= h.bookings.Keys
    && (forall r :: r in h.bookings ==> FolioFitsStatus(h, r))
  }

  // ── One row changes ───────────────────────────────────────────────

  /** Replacing or adding a row whose units are free for its dates keeps the bookings in order. */
  lemma {:induction false} RowReplaced(units: map<UnitId, PropertyId>, b: Bookings,
                                       rid: ReservationId, row: Reservation)
    requires BookingsInOrder(units, b) && RoomsFitStatus(row) && row.checkIn < row.checkOut
    requires forall u :: u in row.rooms ==> u in units && units[u] == row.property
    requires row.Blocking() ==>
               row.rooms.Keys !! FindConflictingUnitIds(b, row.property, row.checkIn, row.checkOut,
                                                        Some(rid))
    ensures BookingsInOrder(units, b[rid := row])
  {
    FreeRowKeepsTable(units, b, rid, row);
    hide NoDoubleBooking, RoomsInProperty, WellDated, FindConflictingUnitIds;
    var b' := b[rid := row];
    forall r | r in b' ensures RoomsFitStatus(b'[r]) {}
  }

  /** An operation that touches one reservation's row and folio need only keep those fitting. */
  lemma {:induction false} OnlyOneRow(h: Hotel, h': Hotel, rid: ReservationId)
    requires InOrder(h) && rid in h'.bookings
    requires h'.bookings == h.bookings[rid := h'.bookings[rid]]
    requires h'.folios.Keys <= h.folios.Keys + {rid}
    requires forall r :: r in h.bookings && r != rid ==>
               (r in h'.folios <==> r in h.folios)
               && (r in h.folios ==> h'.folios[r] == h.folios[r])
    requires BookingsInOrder(PropertyOf(h'.units), h'.bookings) && FolioFitsStatus(h', rid)
    ensures InOrder(h')
  {
    forall r | r in h'.bookings ensures FolioFitsStatus(h', r) {
      if r != rid { assert FolioFitsStatus(h, r); }
    }
  }

  /** The form accepts exactly a unit of the property that is active and out of maintenance, for
      dates in order, with no other blocking reservation of the property on any night of them. */
  lemma {:induction false} FormAcceptsMeans(h: Hotel, editing: Option<ReservationId>,
                                            property: PropertyId, start: Day, end: Day, u: UnitId)
    ensures FormAccepts(h, editing, property, start, end, u) <==>
              && start < end && u in h.units && h.units[u].property == property
              && h.units[u].active && h.units[u].status != Maintenance
              && forall r :: r in h.bookings && editing != Some(r) && h.bookings[r].Blocking()
                             && h.bookings[r].property == property && u in h.bookings[r].rooms
                   ==> !h.bookings[r].Overlaps(start, end)
  {
  }

  /** The query that leaves a reservation out does not see that reservation's row. */
  lemma SameConflicts(b: Bookings, b': Bookings, rid: ReservationId, property: PropertyId,
                      start: Day, end: Day)
    requires b' == if rid in b' then b[rid := b'[rid]] else b - {rid}
    ensures FindConflictingUnitIds(b', property, start, end, Some(rid))
            == FindConflictingUnitIds(b, property, start, end, Some(rid))
    ensures rid !in b ==> FindConflictingUnitIds(b, property, start, end, Some(rid))
                          == FindConflictingUnitIds(b, property, start, end, None)
  {
    var was := FindConflictingUnitIds(b, property, start, end, Some(rid));
    var now := FindConflictingUnitIds(b', property, start, end, Some(rid));
    forall u ensures u in was <==> u in now {
      if u in was {
        var r :| r in b && u in b[r].rooms && Some(rid) != Some(r) && b[r].property == property
                 && b[r].Blocking() && b[r].Overlaps(start, end);
        assert b'[r] == b[r];
      }
      if u in now {
        var r :| r in b' && u in b'[r].rooms && Some(rid) != Some(r) && b'[r].property == property
                 && b'[r].Blocking() && b'[r].Overlaps(start, end);
        assert b'[r] == b[r];
      }
    }
  }

  /** A creation succeeds exactly for a fresh id that the form accepts: without other transactions
      in between, the locked check cannot fail after the form's.  It adds one CONFIRMED row with
      the one room; otherwise nothing changes. */
  lemma {:induction false} CreateEffect(h: Hotel, rid: ReservationId, property: PropertyId,
                                        start: Day, end: Day, u: UnitId, rate: Money)
    ensures
      var (h', outcome) := Create(h, rid, property, start, end, u, rate);
      && (outcome == Done <==>
            rid !in h.bookings && FormAccepts(h, None, property, start, end, u))
      && (outcome != Done ==> h' == h)
      && (outcome == Done ==>
            h' == h.(bookings := h.bookings[rid := Reservation(property, Confirmed, start, end,
                                                               map[u := Room(rate, None, None)])]))
  {
    var saved := h.bookings[rid := Reservation(property, Confirmed, start, end, map[])];
    if rid !in h.bookings && FormAccepts(h, None, property, start, end, u) {
      SameConflicts(h.bookings, saved, rid, property, start, end);
      hide FindConflictingUnitIds;
    }
  }

  lemma {:induction false} CreateKeepsOrder(h: Hotel, rid: ReservationId, property: PropertyId,
                                            start: Day, end: Day, u: UnitId, rate: Money)
    requires InOrder(h)
    ensures InOrder(Create(h, rid, property, start, end, u, rate).0)
  {
    var (h', outcome) := Create(h, rid, property, start, end, u, rate);
    CreateEffect(h, rid, property, start, end, u, rate);
    if outcome == Done {
      var row := Reservation(property, Confirmed, start, end, map[u := Room(rate, None, None)]);
      assert row.rooms.Keys == {u};
      SameConflicts(h.bookings, h.bookings, rid, property, start, end);
      RowReplaced(PropertyOf(h.units), h.bookings, rid, row);
      hide Create;
      OnlyOneRow(h, h', rid);
    }
  }

  lemma EditLeavesOneRoom(row: Reservation, u: UnitId, rate: Money)
    requires RoomsFitStatus(row) && Editable(row.status)
    ensures u in row.rooms ==> row.rooms.Keys == {u}
    ensures WithRate(map v | v in row.rooms && v == u :: row.rooms[v], u, rate).Keys == {u}
  {
    var w :| row.rooms.Keys == {w};
  }

  /** An edit is done whenever the reservation is editable and the form accepts it: the attach that
      follows cannot fail.  It leaves the new property and dates and one room, the wanted unit at
      the wanted rate; the units a no-show held and someone occupies become AVAILABLE. */
  lemma {:induction false} EditEffect(h: Hotel, rid: ReservationId, property: PropertyId,
                                      start: Day, end: Day, u: UnitId, rate: Money)
    requires rid in h.bookings && RoomsFitStatus(h.bookings[rid])
    requires Editable(h.bookings[rid].status)
    requires FormAccepts(h, Some(rid), property, start, end, u)
    ensures
      var (h', outcome) := Edit(h, rid, property, start, end, u, rate);
      && outcome == Done && rid in h'.bookings
      && h' == h.(units := h'.units, bookings := h.bookings[rid := h'.bookings[rid]])
      && h'.units == (if h.bookings[rid].status == NoShow
                      then Freed(h.units, h.bookings[rid].rooms.Keys) else h.units)
      && h'.bookings[rid] == Reservation(property, h.bookings[rid].status, start, end,
                                         h'.bookings[rid].rooms)
      && h'.bookings[rid].rooms.Keys == {u} && h'.bookings[rid].rooms[u].rate == rate
  {
    var row := h.bookings[rid].(property := property, checkIn := start, checkOut := end);
    var kept := row.(rooms := map v | v in row.rooms && v == u :: row.rooms[v]);
    assert u !in FindConflictingUnitIds(h.bookings[rid := kept], property, start, end,
                                        Some(rid)) by {
      SameConflicts(h.bookings, h.bookings[rid := kept], rid, property, start, end);
    }
    EditLeavesOneRoom(h.bookings[rid], u, rate);
    hide FindConflictingUnitIds, FormAccepts, RoomsFitStatus, Editable, Freed;
  }

  lemma HousekeepingKeepsProperty(units: map<UnitId, Unit>, us: set<UnitId>)
    ensures PropertyOf(Occupy(units, us)) == PropertyOf(units)
    ensures PropertyOf(Vacate(units, us)) == PropertyOf(units)
    ensures PropertyOf(Freed(units, us)) == PropertyOf(units)
  {
  }

  lemma {:induction false} EditKeepsOrder(h: Hotel, rid: ReservationId, property: PropertyId,
                                          start: Day, end: Day, u: UnitId, rate: Money)
    requires InOrder(h)
    ensures InOrder(Edit(h, rid, property, start, end, u, rate).0)
  {
    if rid in h.bookings && Editable(h.bookings[rid].status)
       && FormAccepts(h, Some(rid), property, start, end, u)
    {
      EditEffect(h, rid, property, start, end, u, rate);
      hide Edit;
      var h' := Edit(h, rid, property, start, end, u, rate).0;
      HousekeepingKeepsProperty(h.units, h.bookings[rid].rooms.Keys);
      RowReplaced(PropertyOf(h.units), h.bookings, rid, h'.bookings[rid]);
      assert FolioFitsStatus(h, rid);
      OnlyOneRow(h, h', rid);
    }
  }

  // ── Check-in ──────────────────────────────────────────────────────

  lemma {:induction false} AssignedRooms(rooms: map<UnitId, Room>, assignments: seq<Assignment>,
                                         now: Time)
    ensures Assigned(rooms, assignments, now).Keys == rooms.Keys + UnitsIn(assignments)
    ensures forall u :: u in UnitsIn(assignments) ==>
              Assigned(rooms, assignments, now)[u].arrived == Some(now)
    ensures forall u :: u in rooms && u !in UnitsIn(assignments) ==>
              Assigned(rooms, assignments, now)[u] == rooms[u]
    decreases |assignments|
  {
    if assignments != [] {
      var front, a := assignments[..|assignments| - 1], assignments[|assignments| - 1];
      AssignedRooms(rooms, front, now);
      assert UnitsIn(assignments) == UnitsIn(front) + {a.unit} by {
        forall u | u in UnitsIn(assignments) ensures u in UnitsIn(front) + {a.unit} {
          var i :| 0 <= i < |assignments| && assignments[i].unit == u;
          if i < |front| { assert front[i].unit == u; }
        }
        forall u | u in UnitsIn(front) ensures u in UnitsIn(assignments) {
          var i :| 0 <= i < |front| && front[i].unit == u;
          assert assignments[i].unit == u;
        }
      }
    }
  }

  /** A check-in succeeds exactly for a CONFIRMED reservation, at least one existing unit, and no
      unit held by another blocking reservation for overlapping dates of the property.  It then
      holds exactly the assigned units, with the arrival time, and has a folio. */
  lemma {:induction false} CheckInEffect(h: Hotel, rid: ReservationId,
                                         assignments: seq<Assignment>, now: Time)
    ensures
      var (h', outcome) := CheckIn(h, rid, assignments, now);
      && (outcome == Done <==>
            rid in h.bookings && h.bookings[rid].status == Confirmed && assignments != []
            && UnitsIn(assignments) <= h.units.Keys
            && forall r, u :: r in h.bookings && r != rid && h.bookings[r].Blocking()
                              && h.bookings[r].property == h.bookings[rid].property
                              && u in h.bookings[r].rooms && u in UnitsIn(assignments)
                 ==> !h.bookings[r].Overlaps(h.bookings[rid].checkIn, h.bookings[rid].checkOut))
      && (outcome != Done ==> h' == h)
      && (outcome == Done ==>
            && h'.bookings == h.bookings[rid := h'.bookings[rid]]
            && h'.bookings[rid].status == CheckedIn
            && h'.bookings[rid].rooms.Keys == UnitsIn(assignments)
            && (forall u :: u in h'.bookings[rid].rooms ==>
                  h'.bookings[rid].rooms[u].arrived == Some(now)
                  && h'.units[u].status == Occupied)
            && (forall u :: u in h.units && u !in UnitsIn(assignments) ==>
                  u in h'.units && h'.units[u] == h.units[u])
            && rid in h'.folios && (rid in h.folios ==> h'.folios == h.folios))
  {
    if rid in h.bookings {
      var row := h.bookings[rid];
      var taken := FindConflictingUnitIds(h.bookings, row.property, row.checkIn, row.checkOut,
                                          Some(rid));
      forall u
        ensures u in taken <==>
                exists r :: r in h.bookings && r != rid && h.bookings[r].Blocking()
                            && h.bookings[r].property == row.property && u in h.bookings[r].rooms
                            && h.bookings[r].Overlaps(row.checkIn, row.checkOut)
      {
        if r :| r in h.bookings && r != rid && h.bookings[r].Blocking()
                && h.bookings[r].property == row.property && u in h.bookings[r].rooms
                && h.bookings[r].Overlaps(row.checkIn, row.checkOut)
        {
          assert Some(rid) != Some(r);
        }
      }
      var kept := map u | u in row.rooms && u in UnitsIn(assignments) :: row.rooms[u];
      AssignedRooms(kept, assignments, now);
    }
  }

  lemma {:induction false} CheckInKeepsBookings(h: Hotel, rid: ReservationId,
                                                assignments: seq<Assignment>, now: Time)
    requires InOrder(h) && OwnUnits(h, DoCheckIn(rid, assignments, now))
    ensures BookingsInOrder(PropertyOf(h.units), CheckIn(h, rid, assignments, now).0.bookings)
  {
    var (h', outcome) := CheckIn(h, rid, assignments, now);
    if outcome == Done {
      var row := h'.bookings[rid];
      assert row.rooms.Keys == UnitsIn(assignments) by { CheckInEffect(h, rid, assignments, now); }
      assert assignments[0].unit in UnitsIn(assignments);
      RowReplaced(PropertyOf(h.units), h.bookings, rid, row);
    }
  }

  lemma {:induction false} CheckInKeepsOrder(h: Hotel, rid: ReservationId,
                                             assignments: seq<Assignment>, now: Time)
    requires InOrder(h) && OwnUnits(h, DoCheckIn(rid, assignments, now))
    ensures InOrder(CheckIn(h, rid, assignments, now).0)
  {
    var (h', outcome) := CheckIn(h, rid, assignments, now);
    CheckInKeepsBookings(h, rid, assignments, now);
    if outcome == Done {
      HousekeepingKeepsProperty(h.units, UnitsIn(assignments));
      assert FolioFitsStatus(h, rid);
      OnlyOneRow(h, h', rid);
    }
  }

  // ── Check-out ─────────────────────────────────────────────────────

  /** Where no unit is OCCUPIED any more, the signal's branch is not taken. */
  lemma {:induction false} SignalFindsNothing(c: Cleaners, order: seq<UnitId>)
    requires forall i :: 0 <= i < |order| && order[i] in c.units ==>
               c.units[order[i]].status != Occupied
    ensures OnCheckedOut(c, order) == c
    decreases |order|
  {
    if order != [] {
      SignalFindsNothing(c, order[..|order| - 1]);
    }
  }

  lemma NoSignal(h: Hotel, us: set<UnitId>)
    ensures
      var c := Cleaners(Vacate(h.units, us), h.tasks, h.nextTask);
      OnCheckedOut(c, Ordered(us)) == c
  {
    var order := Ordered(us);
    forall i | 0 <= i < |order| ensures order[i] in us { OrderedAt(us, i); }
    hide Ordered;
    SignalFindsNothing(Cleaners(Vacate(h.units, us), h.tasks, h.nextTask), order);
  }

  /** A check-out succeeds exactly for a CHECKED_IN reservation with no folio or a zero balance.
      Its OCCUPIED units go to CLEANING before the signal looks, so no housekeeping task is
      created. */
  lemma {:induction false} CheckOutEffect(h: Hotel, rid: ReservationId, now: Time)
    ensures
      var (h', outcome) := CheckOut(h, rid, now);
      && (outcome == Done <==>
            rid in h.bookings && h.bookings[rid].status == CheckedIn
            && (rid in h.folios ==>
                  TotalCharges(h.folios[rid].charges) == TotalPayments(h.folios[rid].payments)))
      && (outcome != Done ==> h' == h)
      && h'.tasks == h.tasks && h'.nextTask == h.nextTask
      && (outcome == Done ==>
            && h'.bookings == h.bookings[rid := h'.bookings[rid]]
            && h'.bookings[rid].status == CheckedOut
            && h'.bookings[rid].rooms.Keys == h.bookings[rid].rooms.Keys
            && (forall u :: u in h'.bookings[rid].rooms ==>
                  h'.bookings[rid].rooms[u] == h.bookings[rid].rooms[u].(departed := Some(now)))
            && h'.units == Vacate(h.units, h.bookings[rid].rooms.Keys)
            && (rid in h.folios ==>
                  h'.folios == h.folios[rid := h.folios[rid].(status := Settled,
                                                              settledAt := Some(now))])
            && (rid !in h.folios ==> h'.folios == h.folios))
  {
    hide OnCheckedOut, Ordered, Vacate, TotalCharges, TotalPayments;
    if rid in h.bookings { NoSignal(h, h.bookings[rid].rooms.Keys); }
  }

  lemma CheckOutKeepsDates(h: Hotel, rid: ReservationId, now: Time)
    requires CheckOut(h, rid, now).1 == Done
    ensures
      var was, row := h.bookings[rid], CheckOut(h, rid, now).0.bookings[rid];
      && row.property == was.property
      && row.checkIn == was.checkIn && row.checkOut == was.checkOut
  {
  }

  lemma {:induction false} CheckOutKeepsBookings(h: Hotel, rid: ReservationId, now: Time)
    requires InOrder(h)
    ensures BookingsInOrder(PropertyOf(h.units), CheckOut(h, rid, now).0.bookings)
  {
    var (h', outcome) := CheckOut(h, rid, now);
    CheckOutEffect(h, rid, now);
    hide CheckOut, NoDoubleBooking, FindConflictingUnitIds, FolioFitsStatus;
    if outcome == Done {
      var was, row := h.bookings[rid], h'.bookings[rid];
      CheckOutKeepsDates(h, rid, now);
      assert RoomsFitStatus(was) && RoomsFitStatus(row);
      hide RoomsFitStatus;
      RowReplaced(PropertyOf(h.units), h.bookings, rid, h'.bookings[rid]);
    }
  }

  lemma {:induction false} CheckOutSettles(h: Hotel, rid: ReservationId, now: Time)
    requires InOrder(h) && CheckOut(h, rid, now).1 == Done
    ensures
      var h' := CheckOut(h, rid, now).0;
      && rid in h'.bookings && FolioFitsStatus(h', rid)
      && h'.bookings == h.bookings[rid := h'.bookings[rid]]
      && h'.folios.Keys == h.folios.Keys
      && (forall r :: r in h.folios && r != rid ==> h'.folios[r] == h.folios[r])
      && PropertyOf(h'.units) == PropertyOf(h.units)
  {
    hide CheckOut, BookingsInOrder, Vacate, TotalCharges, TotalPayments;
    CheckOutEffect(h, rid, now);
    assert FolioFitsStatus(h, rid);
    HousekeepingKeepsProperty(h.units, h.bookings[rid].rooms.Keys);
  }

  lemma {:induction false} CheckOutKeepsOrder(h: Hotel, rid: ReservationId, now: Time)
    requires InOrder(h)
    ensures InOrder(CheckOut(h, rid, now).0)
  {
    if CheckOut(h, rid, now).1 == Done {
      CheckOutKeepsBookings(h, rid, now);
      CheckOutSettles(h, rid, now);
      hide CheckOut;
      OnlyOneRow(h, CheckOut(h, rid, now).0, rid);
    }
  }

  /** A row that does not block is as good as left out of the query. */
  lemma {:induction false} IdleRowIsUnseen(b: Bookings, rid: ReservationId, row: Reservation,
                                           property: PropertyId, start: Day, end: Day)
    requires rid in b && !row.Blocking()
    ensures FindConflictingUnitIds(b[rid := row], property, start, end, None)
            == FindConflictingUnitIds(b, property, start, end, Some(rid))
  {
    var b' := b[rid := row];
    forall u
      ensures u in FindConflictingUnitIds(b', property, start, end, None) <==>
              u in FindConflictingUnitIds(b, property, start, end, Some(rid))
    {
      if u in FindConflictingUnitIds(b', property, start, end, None) {
        var r :| r in b' && u in b'[r].rooms && b'[r].property == property && b'[r].Blocking()
                 && b'[r].Overlaps(start, end);
        assert b[r] == b'[r] && Some(rid) != Some(r);
      }
      if u in FindConflictingUnitIds(b, property, start, end, Some(rid)) {
        var r :| r in b && u in b[r].rooms && Some(rid) != Some(r) && b[r].property == property
                 && b[r].Blocking() && b[r].Overlaps(start, end);
        assert b'[r] == b[r];
      }
    }
  }

  /** A cancellation is refused exactly for guests in house or departed; otherwise the reservation
      keeps no room, nothing else changes, and the conflict query sees the others only. */
  lemma {:induction false} CancelFreesTheRooms(h: Hotel, rid: ReservationId)
    ensures
      var (h', outcome) := Cancel(h, rid);
      && (outcome == Done <==>
            rid in h.bookings && h.bookings[rid].status != CheckedIn
            && h.bookings[rid].status != CheckedOut)
      && (outcome != Done ==> h' == h)
      && (outcome == Done ==>
            && h' == h.(bookings := h.bookings[rid := h'.bookings[rid]])
            && h'.bookings[rid].status == Cancelled && h'.bookings[rid].rooms == map[]
            && forall property, start, end ::
                 FindConflictingUnitIds(h'.bookings, property, start, end, None)
                 == FindConflictingUnitIds(h.bookings, property, start, end, Some(rid)))
  {
    if Cancel(h, rid).1 == Done {
      forall property, start, end
        ensures FindConflictingUnitIds(Cancel(h, rid).0.bookings, property, start, end, None)
                == FindConflictingUnitIds(h.bookings, property, start, end, Some(rid))
      {
        IdleRowIsUnseen(h.bookings, rid, Cancel(h, rid).0.bookings[rid], property, start, end);
      }
    }
  }

  lemma {:induction false} CancelKeepsOrder(h: Hotel, rid: ReservationId)
    requires InOrder(h)
    ensures InOrder(Cancel(h, rid).0)
  {
    var (h', outcome) := Cancel(h, rid);
    if outcome == Done {
      assert WellDated(h.bookings);
      RowReplaced(PropertyOf(h.units), h.bookings, rid, h'.bookings[rid]);
      assert FolioFitsStatus(h, rid);
      OnlyOneRow(h, h', rid);
    }
  }

  // ── Night audit ───────────────────────────────────────────────────

  lemma NoShowFits(row: Reservation)
    requires RoomsFitStatus(row) && row.status == Confirmed
    ensures RoomsFitStatus(row.(status := NoShow))
  {
  }

  lemma {:induction false} NoShowsKeepOrder(units: map<UnitId, PropertyId>, b: Bookings,
                                            property: PropertyId, today: Day)
    requires BookingsInOrder(units, b)
    ensures BookingsInOrder(units, NoShows(b, property, today))
  {
    hide NoDoubleBooking, RoomsInProperty, WellDated, RoomsFitStatus;
    NoShowsKeepTable(units, b, property, today);
    var b' := NoShows(b, property, today);
    forall r | r in b' ensures RoomsFitStatus(b'[r]) {
      if b'[r] != b[r] { NoShowFits(b[r]); }
    }
  }

  lemma {:induction false} AuditKeepsOrder(h: Hotel, property: PropertyId, today: Day)
    requires InOrder(h)
    ensures InOrder(NightAudit(h, property, today))
  {
    var h' := NightAudit(h, property, today);
    NoShowsKeepOrder(PropertyOf(h.units), h.bookings, property, today);
    forall r | r in h'.bookings ensures FolioFitsStatus(h', r) {
      assert FolioFitsStatus(h, r);
    }
  }

  lemma {:induction false} FolioRowsKeepOrder(h: Hotel, rid: ReservationId, f: Folio)
    requires InOrder(h) && rid in h.folios && f.status == h.folios[rid].status
    ensures InOrder(h.(folios := h.folios[rid := f]))
  {
    var h' := h.(folios := h.folios[rid := f]);
    forall r | r in h'.bookings ensures FolioFitsStatus(h', r) {
      assert FolioFitsStatus(h, r);
    }
  }

  lemma {:induction false} ApplyKeepsOrder(h: Hotel, op: DeskOp)
    requires InOrder(h) && OwnUnits(h, op)
    ensures InOrder(Apply(h, op).0)
  {
    hide InOrder, Create, Edit, CheckIn, CheckOut, Cancel, NightAudit;
    match op
    case DoCreate(rid, p, start, end, u, rate) => CreateKeepsOrder(h, rid, p, start, end, u, rate);
    case DoEdit(rid, p, start, end, u, rate) => EditKeepsOrder(h, rid, p, start, end, u, rate);
    case DoCheckIn(rid, assignments, now) => CheckInKeepsOrder(h, rid, assignments, now);
    case DoCheckOut(rid, now) => CheckOutKeepsOrder(h, rid, now);
    case DoCancel(rid) => CancelKeepsOrder(h, rid);
    case DoAudit(p, today) => AuditKeepsOrder(h, p, today);
    case DoCharge(rid, kind, amount, user) =>
      if rid in h.folios {
        FolioRowsKeepOrder(h, rid, Post(h.folios[rid], [Charge(kind, amount, Some(user))]));
      }
    case DoPayment(rid, payment) =>
      if rid in h.folios {
        var f := h.folios[rid];
        FolioRowsKeepOrder(h, rid, f.(payments := f.payments + [payment]));
      }
  }

  /** Main theorem: in every state a run of operations reaches, CHECKED_IN is the same as an OPEN
      folio and CHECKED_OUT as a SETTLED one, both hold a room, and no unit is double-booked. */
  lemma {:induction false} RunsStayInOrder(h: Hotel, ops: seq<DeskOp>)
    requires InOrder(h) && RunsWithOwnUnits(h, ops)
    ensures InOrder(Run(h, ops))
    decreases |ops|
  {
    if ops != [] {
      ApplyKeepsOrder(h, ops[0]);
      RunsStayInOrder(Apply(h, ops[0]).0, ops[1..]);
    }
  }

  /** In particular from a hotel that has no reservation yet. */
  lemma {:induction false} ReachableInOrder(h: Hotel, ops: seq<DeskOp>)
    requires h.bookings == map[] && h.folios == map[] && RunsWithOwnUnits(h, ops)
    ensures InOrder(Run(h, ops))
  {
    RunsStayInOrder(h, ops);
  }

  // ── Departure is final and paid ───────────────────────────────────

  lemma {:induction false} CheckedOutIsAbsorbing(h: Hotel, op: DeskOp, rid: ReservationId)
    requires rid in h.bookings && h.bookings[rid].status == CheckedOut
    ensures rid in Apply(h, op).0.bookings && Apply(h, op).0.bookings[rid] == h.bookings[rid]
  {
    if op.DoCheckIn? { CheckInEffect(h, op.rid, op.assignments, op.now); }
    if op.DoCheckOut? { CheckOutEffect(h, op.rid, op.now); }
    if op.DoCreate? {
      var saved := h.bookings[op.rid := Reservation(op.property, Confirmed, op.start, op.end,
                                                    map[])];
      assert op.rid !in h.bookings ==> saved - {op.rid} == h.bookings;
    }
  }

  /** Once departed, the reservation's row never changes again, whatever is done afterwards. */
  lemma {:induction false} DepartureIsFinal(h: Hotel, ops: seq<DeskOp>, rid: ReservationId)
    requires rid in h.bookings && h.bookings[rid].status == CheckedOut
    ensures rid in Run(h, ops).bookings && Run(h, ops).bookings[rid] == h.bookings[rid]
    decreases |ops|
  {
    if ops != [] {
      CheckedOutIsAbsorbing(h, ops[0], rid);
      DepartureIsFinal(Apply(h, ops[0]).0, ops[1..], rid);
    }
  }

  lemma {:induction false} OnlyCheckOutDeparts(h: Hotel, op: DeskOp, rid: ReservationId)
    requires rid in Apply(h, op).0.bookings && Apply(h, op).0.bookings[rid].status == CheckedOut
    requires rid in h.bookings && h.bookings[rid].status != CheckedOut
    ensures op.DoCheckOut? && op.rid == rid
  {
    hide CheckIn, CheckOut, FormAccepts, FindConflictingUnitIds, RoomCharges;
    match op
    case DoCheckIn(r, assignments, now) => CheckInEffect(h, r, assignments, now);
    case DoCheckOut(r, now) => CheckOutEffect(h, r, now);
    case _ =>
  }

  /** The only way out of the house is a check-out with a zero balance. */
  lemma {:induction false} DepartureIsPaid(h: Hotel, op: DeskOp, rid: ReservationId)
    requires InOrder(h) && rid in h.bookings && h.bookings[rid].status != CheckedOut
    requires rid in Apply(h, op).0.bookings && Apply(h, op).0.bookings[rid].status == CheckedOut
    ensures op.DoCheckOut? && op.rid == rid && h.bookings[rid].status == CheckedIn
    ensures rid in h.folios && Balance(h.folios[rid]) == 0
    ensures rid in Apply(h, op).0.folios && Balance(Apply(h, op).0.folios[rid]) == 0
  {
    OnlyCheckOutDeparts(h, op, rid);
    CheckOutEffect(h, rid, op.now);
    assert FolioFitsStatus(h, rid);
  }
}
