/** The front desk as the services run it: the tables are fields, the services update them row by
    row, and each is proved against its Desk function. */
module FrontDesk {
  import opened Rows
  import opened Inventory
  import opened Desk
  import opened DeskTheorems

  /** The room charges one audit posts for the reservations listed. */
  function ChargesPosted(h: Hotel, property: PropertyId, order: seq<ReservationId>): nat
  {
    if order == [] then 0
    else
      var r := order[|order| - 1];
      ChargesPosted(h, property, order[..|order| - 1])
      + (if Posts(h, r, property) then |h.bookings[r].rooms.Keys| else 0)
  }

  function InHouseIds(h: Hotel, property: PropertyId): set<ReservationId>
  {
    set r | r in h.bookings && InHouse(h, r, property)
  }

  predicate OpenFolio(folios: map<ReservationId, Folio>, r: ReservationId)
  {
    r in folios && folios[r].status == Open
  }

  /** The folios once the reservations in `done` have been visited. */
  function FoliosAfter(h: Hotel, property: PropertyId, done: set<ReservationId>)
    : map<ReservationId, Folio>
  {
    map r | r in h.folios ::
      if r in done && Posts(h, r, property)
      then Post(h.folios[r], RoomCharges(h.bookings[r].rooms)) else h.folios[r]
  }

  lemma FoliosAfterOne(h: Hotel, property: PropertyId, done: set<ReservationId>, r: ReservationId)
    requires r !in done
    ensures r in FoliosAfter(h, property, done) <==> r in h.folios
    ensures r in h.folios ==> FoliosAfter(h, property, done)[r] == h.folios[r]
    ensures Posts(h, r, property) ==>
              FoliosAfter(h, property, done + {r})
                 == FoliosAfter(h, property, done)[r := Post(h.folios[r],
                                                             RoomCharges(h.bookings[r].rooms))]
    ensures !Posts(h, r, property) ==>
              FoliosAfter(h, property, done + {r}) == FoliosAfter(h, property, done)
  {
  }

  lemma PostPrefix(f: Folio, charges: seq<Charge>, j: nat)
    requires j <= |charges|
    ensures Post(f, charges[..0]) == f
    ensures j < |charges| ==>
              Post(Post(f, charges[..j]), [charges[j]]) == Post(f, charges[..j + 1])
  {
    assert f.charges + charges[..0] == f.charges;
    if j < |charges| {
      assert f.charges + charges[..j] + [charges[j]] == f.charges + charges[..j + 1];
    }
  }

  lemma ChargesPostedGrows(h: Hotel, property: PropertyId, order: seq<ReservationId>, i: nat)
    requires i < |order|
    ensures ChargesPosted(h, property, order[..i + 1])
            == ChargesPosted(h, property, order[..i])
               + (if Posts(h, order[i], property) then |h.bookings[order[i]].rooms.Keys| else 0)
  {
    assert order[..i + 1][..i] == order[..i];
  }

  /** The next reservation of the posting loop. */
  lemma NextInHouse(h: Hotel, property: PropertyId, i: nat)
    requires i < |Ordered(InHouseIds(h, property))|
    ensures
      var order := Ordered(InHouseIds(h, property));
      var r, before := order[i], FoliosAfter(h, property, Visited(order, i));
      && r in h.bookings
      && FoliosAfter(h, property, Visited(order, i + 1))
         == (if OpenFolio(before, r)
             then before[r := Post(before[r], RoomCharges(h.bookings[r].rooms))] else before)
      && ChargesPosted(h, property, order[..i + 1])
         == ChargesPosted(h, property, order[..i])
            + (if OpenFolio(before, r) then |h.bookings[r].rooms.Keys| else 0)
  {
    hide Visited, RoomCharges, FoliosAfter, ChargesPosted, Ordered, Post;
    var order := Ordered(InHouseIds(h, property));
    VisitOne(InHouseIds(h, property), i);
    ChargesPostedGrows(h, property, order, i);
    FoliosAfterOne(h, property, Visited(order, i), order[i]);
  }

  lemma FoliosBefore(h: Hotel, property: PropertyId, order: seq<nat>)
    ensures Visited(order, 0) == {} && FoliosAfter(h, property, {}) == h.folios
    ensures order[..0] == [] && ChargesPosted(h, property, order[..0]) == 0
  {
  }

  lemma FoliosAfterAll(h: Hotel, property: PropertyId)
    ensures FoliosAfter(h, property, InHouseIds(h, property))
            == FoliosAfter(h, property, h.bookings.Keys)
  {
  }

  lemma AuditIsBoth(h: Hotel, property: PropertyId, today: Day)
    ensures NightAudit(h, property, today)
            == h.(folios := FoliosAfter(h, property, h.bookings.Keys),
                  bookings := NoShows(h.bookings, property, today))
  {
  }

  lemma NoneVisited(order: seq<nat>, rooms: map<UnitId, Room>, units: map<UnitId, Unit>,
                    now: Time)
    ensures Visited(order, 0) == {}
    ensures Departed(rooms, {}, now) == rooms && Vacate(units, {}) == units
  {
  }

  lemma DepartedTwice(rooms: map<UnitId, Room>, now: Time)
    ensures Departed(rooms, rooms.Keys, now).Keys == rooms.Keys
    ensures Departed(Departed(rooms, rooms.Keys, now), rooms.Keys, now)
            == Departed(rooms, rooms.Keys, now)
  {
  }

  lemma DepartOne(rooms: map<UnitId, Room>, done: set<UnitId>, u: UnitId, now: Time)
    requires u in rooms
    ensures u in Departed(rooms, done, now)
    ensures Departed(rooms, done + {u}, now)
            == Departed(rooms, done, now)[u := Departed(rooms, done, now)[u].(
                                            departed := Some(now))]
  {
  }

  /** The rows the check-out loop over rooms may change. */
  datatype Occupancy = Occupancy(bookings: Bookings, units: map<UnitId, Unit>)

  function Released(o: Occupancy, rid: ReservationId, us: set<UnitId>, now: Time)
    : (r: Occupancy)
    requires rid in o.bookings
    ensures rid in r.bookings
    ensures r.bookings[rid].rooms.Keys == o.bookings[rid].rooms.Keys && r.units.Keys == o.units.Keys
  {
    var row := o.bookings[rid];
    Occupancy(o.bookings[rid := row.(rooms := Departed(row.rooms, us, now))],
              Vacate(o.units, us))
  }

  lemma ReleasedNone(o: Occupancy, rid: ReservationId, now: Time)
    requires rid in o.bookings
    ensures Released(o, rid, {}, now) == o
  {
    NoneVisited([], o.bookings[rid].rooms, o.units, now);
  }

  lemma ReleasedGrows(o: Occupancy, rid: ReservationId, us: set<UnitId>, u: UnitId, now: Time)
    requires rid in o.bookings
    ensures Released(Released(o, rid, us, now), rid, {u}, now) == Released(o, rid, us + {u}, now)
  {
    var rooms := o.bookings[rid].rooms;
    assert Departed(Departed(rooms, us, now), {u}, now) == Departed(rooms, us + {u}, now);
    assert Vacate(Vacate(o.units, us), {u}) == Vacate(o.units, us + {u});
  }

  lemma FreedMore(units: map<UnitId, Unit>, us: set<UnitId>, u: UnitId)
    ensures Freed(Freed(units, us), {u}) == Freed(units, us + {u})
  {
  }

  lemma SignalGrows(c: Cleaners, order: seq<UnitId>, i: nat)
    requires i < |order|
    ensures OnCheckedOut(c, order[..i + 1]) == SignalRoom(OnCheckedOut(c, order[..i]), order[i])
  {
    assert order[..i + 1][..i] == order[..i];
  }

  /** Stamping one more room of the row. */
  lemma RowDepartOne(b: Bookings, rid: ReservationId, row: Reservation, done: set<UnitId>,
                     u: UnitId, now: Time)
    requires u in row.rooms
    ensures
      var before := b[rid := row.(rooms := Departed(row.rooms, done, now))];
      && u in before[rid].rooms
      && before[rid := before[rid].(rooms := before[rid].rooms[u := before[rid].rooms[u].(
                                                departed := Some(now))])]
         == b[rid := row.(rooms := Departed(row.rooms, done + {u}, now))]
  {
    DepartOne(row.rooms, done, u, now);
    hide Departed;
  }

  lemma {:induction false} UnitsInGrows(assignments: seq<Assignment>, i: nat)
    requires i < |assignments|
    ensures UnitsIn(assignments[..i + 1]) == UnitsIn(assignments[..i]) + {assignments[i].unit}
    ensures assignments[i].unit in UnitsIn(assignments)
  {
  }

  lemma AssignedGrows(rooms: map<UnitId, Room>, assignments: seq<Assignment>, i: nat, now: Time)
    requires i < |assignments|
    ensures Assigned(rooms, assignments[..i + 1], now)
            == Assigned(Assigned(rooms, assignments[..i], now), [assignments[i]], now)
  {
    assert assignments[..i + 1][..i] == assignments[..i];
    assert [assignments[i]][..0] == [];
  }

  lemma OccupyMore(units: map<UnitId, Unit>, us: set<UnitId>, u: UnitId)
    ensures Occupy(Occupy(units, us), {u}) == Occupy(units, us + {u})
  {
  }

  class HotelDb {
    var units: map<UnitId, Unit>
    var bookings: Bookings
    var folios: map<ReservationId, Folio>
    var tasks: map<TaskId, Task>
    var nextTask: TaskId

    function Rows(): Hotel
      reads this
    {
      Hotel(units, bookings, folios, tasks, nextTask)
    }

    function CleanerRows(): Cleaners
      reads this`units, this`tasks, this`nextTask
    {
      Cleaners(units, tasks, nextTask)
    }

    function OccupancyRows(): Occupancy
      reads this`bookings, this`units
    {
      Occupancy(bookings, units)
    }

    constructor (h: Hotel)
      ensures Rows() == h
    {
      units, bookings, folios, tasks, nextTask := h.units, h.bookings, h.folios, h.tasks, h.nextTask;
    }

    /** Roll back to a savepoint. */
    method Restore(h: Hotel)
      modifies this
      ensures Rows() == h
    {
      units, bookings, folios, tasks, nextTask := h.units, h.bookings, h.folios, h.tasks, h.nextTask;
    }

    method Attach(rid: ReservationId, u: UnitId, rate: Money) returns (attached: bool)
      requires rid in bookings
      modifies this`bookings
      ensures attached == AttachUnit(old(bookings), rid, u, rate).Some?
      ensures attached ==> bookings == AttachUnit(old(bookings), rid, u, rate).value
      ensures !attached ==> bookings == old(bookings)
    {
      var row := bookings[rid];
      var conflicting := FindConflictingUnitIds(bookings, row.property, row.checkIn, row.checkOut,
                                                Some(rid));
      if u in conflicting {
        return false;
      }
      if u in row.rooms {
        bookings := bookings[rid := row.(rooms := row.rooms[u := row.rooms[u].(rate := rate)])];
      } else {
        bookings := bookings[rid := row.(rooms := row.rooms[u := Room(rate, None, None)])];
      }
      attached := true;
    }

    method CreateReservation(rid: ReservationId, property: PropertyId, start: Day, end: Day,
                             u: UnitId, rate: Money)
      returns (outcome: Outcome)
      modifies this
      ensures (Rows(), outcome) == Create(old(Rows()), rid, property, start, end, u, rate)
    {
      if rid in bookings || !FormAccepts(Rows(), None, property, start, end, u) {
        return Invalid;
      }
      bookings := bookings[rid := Reservation(property, Confirmed, start, end, map[])];
      var attached := Attach(rid, u, rate);
      if !attached {
        bookings := bookings - {rid};
        return UnitTaken;
      }
      outcome := Done;
    }

    method FreeUnit(u: UnitId)
      requires u in units
      modifies this`units
      ensures units == Freed(old(units), {u}) && units.Keys == old(units).Keys
    {
      if units[u].status == Occupied {
        units := units[u := units[u].(status := Available)];
      }
      assert units == Freed(old(units), {u});
    }

    /** The post_save receiver, for a reservation saved as a no-show. */
    method OnReservationNoShow(rid: ReservationId)
      requires rid in bookings && bookings[rid].rooms.Keys <= units.Keys
      modifies this`units
      ensures units == Freed(old(units), bookings[rid].rooms.Keys)
    {
      ghost var was := units;
      var ids := bookings[rid].rooms.Keys;
      var order := Ordered(ids);
      assert Freed(was, Visited(order, 0)) == was;
      hide *;
      for i := 0 to |order|
        invariant units == Freed(was, Visited(order, i)) && ids <= units.Keys
      {
        VisitOne(ids, i);
        FreedMore(was, Visited(order, i), order[i]);
        FreeUnit(order[i]);
      }
      VisitAll(ids);
    }

    method EditReservation(rid: ReservationId, property: PropertyId, start: Day, end: Day,
                           u: UnitId, rate: Money)
      returns (outcome: Outcome)
      requires rid in bookings ==> bookings[rid].rooms.Keys <= units.Keys
      modifies this
      ensures (Rows(), outcome) == Edit(old(Rows()), rid, property, start, end, u, rate)
    {
      if rid !in bookings || !Editable(bookings[rid].status) {
        return NotFound;
      }
      if !FormAccepts(Rows(), Some(rid), property, start, end, u) {
        return Invalid;
      }
      var row := bookings[rid].(property := property, checkIn := start, checkOut := end);
      bookings := bookings[rid := row];
      if row.status == NoShow {
        OnReservationNoShow(rid);
      }
      hide Freed, FormAccepts, Editable;
      if u in row.rooms && row.rooms[u].rate == rate {
        return Done;
      }
      var kept := map v | v in row.rooms && v == u :: row.rooms[v];
      bookings := bookings[rid := row.(rooms := kept)];
      assert bookings == old(bookings)[rid := row.(rooms := kept)];
      var attached := Attach(rid, u, rate);
      outcome := if attached then Done else UnitTaken;
    }

    /** Locks, checks and writes one assignment. */
    method AssignRoom(rid: ReservationId, a: Assignment, now: Time) returns (held: bool)
      requires rid in bookings && a.unit in units
      modifies this`bookings, this`units
      ensures
        var row := old(bookings)[rid];
        held <==> a.unit !in FindConflictingUnitIds(old(bookings), row.property, row.checkIn,
                                                        row.checkOut, Some(rid))
      ensures held ==> bookings == old(bookings)[rid := old(bookings)[rid].(
                             rooms := Assigned(old(bookings)[rid].rooms, [a], now))]
      ensures held ==> units == Occupy(old(units), {a.unit})
    {
      var row := bookings[rid];
      var conflicts := FindConflictingUnitIds(bookings, row.property, row.checkIn, row.checkOut,
                                              Some(rid));
      if a.unit in conflicts {
        return false;
      }
      var departed := if a.unit in row.rooms then row.rooms[a.unit].departed else None;
      bookings := bookings[rid := row.(rooms := row.rooms[a.unit := Room(a.rate, Some(now),
                                                                         departed)])];
      assert [a][..0] == [];
      units := units[a.unit := units[a.unit].(status := Occupied)];
      held := true;
    }

    /** Drops the rooms not assigned, then locks, checks and writes each assignment; a conflict
        rolls everything back. */
    method CheckInReservation(rid: ReservationId, assignments: seq<Assignment>, now: Time)
      returns (outcome: Outcome)
      modifies this
      ensures (Rows(), outcome) == CheckIn(old(Rows()), rid, assignments, now)
    {
      if rid !in bookings || !(UnitsIn(assignments) <= units.Keys) {
        return NotFound;
      }
      var row := bookings[rid];
      if row.status != Confirmed {
        return WrongStatus;
      }
      if assignments == [] {
        return NothingAssigned;
      }
      var savepoint := Rows();
      var kept := map u | u in row.rooms && u in UnitsIn(assignments) :: row.rooms[u];
      ghost var taken := FindConflictingUnitIds(bookings, row.property, row.checkIn, row.checkOut,
                                                Some(rid));
      bookings := bookings[rid := row.(rooms := kept)];
      assert assignments[..0] == [] && Occupy(units, {}) == units;
      for i := 0 to |assignments|
        invariant bookings
                  == old(bookings)[rid := row.(rooms := Assigned(kept, assignments[..i], now))]
        invariant units == Occupy(old(units), UnitsIn(assignments[..i]))
        invariant folios == old(folios) && tasks == old(tasks) && nextTask == old(nextTask)
        invariant UnitsIn(assignments[..i]) !! taken
      {
        UnitsInGrows(assignments, i);
        AssignedGrows(kept, assignments, i, now);
        OccupyMore(old(units), UnitsIn(assignments[..i]), assignments[i].unit);
        SameConflicts(old(bookings), bookings, rid, row.property, row.checkIn, row.checkOut);
        var held := AssignRoom(rid, assignments[i], now);
        if !held {
          Restore(savepoint);
          return UnitTaken;
        }
      }
      assert assignments[..|assignments|] == assignments;
      bookings := bookings[rid := bookings[rid].(status := CheckedIn)];
      assert bookings == old(bookings)[rid := row.(status := CheckedIn,
                                                   rooms := Assigned(kept, assignments, now))];
      if rid !in folios {
        folios := folios[rid := NewFolio()];
      }
      outcome := Done;
    }

    method MarkForCleaning(u: UnitId)
      modifies this`units, this`tasks, this`nextTask
      ensures CleanerRows() == SignalRoom(old(CleanerRows()), u)
    {
      if u in units && units[u].status == Occupied {
        units := units[u := units[u].(status := Cleaning)];
        tasks := tasks[nextTask := Task(u, CheckoutClean, TaskPending, None, None, None)];
        nextTask := nextTask + 1;
      }
    }

    method StampDeparture(rid: ReservationId, u: UnitId, now: Time)
      requires rid in bookings && u in bookings[rid].rooms
      modifies this`bookings
      ensures
        var row := old(bookings)[rid];
        bookings == old(bookings)[rid := row.(
                      rooms := row.rooms[u := row.rooms[u].(departed := Some(now))])]
    {
      var row := bookings[rid];
      var room := row.rooms[u].(departed := Some(now));
      bookings := bookings[rid := row.(rooms := row.rooms[u := room])];
    }

    method SignalOneRoom(rid: ReservationId, u: UnitId, now: Time)
      requires rid in bookings && u in bookings[rid].rooms
      modifies this
      ensures CleanerRows() == SignalRoom(old(CleanerRows()), u) && folios == old(folios)
      ensures
        var row := old(bookings)[rid];
        bookings == old(bookings)[rid := row.(
                      rooms := row.rooms[u := row.rooms[u].(departed := Some(now))])]
    {
      MarkForCleaning(u);
      StampDeparture(rid, u, now);
    }

    /** The post_save receiver, for a reservation saved as checked out. */
    method OnReservationCheckedOut(rid: ReservationId, now: Time)
      requires rid in bookings
      modifies this
      ensures CleanerRows() == OnCheckedOut(old(CleanerRows()),
                                            Ordered(old(bookings)[rid].rooms.Keys))
      ensures folios == old(folios)
      ensures bookings == old(bookings)[rid := old(bookings)[rid].(
                            rooms := Departed(old(bookings)[rid].rooms,
                                              old(bookings)[rid].rooms.Keys, now))]
    {
      var row := bookings[rid];
      var order := Ordered(row.rooms.Keys);
      NoneVisited(order, row.rooms, units, now);
      assert CleanerRows() == OnCheckedOut(CleanerRows(), order[..0]);
      hide *;
      ghost var cleaners := CleanerRows();
      for i := 0 to |order|
        invariant CleanerRows() == OnCheckedOut(cleaners, order[..i])
        invariant folios == old(folios)
        invariant bookings == old(bookings)[rid := row.(
                                rooms := Departed(row.rooms, Visited(order, i), now))]
      {
        VisitOne(row.rooms.Keys, i);
        RowDepartOne(old(bookings), rid, row, Visited(order, i), order[i], now);
        SignalGrows(cleaners, order, i);
        SignalOneRoom(rid, order[i], now);
      }
      VisitAll(row.rooms.Keys);
      assert order[..|order|] == order;
    }

    method SettleFolio(rid: ReservationId, now: Time)
      modifies this`folios
      ensures folios == if rid in old(folios)
                        then old(folios)[rid := old(folios)[rid].(status := Settled,
                                                                  settledAt := Some(now))]
                        else old(folios)
    {
      if rid in folios {
        folios := folios[rid := folios[rid].(status := Settled, settledAt := Some(now))];
      }
    }

    method ReleaseRoom(rid: ReservationId, u: UnitId, now: Time)
      requires rid in bookings && u in bookings[rid].rooms && u in units
      modifies this`bookings, this`units
      ensures OccupancyRows() == Released(old(OccupancyRows()), rid, {u}, now)
      ensures rid in bookings && bookings[rid].rooms.Keys == old(bookings)[rid].rooms.Keys
      ensures units.Keys == old(units).Keys
    {
      var rooms := bookings[rid].rooms;
      StampDeparture(rid, u, now);
      if units[u].status == Occupied {
        units := units[u := units[u].(status := Cleaning)];
      }
      assert Departed(rooms, {u}, now) == rooms[u := rooms[u].(departed := Some(now))];
      assert units == Vacate(old(units), {u});
    }

    /** Stamps every room's departure and flips its unit from OCCUPIED to CLEANING. */
    method ReleaseRooms(rid: ReservationId, now: Time)
      requires rid in bookings && bookings[rid].rooms.Keys <= units.Keys
      modifies this`bookings, this`units
      ensures OccupancyRows()
              == Released(old(OccupancyRows()), rid, old(bookings)[rid].rooms.Keys, now)
    {
      ghost var start := OccupancyRows();
      var ids := bookings[rid].rooms.Keys;
      var order := Ordered(ids);
      ReleasedNone(start, rid, now);
      assert Visited(order, 0) == {};
      hide *;
      for i := 0 to |order|
        invariant rid in bookings && OccupancyRows() == Released(start, rid, Visited(order, i), now)
        invariant bookings[rid].rooms.Keys == ids <= units.Keys
      {
        VisitOne(ids, i);
        ReleasedGrows(start, rid, Visited(order, i), order[i], now);
        ReleaseRoom(rid, order[i], now);
      }
      VisitAll(ids);
    }

    method CheckOutReservation(rid: ReservationId, now: Time) returns (outcome: Outcome)
      requires rid in bookings ==> bookings[rid].rooms.Keys <= units.Keys
      modifies this
      ensures (Rows(), outcome) == CheckOut(old(Rows()), rid, now)
    {
      if rid !in bookings {
        return NotFound;
      }
      var row := bookings[rid];
      if row.status != CheckedIn {
        return WrongStatus;
      }
      if rid in folios && Balance(folios[rid]) != 0 {
        return Outstanding;
      }
      SettleFolio(rid, now);
      ReleaseRooms(rid, now);
      bookings := bookings[rid := bookings[rid].(status := CheckedOut)];
      ghost var left := Departed(row.rooms, row.rooms.Keys, now);
      DepartedTwice(row.rooms, now);
      hide Departed, Vacate, OnCheckedOut, Balance;
      assert bookings == old(bookings)[rid := row.(status := CheckedOut, rooms := left)];
      OnReservationCheckedOut(rid, now);
      assert bookings == old(bookings)[rid := row.(status := CheckedOut, rooms := left)];
      outcome := Done;
    }

    method CancelReservation(rid: ReservationId) returns (outcome: Outcome)
      modifies this
      ensures (Rows(), outcome) == Cancel(old(Rows()), rid)
    {
      if rid !in bookings {
        return NotFound;
      }
      if bookings[rid].status == CheckedIn || bookings[rid].status == CheckedOut {
        return WrongStatus;
      }
      bookings := bookings[rid := bookings[rid].(rooms := map[])];
      bookings := bookings[rid := bookings[rid].(status := Cancelled)];
      assert bookings
             == old(bookings)[rid := old(bookings)[rid].(status := Cancelled, rooms := map[])];
      outcome := Done;
    }

    /** The inner loop: one folio's rooms. */
    method PostRooms(r: ReservationId, before: nat) returns (posted: nat)
      requires r in bookings && r in folios
      modifies this`folios
      ensures folios == old(folios)[r := Post(old(folios)[r], RoomCharges(bookings[r].rooms))]
      ensures posted == before + |bookings[r].rooms.Keys|
    {
      var order := Ordered(bookings[r].rooms.Keys);
      ghost var was, charges := folios[r], RoomCharges(bookings[r].rooms);
      posted := before;
      PostPrefix(was, charges, 0);
      assert |charges| == |order|;
      hide Ordered, Post;
      for j := 0 to |order|
        invariant posted == before + j
        invariant folios == old(folios)[r := Post(was, charges[..j])]
      {
        var u := order[j];
        OrderedAt(bookings[r].rooms.Keys, j);
        PostPrefix(was, charges, j);
        folios := folios[r := Post(folios[r],
                                   [Charge(RoomCharge, bookings[r].rooms[u].rate, None)])];
        posted := posted + 1;
      }
      assert charges[..|order|] == charges;
    }

    /** Nothing without a folio or when it is not open. */
    method PostFolio(r: ReservationId, before: nat) returns (posted: nat)
      requires r in bookings
      modifies this`folios
      ensures folios == if OpenFolio(old(folios), r)
                        then old(folios)[r := Post(old(folios)[r], RoomCharges(bookings[r].rooms))]
                        else old(folios)
      ensures posted == before + (if OpenFolio(old(folios), r) then |bookings[r].rooms.Keys| else 0)
    {
      posted := before;
      if r in folios && folios[r].status == Open {
        posted := PostRooms(r, posted);
      }
    }

    /** The posting loop: every in-house reservation with an open folio. */
    method PostInHouse(property: PropertyId) returns (posted: nat)
      modifies this`folios
      ensures folios == FoliosAfter(old(Rows()), property, bookings.Keys)
      ensures posted == ChargesPosted(old(Rows()), property,
                                      Ordered(InHouseIds(old(Rows()), property)))
    {
      ghost var h := Rows();
      var order := Ordered(InHouseIds(Rows(), property));
      posted := 0;
      FoliosBefore(h, property, order);
      assert bookings == h.bookings;
      hide *;
      for i := 0 to |order|
        invariant posted == ChargesPosted(h, property, order[..i])
        invariant folios == FoliosAfter(h, property, Visited(order, i))
      {
        NextInHouse(h, property, i);
        posted := PostFolio(order[i], posted);
      }
      VisitAll(InHouseIds(h, property));
      assert order[..|order|] == order;
      FoliosAfterAll(h, property);
    }

    /** One charge per room of every in-house reservation with an open folio, then the no-show
        sweep. */
    method RunNightAudit(property: PropertyId, today: Day)
      returns (posted: nat, noShows: nat)
      modifies this
      ensures Rows() == NightAudit(old(Rows()), property, today)
      ensures posted == ChargesPosted(old(Rows()), property,
                                      Ordered(InHouseIds(old(Rows()), property)))
      ensures noShows == |set r | r in old(bookings) && old(bookings)[r].property == property
                                  && old(bookings)[r].status == Confirmed
                                  && old(bookings)[r].checkIn < today|
    {
      ghost var h := Rows();
      posted := PostInHouse(property);
      AuditIsBoth(h, property, today);
      hide FoliosAfter, ChargesPosted, NightAudit;
      noShows := |set r | r in bookings && bookings[r].property == property
                          && bookings[r].status == Confirmed && bookings[r].checkIn < today|;
      bookings := NoShows(bookings, property, today);
    }

    method AddCharge(rid: ReservationId, charge: Charge) returns (outcome: Outcome)
      modifies this`folios
      ensures (Rows(), outcome) == PostCharge(old(Rows()), rid, charge)
    {
      if rid !in folios {
        return NotFound;
      }
      folios := folios[rid := folios[rid].(charges := folios[rid].charges + [charge])];
      outcome := Done;
    }

    method AddPayment(rid: ReservationId, payment: Payment) returns (outcome: Outcome)
      modifies this`folios
      ensures (Rows(), outcome) == TakePayment(old(Rows()), rid, payment)
    {
      if rid !in folios {
        return NotFound;
      }
      folios := folios[rid := folios[rid].(payments := folios[rid].payments + [payment])];
      outcome := Done;
    }
  }
}
