/** Reservations, the rooms they hold, and the two availability queries.  A reservation's
    ReservationRoom rows are its map `rooms`, keyed by unit: (reservation, unit) is unique. */
module Inventory {
  import opened Rows

  type PropertyId = nat
  type UnitId = nat
  type ReservationId = nat
  type Day = int
  type Time = int
  type Money = int

  datatype UnitType = RoomType | Chalet | Apartment | House | Bed

  datatype UnitStatus = Available | Occupied | Cleaning | Maintenance | Blocked | Sold

  datatype Unit = Unit(property: PropertyId, kind: UnitType, status: UnitStatus, active: bool)

  datatype ReservationStatus = Pending | Confirmed | CheckedIn | CheckedOut | Cancelled | NoShow

  /** The statuses the edit view's queryset lets through. */
  predicate Editable(status: ReservationStatus)
  {
    status != CheckedIn && status != CheckedOut && status != Cancelled
  }

  datatype Room = Room(rate: Money, arrived: Option<Time>, departed: Option<Time>)

  datatype Reservation = Reservation(
    property: PropertyId, status: ReservationStatus,
    checkIn: Day, checkOut: Day, rooms: map<UnitId, Room>)
  {
    predicate Blocking()
    {
      status == Confirmed || status == CheckedIn
    }

    /** The overlap test of the conflict query. */
    predicate Overlaps(start: Day, end: Day)
    {
      checkIn < end && checkOut > start
    }

    predicate Covers(night: Day)
    {
      checkIn <= night < checkOut
    }

    function Nights(): int
    {
      checkOut - checkIn
    }
  }

  type Bookings = map<ReservationId, Reservation>

  datatype Assignment = Assignment(unit: UnitId, rate: Money)

  function UnitsIn(assignments: seq<Assignment>): set<UnitId>
  {
    set i | 0 <= i < |assignments| :: assignments[i].unit
  }

  /** The table constraint reservation_checkout_after_checkin. */
  predicate WellDated(b: Bookings)
  {
    forall r :: r in b ==> b[r].checkIn < b[r].checkOut
  }

  /** Every held unit belongs to the reservation's property. */
  predicate RoomsInProperty(units: map<UnitId, PropertyId>, b: Bookings)
  {
    forall r, u :: r in b && u in b[r].rooms ==> u in units && units[u] == b[r].property
  }

  predicate NoDoubleBooking(b: Bookings)
  {
    forall r, s, u ::
      r in b && s in b && r != s && b[r].Blocking() && b[s].Blocking()
      && u in b[r].rooms && u in b[s].rooms
      ==> !b[r].Overlaps(b[s].checkIn, b[s].checkOut)
  }

  /** Units already booked over [start, end) by blocking reservations of the property. */
  function FindConflictingUnitIds(b: Bookings, property: PropertyId, start: Day, end: Day,
                                  exclude: Option<ReservationId>): set<UnitId>
  {
    set r, u | r in b && u in b[r].rooms && exclude != Some(r) && b[r].property == property
               && b[r].Blocking() && b[r].Overlaps(start, end) :: u
  }

  function AvailableUnits(units: map<UnitId, Unit>, b: Bookings, property: PropertyId,
                          start: Day, end: Day, kind: Option<UnitType>, included: set<UnitId>)
    : set<UnitId>
  {
    var conflicting := FindConflictingUnitIds(b, property, start, end, None) - included;
    set u | u in units && units[u].property == property && units[u].active
            && u !in conflicting && units[u].status != Maintenance
            && (kind == None || kind == Some(units[u].kind))
  }

  lemma {:induction false} RowFits(b: Bookings, rid: ReservationId, row: Reservation)
    requires NoDoubleBooking(b)
    requires forall r, u :: r in b && u in b[r].rooms && u in row.rooms && b[r].Blocking() ==>
               b[r].property == row.property
    requires row.Blocking() ==>
               row.rooms.Keys !! FindConflictingUnitIds(b, row.property, row.checkIn, row.checkOut,
                                                        Some(rid))
    ensures NoDoubleBooking(b[rid := row])
  {
  }

  /** Writing a blocking row keeps the table free of double bookings exactly when the conflict query,
      asked at that moment, finds none of the row's units: a check made earlier and not protected
      by the lock proves nothing. */
  lemma {:induction false} RowIsSafeIff(units: map<UnitId, PropertyId>, b: Bookings,
                                        rid: ReservationId, row: Reservation)
    requires NoDoubleBooking(b) && RoomsInProperty(units, b) && row.Blocking()
    requires forall u :: u in row.rooms ==> u in units && units[u] == row.property
    ensures NoDoubleBooking(b[rid := row])
            <==> row.rooms.Keys !! FindConflictingUnitIds(b, row.property, row.checkIn,
                                                          row.checkOut, Some(rid))
  {
    var taken := FindConflictingUnitIds(b, row.property, row.checkIn, row.checkOut, Some(rid));
    if row.rooms.Keys !! taken {
      RowFits(b, rid, row);
    } else {
      var u :| u in row.rooms && u in taken;
      var r :| r in b && u in b[r].rooms && Some(rid) != Some(r) && b[r].property == row.property
               && b[r].Blocking() && b[r].Overlaps(row.checkIn, row.checkOut);
      var b' := b[rid := row];
      assert b'[r] == b[r] && b'[rid] == row && !NoDoubleBooking(b');
    }
  }

  /** Adding or replacing a row whose units belong to its property and are free for its dates
      keeps the table free of double bookings. */
  lemma {:induction false} FreeRowKeepsTable(units: map<UnitId, PropertyId>, b: Bookings,
                                             rid: ReservationId, row: Reservation)
    requires NoDoubleBooking(b) && RoomsInProperty(units, b) && WellDated(b)
    requires row.checkIn < row.checkOut
    requires forall u :: u in row.rooms ==> u in units && units[u] == row.property
    requires row.Blocking() ==>
               row.rooms.Keys !! FindConflictingUnitIds(b, row.property, row.checkIn, row.checkOut,
                                                        Some(rid))
    ensures
      var b' := b[rid := row];
      NoDoubleBooking(b') && RoomsInProperty(units, b') && WellDated(b')
  {
    RowFits(b, rid, row);
    hide NoDoubleBooking, FindConflictingUnitIds;
  }

  // ── The no-show sweep ─────────────────────────────────────────────

  /** The bulk update of the night audit: overdue confirmations become no-shows. */
  function NoShows(b: Bookings, property: PropertyId, today: Day): Bookings
  {
    map r | r in b ::
      if b[r].property == property && b[r].status == Confirmed && b[r].checkIn < today
      then b[r].(status := NoShow) else b[r]
  }

  /** After the sweep no confirmation of the property is overdue; it touches nothing but the status
      of those that were. */
  lemma {:induction false} SweepFlagsTheOverdue(b: Bookings, property: PropertyId, today: Day,
                                                r: ReservationId)
    requires r in b
    ensures
      var was, now := b[r], NoShows(b, property, today)[r];
      && (now.property == property && now.status == Confirmed ==> now.checkIn >= today)
      && (now != was <==>
            was.property == property && was.status == Confirmed && was.checkIn < today)
      && (now != was ==> now == was.(status := NoShow))
  {
  }

  /** The sweep only takes reservations out of the blocking ones. */
  lemma {:induction false} NoShowsBlockLess(b: Bookings, property: PropertyId, today: Day,
                                            p: PropertyId, start: Day, end: Day,
                                            exclude: Option<ReservationId>)
    ensures FindConflictingUnitIds(NoShows(b, property, today), p, start, end, exclude)
            <= FindConflictingUnitIds(b, p, start, end, exclude)
  {
    var b' := NoShows(b, property, today);
    forall r | r in b' ensures b'[r] == b[r] || b'[r] == b[r].(status := NoShow) {}
  }

  lemma FewerBlockingNoClash(b: Bookings, b': Bookings)
    requires NoDoubleBooking(b) && b'.Keys == b.Keys
    requires forall r :: r in b ==> b'[r] == b[r] || b'[r] == b[r].(status := NoShow)
    ensures NoDoubleBooking(b')
  {
  }

  lemma {:induction false} NoShowsKeepTable(units: map<UnitId, PropertyId>, b: Bookings,
                                            property: PropertyId, today: Day)
    requires NoDoubleBooking(b) && RoomsInProperty(units, b) && WellDated(b)
    ensures
      var b' := NoShows(b, property, today);
      NoDoubleBooking(b') && RoomsInProperty(units, b') && WellDated(b')
  {
    hide NoDoubleBooking;
    var b' := NoShows(b, property, today);
    forall r | r in b ensures b'[r] == b[r] || b'[r] == b[r].(status := NoShow) {}
    FewerBlockingNoClash(b, b');
  }

  // ── Intervals and nights ──────────────────────────────────────────

  /** Some blocking reservation of the property has the unit for that night. */
  ghost predicate NightTaken(b: Bookings, property: PropertyId, u: UnitId, night: Day)
  {
    exists r :: r in b && b[r].property == property && b[r].Blocking()
                && u in b[r].rooms && b[r].Covers(night)
  }

  /** A blocking stay that began before `end` and ends after `start`, for end <= start: the
      query reports it although the range has no night. */
  ghost predicate Spanned(b: Bookings, property: PropertyId, u: UnitId, start: Day, end: Day)
  {
    end <= start &&
    exists r :: r in b && b[r].property == property && b[r].Blocking()
                && u in b[r].rooms && b[r].checkIn < end && start < b[r].checkOut
  }

  /** The interval test finds exactly the units with a taken night in the range; on an empty or
      inverted range, which has no nights, it finds the units a stay spans. */
  lemma {:induction false} ConflictIsATakenNight(b: Bookings, property: PropertyId,
                                                 start: Day, end: Day, u: UnitId)
    requires WellDated(b)
    ensures u in FindConflictingUnitIds(b, property, start, end, None) <==>
            (exists night :: start <= night < end && NightTaken(b, property, u, night))
            || Spanned(b, property, u, start, end)
  {
    if u in FindConflictingUnitIds(b, property, start, end, None) {
      var r :| r in b && u in b[r].rooms && b[r].property == property && b[r].Blocking()
               && b[r].Overlaps(start, end);
      if start < end {
        var night := if b[r].checkIn < start then start else b[r].checkIn;
        assert b[r].Covers(night);
        assert NightTaken(b, property, u, night);
      }
    }
    if night :| start <= night < end && NightTaken(b, property, u, night) {
      var r :| r in b && b[r].property == property && b[r].Blocking()
               && u in b[r].rooms && b[r].Covers(night);
      assert b[r].Overlaps(start, end);
    }
  }

  /** For a range with at least one night, the offered units are exactly the property's active
      units, out of maintenance and of the wanted type, with every night of the range free. */
  lemma {:induction false} AvailableMeansEveryNightFree(
    units: map<UnitId, Unit>, b: Bookings, property: PropertyId, start: Day, end: Day,
    kind: Option<UnitType>, u: UnitId)
    requires WellDated(b) && start < end
    ensures u in AvailableUnits(units, b, property, start, end, kind, {}) <==>
            (u in units && units[u].property == property && units[u].active
             && units[u].status != Maintenance
             && (kind == None || units[u].kind == kind.value)
             && forall night :: start <= night < end ==> !NightTaken(b, property, u, night))
  {
    ConflictIsATakenNight(b, property, start, end, u);
  }

  /** A unit's housekeeping state has no bearing on its availability, except maintenance. */
  lemma {:induction false} OnlyMaintenanceMatters(
    units: map<UnitId, Unit>, b: Bookings, property: PropertyId, start: Day, end: Day,
    kind: Option<UnitType>, included: set<UnitId>, u: UnitId, status: UnitStatus)
    requires u in units && status != Maintenance && units[u].status != Maintenance
    ensures AvailableUnits(units[u := units[u].(status := status)], b, property, start, end,
                           kind, included)
            == AvailableUnits(units, b, property, start, end, kind, included)
  {
  }

  /** Some other blocking reservation of the same property overlaps r on one of r's units. */
  ghost predicate Disputed(b: Bookings, r: ReservationId)
    requires r in b
  {
    exists s, u :: s in b && s != r && u in b[r].rooms && u in b[s].rooms
                   && b[s].property == b[r].property && b[s].Blocking()
                   && b[s].Overlaps(b[r].checkIn, b[r].checkOut)
  }

  /** Subtracting a reservation's own units from the conflicts, as the forms do, is the same as
      leaving the reservation out of the query exactly when none of its units is disputed. */
  lemma {:induction false} SubtractingOwnUnits(b: Bookings, r: ReservationId)
    requires r in b
    ensures
      var stay := b[r];
      FindConflictingUnitIds(b, stay.property, stay.checkIn, stay.checkOut, None) - stay.rooms.Keys
      == FindConflictingUnitIds(b, stay.property, stay.checkIn, stay.checkOut, Some(r))
      <==> !Disputed(b, r)
  {
  }

  /** With no double booking, a blocking reservation's own units are never disputed. */
  lemma {:induction false} UndisputedWithoutDoubleBooking(b: Bookings, r: ReservationId)
    requires NoDoubleBooking(b) && r in b && b[r].Blocking()
    ensures
      var stay := b[r];
      FindConflictingUnitIds(b, stay.property, stay.checkIn, stay.checkOut, None) - stay.rooms.Keys
      == FindConflictingUnitIds(b, stay.property, stay.checkIn, stay.checkOut, Some(r))
  {
    SubtractingOwnUnits(b, r);
  }

  // ── Capacity ──────────────────────────────────────────────────────

  function UnitsOf(units: map<UnitId, PropertyId>, property: PropertyId): set<UnitId>
  {
    set u | u in units && units[u] == property
  }

  /** The rooms blocking reservations of the property hold on a night. */
  function BookedOn(b: Bookings, property: PropertyId, night: Day)
    : set<(ReservationId, UnitId)>
  {
    set r, u | r in b && u in b[r].rooms && b[r].property == property && b[r].Blocking()
               && b[r].Covers(night) :: (r, u)
  }

  lemma {:induction false} OneBookingPerUnit(pairs: set<(ReservationId, UnitId)>,
                                             pool: set<UnitId>)
    requires forall x :: x in pairs ==> x.1 in pool
    requires forall x, y :: x in pairs && y in pairs && x.1 == y.1 ==> x == y
    ensures |pairs| <= |pool|
    decreases |pairs|
  {
    if pairs != {} {
      var x :| x in pairs;
      OneBookingPerUnit(pairs - {x}, pool - {x.1});
      assert |pool| == |pool - {x.1}| + 1;
    }
  }

  lemma SameNightOverlaps(r: Reservation, s: Reservation, night: Day)
    requires r.Covers(night) && s.Covers(night)
    ensures r.Overlaps(s.checkIn, s.checkOut)
  {
  }

  /** On every night the booked rooms inject into the property's units. */
  lemma {:induction false} BookedRoomsInject(units: map<UnitId, PropertyId>, b: Bookings,
                                             property: PropertyId, night: Day)
    requires NoDoubleBooking(b) && RoomsInProperty(units, b)
    ensures forall x, y ::
              x in BookedOn(b, property, night) && y in BookedOn(b, property, night) && x.1 == y.1
              ==> x == y
    ensures |BookedOn(b, property, night)| <= |UnitsOf(units, property)|
  {
    var booked := BookedOn(b, property, night);
    forall x, y | x in booked && y in booked && x.1 == y.1 ensures x == y {
      SameNightOverlaps(b[x.0], b[y.0], night);
    }
    OneBookingPerUnit(booked, UnitsOf(units, property));
  }

  /** Room-nights counted night by night. */
  function RoomNights(b: Bookings, property: PropertyId, start: Day, end: Day): nat
    requires start <= end
    decreases end - start
  {
    if start == end then 0
    else RoomNights(b, property, start, end - 1) + |BookedOn(b, property, end - 1)|
  }

  /** The nights of a stay that fall in [start, end). */
  function NightsWithin(stay: Reservation, start: Day, end: Day): nat
  {
    var first := if stay.checkIn < start then start else stay.checkIn;
    var last := if end < stay.checkOut then end else stay.checkOut;
    if first < last then last - first else 0
  }

  /** What one reservation contributes. */
  function StayNights(stay: Reservation, property: PropertyId, start: Day, end: Day): nat
  {
    if stay.property == property && stay.Blocking()
    then |stay.rooms.Keys| * NightsWithin(stay, start, end) else 0
  }

  /** Room-nights counted stay by stay: rooms times nights of each blocking reservation. */
  function SoldNights(b: Bookings, ids: set<ReservationId>, property: PropertyId,
                      start: Day, end: Day): nat
    requires ids <= b.Keys
    decreases |ids|
  {
    if ids == {} then 0
    else
      var r := Least(ids);
      SoldNights(b, ids - {r}, property, start, end) + StayNights(b[r], property, start, end)
  }

  function Among(b: Bookings, ids: set<ReservationId>): Bookings
  {
    map r | r in b && r in ids :: b[r]
  }

  function PairsOf(r: ReservationId, us: set<UnitId>): set<(ReservationId, UnitId)>
  {
    set u | u in us :: (r, u)
  }

  lemma {:induction false} PairsOfSize(r: ReservationId, us: set<UnitId>)
    ensures |PairsOf(r, us)| == |us|
  {
    if us == {} {
      assert PairsOf(r, us) == {};
    } else {
      var u :| u in us;
      PairsOfSize(r, us - {u});
      assert (r, u) !in PairsOf(r, us - {u});
      assert PairsOf(r, us) == PairsOf(r, us - {u}) + {(r, u)};
    }
  }

  lemma {:induction false} BookedOnWithout(b: Bookings, r: ReservationId, property: PropertyId,
                                           night: Day)
    requires r in b
    ensures |BookedOn(b, property, night)| == |BookedOn(b - {r}, property, night)|
            + (if b[r].property == property && b[r].Blocking() && b[r].Covers(night)
               then |b[r].rooms.Keys| else 0)
  {
    var all, rest := BookedOn(b, property, night), BookedOn(b - {r}, property, night);
    var counts := b[r].property == property && b[r].Blocking() && b[r].Covers(night);
    var own := if counts then PairsOf(r, b[r].rooms.Keys) else {};
    forall x: (ReservationId, UnitId) ensures x in all <==> x in rest || x in own {
      if x.0 in b && x.0 != r { assert (b - {r})[x.0] == b[x.0]; }
    }
    assert all == rest + own;
    PairsOfSize(r, b[r].rooms.Keys);
  }

  /** One more night of the range. */
  lemma OneMoreNight(stay: Reservation, property: PropertyId, start: Day, end: Day)
    requires start < end
    ensures StayNights(stay, property, start, end)
            == StayNights(stay, property, start, end - 1)
               + (if stay.property == property && stay.Blocking() && stay.Covers(end - 1)
                  then |stay.rooms.Keys| else 0)
  {
    assert NightsWithin(stay, start, end)
           == NightsWithin(stay, start, end - 1) + (if stay.Covers(end - 1) then 1 else 0);
  }

  lemma {:induction false} RoomNightsWithout(b: Bookings, r: ReservationId,
                                             property: PropertyId, start: Day, end: Day)
    requires r in b && start <= end
    ensures RoomNights(b, property, start, end)
            == RoomNights(b - {r}, property, start, end) + StayNights(b[r], property, start, end)
    decreases end - start
  {
    if start < end {
      RoomNightsWithout(b, r, property, start, end - 1);
      BookedOnWithout(b, r, property, end - 1);
      OneMoreNight(b[r], property, start, end);
      hide StayNights, BookedOn;
    } else {
      assert NightsWithin(b[r], start, end) == 0;
    }
  }

  lemma {:induction false} NoBookingsNoNights(property: PropertyId, start: Day, end: Day)
    requires start <= end
    ensures RoomNights(map[], property, start, end) == 0
    decreases end - start
  {
    if start < end {
      NoBookingsNoNights(property, start, end - 1);
      assert BookedOn(map[], property, end - 1) == {};
    }
  }

  lemma {:induction false} CountedBothWays(b: Bookings, ids: set<ReservationId>,
                                           property: PropertyId, start: Day, end: Day)
    requires start <= end && ids <= b.Keys
    ensures RoomNights(Among(b, ids), property, start, end)
            == SoldNights(b, ids, property, start, end)
    decreases |ids|
  {
    if ids == {} {
      assert Among(b, ids) == map[];
      NoBookingsNoNights(property, start, end);
    } else {
      var r := Least(ids);
      CountedBothWays(b, ids - {r}, property, start, end);
      RoomNightsWithout(Among(b, ids), r, property, start, end);
      assert Among(b, ids) - {r} == Among(b, ids - {r});
    }
  }

  /** Counting night by night and stay by stay gives the same number. */
  lemma {:induction false} NightsCountedBothWays(b: Bookings, property: PropertyId,
                                                 start: Day, end: Day)
    requires start <= end
    ensures RoomNights(b, property, start, end) == SoldNights(b, b.Keys, property, start, end)
  {
    CountedBothWays(b, b.Keys, property, start, end);
    assert Among(b, b.Keys) == b;
  }

  lemma OneMoreTimes(pool: nat, nights: nat)
    requires nights > 0
    ensures pool * nights == pool * (nights - 1) + pool
  {
  }

  lemma {:induction false} RoomNightsBounded(units: map<UnitId, PropertyId>, b: Bookings,
                                             property: PropertyId, start: Day, end: Day)
    requires NoDoubleBooking(b) && RoomsInProperty(units, b) && start <= end
    ensures RoomNights(b, property, start, end) <= |UnitsOf(units, property)| * (end - start)
    decreases end - start
  {
    if start < end {
      RoomNightsBounded(units, b, property, start, end - 1);
      BookedRoomsInject(units, b, property, end - 1);
      OneMoreTimes(|UnitsOf(units, property)|, end - start);
      hide NoDoubleBooking, RoomsInProperty, BookedOn, UnitsOf;
    }
  }

  /** Capacity: the rooms-times-nights sold over a range never exceed units times nights. */
  lemma {:induction false} CapacityNeverExceeded(units: map<UnitId, PropertyId>, b: Bookings,
                                                 property: PropertyId, start: Day, end: Day)
    requires NoDoubleBooking(b) && RoomsInProperty(units, b) && start <= end
    ensures SoldNights(b, b.Keys, property, start, end) <= |UnitsOf(units, property)| * (end - start)
  {
    NightsCountedBothWays(b, property, start, end);
    RoomNightsBounded(units, b, property, start, end);
  }

  /** A stay inside the range is counted with all its nights. */
  lemma WholeStayCounts(stay: Reservation, start: Day, end: Day)
    requires start <= stay.checkIn < stay.checkOut <= end
    ensures NightsWithin(stay, start, end) == stay.Nights()
  {
  }
}
