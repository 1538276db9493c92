/** Runs that double-book.  They show that the no-double-booking theorem needs its discipline: edits
    that fit, and no second transition in flight on one reservation. */
module BookingRaces {
  import opened Rows
  import opened Inventory
  import opened BookingProtocol

  lemma {:induction false} OneMore(d: Discipline, s: State, actions: seq<Action>, mid: State,
                                   a: Action)
    requires Reaches(d, s, actions, mid) && Enabled(d, mid, a)
    ensures Reaches(d, s, actions + [a], Step(d, mid, a))
    decreases |actions|
  {
    if actions != [] {
      OneMore(d, Step(d, s, actions[0]), actions[1..], mid, a);
      assert (actions + [a])[1..] == actions[1..] + [a];
    } else {
      assert (actions + [a])[1..] == [];
    }
  }

  function OneUnit(status: ReservationStatus): State
  {
    State(map[1 := 0, 3 := 0],
          map[10 := Reservation(0, status, 0, 2, map[3 := Room(100, None, None)])],
          map[10 := Number(20260101, 1)], map[], map[], map[])
  }

  lemma FirstNumberIsConsecutive(r: ReservationId, day: nat)
    requires IsDay(day)
    ensures Consecutive(map[r := Number(day, 1)])
  {
    assert OnDay(map[r := Number(day, 1)], day) == {r};
  }

  lemma OneUnitAtRest(status: ReservationStatus)
    ensures AtRest(OneUnit(status))
  {
    FirstNumberIsConsecutive(10, 20260101);
    hide Consecutive;
  }

  lemma {:induction false} CreationStarts(d: Discipline, s: State, actions: seq<Action>,
                                          mid: State, t: TxnId, rid: ReservationId, start: Day,
                                          end: Day, u: UnitId)
    returns (more: seq<Action>, s': State)
    requires Reaches(d, s, actions, mid)
    requires t !in mid.active && rid !in mid.bookings && !InFlight(mid, rid) && start < end
    requires u in mid.units && mid.units[u] == 0 && 20260102 !in mid.dayLocks
    ensures Reaches(d, s, more, s')
    ensures s'.units == mid.units && s'.bookings == mid.bookings && s'.unitLocks == mid.unitLocks
    ensures s'.active.Keys == mid.active.Keys + {t} && s'.active - {t} == mid.active
    ensures s'.active[t] == Txn(Creating, rid, Confirmed, 0, start, end, 20260102, s'.active[t].index,
                                Working, [Assignment(u, 100)], {}, map[])
  {
    hide Reaches, FindConflictingUnitIds, StartingWith;
    var a := BeginCreate(t, rid, 0, start, end, 20260102, Assignment(u, 100));
    OneMore(d, s, actions, mid, a);
    var s0 := Step(d, mid, a);
    OneMore(d, s, actions + [a], s0, LockDay(t));
    var s1 := Step(d, s0, LockDay(t));
    OneMore(d, s, actions + [a] + [LockDay(t)], s1, AssignNumber(t));
    more, s' := actions + [a] + [LockDay(t)] + [AssignNumber(t)], Step(d, s1, AssignNumber(t));
  }

  /** One assignment: lock, check, write. */
  lemma {:induction false} TakesUnit(d: Discipline, s: State, actions: seq<Action>, mid: State,
                                     t: TxnId)
    returns (more: seq<Action>, s': State)
    requires Reaches(d, s, actions, mid) && t in mid.active
    requires
      var txn := mid.active[t];
      && txn.stage == Working && txn.todo != [] && txn.todo[0].unit !in mid.unitLocks
      && txn.todo[0].unit !in FindConflictingUnitIds(mid.bookings, txn.property, txn.checkIn,
                                                     txn.checkOut, Some(txn.rid))
    ensures Reaches(d, s, more, s')
    ensures
      var txn := mid.active[t];
      var u := txn.todo[0].unit;
      && s'.active.Keys == mid.active.Keys && s'.active[t].written.Keys == txn.written.Keys + {u}
      && s' == mid.(unitLocks := mid.unitLocks[u := t], active := mid.active[t := s'.active[t]])
      && s'.active[t] == txn.(todo := txn.todo[1..], written := s'.active[t].written)
  {
    OneMore(d, s, actions, mid, LockUnit(t));
    var s0 := Step(d, mid, LockUnit(t));
    OneMore(d, s, actions + [LockUnit(t)], s0, CheckUnit(t, 0));
    more, s' := actions + [LockUnit(t)] + [CheckUnit(t, 0)], Step(d, s0, CheckUnit(t, 0));
  }

  lemma {:induction false} BookingFinishes(d: Discipline, s: State, actions: seq<Action>,
                                           mid: State, t: TxnId, u: UnitId)
    returns (more: seq<Action>, s': State)
    requires Reaches(d, s, actions, mid) && t in mid.active && u !in mid.unitLocks
    requires
      var txn := mid.active[t];
      && txn.kind == Creating && txn.stage == Working && txn.written == map[]
      && txn.todo == [Assignment(u, 100)] && txn.rid !in mid.bookings
      && u !in FindConflictingUnitIds(mid.bookings, txn.property, txn.checkIn, txn.checkOut,
                                      Some(txn.rid))
    ensures Reaches(d, s, more, s')
    ensures s'.units == mid.units && s'.active == mid.active - {t}
    ensures forall v :: v in s'.unitLocks ==> v in mid.unitLocks
    ensures
      var txn := mid.active[t];
      && txn.rid in s'.bookings && s'.bookings == mid.bookings[txn.rid := s'.bookings[txn.rid]]
      && s'.bookings[txn.rid].rooms.Keys == {u}
      && s'.bookings[txn.rid] == Reservation(txn.property, Confirmed, txn.checkIn, txn.checkOut,
                                             s'.bookings[txn.rid].rooms)
  {
    var s0;
    more, s0 := TakesUnit(d, s, actions, mid, t);
    OneMore(d, s, more, s0, Commit(t));
    more, s' := more + [Commit(t)], Step(d, s0, Commit(t));
  }

  /** A date edit of reservation 10, loaded; the rate it asks for decides whether it takes the
      lock. */
  function EditedTo(end: Day, todo: seq<Assignment>): Txn
  {
    Txn(Editing, 10, Confirmed, 0, 0, end, 0, 0, Working, todo, {}, map[])
  }

  lemma OnlyOne(b: Bookings, r: ReservationId)
    requires b.Keys == {r}
    ensures forall p, start, end :: FindConflictingUnitIds(b, p, start, end, Some(r)) == {}
  {
  }

  lemma EditBegins(d: Discipline, mid: State, rate: Money)
    requires mid.bookings == OneUnit(Confirmed).bookings && mid.units == OneUnit(Confirmed).units
    requires 1 !in mid.active && !InFlight(mid, 10)
    ensures
      var wanted := Assignment(3, rate);
      var a := BeginEdit(1, 10, 0, 0, 5, wanted);
      && Enabled(d, mid, a)
      && Step(d, mid, a)
         == mid.(active := mid.active[1 := EditedTo(5, if rate == 100 then [] else [wanted])])
  {
    OnlyOne(mid.bookings, 10);
    assert mid.bookings[10].rooms.Keys - {3} == {};
  }

  lemma AddedNightsAreFree(s: State)
    requires s.bookings == OneUnit(Confirmed).bookings && s.active.Keys == {1} && s.active[1].rid == 10
    ensures FindConflictingUnitIds(s.bookings, 0, 3, 5, Some(20)) == {} && !InFlight(s, 20)
  {
  }

  /** The new booking takes unit 3 for the added nights while the edit is open. */
  lemma {:induction false} GuestTakesAddedNights(d: Discipline, s: State, actions: seq<Action>,
                                                 mid: State)
    returns (more: seq<Action>, s': State)
    requires Reaches(d, s, actions, mid) && mid.active.Keys == {1} && mid.active[1].rid == 10
    requires mid == OneUnit(Confirmed).(active := mid.active)
    ensures Reaches(d, s, more, s') && s'.active == mid.active
    ensures s'.bookings.Keys == {10, 20} && s'.bookings[10] == mid.bookings[10]
    ensures s'.units == mid.units && s'.unitLocks == map[]
    ensures s'.bookings[20].rooms.Keys == {3}
    ensures s'.bookings[20] == Reservation(0, Confirmed, 3, 5, s'.bookings[20].rooms)
  {
    hide Reaches, Enabled, Step;
    AddedNightsAreFree(mid);
    var s1;
    more, s1 := CreationStarts(d, s, actions, mid, 2, 20, 3, 5, 3);
    more, s' := BookingFinishes(d, s, more, s1, 2, 3);
  }

  lemma EditCommits(mid: State)
    requires 1 in mid.active && 10 in mid.bookings && mid.active[1].written == map[]
    requires mid.active[1].stage == Refused || mid.active[1].todo == []
    requires mid.active[1] == EditedTo(5, mid.active[1].todo).(stage := mid.active[1].stage)
    requires mid.active[1].stage == Working || mid.active[1].stage == Refused
    requires mid.bookings[10] == Reservation(0, Confirmed, 0, 2, mid.bookings[10].rooms)
    ensures Enabled(VIEWS, mid, Commit(1))
    ensures
      var s' := Step(VIEWS, mid, Commit(1));
      && s'.bookings == mid.bookings[10 := mid.bookings[10].(checkOut := 5)]
      && s'.active == mid.active - {1} && s'.units == mid.units
  {
    assert (mid.bookings[10].rooms - {}) + map[] == mid.bookings[10].rooms;
  }

  lemma SameUnitSameNights(b: Bookings, r: ReservationId, v: ReservationId, u: UnitId)
    requires r in b && v in b && r != v && b[r].Blocking() && b[v].Blocking()
    requires u in b[r].rooms && u in b[v].rooms
    requires b[r].Overlaps(b[v].checkIn, b[v].checkOut)
    ensures !NoDoubleBooking(b)
  {
  }

  /** With date edits that keep room and rate, which are checked without the lock, a run exists
      that double-books: the edit is checked, a new booking takes the added nights, the edit
      commits. */
  lemma {:induction false} UnlockedEditDoubleBooks()
    returns (s: State, actions: seq<Action>, s': State)
    ensures AtRest(s) && Reaches(VIEWS, s, actions, s') && !NoDoubleBooking(s'.bookings)
  {
    s := OneUnit(Confirmed);
    OneUnitAtRest(Confirmed);
    EditBegins(VIEWS, s, 100);
    assert Reaches(VIEWS, s, [], s);
    hide Reaches, Enabled, Step, AtRest;
    var edit := BeginEdit(1, 10, 0, 0, 5, Assignment(3, 100));
    OneMore(VIEWS, s, [], s, edit);
    var more, s1 := GuestTakesAddedNights(VIEWS, s, [] + [edit], Step(VIEWS, s, edit));
    EditCommits(s1);
    OneMore(VIEWS, s, more, s1, Commit(1));
    actions, s' := more + [Commit(1)], Step(VIEWS, s1, Commit(1));
    SameUnitSameNights(s'.bookings, 10, 20, 3);
  }

  lemma AttachIsRefused(mid: State)
    requires 1 in mid.active && mid.active[1] == EditedTo(5, [Assignment(3, 200)])
    requires mid.unitLocks == map[] && 20 in mid.bookings && mid.bookings[20].rooms.Keys == {3}
    requires mid.bookings[20] == Reservation(0, Confirmed, 3, 5, mid.bookings[20].rooms)
    ensures
      var lock, check := LockUnit(1), CheckUnit(1, 0);
      && Enabled(VIEWS, mid, lock) && Enabled(VIEWS, Step(VIEWS, mid, lock), check)
      && var s' := Step(VIEWS, Step(VIEWS, mid, lock), check);
      && s'.bookings == mid.bookings
      && s'.active == mid.active[1 := mid.active[1].(stage := Refused)]
  {
    assert mid.bookings[20].Overlaps(0, 5) && 3 in mid.bookings[20].rooms
           && Some(10 as ReservationId) != Some(20);
    assert 3 in FindConflictingUnitIds(mid.bookings, 0, 0, 5, Some(10));
  }

  /** The refused edit still commits. */
  lemma {:induction false} RefusedEditCommits(s: State, more: seq<Action>, s1: State)
    returns (actions: seq<Action>, s': State)
    requires Reaches(VIEWS, s, more, s1)
    requires 1 in s1.active && s1.active[1] == EditedTo(5, [Assignment(3, 200)])
    requires s1.unitLocks == map[] && s1.bookings.Keys == {10, 20}
    requires s1.bookings[10] == OneUnit(Confirmed).bookings[10]
    requires s1.bookings[20].rooms.Keys == {3}
    requires s1.bookings[20] == Reservation(0, Confirmed, 3, 5, s1.bookings[20].rooms)
    ensures Reaches(VIEWS, s, actions, s') && !NoDoubleBooking(s'.bookings)
  {
    hide Reaches, Enabled, Step;
    AttachIsRefused(s1);
    OneMore(VIEWS, s, more, s1, LockUnit(1));
    var s2 := Step(VIEWS, s1, LockUnit(1));
    OneMore(VIEWS, s, more + [LockUnit(1)], s2, CheckUnit(1, 0));
    var s3 := Step(VIEWS, s2, CheckUnit(1, 0));
    EditCommits(s3);
    OneMore(VIEWS, s, more + [LockUnit(1)] + [CheckUnit(1, 0)], s3, Commit(1));
    actions := more + [LockUnit(1)] + [CheckUnit(1, 0)] + [Commit(1)];
    s' := Step(VIEWS, s3, Commit(1));
    SameUnitSameNights(s'.bookings, 10, 20, 3);
  }

  /** Taking the lock is not enough either: an edit that asks for a new rate is refused under the
      lock, but the view has saved the new dates already and commits them with the room. */
  lemma {:induction false} RefusedRateDoubleBooks()
    returns (s: State, actions: seq<Action>, s': State)
    ensures AtRest(s) && Reaches(VIEWS, s, actions, s') && !NoDoubleBooking(s'.bookings)
  {
    s := OneUnit(Confirmed);
    OneUnitAtRest(Confirmed);
    EditBegins(VIEWS, s, 200);
    assert Reaches(VIEWS, s, [], s);
    hide Reaches, Enabled, Step, AtRest;
    var edit := BeginEdit(1, 10, 0, 0, 5, Assignment(3, 200));
    OneMore(VIEWS, s, [], s, edit);
    var more, s1 := GuestTakesAddedNights(VIEWS, s, [] + [edit], Step(VIEWS, s, edit));
    actions, s' := RefusedEditCommits(s, more, s1);
  }

  /** A creation has locked and checked unit 3 for the nights 3 and 4 and waits to commit. */
  lemma {:induction false} GuestHasChecked(d: Discipline)
    returns (actions: seq<Action>, s': State)
    ensures Reaches(d, OneUnit(Confirmed), actions, s')
    ensures s'.bookings == OneUnit(Confirmed).bookings && s'.units == OneUnit(Confirmed).units
    ensures s'.active.Keys == {2} && s'.active[2].written.Keys == {3}
    ensures s'.active[2] == Txn(Creating, 20, Confirmed, 0, 3, 5, 20260102, s'.active[2].index,
                                Working, [], {}, s'.active[2].written)
  {
    var s := OneUnit(Confirmed);
    assert Reaches(d, s, [], s);
    assert FindConflictingUnitIds(s.bookings, 0, 3, 5, Some(20)) == {};
    hide Reaches, FindConflictingUnitIds, Enabled, Step;
    var more, s1 := CreationStarts(d, s, [], s, 2, 20, 3, 5, 3);
    actions, s' := TakesUnit(d, s, more, s1, 2);
  }

  lemma CreationCommits(d: Discipline, mid: State)
    requires 2 in mid.active && 20 !in mid.bookings && mid.active[2].written.Keys == {3}
    requires mid.active[2] == Txn(Creating, 20, Confirmed, 0, 3, 5, 20260102, mid.active[2].index,
                                  Working, [], {}, mid.active[2].written)
    ensures Enabled(d, mid, Commit(2))
    ensures Step(d, mid, Commit(2)).bookings
            == mid.bookings[20 := Reservation(0, Confirmed, 3, 5, mid.active[2].written)]
  {
  }

  /** While it waits, a date edit of reservation 10 runs through. */
  lemma {:induction false} EditSlipsIn() returns (actions: seq<Action>, s': State)
    ensures Reaches(VIEWS, OneUnit(Confirmed), actions, s')
    ensures s'.bookings.Keys == {10} && s'.bookings[10].rooms.Keys == {3}
    ensures s'.bookings[10] == Reservation(0, Confirmed, 0, 5, s'.bookings[10].rooms)
    ensures 2 in s'.active && s'.active[2].written.Keys == {3}
    ensures s'.active[2] == Txn(Creating, 20, Confirmed, 0, 3, 5, 20260102, s'.active[2].index,
                                Working, [], {}, s'.active[2].written)
  {
    var s := OneUnit(Confirmed);
    var more, s1 := GuestHasChecked(VIEWS);
    EditBegins(VIEWS, s1, 100);
    hide Reaches, Enabled, Step;
    var edit := BeginEdit(1, 10, 0, 0, 5, Assignment(3, 100));
    OneMore(VIEWS, s, more, s1, edit);
    var s2 := Step(VIEWS, s1, edit);
    EditCommits(s2);
    OneMore(VIEWS, s, more + [edit], s2, Commit(1));
    actions, s' := more + [edit] + [Commit(1)], Step(VIEWS, s2, Commit(1));
  }

  lemma OneBookingIsClean(b: Bookings)
    requires b.Keys == {10}
    ensures NoDoubleBooking(b)
  {
  }

  lemma CommitsOverlap(was: Bookings, b: Bookings, written: map<UnitId, Room>)
    requires 10 in was && was[10].rooms.Keys == {3} && written.Keys == {3}
    requires was[10] == Reservation(0, Confirmed, 0, 5, was[10].rooms)
    requires b == was[20 := Reservation(0, Confirmed, 3, 5, written)]
    ensures !NoDoubleBooking(b)
  {
    SameUnitSameNights(b, 10, 20, 3);
  }

  /** And an edit may pass every query to the last and still break the run: when it commits nothing
      conflicts, but a creation that has checked the unit before under its lock commits next. */
  lemma {:induction false} CleanEditStillBreaks()
    returns (actions: seq<Action>, mid: State, s': State)
    ensures AtRest(OneUnit(Confirmed)) && Reaches(VIEWS, OneUnit(Confirmed), actions, mid)
    ensures NoDoubleBooking(mid.bookings)
    ensures Enabled(VIEWS, mid, Commit(2)) && s' == Step(VIEWS, mid, Commit(2))
    ensures !NoDoubleBooking(s'.bookings)
  {
    OneUnitAtRest(Confirmed);
    hide *;
    actions, mid := EditSlipsIn();
    OneBookingIsClean(mid.bookings);
    CreationCommits(VIEWS, mid);
    s' := Step(VIEWS, mid, Commit(2));
    CommitsOverlap(mid.bookings, s'.bookings, mid.active[2].written);
  }

  lemma {:induction false} ArrivalBegins(d: Discipline, mid: State)
    requires !d.oneAtATime && mid.active.Keys == {1}
    requires mid.units == map[1 := 0, 3 := 0] && mid.bookings == OneUnit(Confirmed).bookings
    ensures
      var both := [Assignment(3, 100), Assignment(1, 100)];
      && Enabled(d, mid, BeginCheckIn(2, 10, both))
      && Step(d, mid, BeginCheckIn(2, 10, both))
         == mid.(active := mid.active[2 := Txn(CheckingIn, 10, Confirmed, 0, 0, 2, 0, 0, Working, both, {},
                                               map[])])
  {
    var both := [Assignment(3, 100), Assignment(1, 100)];
    assert mid.bookings[10].rooms.Keys - UnitsIn(both) == {} by { assert both[0].unit == 3; }
  }

  lemma {:induction false} TakesBoth(d: Discipline, s: State, actions: seq<Action>, mid: State)
    returns (more: seq<Action>, s': State)
    requires Reaches(d, s, actions, mid) && 2 in mid.active && mid.unitLocks == map[]
    requires mid.bookings == OneUnit(Confirmed).bookings
    requires mid.active[2] == Txn(CheckingIn, 10, Confirmed, 0, 0, 2, 0, 0, Working,
                                  [Assignment(3, 100), Assignment(1, 100)], {}, map[])
    ensures Reaches(d, s, more, s')
    ensures s'.active.Keys == mid.active.Keys
    ensures s' == mid.(active := mid.active[2 := s'.active[2]], unitLocks := map[3 := 2, 1 := 2])
    ensures s'.active[2] == mid.active[2].(todo := [], written := s'.active[2].written)
    ensures s'.active[2].written.Keys == {1, 3}
  {
    hide Reaches, Enabled, Step, FindConflictingUnitIds;
    OnlyOne(mid.bookings, 10);
    var s1;
    more, s1 := TakesUnit(d, s, actions, mid, 2);
    assert s1.active[2].todo == [Assignment(1, 100)];
    more, s' := TakesUnit(d, s, more, s1, 2);
    assert s'.active == mid.active[2 := s'.active[2]];
  }

  /** A check-in begins on reservation 10 and takes units 3 and 1. */
  lemma {:induction false} ArrivesInTwo(d: Discipline, s: State, actions: seq<Action>, mid: State)
    returns (more: seq<Action>, s': State)
    requires !d.oneAtATime && Reaches(d, s, actions, mid)
    requires mid.active.Keys == {1} && mid.unitLocks == map[]
    requires mid.units == map[1 := 0, 3 := 0] && mid.bookings == OneUnit(Confirmed).bookings
    ensures Reaches(d, s, more, s')
    ensures 2 in s'.active
    ensures s' == mid.(active := mid.active[2 := s'.active[2]], unitLocks := map[3 := 2, 1 := 2])
    ensures s'.active[2] == Txn(CheckingIn, 10, Confirmed, 0, 0, 2, 0, 0, Working, [], {},
                                s'.active[2].written)
    ensures s'.active[2].written.Keys == {1, 3}
  {
    var a := BeginCheckIn(2, 10, [Assignment(3, 100), Assignment(1, 100)]);
    ArrivalBegins(d, mid);
    hide Reaches, Enabled, Step, FindConflictingUnitIds;
    OneMore(d, s, actions, mid, a);
    more, s' := TakesBoth(d, s, actions + [a], Step(d, mid, a));
    assert s'.active == mid.active[2 := s'.active[2]];
  }

  lemma {:induction false} Leaves(d: Discipline, s: State, actions: seq<Action>, mid: State)
    returns (more: seq<Action>, s': State)
    requires !d.oneAtATime && Reaches(d, s, actions, mid) && 4 !in mid.active
    requires mid.unitLocks == map[] && 10 in mid.bookings && mid.bookings[10].status == CheckedIn
    requires forall day :: day in mid.dayLocks ==> mid.dayLocks[day] != 4
    ensures Reaches(d, s, more, s')
    ensures s' == mid.(bookings := mid.bookings[10 := mid.bookings[10].(status := CheckedOut)])
  {
    OneMore(d, s, actions, mid, BeginCheckOut(4, 10));
    var s0 := Step(d, mid, BeginCheckOut(4, 10));
    OneMore(d, s, actions + [BeginCheckOut(4, 10)], s0, Commit(4));
    more, s' := actions + [BeginCheckOut(4, 10)] + [Commit(4)], Step(d, s0, Commit(4));
    assert s'.active == mid.active && s'.dayLocks == mid.dayLocks;
  }

  /** ... commits, and checks out again, while transaction 1 stays open. */
  lemma {:induction false} StaysAndLeaves(d: Discipline, s: State, actions: seq<Action>,
                                          mid: State)
    returns (more: seq<Action>, s': State)
    requires !d.oneAtATime && Reaches(d, s, actions, mid)
    requires mid.active.Keys == {1, 2} && mid.dayLocks == map[]
    requires mid.unitLocks == map[3 := 2, 1 := 2] && mid.bookings == OneUnit(Confirmed).bookings
    requires mid.active[2].written.Keys == {1, 3}
    requires mid.active[2] == Txn(CheckingIn, 10, Confirmed, 0, 0, 2, 0, 0, Working, [], {},
                                  mid.active[2].written)
    ensures Reaches(d, s, more, s')
    ensures s'.active == map[1 := mid.active[1]] && s'.unitLocks == map[] && s'.dayLocks == map[]
    ensures s'.units == mid.units && s'.bookings.Keys == {10}
    ensures s'.bookings[10].rooms.Keys == {1, 3}
    ensures s'.bookings[10] == mid.bookings[10].(status := CheckedOut,
                                                 rooms := s'.bookings[10].rooms)
  {
    hide Reaches, FindConflictingUnitIds, Kept;
    OneMore(d, s, actions, mid, Commit(2));
    var s0 := Step(d, mid, Commit(2));
    assert s0.active == map[1 := mid.active[1]] && s0.unitLocks == map[] && s0.dayLocks == map[];
    more, s' := Leaves(d, s, actions + [Commit(2)], s0);
  }

  /** The second check-in takes unit 3 and commits. */
  lemma {:induction false} SecondCommits(d: Discipline, s: State, actions: seq<Action>,
                                         mid: State)
    returns (more: seq<Action>, s': State)
    requires Reaches(d, s, actions, mid) && 1 in mid.active && 3 !in mid.unitLocks
    requires mid.active[1] == Txn(CheckingIn, 10, Confirmed, 0, 0, 2, 0, 0, Working, [Assignment(3, 100)],
                                  {}, map[])
    requires mid.bookings.Keys == {10, 20} && mid.bookings[20].rooms.Keys == {1}
    ensures Reaches(d, s, more, s')
    ensures s'.bookings.Keys == {10, 20} && s'.bookings[20] == mid.bookings[20]
    ensures s'.bookings[10].status == CheckedIn
    ensures s'.bookings[10].rooms.Keys == mid.bookings[10].rooms.Keys + {3}
    ensures s'.bookings[10].checkIn == mid.bookings[10].checkIn
    ensures s'.bookings[10].checkOut == mid.bookings[10].checkOut
  {
    var s0;
    more, s0 := TakesUnit(d, s, actions, mid, 1);
    OneMore(d, s, more, s0, Commit(1));
    more, s' := more + [Commit(1)], Step(d, s0, Commit(1));
  }

  lemma {:induction false} SecondBegins(d: Discipline)
    ensures
      var s := OneUnit(Confirmed);
      var a := BeginCheckIn(1, 10, [Assignment(3, 100)]);
      && Enabled(d, s, a)
      && Step(d, s, a) == s.(active := map[1 := Txn(CheckingIn, 10, Confirmed, 0, 0, 2, 0, 0, Working,
                                                    a.assignments, {}, map[])])
  {
    var a := BeginCheckIn(1, 10, [Assignment(3, 100)]);
    assert OneUnit(Confirmed).bookings[10].rooms.Keys - UnitsIn(a.assignments) == {} by {
      assert a.assignments[0].unit == 3;
    }
  }

  lemma NewGuestFits(s: State)
    requires s.bookings.Keys == {10} && !s.bookings[10].Blocking()
    requires s.active.Keys == {1} && s.active[1].rid == 10
    ensures FindConflictingUnitIds(s.bookings, 0, 0, 2, Some(20)) == {} && !InFlight(s, 20)
  {
  }

  /** Up to the first check-in's departure, the second still open. */
  lemma {:induction false} FirstComesAndGoes(d: Discipline)
    returns (actions: seq<Action>, s': State)
    requires !d.oneAtATime
    ensures Reaches(d, OneUnit(Confirmed), actions, s')
    ensures s'.unitLocks == map[] && s'.dayLocks == map[] && s'.units == map[1 := 0, 3 := 0]
    ensures 10 in s'.bookings
    ensures s'.bookings == map[10 := Reservation(0, CheckedOut, 0, 2, s'.bookings[10].rooms)]
    ensures s'.bookings[10].rooms.Keys == {1, 3}
    ensures s'.active == map[1 := Txn(CheckingIn, 10, Confirmed, 0, 0, 2, 0, 0, Working,
                                      [Assignment(3, 100)], {}, map[])]
  {
    var s := OneUnit(Confirmed);
    var second := BeginCheckIn(1, 10, [Assignment(3, 100)]);
    SecondBegins(d);
    OneMore(d, s, [], s, second);
    var more, s1 := ArrivesInTwo(d, s, [] + [second], Step(d, s, second));
    actions, s' := StaysAndLeaves(d, s, more, s1);
  }

  /** A new guest takes unit 1, then the second check-in commits. */
  lemma {:induction false} NewGuestThenSecond(d: Discipline, s: State, actions: seq<Action>,
                                              mid: State)
    returns (more: seq<Action>, s': State)
    requires Reaches(d, s, actions, mid)
    requires mid.unitLocks == map[] && mid.dayLocks == map[] && mid.units == map[1 := 0, 3 := 0]
    requires mid.bookings.Keys == {10} && mid.bookings[10].rooms.Keys == {1, 3}
    requires mid.bookings[10] == Reservation(0, CheckedOut, 0, 2, mid.bookings[10].rooms)
    requires mid.active == map[1 := Txn(CheckingIn, 10, Confirmed, 0, 0, 2, 0, 0, Working,
                                        [Assignment(3, 100)], {}, map[])]
    ensures Reaches(d, s, more, s') && !NoDoubleBooking(s'.bookings)
  {
    NewGuestFits(mid);
    var s1, s2;
    more, s1 := CreationStarts(d, s, actions, mid, 2, 20, 0, 2, 1);
    more, s2 := BookingFinishes(d, s, more, s1, 2, 1);
    more, s' := SecondCommits(d, s, more, s2);
    SameUnitSameNights(s'.bookings, 10, 20, 1);
  }

  /** With two transitions in flight on one reservation, a run exists that double-books: a second
      check-in began before the first; after the first has come and gone and a new guest has taken
      a freed unit, the second commits and makes the reservation blocking again. */
  lemma {:induction false} TwoInFlightDoubleBook()
    returns (s: State, actions: seq<Action>, s': State)
    ensures AtRest(s) && Reaches(Discipline(false, true, true), s, actions, s')
    ensures !NoDoubleBooking(s'.bookings)
  {
    s := OneUnit(Confirmed);
    OneUnitAtRest(Confirmed);
    hide *;
    var more, mid := FirstComesAndGoes(Discipline(false, true, true));
    actions, s' := NewGuestThenSecond(Discipline(false, true, true), s, more, mid);
  }
}
