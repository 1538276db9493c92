/** The sync endpoint: a batch of deliveries applied in order, each in a transaction that rolls
    back on a conflict or an error. */
module SyncBatch {
  import opened Rows
  import opened Inventory
  import opened Desk
  import opened SyncServer
  import FrontDesk

  lemma DeliverOneMore(h: Hotel, ds: seq<Delivery>, i: nat)
    requires i < |ds|
    ensures Deliver(h, ds[..i + 1]) == Handle(Deliver(h, ds[..i]), ds[i]).hotel
    ensures Verdicts(h, ds[..i + 1])
            == Verdicts(h, ds[..i]) + [Handle(Deliver(h, ds[..i]), ds[i]).verdict]
    decreases i
  {
    hide Handle;
    if i == 0 {
      assert ds[..1][1..] == [];
    } else {
      DeliverOneMore(Handle(h, ds[0]).hotel, ds[1..], i - 1);
      assert ds[..i + 1][1..] == ds[1..][..i];
      assert ds[..i][1..] == ds[1..][..i - 1];
    }
  }

  /** How many results carry a status. */
  function Tally(results: seq<Verdict>, v: Verdict): nat
  {
    if results == [] then 0
    else (if results[0] == v then 1 else 0) + Tally(results[1..], v)
  }

  lemma {:induction false} EveryVerdictIsCounted(vs: seq<Verdict>)
    ensures |vs| == Tally(vs, Synced(Applied)) + Tally(vs, Synced(Duplicate))
                    + Tally(vs, Synced(Deleted)) + Tally(vs, Conflict) + Tally(vs, Failed)
                    + Tally(vs, Rejected)
  {
    if vs != [] {
      EveryVerdictIsCounted(vs[1..]);
      match vs[0] {
        case Synced(Applied) =>
        case Synced(Duplicate) =>
        case Synced(Deleted) =>
        case _ =>
      }
    }
  }

  class SyncView {
    const hotel: FrontDesk.HotelDb

    constructor (db: FrontDesk.HotelDb)
      ensures hotel == db
    {
      hotel := db;
    }

    /** task.save() and its signal. */
    method SaveTask(tid: TaskId, status: TaskStatus, user: UserId, now: Time)
      requires tid in hotel.tasks
      modifies hotel`tasks, hotel`units
      ensures hotel.tasks == old(hotel.tasks)[tid := Saved(old(hotel.tasks)[tid], status, user, now)]
      ensures hotel.units == TaskSignal(old(hotel.units), old(hotel.tasks)[tid].unit, status)
    {
      var t := hotel.tasks[tid].(status := status);
      if status == Inspected {
        t := t.(inspectedBy := Some(user));
      }
      if status == InProgress && t.startedAt == None {
        t := t.(startedAt := Some(now));
      }
      if (status == Completed || status == Inspected) && t.completedAt == None {
        t := t.(completedAt := Some(now));
      }
      hotel.tasks := hotel.tasks[tid := t];
      if t.unit in hotel.units {
        var unit := hotel.units[t.unit];
        if status == Completed {
          if unit.status == Cleaning {
            hotel.units := hotel.units[t.unit := unit.(status := Available)];
          }
        } else if status == Inspected {
          if unit.status == Cleaning || unit.status == Available {
            hotel.units := hotel.units[t.unit := unit.(status := Available)];
          }
        }
      }
    }

    method HandleHousekeeping(tid: TaskId, wanted: Option<TaskStatus>, user: UserId, now: Time)
      returns (v: Verdict)
      modifies hotel
      ensures Effect(hotel.Rows(), v) == Housekeeping(old(hotel.Rows()), tid, wanted, user, now)
    {
      if tid !in hotel.tasks {
        return Synced(Deleted);
      }
      var current := hotel.tasks[tid].status;
      if wanted == Some(current) {
        return Synced(Duplicate);
      }
      if wanted == None || !Allowed(current, wanted.value) {
        return Conflict;
      }
      SaveTask(tid, wanted.value, user, now);
      v := Synced(Applied);
    }

    method HandleCharge(fid: ReservationId, charge: Option<NewCharge>, user: UserId)
      returns (v: Verdict)
      modifies hotel
      ensures Effect(hotel.Rows(), v) == AddCharge(old(hotel.Rows()), fid, charge, user)
    {
      if fid !in hotel.folios {
        return Synced(Deleted);
      }
      if charge == None {
        return Failed;
      }
      var posted := hotel.AddCharge(fid, Charge(charge.value.kind, charge.value.amount, Some(user)));
      v := Synced(Applied);
    }

    method HandlePayment(fid: ReservationId, reference: string, paid: Option<Paid>)
      returns (v: Verdict)
      modifies hotel
      ensures Effect(hotel.Rows(), v) == AddPayment(old(hotel.Rows()), fid, reference, paid)
    {
      if fid !in hotel.folios {
        return Synced(Deleted);
      }
      if reference != "" && Referenced(hotel.folios[fid].payments, reference) {
        return Synced(Duplicate);
      }
      if paid == None {
        return Failed;
      }
      var taken := hotel.AddPayment(fid, Payment(paid.value.means, paid.value.amount, reference));
      v := Synced(Applied);
    }

    method HandleReservation(rid: ReservationId, wanted: Wanted, now: Time) returns (v: Verdict)
      requires RoomsExist(hotel.Rows())
      modifies hotel
      ensures Effect(hotel.Rows(), v) == ChangeReservation(old(hotel.Rows()), rid, wanted, now)
    {
      hide CheckIn, CheckOut;
      if rid !in hotel.bookings {
        return Synced(Deleted);
      }
      var outcome := Done;
      match wanted {
        case WantIn(room) =>
          if hotel.bookings[rid].status == CheckedIn {
            return Synced(Duplicate);
          }
          if room == None || room.value.unit !in hotel.units {
            return Failed;
          }
          outcome := hotel.CheckInReservation(rid, [room.value], now);
        case WantOut =>
          if hotel.bookings[rid].status == CheckedOut {
            return Synced(Duplicate);
          }
          outcome := hotel.CheckOutReservation(rid, now);
        case WantOther =>
      }
      v := if outcome == Done then Synced(Applied) else Conflict;
    }

    /** Dispatch to the handler registered for the endpoint. */
    method Dispatch(d: Delivery) returns (v: Verdict)
      requires RoomsExist(hotel.Rows())
      modifies hotel
      ensures Effect(hotel.Rows(), v) == Handle(old(hotel.Rows()), d)
    {
      hide Housekeeping, SyncServer.AddCharge, SyncServer.AddPayment, ChangeReservation;
      match d.op {
        case HousekeepingStatus(tid, status) => v := HandleHousekeeping(tid, status, d.user, d.now);
        case FolioCharge(fid, charge) => v := HandleCharge(fid, charge, d.user);
        case FolioPayment(fid, reference, paid) => v := HandlePayment(fid, reference, paid);
        case FolioOther => v := Conflict;
        case ReservationStatus(rid, wanted) => v := HandleReservation(rid, wanted, d.now);
        case Unregistered => v := Rejected;
      }
    }

    method ApplyOperation(d: Delivery) returns (v: Verdict)
      requires RoomsExist(hotel.Rows())
      modifies hotel
      ensures Effect(hotel.Rows(), v) == Handle(old(hotel.Rows()), d)
      ensures !v.Synced? ==> hotel.Rows() == old(hotel.Rows())
      ensures RoomsExist(hotel.Rows())
    {
      OnlyAppliedActs(hotel.Rows(), d);
      HandleKeepsRooms(hotel.Rows(), d);
      hide Handle, RoomsExist;
      var savepoint := hotel.Rows();
      v := Dispatch(d);
      if v == Conflict || v == Failed {
        hotel.Restore(savepoint);
      }
    }

    /** Results in the order and number of the operations; the tally calls everything synced that
        is neither a conflict nor a failure, rejected operations included. */
    method Post(operations: seq<Delivery>)
      returns (results: seq<Verdict>, synced: nat, conflicts: nat, failed: nat)
      requires RoomsExist(hotel.Rows())
      modifies hotel
      ensures hotel.Rows() == Deliver(old(hotel.Rows()), operations)
      ensures hotel.Rows() == Deliver(old(hotel.Rows()), SyncedOf(old(hotel.Rows()), operations))
      ensures results == Verdicts(old(hotel.Rows()), operations)
      ensures conflicts == Tally(results, Conflict) && failed == Tally(results, Failed)
      ensures synced == Tally(results, Synced(Applied)) + Tally(results, Synced(Duplicate))
                        + Tally(results, Synced(Deleted)) + Tally(results, Rejected)
    {
      ghost var h := hotel.Rows();
      results := [];
      for i := 0 to |operations|
        invariant RoomsExist(hotel.Rows())
        invariant hotel.Rows() == Deliver(h, operations[..i])
        invariant results == Verdicts(h, operations[..i])
      {
        DeliverOneMore(h, operations, i);
        hide Deliver, Verdicts, Handle, RoomsExist;
        var result := ApplyOperation(operations[i]);
        results := results + [result];
      }
      assert operations[..|operations|] == operations;
      OnlySyncedMatter(h, operations);
      EveryVerdictIsCounted(results);
      conflicts, failed := Tally(results, Conflict), Tally(results, Failed);
      synced := |results| - conflicts - failed;
    }
  }
}
