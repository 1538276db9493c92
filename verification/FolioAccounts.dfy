/** What the night audit posts, and how a folio's balance is made up over a whole stay. */
module FolioAccounts {
  import opened Rows
  import opened Inventory
  import opened Desk
  import opened DeskTheorems

  /** The rates of the rooms held, in row order. */
  function Rates(rooms: map<UnitId, Room>): seq<Money>
  {
    var order := Ordered(rooms.Keys);
    seq(|order|, i requires 0 <= i < |order| =>
      OrderedAt(rooms.Keys, i); rooms[order[i]].rate)
  }

  function RateSum(rooms: map<UnitId, Room>): Money
  {
    Sum(Rates(rooms))
  }

  /** The ROOM charges no user posted: those of the audit. */
  function AuditPosted(charges: seq<Charge>): Money
  {
    if charges == [] then 0
    else
      var last := charges[|charges| - 1];
      AuditPosted(charges[..|charges| - 1])
      + (if last.kind == RoomCharge && last.postedBy == None then last.amount else 0)
  }

  lemma {:induction false} TotalsConcat(a: seq<Charge>, b: seq<Charge>)
    ensures TotalCharges(a + b) == TotalCharges(a) + TotalCharges(b)
    ensures AuditPosted(a + b) == AuditPosted(a) + AuditPosted(b)
    decreases |b|
  {
    if b == [] {
      assert a + b == a;
    } else {
      var front := b[..|b| - 1];
      assert (a + b)[..|a + b| - 1] == a + front;
      TotalsConcat(a, front);
    }
  }

  lemma {:induction false} RoomChargesPrefix(charges: seq<Charge>, rates: seq<Money>)
    requires |charges| == |rates|
    requires forall i :: 0 <= i < |rates| ==> charges[i] == Charge(RoomCharge, rates[i], None)
    ensures TotalCharges(charges) == AuditPosted(charges) == Sum(rates)
    decreases |rates|
  {
    if rates != [] {
      RoomChargesPrefix(charges[..|charges| - 1], rates[..|rates| - 1]);
    }
  }

  lemma {:induction false} RoomChargesTotal(rooms: map<UnitId, Room>)
    ensures TotalCharges(RoomCharges(rooms)) == RateSum(rooms)
    ensures AuditPosted(RoomCharges(rooms)) == RateSum(rooms)
    ensures |RoomCharges(rooms)| == |rooms.Keys|
  {
    RoomChargesPrefix(RoomCharges(rooms), Rates(rooms));
  }

  /** One audit adds to every open in-house folio of the property exactly its room rates, to the
      charges and to the balance, and leaves every other folio as it was. */
  lemma {:induction false} AuditEffect(h: Hotel, property: PropertyId, today: Day,
                                       r: ReservationId)
    ensures
      var h' := NightAudit(h, property, today);
      && (r in h'.folios <==> r in h.folios)
      && (r in h.folios && !Posts(h, r, property) ==> h'.folios[r] == h.folios[r])
      && (Posts(h, r, property) ==>
            var was, now := h.folios[r], h'.folios[r];
            && now == was.(charges := now.charges)
            && TotalCharges(now.charges)
               == TotalCharges(was.charges) + RateSum(h.bookings[r].rooms)
            && AuditPosted(now.charges)
               == AuditPosted(was.charges) + RateSum(h.bookings[r].rooms)
            && |now.charges| == |was.charges| + |h.bookings[r].rooms.Keys|
            && Balance(now) == Balance(was) + RateSum(h.bookings[r].rooms))
  {
    if Posts(h, r, property) {
      RoomChargesTotal(h.bookings[r].rooms);
      TotalsConcat(h.folios[r].charges, RoomCharges(h.bookings[r].rooms));
    }
  }

  // ── A stay, from operation to operation ───────────────────────────

  /** How an operation moves the balance of an in-house folio. */
  function Moves(op: DeskOp, r: ReservationId, property: PropertyId, rates: Money): Money
  {
    match op
    case DoAudit(p, _) => if p == property then rates else 0
    case DoCharge(rid, _, amount, _) => if rid == r then amount else 0
    case DoPayment(rid, payment) => if rid == r then -payment.amount else 0
    case _ => 0
  }

  function Moved(ops: seq<DeskOp>, r: ReservationId, property: PropertyId, rates: Money): Money
  {
    if ops == [] then 0
    else Moves(ops[0], r, property, rates) + Moved(ops[1..], r, property, rates)
  }

  function Audits(ops: seq<DeskOp>, property: PropertyId): nat
  {
    if ops == [] then 0
    else (if ops[0].DoAudit? && ops[0].property == property then 1 else 0)
         + Audits(ops[1..], property)
  }

  ghost predicate Staying(h: Hotel, r: ReservationId)
  {
    r in h.bookings && h.bookings[r].status == CheckedIn && r in h.folios
    && h.folios[r].status == Open
  }

  /** A staying reservation can only stay or check out. */
  lemma {:induction false} StaysOrLeaves(h: Hotel, op: DeskOp, r: ReservationId)
    requires Staying(h, r)
    ensures r in Apply(h, op).0.bookings
    ensures
      var row := Apply(h, op).0.bookings[r];
      row == h.bookings[r] || row.status == CheckedOut
  {
    if op.DoCheckIn? { CheckInEffect(h, op.rid, op.assignments, op.now); }
    if op.DoCheckOut? { CheckOutEffect(h, op.rid, op.now); }
  }

  lemma {:induction false} OneMoreCharge(f: Folio, charge: Charge)
    ensures Balance(Post(f, [charge])) == Balance(f) + charge.amount
    ensures AuditPosted(Post(f, [charge]).charges)
            == AuditPosted(f.charges)
               + (if charge.kind == RoomCharge && charge.postedBy == None then charge.amount else 0)
  {
    TotalsConcat(f.charges, [charge]);
    assert [charge][..0] == [];
  }

  lemma {:induction false} OneMorePayment(f: Folio, payment: Payment)
    ensures Balance(f.(payments := f.payments + [payment])) == Balance(f) - payment.amount
  {
    assert (f.payments + [payment])[..|f.payments|] == f.payments;
  }

  /** Settling the folio of another reservation, or anything but an audit, charge or payment,
      leaves a staying guest's folio alone. */
  lemma {:induction false} OthersLeaveTheFolio(h: Hotel, op: DeskOp, r: ReservationId)
    requires Staying(h, r) && r in Apply(h, op).0.bookings
    requires Apply(h, op).0.bookings[r] == h.bookings[r]
    requires !op.DoAudit? && !op.DoCharge? && !op.DoPayment?
    ensures r in Apply(h, op).0.folios && Apply(h, op).0.folios[r] == h.folios[r]
  {
    match op
    case DoCheckIn(rid, assignments, now) => CheckInEffect(h, rid, assignments, now);
    case DoCheckOut(rid, now) => CheckOutEffect(h, rid, now);
    case _ =>
  }

  lemma {:induction false} StayStep(h: Hotel, op: DeskOp, r: ReservationId)
    requires Staying(h, r) && r in Apply(h, op).0.bookings
    requires Apply(h, op).0.bookings[r] == h.bookings[r]
    ensures Staying(Apply(h, op).0, r)
    ensures
      var was, now := h.folios[r], Apply(h, op).0.folios[r];
      var property, rates := h.bookings[r].property, RateSum(h.bookings[r].rooms);
      && Balance(now) == Balance(was) + Moves(op, r, property, rates)
      && AuditPosted(now.charges)
         == AuditPosted(was.charges)
            + (if op.DoAudit? && op.property == property then rates else 0)
  {
    hide Balance, AuditPosted, RateSum, TotalCharges, TotalPayments;
    match op
    case DoAudit(property, today) => AuditEffect(h, property, today, r);
    case DoCharge(rid, kind, amount, user) =>
      if rid == r { OneMoreCharge(h.folios[r], Charge(kind, amount, Some(user))); }
    case DoPayment(rid, payment) =>
      if rid == r { OneMorePayment(h.folios[r], payment); }
    case _ => OthersLeaveTheFolio(h, op, r);
  }

  /** From h to h' the guest stayed, `audits` audits were posted and the balance moved by
      `moved`. */
  ghost predicate StayAccount(h: Hotel, h': Hotel, r: ReservationId, audits: nat, moved: Money)
  {
    && Staying(h, r) && Staying(h', r) && h'.bookings[r] == h.bookings[r]
    && AuditPosted(h'.folios[r].charges)
       == AuditPosted(h.folios[r].charges) + audits * RateSum(h.bookings[r].rooms)
    && Balance(h'.folios[r]) == Balance(h.folios[r]) + moved
  }

  lemma Distribute(a: nat, b: nat, x: int)
    ensures (a + b) * x == a * x + b * x
  {
  }

  lemma {:induction false} AccountsCompose(h: Hotel, mid: Hotel, end: Hotel, r: ReservationId,
                                           a: nat, m: Money, b: nat, n: Money)
    requires StayAccount(h, mid, r, a, m) && StayAccount(mid, end, r, b, n)
    ensures StayAccount(h, end, r, a + b, m + n)
  {
    Distribute(a, b, RateSum(h.bookings[r].rooms));
  }

  lemma {:induction false} StepAccount(h: Hotel, op: DeskOp, r: ReservationId)
    requires Staying(h, r) && r in Apply(h, op).0.bookings
    requires Apply(h, op).0.bookings[r] == h.bookings[r]
    ensures
      var property, rates := h.bookings[r].property, RateSum(h.bookings[r].rooms);
      StayAccount(h, Apply(h, op).0, r, Audits([op], property), Moves(op, r, property, rates))
  {
    hide Apply, RateSum, Balance, AuditPosted;
    StayStep(h, op, r);
    assert [op][1..] == [];
  }

  lemma AuditsSplit(ops: seq<DeskOp>, property: PropertyId)
    requires ops != []
    ensures Audits(ops, property) == Audits([ops[0]], property) + Audits(ops[1..], property)
  {
    assert [ops[0]][1..] == [];
  }

  /** Main theorem: over any run during which a guest stays, with every other operation in
      between, the audit-posted charges grow by the sum of the room rates once per audit of the
      property, and the balance moves by exactly the audits, charges and payments. */
  lemma {:induction false} StayAddsUp(h: Hotel, ops: seq<DeskOp>, r: ReservationId)
    requires Staying(h, r)
    requires r in Run(h, ops).bookings && Run(h, ops).bookings[r].status == CheckedIn
    ensures
      var property, rates := h.bookings[r].property, RateSum(h.bookings[r].rooms);
      StayAccount(h, Run(h, ops), r, Audits(ops, property), Moved(ops, r, property, rates))
    decreases |ops|
  {
    hide Apply, RateSum, Balance, AuditPosted;
    if ops != [] {
      var h' := Apply(h, ops[0]).0;
      StaysOrLeaves(h, ops[0], r);
      if h'.bookings[r].status == CheckedOut {
        DepartureIsFinal(h', ops[1..], r);
      } else {
        StepAccount(h, ops[0], r);
        StayAddsUp(h', ops[1..], r);
        var property, rates := h.bookings[r].property, RateSum(h.bookings[r].rooms);
        AuditsSplit(ops, property);
        AccountsCompose(h, h', Run(h', ops[1..]), r,
                        Audits([ops[0]], property), Moves(ops[0], r, property, rates),
                        Audits(ops[1..], property), Moved(ops[1..], r, property, rates));
      }
    }
  }

  /** From the check-in on: k audits leave exactly k times the room rates in audit charges. */
  lemma {:induction false} AuditsSinceArrival(h: Hotel, rid: ReservationId,
                                              assignments: seq<Assignment>, now: Time,
                                              ops: seq<DeskOp>)
    requires InOrder(h) && CheckIn(h, rid, assignments, now).1 == Done
    requires
      var end := Run(CheckIn(h, rid, assignments, now).0, ops);
      rid in end.bookings && end.bookings[rid].status == CheckedIn
    ensures
      var arrived := CheckIn(h, rid, assignments, now).0;
      var end := Run(arrived, ops);
      var property, rates := h.bookings[rid].property, RateSum(arrived.bookings[rid].rooms);
      && rid in end.folios
      && AuditPosted(end.folios[rid].charges) == Audits(ops, property) * rates
      && Balance(end.folios[rid]) == Moved(ops, rid, property, rates)
  {
    CheckInEffect(h, rid, assignments, now);
    assert FolioFitsStatus(h, rid);
    StayAddsUp(CheckIn(h, rid, assignments, now).0, ops, rid);
  }
}
