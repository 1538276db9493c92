/** Leases of units: activation, termination and renewal. */
module Leases {
  import opened Rows
  import opened Inventory

  type LeaseId = nat

  datatype LeaseStatus = Draft | PendingSignature | Active | Expired | Terminated | Renewed

  /** escalation is in percent. */
  datatype Lease = Lease(unit: UnitId, start: Day, end: Day, rent: real, escalation: real,
                         status: LeaseStatus)

  /** `successor` is history: which lease renewed which.  The tables keep no such link. */
  datatype Register = Register(leases: map<LeaseId, Lease>, units: map<UnitId, UnitStatus>,
                               nextId: LeaseId, successor: map<LeaseId, LeaseId>)

  datatype Outcome = Done | NotFound | WrongStatus | UnitLeased | BadDates

  predicate Signable(status: LeaseStatus)
  {
    status == Draft || status == PendingSignature
  }

  predicate OtherActive(leases: map<LeaseId, Lease>, id: LeaseId)
    requires id in leases
  {
    exists k :: k in leases && k != id && leases[k].unit == leases[id].unit
                && leases[k].status == Active
  }

  function WriteDraft(r: Register, unit: UnitId, start: Day, end: Day, rent: real,
                      escalation: real): (Register, Outcome)
  {
    if unit !in r.units then (r, NotFound)
    else if end <= start then (r, BadDates)
    else
      (r.(leases := r.leases[r.nextId := Lease(unit, start, end, rent, escalation, Draft)],
          nextId := r.nextId + 1),
       Done)
  }

  function Activate(r: Register, id: LeaseId): (Register, Outcome)
  {
    if id !in r.leases then (r, NotFound)
    else if !Signable(r.leases[id].status) then (r, WrongStatus)
    else if OtherActive(r.leases, id) then (r, UnitLeased)
    else
      (r.(leases := r.leases[id := r.leases[id].(status := Active)],
          units := r.units[r.leases[id].unit := Occupied]),
       Done)
  }

  function Terminate(r: Register, id: LeaseId): (Register, Outcome)
  {
    if id !in r.leases then (r, NotFound)
    else if r.leases[id].status != Active then (r, WrongStatus)
    else
      (r.(leases := r.leases[id := r.leases[id].(status := Terminated)],
          units := r.units[r.leases[id].unit := Available]),
       Done)
  }

  /** An amount of zero counts as not given, but switches the escalation off. */
  function RenewalRent(was: Lease, amount: Option<real>): real
  {
    if amount == None && was.escalation > 0.0 then
      was.rent * (1.0 + was.escalation / 100.0)
    else if amount.Some? && amount.value != 0.0 then amount.value
    else was.rent
  }

  /** The table constraint lease_end_after_start refuses a successor that ends too early. */
  function Renew(r: Register, id: LeaseId, newEnd: Day, amount: Option<real>): (Register, Outcome)
  {
    if id !in r.leases then (r, NotFound)
    else if r.leases[id].status != Active && r.leases[id].status != Expired then (r, WrongStatus)
    else if newEnd <= r.leases[id].end then (r, BadDates)
    else
      var was := r.leases[id];
      var next := Lease(was.unit, was.end, newEnd, RenewalRent(was, amount), was.escalation, Active);
      (Register(r.leases[r.nextId := next][id := was.(status := Renewed)], r.units, r.nextId + 1,
                r.successor[id := r.nextId]),
       Done)
  }

  lemma RentGrows(rent: real, share: real)
    requires rent >= 0.0 && share >= 0.0
    ensures rent * (1.0 + share) >= rent
  {
    assert rent * (1.0 + share) == rent + rent * share;
  }

  /** Without a new amount the rent never falls; a given amount is taken as it is, except zero, which
      leaves the old rent. */
  lemma {:induction false} RentNeverFallsByItself(was: Lease, amount: Option<real>)
    requires was.rent >= 0.0
    ensures amount == None ==> RenewalRent(was, amount) >= was.rent
    ensures amount.Some? ==>
              RenewalRent(was, amount) == if amount.value == 0.0 then was.rent else amount.value
  {
    if amount == None && was.escalation > 0.0 {
      RentGrows(was.rent, was.escalation / 100.0);
    }
  }

  class LeaseBook {
    var leases: map<LeaseId, Lease>
    var units: map<UnitId, UnitStatus>
    var nextId: LeaseId
    ghost var successor: map<LeaseId, LeaseId>

    ghost function Book(): Register
      reads this
    {
      Register(leases, units, nextId, successor)
    }

    constructor (start: map<UnitId, UnitStatus>)
      ensures Book() == Register(map[], start, 0, map[])
    {
      leases, units, nextId, successor := map[], start, 0, map[];
    }

    method DraftLease(unit: UnitId, start: Day, end: Day, rent: real, escalation: real)
      returns (outcome: Outcome)
      modifies this
      ensures (Book(), outcome) == WriteDraft(old(Book()), unit, start, end, rent, escalation)
    {
      if unit !in units {
        return NotFound;
      }
      if end <= start {
        return BadDates;
      }
      leases := leases[nextId := Lease(unit, start, end, rent, escalation, Draft)];
      nextId := nextId + 1;
      outcome := Done;
    }

    method ActivateLease(id: LeaseId) returns (outcome: Outcome)
      modifies this
      ensures (Book(), outcome) == Activate(old(Book()), id)
    {
      if id !in leases {
        return NotFound;
      }
      if !Signable(leases[id].status) {
        return WrongStatus;
      }
      if OtherActive(leases, id) {
        return UnitLeased;
      }
      leases := leases[id := leases[id].(status := Active)];
      units := units[leases[id].unit := Occupied];
      outcome := Done;
    }

    method TerminateLease(id: LeaseId) returns (outcome: Outcome)
      modifies this
      ensures (Book(), outcome) == Terminate(old(Book()), id)
    {
      if id !in leases {
        return NotFound;
      }
      if leases[id].status != Active {
        return WrongStatus;
      }
      leases := leases[id := leases[id].(status := Terminated)];
      units := units[leases[id].unit := Available];
      outcome := Done;
    }

    method RenewLease(id: LeaseId, newEnd: Day, amount: Option<real>) returns (outcome: Outcome)
      modifies this
      ensures (Book(), outcome) == Renew(old(Book()), id, newEnd, amount)
    {
      if id !in leases {
        return NotFound;
      }
      var was := leases[id];
      if was.status != Active && was.status != Expired {
        return WrongStatus;
      }
      var start := was.end;
      var rent := if amount.Some? && amount.value != 0.0 then amount.value else was.rent;
      if amount == None && was.escalation > 0.0 {
        rent := was.rent * (1.0 + was.escalation / 100.0);
      }
      if newEnd <= start {
        return BadDates;
      }
      assert rent == RenewalRent(was, amount);
      leases := leases[nextId := Lease(was.unit, start, newEnd, rent, was.escalation, Active)];
      leases := leases[id := was.(status := Renewed)];
      successor := successor[id := nextId];
      nextId := nextId + 1;
      outcome := Done;
    }
  }

  // ── Whole runs ────────────────────────────────────────────────────

  datatype LeaseOp =
    | Drafting(unit: UnitId, start: Day, end: Day, rent: real, escalation: real)
    | Activation(id: LeaseId)
    | Termination(id: LeaseId)
    | Renewal(id: LeaseId, newEnd: Day, amount: Option<real>)

  function Step(r: Register, op: LeaseOp): Register
  {
    match op
    case Drafting(u, start, end, rent, escalation) =>
      WriteDraft(r, u, start, end, rent, escalation).0
    case Activation(id) => Activate(r, id).0
    case Termination(id) => Terminate(r, id).0
    case Renewal(id, newEnd, amount) => Renew(r, id, newEnd, amount).0
  }

  function Run(r: Register, ops: seq<LeaseOp>): Register
    decreases |ops|
  {
    if ops == [] then r else Run(Step(r, ops[0]), ops[1..])
  }

  /** At most one ACTIVE lease per unit. */
  ghost predicate OneActive(leases: map<LeaseId, Lease>)
  {
    forall a, b ::
      a in leases && b in leases && leases[a].status == Active && leases[b].status == Active
      && leases[a].unit == leases[b].unit
      ==> a == b
  }

  function RenewedIds(leases: map<LeaseId, Lease>): set<LeaseId>
  {
    set a | a in leases && leases[a].status == Renewed
  }

  ghost predicate OneToOne(successor: map<LeaseId, LeaseId>)
  {
    forall a, b :: a in successor && b in successor && successor[a] == successor[b] ==> a == b
  }

  /** Renewed leases have exactly one successor each, no lease succeeds two, and a successor is for
      the same unit and starts the day its predecessor ends. */
  ghost predicate Linear(r: Register)
  {
    && r.successor.Keys == RenewedIds(r.leases)
    && (forall a :: a in r.successor ==>
          var b := r.successor[a];
          && b in r.leases && a < b
          && r.leases[b].unit == r.leases[a].unit && r.leases[b].start == r.leases[a].end)
    && OneToOne(r.successor)
  }

  /** Some ACTIVE lease is for the unit. */
  ghost predicate Leased(leases: map<LeaseId, Lease>, u: UnitId)
  {
    exists a :: a in leases && leases[a].unit == u && leases[a].status == Active
  }

  ghost predicate OccupiedIffLeased(r: Register)
  {
    forall u :: u in r.units ==> (r.units[u] == Occupied <==> Leased(r.leases, u))
  }

  ghost predicate WellFormed(r: Register)
  {
    forall a :: a in r.leases ==>
      && a < r.nextId && r.leases[a].start < r.leases[a].end
      && r.leases[a].status != Expired && r.leases[a].unit in r.units
  }

  ghost predicate InOrder(r: Register)
  {
    OneActive(r.leases) && Linear(r) && OccupiedIffLeased(r) && WellFormed(r)
  }

  /** Changing one lease's status changes the letting of its own unit only. */
  lemma {:induction false} OneStatusChanges(leases: map<LeaseId, Lease>, id: LeaseId,
                                            row: Lease, u: UnitId)
    requires row.status != Active || id !in leases || leases[id].status != Active
    requires id in leases ==> leases[id].unit == row.unit
    ensures u != row.unit ==> (Leased(leases[id := row], u) <==> Leased(leases, u))
    ensures row.status == Active ==> Leased(leases[id := row], row.unit)
    ensures row.status != Active && (id in leases ==> leases[id].status != Active) ==>
              (Leased(leases[id := row], u) <==> Leased(leases, u))
    ensures OneActive(leases) && id in leases && leases[id].status == Active ==>
              !Leased(leases[id := row], row.unit)
  {
    var after := leases[id := row];
    if a :| a in leases && a != id && leases[a].unit == u && leases[a].status == Active {
      assert after[a] == leases[a];
    }
    if row.status == Active { assert after[id].unit == row.unit; }
  }

  /** Writing a row that is not RENEWED, new or with its unit and dates as they were, keeps the
      links. */
  lemma {:induction false} RowKeepsLinks(r: Register, id: LeaseId, row: Lease, r': Register)
    requires Linear(r) && r'.leases == r.leases[id := row] && r'.successor == r.successor
    requires row.status != Renewed
    requires id in r.leases ==>
               var was := r.leases[id];
               was.status != Renewed && was.unit == row.unit && was.start == row.start
               && was.end == row.end
    ensures Linear(r')
  {
    assert RenewedIds(r'.leases) == RenewedIds(r.leases);
    hide OneToOne, RenewedIds;
  }

  /** A row that becomes ACTIVE in a unit without an ACTIVE lease, or is not ACTIVE, keeps the
      letting one-to-one. */
  lemma {:induction false} RowKeepsOneActive(leases: map<LeaseId, Lease>, id: LeaseId, row: Lease)
    requires OneActive(leases)
    requires row.status == Active ==>
               forall k :: k in leases && k != id && leases[k].unit == row.unit ==>
                 leases[k].status != Active
    ensures OneActive(leases[id := row])
  {
  }

  lemma {:induction false} DraftKeepsOrder(r: Register, op: LeaseOp)
    requires InOrder(r) && op.Drafting?
    ensures InOrder(Step(r, op))
  {
    hide Linear, Leased, OneActive;
    var r' := Step(r, op);
    if r' != r {
      var row := r'.leases[r.nextId];
      RowKeepsLinks(r, r.nextId, row, r');
      RowKeepsOneActive(r.leases, r.nextId, row);
      forall u ensures Leased(r'.leases, u) <==> Leased(r.leases, u) {
        OneStatusChanges(r.leases, r.nextId, row, u);
      }
    }
  }

  lemma {:induction false} ActivationKeepsOrder(r: Register, id: LeaseId)
    requires InOrder(r)
    ensures InOrder(Activate(r, id).0)
  {
    hide Linear, Leased, OneActive;
    var r' := Activate(r, id).0;
    if r' != r {
      var row := r'.leases[id];
      RowKeepsLinks(r, id, row, r');
      RowKeepsOneActive(r.leases, id, row);
      forall u ensures u != row.unit ==> (Leased(r'.leases, u) <==> Leased(r.leases, u))
               ensures Leased(r'.leases, row.unit)
      {
        OneStatusChanges(r.leases, id, row, u);
      }
    }
  }

  lemma {:induction false} TerminationKeepsOrder(r: Register, id: LeaseId)
    requires InOrder(r)
    ensures InOrder(Terminate(r, id).0)
  {
    hide Linear, Leased, OneActive;
    var r' := Terminate(r, id).0;
    if r' != r {
      var row := r'.leases[id];
      RowKeepsLinks(r, id, row, r');
      RowKeepsOneActive(r.leases, id, row);
      forall u ensures u != row.unit ==> (Leased(r'.leases, u) <==> Leased(r.leases, u))
               ensures !Leased(r'.leases, row.unit)
      {
        OneStatusChanges(r.leases, id, row, u);
      }
    }
  }

  /** A renewal keeps one ACTIVE lease per unit exactly when the old lease was itself the ACTIVE one
      or the unit had none: the renewal of an EXPIRED lease does not look. */
  lemma {:induction false} RenewalKeepsOneActiveIff(r: Register, id: LeaseId, newEnd: Day,
                                                    amount: Option<real>)
    requires OneActive(r.leases) && r.nextId !in r.leases
    requires Renew(r, id, newEnd, amount).1 == Done
    ensures OneActive(Renew(r, id, newEnd, amount).0.leases)
            <==> r.leases[id].status == Active || !OtherActive(r.leases, id)
  {
    var leases := Renew(r, id, newEnd, amount).0.leases;
    if OtherActive(r.leases, id) {
      var k :| k in r.leases && k != id && r.leases[k].unit == r.leases[id].unit
               && r.leases[k].status == Active;
      assert leases[k] == r.leases[k] && leases[r.nextId].unit == r.leases[id].unit;
    }
  }

  lemma OneMoreSuccessor(successor: map<LeaseId, LeaseId>, a: LeaseId, b: LeaseId)
    requires OneToOne(successor) && forall k :: k in successor ==> successor[k] != b
    ensures OneToOne(successor[a := b])
  {
  }

  lemma RenewalKeepsForm(r: Register, id: LeaseId, newEnd: Day, amount: Option<real>)
    requires WellFormed(r) && Renew(r, id, newEnd, amount).1 == Done
    ensures WellFormed(Renew(r, id, newEnd, amount).0)
  {
    hide RenewalRent;
  }

  lemma {:induction false} RenewalKeepsLinks(r: Register, id: LeaseId, newEnd: Day,
                                             amount: Option<real>)
    requires Linear(r) && WellFormed(r) && Renew(r, id, newEnd, amount).1 == Done
    ensures Linear(Renew(r, id, newEnd, amount).0)
  {
    hide RenewalRent, OneToOne;
    OneMoreSuccessor(r.successor, id, r.nextId);
    var r' := Renew(r, id, newEnd, amount).0;
    assert r.nextId !in r.leases && id !in RenewedIds(r.leases);
    assert RenewedIds(r'.leases) == RenewedIds(r.leases) + {id};
    hide RenewedIds;
    forall a | a in r'.successor
      ensures
        var b := r'.successor[a];
        && b in r'.leases && a < b
        && r'.leases[b].unit == r'.leases[a].unit && r'.leases[b].start == r'.leases[a].end
    {
      if a != id { assert r.successor[a] in r.leases; }
    }
  }

  lemma {:induction false} RenewalKeepsLetting(r: Register, id: LeaseId, newEnd: Day,
                                               amount: Option<real>, u: UnitId)
    requires r.nextId !in r.leases && Renew(r, id, newEnd, amount).1 == Done
    requires r.leases[id].status == Active
    ensures Leased(Renew(r, id, newEnd, amount).0.leases, u) <==> Leased(r.leases, u)
  {
    hide RenewalRent;
    var leases := Renew(r, id, newEnd, amount).0.leases;
    if a :| a in r.leases && r.leases[a].unit == u && r.leases[a].status == Active {
      assert leases[if a == id then r.nextId else a].unit == u;
    }
    if a :| a in leases && leases[a].unit == u && leases[a].status == Active {
      assert r.leases[if a == r.nextId then id else a].unit == u;
    }
  }

  lemma {:induction false} RenewalKeepsOrder(r: Register, id: LeaseId, newEnd: Day,
                                             amount: Option<real>)
    requires InOrder(r)
    ensures InOrder(Renew(r, id, newEnd, amount).0)
  {
    if Renew(r, id, newEnd, amount).1 == Done {
      assert r.nextId !in r.leases && r.leases[id].status == Active;
      RenewalKeepsOneActiveIff(r, id, newEnd, amount);
      RenewalKeepsLinks(r, id, newEnd, amount);
      RenewalKeepsForm(r, id, newEnd, amount);
      forall u ensures Leased(Renew(r, id, newEnd, amount).0.leases, u) <==> Leased(r.leases, u) {
        RenewalKeepsLetting(r, id, newEnd, amount, u);
      }
      hide Linear, OneActive, Leased, WellFormed;
    }
  }

  lemma {:induction false} StepKeepsOrder(r: Register, op: LeaseOp)
    requires InOrder(r)
    ensures InOrder(Step(r, op))
  {
    hide InOrder, Activate, Terminate, Renew, WriteDraft;
    match op
    case Drafting(_, _, _, _, _) => DraftKeepsOrder(r, op);
    case Activation(id) => ActivationKeepsOrder(r, id);
    case Termination(id) => TerminationKeepsOrder(r, id);
    case Renewal(id, newEnd, amount) => RenewalKeepsOrder(r, id, newEnd, amount);
  }

  lemma {:induction false} RunKeepsOrder(r: Register, ops: seq<LeaseOp>)
    requires InOrder(r)
    ensures InOrder(Run(r, ops))
    decreases |ops|
  {
    if ops != [] {
      StepKeepsOrder(r, ops[0]);
      RunKeepsOrder(Step(r, ops[0]), ops[1..]);
    }
  }

  /** Main theorem: over every run from a register without leases and without occupied units, each
      unit has at most one ACTIVE lease and is OCCUPIED exactly while it has one, and renewals form
      linear, gap-free chains. */
  lemma {:induction false} RunsStayInOrder(units: map<UnitId, UnitStatus>, ops: seq<LeaseOp>)
    requires forall u :: u in units ==> units[u] != Occupied
    ensures InOrder(Run(Register(map[], units, 0, map[]), ops))
  {
    RunKeepsOrder(Register(map[], units, 0, map[]), ops);
  }

  /** The leases of one history from a lease on, in order. */
  ghost function ChainFrom(r: Register, a: LeaseId): (chain: seq<LeaseId>)
    requires InOrder(r) && a in r.leases
    ensures chain != [] && chain[0] == a
    ensures forall i :: 0 <= i < |chain| ==> chain[i] in r.leases
    decreases r.nextId - a
  {
    if a in r.successor then [a] + ChainFrom(r, r.successor[a]) else [a]
  }

  /** Along a history every period begins where the one before ends, the unit stays the same, every
      lease but the last is RENEWED, and so only the last may be ACTIVE. */
  lemma {:induction false} HistoryIsGapFree(r: Register, a: LeaseId, i: nat)
    requires InOrder(r) && a in r.leases && i < |ChainFrom(r, a)|
    ensures
      var chain := ChainFrom(r, a);
      && r.leases[chain[i]].unit == r.leases[a].unit
      && (i + 1 < |chain| ==>
            && r.leases[chain[i]].status == Renewed
            && r.leases[chain[i + 1]].start == r.leases[chain[i]].end)
      && (i + 1 == |chain| ==> r.leases[chain[i]].status != Renewed)
    decreases r.nextId - a
  {
    if a in r.successor && i > 0 {
      HistoryIsGapFree(r, r.successor[a], i - 1);
    }
  }

  /** Renewing an EXPIRED lease of a unit let again leaves two ACTIVE leases. */
  lemma {:induction false} RenewingExpiredBreaks() returns (r: Register)
    ensures OneActive(r.leases) && Renew(r, 0, 30, None).1 == Done
    ensures !OneActive(Renew(r, 0, 30, None).0.leases)
  {
    r := Register(map[0 := Lease(7, 0, 10, 100.0, 0.0, Expired),
                      1 := Lease(7, 10, 20, 100.0, 0.0, Active)],
                  map[7 := Occupied], 2, map[]);
    assert OtherActive(r.leases, 0) by { assert r.leases[1].status == Active; }
    RenewalKeepsOneActiveIff(r, 0, 30, None);
  }
}
