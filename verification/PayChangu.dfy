/** The PayChangu webhook and its ledger, one row per charge id.  The signature check and the verify
    endpoint are booleans of each delivery; so is what the two reference lookups would find. */
module PayChangu {
  import opened Rows

  type ChargeId = string
  type Money = int

  datatype Status = Initiated | Pending | Successful | Failed | Refunded

  datatype Link = FolioPaymentRow(id: nat) | RentPaymentRow(id: nat)

  datatype Row = Row(refId: string, amount: Money, status: Status, link: Option<Link>)

  type Ledger = map<ChargeId, Row>

  /** One webhook call.  `parsed` is false for a body that is not JSON; txRef and chargeId are empty
      when missing; `folioPayment` and `rentPayment` are the rows carrying txRef, if any. */
  datatype Delivery = Delivery(signed: bool, parsed: bool, txRef: string, chargeId: string,
                               amount: Money, successful: bool, verified: bool,
                               folioPayment: Option<nat>, rentPayment: Option<nat>)
  {
    function Key(): ChargeId
    {
      if chargeId != "" then chargeId else txRef
    }

    predicate Accepted()
    {
      signed && parsed && txRef != ""
    }

    predicate Good()
    {
      successful && verified
    }
  }

  datatype Reply = Forbidden | BadRequest | AlreadyProcessed | MarkedFailed | Recorded

  /** The folio payment is looked up first; no match leaves the row as linked as it was. */
  function Linked(row: Row, d: Delivery): Row
  {
    if d.folioPayment.Some? then row.(link := Some(FolioPaymentRow(d.folioPayment.value)))
    else if d.rentPayment.Some? then row.(link := Some(RentPaymentRow(d.rentPayment.value)))
    else row
  }

  function Found(l: Ledger, d: Delivery): Row
  {
    if d.Key() in l then l[d.Key()] else Row(d.txRef, d.amount, Pending, None)
  }

  function Received(row: Row, d: Delivery): Row
  {
    if row.status == Successful then row
    else if !d.Good() then row.(status := Failed)
    else Linked(row, d).(status := Successful)
  }

  function Step(l: Ledger, d: Delivery): Ledger
  {
    if d.Accepted() then l[d.Key() := Received(Found(l, d), d)] else l
  }

  function Run(l: Ledger, ds: seq<Delivery>): Ledger
    decreases |ds|
  {
    if ds == [] then l else Run(Step(l, ds[0]), ds[1..])
  }

  class PayChanguLedger {
    var rows: Ledger

    constructor ()
      ensures rows == map[]
    {
      rows := map[];
    }

    method GetOrCreate(chargeId: ChargeId, defaults: Row) returns (txn: Row)
      modifies this
      ensures txn == if chargeId in old(rows) then old(rows)[chargeId] else defaults
      ensures rows == old(rows)[chargeId := txn]
    {
      if chargeId !in rows {
        rows := rows[chargeId := defaults];
      }
      txn := rows[chargeId];
    }

    method TryLink(chargeId: ChargeId, d: Delivery)
      requires chargeId in rows
      modifies this
      ensures rows == old(rows)[chargeId := Linked(old(rows)[chargeId], d)]
    {
      if d.folioPayment.Some? {
        rows := rows[chargeId := rows[chargeId].(
                       link := Some(FolioPaymentRow(d.folioPayment.value)))];
        return;
      }
      if d.rentPayment.Some? {
        rows := rows[chargeId := rows[chargeId].(link := Some(RentPaymentRow(d.rentPayment.value)))];
        return;
      }
    }

    method Webhook(d: Delivery) returns (reply: Reply)
      modifies this
      ensures rows == Step(old(rows), d)
      ensures reply == Forbidden <==> !d.signed
      ensures reply == BadRequest <==> d.signed && (!d.parsed || d.txRef == "")
      ensures reply == AlreadyProcessed <==>
                d.Accepted() && d.Key() in old(rows) && old(rows)[d.Key()].status == Successful
      ensures reply == Recorded ==> d.Good()
      ensures reply == MarkedFailed ==> !d.Good()
    {
      if !d.signed {
        return Forbidden;
      }
      if !d.parsed || d.txRef == "" {
        return BadRequest;
      }
      var chargeId := d.Key();
      var txn := GetOrCreate(chargeId, Row(d.txRef, d.amount, Pending, None));
      if txn.status == Successful {
        return AlreadyProcessed;
      }
      if !d.successful || !d.verified {
        rows := rows[chargeId := txn.(status := Failed)];
        return MarkedFailed;
      }
      TryLink(chargeId, d);
      rows := rows[chargeId := rows[chargeId].(status := Successful)];
      reply := Recorded;
    }
  }

  // ── What a run of deliveries leaves ───────────────────────────────

  predicate Mentions(d: Delivery, c: ChargeId)
  {
    d.Accepted() && d.Key() == c
  }

  predicate SucceedsIn(ds: seq<Delivery>, c: ChargeId)
  {
    exists i :: 0 <= i < |ds| && Mentions(ds[i], c) && ds[i].Good()
  }

  predicate MentionedIn(ds: seq<Delivery>, c: ChargeId)
  {
    exists i :: 0 <= i < |ds| && Mentions(ds[i], c)
  }

  lemma {:induction false} SplitFirst(ds: seq<Delivery>, c: ChargeId)
    requires ds != []
    ensures SucceedsIn(ds, c) <==>
              (Mentions(ds[0], c) && ds[0].Good()) || SucceedsIn(ds[1..], c)
    ensures MentionedIn(ds, c) <==> Mentions(ds[0], c) || MentionedIn(ds[1..], c)
  {
  }

  /** Main theorem: after any deliveries a charge has a row exactly when it had one or some accepted
      delivery is for it.  A row mentioned is SUCCESSFUL if it was before or if some delivery for
      the charge was successful and verified, and otherwise FAILED; a row not mentioned is
      untouched. */
  lemma {:induction false} FinalStatus(l: Ledger, ds: seq<Delivery>, c: ChargeId)
    ensures
      var end := Run(l, ds);
      && (c in end <==> c in l || MentionedIn(ds, c))
      && (!MentionedIn(ds, c) && c in l ==> end[c] == l[c])
      && (MentionedIn(ds, c) ==>
            end[c].status == if (c in l && l[c].status == Successful) || SucceedsIn(ds, c)
                             then Successful else Failed)
    decreases |ds|
  {
    if ds != [] {
      SplitFirst(ds, c);
      FinalStatus(Step(l, ds[0]), ds[1..], c);
      hide SucceedsIn, MentionedIn;
    }
  }

  lemma {:induction false} SameMentions(ds: seq<Delivery>, es: seq<Delivery>, c: ChargeId)
    requires forall d :: d in ds ==> d in es
    ensures MentionedIn(ds, c) ==> MentionedIn(es, c)
    ensures SucceedsIn(ds, c) ==> SucceedsIn(es, c)
  {
    if i :| 0 <= i < |ds| && Mentions(ds[i], c) { assert ds[i] in es; }
    if i :| 0 <= i < |ds| && Mentions(ds[i], c) && ds[i].Good() { assert ds[i] in es; }
  }

  /** So the statuses do not depend on the order or the number of the deliveries: two runs with the
      same deliveries among them end with the same rows in the same statuses. */
  lemma {:induction false} OrderAndRepetitionDoNotMatter(l: Ledger, ds: seq<Delivery>,
                                                         es: seq<Delivery>)
    requires forall d :: d in ds <==> d in es
    ensures Run(l, ds).Keys == Run(l, es).Keys
    ensures forall c :: c in Run(l, ds) ==> Run(l, ds)[c].status == Run(l, es)[c].status
  {
    forall c
      ensures c in Run(l, ds) <==> c in Run(l, es)
      ensures c in Run(l, ds) ==> Run(l, ds)[c].status == Run(l, es)[c].status
    {
      FinalStatus(l, ds, c);
      FinalStatus(l, es, c);
      SameMentions(ds, es, c);
      SameMentions(es, ds, c);
      hide Run, SucceedsIn, MentionedIn;
    }
  }

  /** A successful row is frozen, link and amount included. */
  lemma {:induction false} SuccessIsFinal(l: Ledger, ds: seq<Delivery>, c: ChargeId)
    requires c in l && l[c].status == Successful
    ensures c in Run(l, ds) && Run(l, ds)[c] == l[c]
    decreases |ds|
  {
    if ds != [] { SuccessIsFinal(Step(l, ds[0]), ds[1..], c); }
  }

  /** A row is linked when it succeeds, by the delivery that made it succeed. */
  lemma {:induction false} LinkedBySuccess(l: Ledger, d: Delivery, ds: seq<Delivery>)
    requires d.Accepted() && d.Good()
    requires d.Key() in l ==> l[d.Key()].status != Successful
    ensures
      var end := Run(Step(l, d), ds);
      d.Key() in end && end[d.Key()] == Linked(Found(l, d), d).(status := Successful)
  {
    SuccessIsFinal(Step(l, d), ds, d.Key());
  }

  lemma {:induction false} AmountKept(l: Ledger, ds: seq<Delivery>, c: ChargeId)
    requires c in l
    ensures c in Run(l, ds)
    ensures Run(l, ds)[c].amount == l[c].amount && Run(l, ds)[c].refId == l[c].refId
    decreases |ds|
  {
    if ds != [] { AmountKept(Step(l, ds[0]), ds[1..], c); }
  }

  /** The amount of a row is the first accepted delivery's, so unlike the status it does depend on
      the order. */
  lemma {:induction false} AmountIsTheFirst(l: Ledger, ds: seq<Delivery>)
    requires ds != [] && ds[0].Accepted() && ds[0].Key() !in l
    ensures
      var c := ds[0].Key();
      c in Run(l, ds) && Run(l, ds)[c].amount == ds[0].amount && Run(l, ds)[c].refId == ds[0].txRef
  {
    AmountKept(Step(l, ds[0]), ds[1..], ds[0].Key());
  }
}
