/** What every run of the billing jobs, payments and plan changes keeps. */
module BillingTheorems {
  import opened Rows
  import opened Billing
  import Calendar

  // ── PAID means covered ────────────────────────────────────────────

  /** After some payment the payments so far came to the amount. */
  predicate EverCovered(inv: Invoice)
  {
    exists k :: 0 < k <= |inv.payments| && Total(inv.payments[..k]) >= inv.amount
  }

  ghost predicate PaidIffCovered(inv: Invoice)
  {
    inv.status == Paid <==> EverCovered(inv)
  }

  ghost predicate BooksHonest(a: Account)
  {
    forall i :: 0 <= i < |a.invoices| ==> PaidIffCovered(a.invoices[i])
  }

  lemma {:induction false} PaymentKeepsPaidIffCovered(inv: Invoice, p: Payment)
    requires PaidIffCovered(inv)
    ensures PaidIffCovered(Received(inv, p))
  {
    var n, payments := |inv.payments|, inv.payments + [p];
    hide Total;
    forall k | 0 < k <= n ensures payments[..k] == inv.payments[..k] {}
    assert payments[..n + 1] == payments;
    if k :| 0 < k <= n && Total(inv.payments[..k]) >= inv.amount {
      assert Total(payments[..k]) >= inv.amount;
    }
  }

  lemma {:induction false} EffectKeepsBooks(a: Account, op: BillingOp, id: SubscriptionId,
                                            today: Day, known: bool)
    requires BooksHonest(a)
    ensures BooksHonest(Effect(a, op, id, today, known))
  {
    hide Total, Received, InvoicedFrom, NextPeriodEnd, Price, HasOverdue;
    var a' := Effect(a, op, id, today, known);
    match op
    case Paying(s, i, p) =>
      if i < |a.invoices| { PaymentKeepsPaidIffCovered(a.invoices[i], p); }
    case FlagOverdue =>
      forall i | 0 <= i < |a'.invoices| ensures PaidIffCovered(a'.invoices[i]) {
        assert PaidIffCovered(a.invoices[i]);
      }
    case PlanChange(_, _) =>
      forall i | 0 <= i < |a'.invoices| ensures PaidIffCovered(a'.invoices[i]) {
        assert PaidIffCovered(a.invoices[i]);
      }
    case _ =>
  }

  /** Without negative payments the total only grows. */
  lemma {:induction false} TotalGrows(payments: seq<Payment>, k: nat)
    requires k <= |payments| && forall j :: 0 <= j < |payments| ==> payments[j].amount >= 0
    ensures 0 <= Total(payments[..k]) <= Total(payments)
  {
    var n := |payments| - 1;
    if payments == [] {
      assert payments[..k] == payments;
    } else if k <= n {
      TotalGrows(payments[..n], k);
      assert payments[..n][..k] == payments[..k];
    } else {
      TotalGrows(payments[..n], n);
      assert payments[..k] == payments && payments[..n][..n] == payments[..n];
    }
  }

  /** So without them, covered at some time is covered now. */
  lemma {:induction false} CoveredWithoutRefunds(inv: Invoice)
    requires forall j :: 0 <= j < |inv.payments| ==> inv.payments[j].amount >= 0
    ensures EverCovered(inv) <==> inv.payments != [] && Total(inv.payments) >= inv.amount
  {
    var n := |inv.payments|;
    assert inv.payments[..n] == inv.payments;
    if k :| 0 < k <= n && Total(inv.payments[..k]) >= inv.amount { TotalGrows(inv.payments, k); }
  }

  // ── The chain of invoices ─────────────────────────────────────────

  /** The non-VOID invoices, oldest first. */
  function Live(invoices: seq<Invoice>): seq<Invoice>
  {
    if invoices == [] then []
    else
      var last := invoices[|invoices| - 1];
      Live(invoices[..|invoices| - 1]) + (if last.status == Void then [] else [last])
  }

  /** Invoice i is paid, and the one after it begins where it ends. */
  predicate Follows(live: seq<Invoice>, i: nat)
    requires i < |live| - 1
  {
    live[i].end == live[i + 1].start && live[i].status == Paid
  }

  /** From `origin` on, each period starts where the one before ends, and only the last invoice may
      be unpaid. */
  ghost predicate GapFree(live: seq<Invoice>, origin: Day)
  {
    && (live != [] ==> live[0].start == origin)
    && (forall i :: 0 <= i < |live| ==>
          live[i].start < live[i].end && live[i].status != Draft && live[i].status != Void)
    && (forall i :: 0 <= i < |live| - 1 ==> Follows(live, i))
  }

  /** Payments have come in and the invoice is still not PAID. */
  predicate PartlyPaid(inv: Invoice)
  {
    inv.payments != [] && inv.status != Paid
  }

  /** An invoice partly paid, open or VOID by now, ends where the subscription's period ends. */
  predicate PartlyPaidEndsAt(invoices: seq<Invoice>, end: Day)
  {
    exists i :: 0 <= i < |invoices| && PartlyPaid(invoices[i]) && invoices[i].end == end
  }

  /** Where the chain ends. */
  function ChainEnd(live: seq<Invoice>, origin: Day): Day
  {
    if live == [] then origin else live[|live| - 1].end
  }

  /** How the subscription's own dates go with the last invoice. */
  ghost predicate PeriodFits(a: Account, live: seq<Invoice>, origin: Day, today: Day)
  {
    if live != [] && live[|live| - 1].status != Paid then
      var last := live[|live| - 1];
      && last.due >= last.start && (last.status == Overdue ==> last.due < today)
      && ((a.periodEnd == last.start && (last.payments != [] ==> last.end < today))
          || (a.periodEnd == last.end && last.payments != []))
    else
      || a.periodEnd == ChainEnd(live, origin)
      || (live != [] && a.periodEnd == live[|live| - 1].start && live[|live| - 1].end < today)
      || (a.periodEnd > ChainEnd(live, origin) && PartlyPaidEndsAt(a.invoices, a.periodEnd))
  }

  /** An invoice voided after a part payment is over, or is where the period has moved to. */
  ghost predicate VoidsFit(a: Account, live: seq<Invoice>, origin: Day, today: Day)
  {
    forall i :: 0 <= i < |a.invoices| && a.invoices[i].status == Void
                && a.invoices[i].payments != [] ==>
      a.invoices[i].end < today
      || (a.invoices[i].end == a.periodEnd && a.periodEnd > ChainEnd(live, origin))
  }

  ghost predicate Chained(a: Account, origin: Day, today: Day)
  {
    var live := Live(a.invoices);
    && GapFree(live, origin) && PeriodFits(a, live, origin, today)
    && VoidsFit(a, live, origin, today)
    && (a.status == Trial ==> a.invoices == [] && a.periodEnd <= a.trialEndsAt)
  }

  /** Payments are for open invoices, neither VOID nor PAID, unless they are redeliveries; trials are
      not shortened. */
  predicate Orderly(a: Account, op: BillingOp, id: SubscriptionId, known: bool)
  {
    && (op.Extension? && op.id == id ==> op.days >= 0)
    && (op.Paying? && op.id == id && op.invoice < |a.invoices| && !known ==>
          a.invoices[op.invoice].status != Void && a.invoices[op.invoice].status != Paid)
  }

  lemma LiveAppend(invoices: seq<Invoice>, inv: Invoice)
    ensures Live(invoices + [inv]) == Live(invoices) + (if inv.status == Void then [] else [inv])
  {
    assert (invoices + [inv])[..|invoices|] == invoices;
  }

  lemma {:induction false} LiveAged(invoices: seq<Invoice>, today: Day)
    ensures Live(AgedAll(invoices, today)) == AgedAll(Live(invoices), today)
  {
    if invoices == [] {
      assert AgedAll([], today) == [];
    } else {
      var front := invoices[..|invoices| - 1];
      LiveAged(front, today);
      assert AgedAll(invoices, today)[..|front|] == AgedAll(front, today);
      assert AgedAll(Live(invoices), today)[..|Live(front)|] == AgedAll(Live(front), today);
    }
  }

  /** What voiding leaves of a list of non-VOID invoices. */
  function Kept(live: seq<Invoice>): seq<Invoice>
  {
    if live == [] then []
    else
      var last := live[|live| - 1];
      Kept(live[..|live| - 1])
      + (if Unsettled(last.status) || last.status == Void then [] else [last])
  }

  lemma KeptAppend(live: seq<Invoice>, inv: Invoice)
    ensures Kept(live + [inv])
            == Kept(live) + (if Unsettled(inv.status) || inv.status == Void then [] else [inv])
  {
    assert (live + [inv])[..|live|] == live;
  }

  lemma VoidedAppend(invoices: seq<Invoice>, inv: Invoice)
    ensures Voided(invoices + [inv]) == Voided(invoices) + [VoidedOne(inv)]
    ensures Voided([]) == []
  {
    hide VoidedOne;
  }

  lemma LiveVoidedStep(front: seq<Invoice>, last: Invoice)
    requires Live(Voided(front)) == Kept(Live(front))
    ensures Live(Voided(front + [last])) == Kept(Live(front + [last]))
  {
    hide Live, Kept, Voided;
    var left := VoidedOne(last);
    LiveAppend(front, last);
    VoidedAppend(front, last);
    LiveAppend(Voided(front), left);
    if last.status == Void {
      NothingMore(Live(front));
      NothingMore(Live(Voided(front)));
    } else {
      KeptAppend(Live(front), last);
    }
  }

  lemma {:induction false} LiveVoided(invoices: seq<Invoice>)
    ensures Live(Voided(invoices)) == Kept(Live(invoices))
  {
    if invoices == [] {
      VoidedAppend([], Invoice(0, 0, 0, 0, Void, []));
      assert Live([]) == [] && Kept([]) == [];
    } else {
      hide *;
      var front, last := invoices[..|invoices| - 1], invoices[|invoices| - 1];
      LiveVoided(front);
      LiveVoidedStep(front, last);
      assert invoices == front + [last];
    }
  }

  lemma {:induction false} KeptOfPaid(live: seq<Invoice>)
    requires forall i :: 0 <= i < |live| ==> live[i].status == Paid
    ensures Kept(live) == live
  {
    if live != [] {
      var front := live[..|live| - 1];
      KeptOfPaid(front);
      assert live == front + [live[|live| - 1]];
    }
  }

  /** Of a chain only an issued last invoice is voided. */
  lemma {:induction false} KeptOfChain(live: seq<Invoice>, origin: Day)
    requires GapFree(live, origin)
    ensures Kept(live) == if live != [] && live[|live| - 1].status == Issued
                          then live[..|live| - 1] else live
  {
    if live != [] {
      var front := live[..|live| - 1];
      forall i | 0 <= i < |front| ensures front[i].status == Paid {
        assert Follows(live, i);
      }
      KeptOfPaid(front);
    }
  }

  /** Where a non-VOID invoice stands among the non-VOID ones. */
  lemma {:induction false} LivePosition(invoices: seq<Invoice>, i: nat, inv: Invoice)
    returns (p: nat)
    requires i < |invoices| && invoices[i].status != Void && inv.status != Void
    ensures p < |Live(invoices)| && Live(invoices)[p] == invoices[i]
    ensures Live(invoices[i := inv]) == Live(invoices)[p := inv]
  {
    var n := |invoices| - 1;
    var front, last := invoices[..n], invoices[n];
    hide Live;
    assert invoices == front + [last];
    LiveAppend(front, last);
    if i == n {
      p := |Live(front)|;
      assert invoices[i := inv] == front + [inv];
      LiveAppend(front, inv);
      assert (Live(front) + [last])[p := inv] == Live(front) + [inv];
    } else {
      p := LivePosition(front, i, inv);
      assert invoices[i := inv] == front[i := inv] + [last];
      LiveAppend(front[i := inv], last);
      var tail := if last.status == Void then [] else [last];
      assert (Live(front) + tail)[p := inv] == Live(front)[p := inv] + tail;
    }
  }

  /** A new invoice at the end of the last period, when nothing is unpaid. */
  lemma {:induction false} NewInvoiceKeepsChain(live: seq<Invoice>, origin: Day, inv: Invoice)
    requires GapFree(live, origin) && inv.start < inv.end
    requires inv.status != Draft && inv.status != Void
    requires if live == [] then inv.start == origin
             else live[|live| - 1].status == Paid && inv.start == live[|live| - 1].end
    ensures GapFree(live + [inv], origin)
  {
    forall i | 0 <= i < |live| ensures Follows(live + [inv], i) {
      if i < |live| - 1 { assert Follows(live, i); }
    }
  }

  lemma {:induction false} LastReplacedKeepsChain(live: seq<Invoice>, origin: Day, inv: Invoice)
    requires live != [] && GapFree(live, origin)
    requires inv.start == live[|live| - 1].start && inv.end == live[|live| - 1].end
    requires inv.status != Draft && inv.status != Void
    ensures GapFree(live[|live| - 1 := inv], origin)
  {
    var live' := live[|live| - 1 := inv];
    forall i | 0 <= i < |live'| - 1 ensures Follows(live', i) { assert Follows(live, i); }
  }

  lemma {:induction false} AgedChain(live: seq<Invoice>, origin: Day, today: Day)
    requires GapFree(live, origin)
    ensures GapFree(AgedAll(live, today), origin)
  {
    var aged := AgedAll(live, today);
    forall i | 0 <= i < |aged| - 1 ensures Follows(aged, i) { assert Follows(live, i); }
  }

  lemma PaidUnlessLast(live: seq<Invoice>, origin: Day, k: nat)
    requires GapFree(live, origin) && k < |live| - 1
    ensures live[k].status == Paid && live[k].end == live[k + 1].start
  {
    assert Follows(live, k);
  }

  lemma StartsAtOrigin(live: seq<Invoice>, origin: Day)
    requires live != [] && GapFree(live, origin)
    ensures live[0].start == origin
  {
  }

  /** Without its last invoice a chain ends paid. */
  lemma {:induction false} ShorterChain(live: seq<Invoice>, origin: Day)
    requires live != [] && GapFree(live, origin)
    ensures
      var n := |live| - 1;
      && GapFree(live[..n], origin)
      && ChainEnd(live[..n], origin) == live[n].start < live[n].end
      && (n > 0 ==> live[n - 1].status == Paid)
  {
    var n := |live| - 1;
    var front := live[..n];
    forall i | 0 <= i < n - 1 ensures Follows(front, i) { assert Follows(live, i); }
    assert GapFree(front, origin);
    assert live[n].start < live[n].end;
    hide GapFree;
    if n > 0 {
      PaidUnlessLast(live, origin, n - 1);
      assert front[n - 1] == live[n - 1];
    } else {
      StartsAtOrigin(live, origin);
    }
  }

  lemma PeriodFitsNext(a: Account, live: seq<Invoice>, origin: Day, today: Day, inv: Invoice,
                       status: Status)
    requires inv.status == Issued && inv.payments == [] && inv.start <= inv.due
    requires a.periodEnd == inv.start
    ensures PeriodFits(a.(status := status, invoices := a.invoices + [inv]), live + [inv], origin,
                       today)
  {
    assert (live + [inv])[|live|] == inv;
  }

  lemma VoidsFitNext(a: Account, live: seq<Invoice>, origin: Day, today: Day, inv: Invoice,
                     status: Status)
    requires VoidsFit(a, live, origin, today) && inv.status == Issued
    requires a.periodEnd == ChainEnd(live, origin)
    ensures VoidsFit(a.(status := status, invoices := a.invoices + [inv]), live + [inv], origin,
                     today)
  {
    var invoices := a.invoices + [inv];
    forall i | 0 <= i < |invoices| && invoices[i].status == Void
      ensures i < |a.invoices| && invoices[i] == a.invoices[i]
    {
    }
  }

  /** The next invoice, issued from the chain's end when nothing is unpaid. */
  lemma {:induction false} NextInvoiceKeepsChain(a: Account, origin: Day, today: Day,
                                                 inv: Invoice, status: Status)
    requires Chained(a, origin, today) && status != Trial
    requires inv.status == Issued && inv.payments == [] && inv.start < inv.end
    requires inv.start <= inv.due && inv.start == a.periodEnd
    requires
      var live := Live(a.invoices);
      && a.periodEnd == ChainEnd(live, origin)
      && (live != [] ==> live[|live| - 1].status == Paid)
    ensures Chained(a.(status := status, invoices := a.invoices + [inv]), origin, today)
  {
    hide GapFree, Live, PeriodFits, VoidsFit;
    var live := Live(a.invoices);
    NewInvoiceKeepsChain(live, origin, inv);
    PeriodFitsNext(a, live, origin, today, inv, status);
    VoidsFitNext(a, live, origin, today, inv, status);
    LiveAppend(a.invoices, inv);
  }

  /** On trial there is no invoice yet. */
  lemma TrialIsFresh(a: Account, origin: Day, today: Day)
    requires Chained(a, origin, today) && a.status == Trial
    ensures a.invoices == [] && Live(a.invoices) == [] && a.periodEnd == origin
    ensures !InvoicedFrom(a.invoices, a.periodEnd)
  {
  }

  /** The first invoice: from the trial's end to the same day one month or twelve on, or that month's
      last, due a week from today, at the plan's price. */
  lemma {:induction false} FirstInvoiceTerms(a: Account, origin: Day, today: Day)
    requires Chained(a, origin, today) && TrialExpired(a, today)
    ensures
      var a' := ConvertTrial(a, today);
      && a'.status == PastDue && |a'.invoices| == 1
      && var inv := a'.invoices[0];
      && inv.start == origin && inv.due == today + 7 && inv.status == Issued
      && Calendar.MonthOf(inv.end)
         == Calendar.MonthOf(inv.start) + (if a.plan.interval == Annual then 12 else 1)
      && Calendar.SameDayOrLast(inv.start, inv.end)
      && inv.amount == if a.usd && a.plan.priceUsd.Some? && a.plan.priceUsd.value != 0
                       then a.plan.priceUsd.value else a.plan.priceMwk
  {
    TrialIsFresh(a, origin, today);
    hide InvoicedFrom, Live, GapFree, PeriodFits, VoidsFit;
    Calendar.AddMonthsLands(a.periodEnd, if a.plan.interval == Annual then 12 else 1);
    hide Calendar.AddMonths, Calendar.MonthOf, Calendar.SameDayOrLast;
  }

  lemma {:induction false} ConversionKeepsChain(a: Account, origin: Day, today: Day)
    requires Chained(a, origin, today) && TrialExpired(a, today)
    ensures Chained(ConvertTrial(a, today), origin, today)
  {
    var start, end := a.periodEnd, NextPeriodEnd(a.periodEnd, a.plan);
    assert start < end by {
      Calendar.AddMonthsLands(start, if a.plan.interval == Annual then 12 else 1);
    }
    TrialIsFresh(a, origin, today);
    hide NextPeriodEnd, GapFree, Price, InvoicedFrom, Live;
    var inv := Invoice(start, end, today + 7, Price(a.plan, a.usd), Issued, []);
    NextInvoiceKeepsChain(a, origin, today, inv, PastDue);
  }

  // ── Renewals ──────────────────────────────────────────────────────

  /** The only invoice that may be unsettled is the last of the chain. */
  lemma {:induction false} UnsettledIsLast(invoices: seq<Invoice>, origin: Day, i: nat)
    requires GapFree(Live(invoices), origin) && i < |invoices|
    requires invoices[i].status != Void && invoices[i].status != Paid
    ensures
      var live := Live(invoices);
      live != [] && live[|live| - 1] == invoices[i]
  {
    var p := LivePosition(invoices, i, invoices[i]);
    if p < |Live(invoices)| - 1 { PaidUnlessLast(Live(invoices), origin, p); }
  }

  /** The last invoice is the issued one of the period a renewal would begin. */
  predicate AlreadyIssued(live: seq<Invoice>, start: Day)
  {
    live != [] && live[|live| - 1].status == Issued && live[|live| - 1].start == start
  }

  lemma {:induction false} IssuedIsFound(invoices: seq<Invoice>)
    requires Live(invoices) != [] && Live(invoices)[|Live(invoices)| - 1].status == Issued
    ensures InvoicedFrom(invoices, Live(invoices)[|Live(invoices)| - 1].start)
  {
    var last := invoices[|invoices| - 1];
    if last.status == Void {
      var front := invoices[..|invoices| - 1];
      IssuedIsFound(front);
      var start := Live(front)[|Live(front)| - 1].start;
      var i :| 0 <= i < |front| && front[i].start == start && Unsettled(front[i].status);
      assert invoices[i] == front[i];
    }
  }

  lemma {:induction false} InvoicedIff(a: Account, origin: Day)
    requires GapFree(Live(a.invoices), origin)
    ensures InvoicedFrom(a.invoices, a.periodEnd)
            <==> AlreadyIssued(Live(a.invoices), a.periodEnd)
  {
    var live := Live(a.invoices);
    if AlreadyIssued(live, a.periodEnd) {
      IssuedIsFound(a.invoices);
    }
    if i :| 0 <= i < |a.invoices| && a.invoices[i].start == a.periodEnd
            && Unsettled(a.invoices[i].status)
    {
      UnsettledIsLast(a.invoices, origin, i);
    }
  }

  lemma {:induction false} LastIsThere(invoices: seq<Invoice>) returns (i: nat)
    requires Live(invoices) != []
    ensures i < |invoices| && invoices[i] == Live(invoices)[|Live(invoices)| - 1]
    ensures invoices[i].status != Void
  {
    i := |invoices| - 1;
    if invoices[i].status == Void {
      i := LastIsThere(invoices[..|invoices| - 1]);
    }
  }

  /** The invoice from `start` is issued already, or all is paid and the chain ends there. */
  predicate NextFits(live: seq<Invoice>, start: Day, origin: Day)
  {
    AlreadyIssued(live, start)
    || (start == ChainEnd(live, origin) && (live != [] ==> live[|live| - 1].status == Paid))
  }

  /** When a renewal is due and no partly paid invoice ends with the period: the period's invoice is
      there already, or the chain is paid up to the period's end. */
  lemma {:induction false} CleanRenewalCases(a: Account, origin: Day, today: Day)
    requires Chained(a, origin, today) && RenewalDue(a, today)
    requires !PartlyPaidEndsAt(a.invoices, a.periodEnd)
    ensures NextFits(Live(a.invoices), a.periodEnd, origin)
  {
    var live := Live(a.invoices);
    if live != [] && live[|live| - 1].status != Paid && a.periodEnd == live[|live| - 1].end {
      var k := LastIsThere(a.invoices);
    }
  }

  lemma {:induction false} RenewalKeepsChain(a: Account, origin: Day, today: Day)
    requires Chained(a, origin, today) && RenewalDue(a, today)
    requires !PartlyPaidEndsAt(a.invoices, a.periodEnd)
    ensures Chained(Renew(a), origin, today)
  {
    hide Price, GapFree, PeriodFits, VoidsFit, Live, InvoicedFrom, AlreadyIssued, PartlyPaidEndsAt;
    CleanRenewalCases(a, origin, today);
    InvoicedIff(a, origin);
    var start := a.periodEnd;
    if !AlreadyIssued(Live(a.invoices), start) {
      var inv := Invoice(start, start + 30, start, Price(a.plan, a.usd), Issued, []);
      NextInvoiceKeepsChain(a, origin, today, inv, Active);
      assert a.(status := Active, invoices := a.invoices + [inv])
             == a.(invoices := a.invoices + [inv]);
    }
  }

  lemma {:induction false} DirtyRenewalCases(a: Account, origin: Day, today: Day)
    requires Chained(a, origin, today) && RenewalDue(a, today)
    requires PartlyPaidEndsAt(a.invoices, a.periodEnd)
    ensures !NextFits(Live(a.invoices), a.periodEnd, origin)
  {
    var live := Live(a.invoices);
    var i :| 0 <= i < |a.invoices| && PartlyPaid(a.invoices[i])
             && a.invoices[i].end == a.periodEnd;
    if a.invoices[i].status != Void { UnsettledIsLast(a.invoices, origin, i); }
  }

  lemma NotAChain(live: seq<Invoice>, origin: Day, inv: Invoice)
    requires inv.start != ChainEnd(live, origin)
             || (live != [] && live[|live| - 1].status != Paid)
    ensures !GapFree(live + [inv], origin)
  {
    var n := |live|;
    if GapFree(live + [inv], origin) && n > 0 { PaidUnlessLast(live + [inv], origin, n - 1); }
  }

  /** Issuing an invoice keeps the chain exactly when it is the next one or is there already. */
  lemma {:induction false} IssueFitsIff(a: Account, origin: Day, end: Day, due: Day)
    requires GapFree(Live(a.invoices), origin) && a.periodEnd < end
    ensures GapFree(Live(GenerateInvoice(a, a.periodEnd, end, due).invoices), origin)
            <==> NextFits(Live(a.invoices), a.periodEnd, origin)
  {
    hide GapFree, Live, InvoicedFrom, Price, AlreadyIssued;
    InvoicedIff(a, origin);
    var start, live := a.periodEnd, Live(a.invoices);
    var inv := Invoice(start, end, due, Price(a.plan, a.usd), Issued, []);
    LiveAppend(a.invoices, inv);
    if start == ChainEnd(live, origin) && (live != [] ==> live[|live| - 1].status == Paid) {
      NewInvoiceKeepsChain(live, origin, inv);
    } else {
      NotAChain(live, origin, inv);
    }
  }

  /** Whatever the history: of gap-free invoices a renewal makes gap-free ones exactly when the
      period's invoice is issued already, or all is paid and the period ends with the last. */
  lemma {:induction false} RenewalFitsIff(a: Account, origin: Day)
    requires GapFree(Live(a.invoices), origin)
    ensures GapFree(Live(Renew(a).invoices), origin)
            <==> NextFits(Live(a.invoices), a.periodEnd, origin)
  {
    hide GapFree, Live, NextFits, GenerateInvoice;
    IssueFitsIff(a, origin, a.periodEnd + 30, a.periodEnd);
  }

  /** Main theorem on renewals: a renewal that falls due keeps the invoices gap-free, all but the
      last paid, exactly when no partly paid invoice ends where the period ends. */
  lemma {:induction false} RenewalKeepsChainIff(a: Account, origin: Day, today: Day)
    requires Chained(a, origin, today) && RenewalDue(a, today)
    ensures GapFree(Live(Renew(a).invoices), origin)
            <==> !PartlyPaidEndsAt(a.invoices, a.periodEnd)
  {
    hide GapFree, Live, PartlyPaidEndsAt, PeriodFits, VoidsFit, Renew;
    if PartlyPaidEndsAt(a.invoices, a.periodEnd) {
      DirtyRenewalCases(a, origin, today);
      RenewalFitsIff(a, origin);
    } else {
      RenewalKeepsChain(a, origin, today);
    }
  }

  lemma PeriodFitsAged(a: Account, live: seq<Invoice>, origin: Day, today: Day)
    requires PeriodFits(a, live, origin, today)
    ensures PeriodFits(MarkOverdue(a, today), AgedAll(live, today), origin, today)
    ensures VoidsFit(a, live, origin, today) ==>
              VoidsFit(MarkOverdue(a, today), AgedAll(live, today), origin, today)
  {
    var a' := MarkOverdue(a, today);
    hide HasOverdue;
    if PartlyPaidEndsAt(a.invoices, a.periodEnd) {
      var i :| 0 <= i < |a.invoices| && PartlyPaid(a.invoices[i])
               && a.invoices[i].end == a.periodEnd;
      assert PartlyPaid(a'.invoices[i]) && a'.invoices[i].end == a.periodEnd;
    }
  }

  lemma {:induction false} AgeingKeepsChain(a: Account, origin: Day, today: Day)
    requires Chained(a, origin, today)
    ensures Chained(MarkOverdue(a, today), origin, today)
  {
    LiveAged(a.invoices, today);
    AgedChain(Live(a.invoices), origin, today);
    PeriodFitsAged(a, Live(a.invoices), origin, today);
    hide HasOverdue, GapFree, Live, PeriodFits, VoidsFit;
  }

  lemma {:induction false} VoidedRows(invoices: seq<Invoice>, origin: Day, i: nat)
    requires GapFree(Live(invoices), origin) && i < |invoices|
    ensures |Voided(invoices)| == |invoices|
    ensures Voided(invoices)[i] != invoices[i] ==>
              var live := Live(invoices);
              live != [] && live[|live| - 1] == invoices[i] && invoices[i].status == Issued
    ensures Voided(invoices)[i].end == invoices[i].end
    ensures Voided(invoices)[i].payments == invoices[i].payments
    ensures PartlyPaid(invoices[i]) ==> PartlyPaid(Voided(invoices)[i])
  {
    if Unsettled(invoices[i].status) { UnsettledIsLast(invoices, origin, i); }
  }

  /** Nothing is voided unless the last invoice is an issued one. */
  lemma {:induction false} NothingToVoid(invoices: seq<Invoice>, origin: Day)
    requires GapFree(Live(invoices), origin)
    requires Live(invoices) == [] || Live(invoices)[|Live(invoices)| - 1].status != Issued
    ensures Voided(invoices) == invoices
  {
    forall i | 0 <= i < |invoices| ensures Voided(invoices)[i] == invoices[i] {
      VoidedRows(invoices, origin, i);
    }
  }

  /** After voiding the issued last invoice, the period ends with the chain again, or, if the invoice
      was partly paid in its period, beyond it. */
  lemma {:induction false} VoidedPeriodFits(a: Account, origin: Day, today: Day, plan: Plan)
    requires Chained(a, origin, today) && a.plan != plan
    requires Live(a.invoices) != [] && Live(a.invoices)[|Live(a.invoices)| - 1].status == Issued
    ensures
      var live := Live(a.invoices);
      PeriodFits(ChangePlan(a, plan), live[..|live| - 1], origin, today)
  {
    hide Live, Voided, GapFree, VoidsFit;
    var live, a' := Live(a.invoices), ChangePlan(a, plan);
    ShorterChain(live, origin);
    var k := LastIsThere(a.invoices);
    VoidedRows(a.invoices, origin, k);
    assert live[|live| - 1].payments != [] && a.periodEnd == live[|live| - 1].end ==>
             PartlyPaid(a'.invoices[k]) && a'.invoices[k].end == a'.periodEnd;
  }

  lemma {:induction false} VoidedVoidsFit(a: Account, origin: Day, today: Day, plan: Plan)
    requires Chained(a, origin, today) && a.plan != plan
    requires Live(a.invoices) != [] && Live(a.invoices)[|Live(a.invoices)| - 1].status == Issued
    ensures
      var live := Live(a.invoices);
      VoidsFit(ChangePlan(a, plan), live[..|live| - 1], origin, today)
  {
    var live, a' := Live(a.invoices), ChangePlan(a, plan);
    assert |a'.invoices| == |a.invoices|;
    hide Live, Voided, GapFree;
    ShorterChain(live, origin);
    forall i | 0 <= i < |a'.invoices| && a'.invoices[i].status == Void
               && a'.invoices[i].payments != []
      ensures a'.invoices[i].end < today
              || (a'.invoices[i].end == a'.periodEnd
                  && a'.periodEnd > ChainEnd(live[..|live| - 1], origin))
    {
      VoidedRows(a.invoices, origin, i);
    }
  }

  lemma {:induction false} PlanChangeVoidsLast(a: Account, origin: Day, today: Day, plan: Plan)
    requires Chained(a, origin, today) && a.plan != plan
    requires Live(a.invoices) != [] && Live(a.invoices)[|Live(a.invoices)| - 1].status == Issued
    ensures Chained(ChangePlan(a, plan), origin, today)
  {
    hide GapFree, Live, Voided, Kept, PeriodFits, VoidsFit;
    var live := Live(a.invoices);
    VoidedPeriodFits(a, origin, today, plan);
    VoidedVoidsFit(a, origin, today, plan);
    LiveVoided(a.invoices);
    KeptOfChain(live, origin);
    ShorterChain(live, origin);
    var k := LastIsThere(a.invoices);
  }

  lemma {:induction false} PlanChangeKeepsChain(a: Account, origin: Day, today: Day, plan: Plan)
    requires Chained(a, origin, today)
    ensures Chained(ChangePlan(a, plan), origin, today)
  {
    hide GapFree, Live, Voided;
    if a.plan != plan {
      var live := Live(a.invoices);
      if live == [] || live[|live| - 1].status != Issued {
        NothingToVoid(a.invoices, origin);
        assert ChangePlan(a, plan) == a.(plan := plan);
      } else {
        PlanChangeVoidsLast(a, origin, today, plan);
      }
    }
  }

  lemma PaidPeriodFits(a: Account, live: seq<Invoice>, origin: Day, today: Day, i: nat, p: Payment)
    requires PeriodFits(a, live, origin, today)
    requires i < |a.invoices| && live != [] && live[|live| - 1] == a.invoices[i]
    requires a.invoices[i].status != Paid && a.invoices[i].start < a.invoices[i].end
    ensures
      var inv := Received(a.invoices[i], p);
      PeriodFits(Pay(a, i, p, today), live[|live| - 1 := inv], origin, today)
  {
    hide Total;
    var inv := Received(a.invoices[i], p);
    assert live[|live| - 1 := inv][|live| - 1] == inv;
    assert inv.payments[|a.invoices[i].payments|] == p;
  }

  lemma PaidVoidsFit(a: Account, live: seq<Invoice>, origin: Day, today: Day, i: nat, p: Payment)
    requires VoidsFit(a, live, origin, today) && PeriodFits(a, live, origin, today)
    requires i < |a.invoices| && live != [] && live[|live| - 1] == a.invoices[i]
    requires a.invoices[i].status != Void && a.invoices[i].status != Paid
    requires a.invoices[i].start < a.invoices[i].end
    ensures
      var inv := Received(a.invoices[i], p);
      VoidsFit(Pay(a, i, p, today), live[|live| - 1 := inv], origin, today)
  {
    hide Total;
    var a' := Pay(a, i, p, today);
    forall j | 0 <= j < |a'.invoices| && a'.invoices[j].status == Void
      ensures a'.invoices[j] == a.invoices[j]
    {
    }
  }

  /** Any payment on an open invoice, full or not, keeps the invariant. */
  lemma {:induction false} PaymentKeepsChain(a: Account, origin: Day, today: Day, i: nat,
                                             p: Payment)
    requires Chained(a, origin, today)
    requires i < |a.invoices| && a.invoices[i].status != Void && a.invoices[i].status != Paid
    ensures Chained(Pay(a, i, p, today), origin, today)
  {
    var live := Live(a.invoices);
    var inv := Received(a.invoices[i], p);
    UnsettledIsLast(a.invoices, origin, i);
    assert a.invoices[i].start < a.invoices[i].end;
    hide Total, Live, GapFree, PeriodFits, VoidsFit;
    var k := LivePosition(a.invoices, i, inv);
    if k < |live| - 1 { PaidUnlessLast(live, origin, k); }
    LastReplacedKeepsChain(live, origin, inv);
    PaidPeriodFits(a, live, origin, today, i, p);
    PaidVoidsFit(a, live, origin, today, i, p);
  }

  lemma {:induction false} EffectKeepsChain(a: Account, op: BillingOp, id: SubscriptionId,
                                            today: Day, known: bool, origin: Day)
    requires Chained(a, origin, today) && Orderly(a, op, id, known)
    requires op.RenewPeriods? && RenewalDue(a, today) ==>
               !PartlyPaidEndsAt(a.invoices, a.periodEnd)
    ensures Chained(Effect(a, op, id, today, known), origin, today)
  {
    hide GapFree, ConvertTrial, Renew, MarkOverdue, ChangePlan, Pay, Live, RenewalDue;
    match op
    case ExpireTrials => if TrialExpired(a, today) { ConversionKeepsChain(a, origin, today); }
    case RenewPeriods => if RenewalDue(a, today) { RenewalKeepsChain(a, origin, today); }
    case FlagOverdue => AgeingKeepsChain(a, origin, today);
    case PlanChange(_, plan) => PlanChangeKeepsChain(a, origin, today, plan);
    case Paying(s, i, p) =>
      if s == id && i < |a.invoices| && !known { PaymentKeepsChain(a, origin, today, i, p); }
    case _ =>
  }

  predicate RunsOrderly(w: World, ops: seq<BillingOp>, id: SubscriptionId)
    decreases |ops|
  {
    ops == []
    || ((id in w.accounts ==> Orderly(w.accounts[id], ops[0], id, Known(w, ops[0])))
        && RunsOrderly(Step(w, ops[0]), ops[1..], id))
  }

  /** Whenever the renewal job finds the subscription due, no partly paid invoice of it ends where
      its period ends. */
  predicate RenewsCleanly(w: World, ops: seq<BillingOp>, id: SubscriptionId)
    decreases |ops|
  {
    ops == []
    || ((id in w.accounts && ops[0].RenewPeriods? && RenewalDue(w.accounts[id], w.today) ==>
           !PartlyPaidEndsAt(w.accounts[id].invoices, w.accounts[id].periodEnd))
        && RenewsCleanly(Step(w, ops[0]), ops[1..], id))
  }

  /** All along the run the subscription's non-VOID invoices are gap-free from `origin`. */
  ghost predicate AlwaysGapFree(w: World, ops: seq<BillingOp>, id: SubscriptionId, origin: Day)
    decreases |ops|
  {
    && id in w.accounts && GapFree(Live(w.accounts[id].invoices), origin)
    && (ops == [] || AlwaysGapFree(Step(w, ops[0]), ops[1..], id, origin))
  }

  /** A step of the platform is the step of each of its subscriptions. */
  lemma {:induction false} StepOf(w: World, op: BillingOp, id: SubscriptionId)
    requires id in w.accounts
    ensures id in Step(w, op).accounts && Step(w, op).today >= w.today
    ensures Step(w, op).accounts[id] == Effect(w.accounts[id], op, id, w.today, Known(w, op))
    ensures !op.Elapse? ==> Step(w, op).today == w.today
  {
    hide Recorded, ConvertTrial, Renew, MarkOverdue, ChangePlan, Pay;
  }

  lemma LaterStillChained(a: Account, origin: Day, today: Day, later: Day)
    requires Chained(a, origin, today) && today <= later
    ensures Chained(a, origin, later)
  {
    hide GapFree, Live;
  }

  lemma {:induction false} StepKeepsChain(w: World, op: BillingOp, id: SubscriptionId, origin: Day)
    requires id in w.accounts && Chained(w.accounts[id], origin, w.today)
    requires Orderly(w.accounts[id], op, id, Known(w, op))
    requires op.RenewPeriods? && RenewalDue(w.accounts[id], w.today) ==>
               !PartlyPaidEndsAt(w.accounts[id].invoices, w.accounts[id].periodEnd)
    ensures
      var w' := Step(w, op);
      id in w'.accounts && Chained(w'.accounts[id], origin, w'.today)
  {
    StepOf(w, op, id);
    EffectKeepsChain(w.accounts[id], op, id, w.today, Known(w, op), origin);
    hide Step, Orderly, GapFree, Live, Known, Effect, RenewalDue, PartlyPaidEndsAt;
    LaterStillChained(Step(w, op).accounts[id], origin, w.today, Step(w, op).today);
  }

  lemma NewTrialIsChained(w: World, id: SubscriptionId, plan: Plan)
    requires id !in w.accounts
    ensures
      var w' := Step(w, SignUp(id, plan));
      && id in w'.accounts && w'.accounts[id].invoices == []
      && Chained(w'.accounts[id], w.today + plan.trialDays, w'.today)
      && GapFree(Live(w'.accounts[id].invoices), w.today + plan.trialDays)
  {
    assert Live([]) == [];
  }

  lemma RenewedIn(w: World, id: SubscriptionId)
    requires id in w.accounts && RenewalDue(w.accounts[id], w.today)
    ensures id in Step(w, RenewPeriods).accounts
    ensures Step(w, RenewPeriods).accounts[id] == Renew(w.accounts[id])
  {
    StepOf(w, RenewPeriods, id);
  }

  lemma {:induction false} RunsKeepChainIff(w: World, ops: seq<BillingOp>, id: SubscriptionId,
                                            origin: Day)
    requires id in w.accounts && Chained(w.accounts[id], origin, w.today)
    requires RunsOrderly(w, ops, id)
    ensures AlwaysGapFree(w, ops, id, origin) <==> RenewsCleanly(w, ops, id)
    decreases |ops|
  {
    hide Live, GapFree, PeriodFits, VoidsFit, PartlyPaidEndsAt, RenewalDue, Orderly, Known, Step;
    if ops != [] {
      var a, op := w.accounts[id], ops[0];
      if op.RenewPeriods? && RenewalDue(a, w.today)
         && PartlyPaidEndsAt(a.invoices, a.periodEnd)
      {
        RenewalKeepsChainIff(a, origin, w.today);
        RenewedIn(w, id);
      } else {
        StepKeepsChain(w, op, id, origin);
        hide Chained;
        RunsKeepChainIff(Step(w, op), ops[1..], id, origin);
      }
    }
  }

  /** Main theorem: from the start of a trial, over every run of jobs, plan changes, extensions,
      cancellations, reactivations and payments of any amount on open invoices, with redeliveries
      and any other subscriptions beside, the subscription's non-VOID invoices stay a gap-free chain
      from the end of the trial period, only the last of which may be unpaid, exactly when no
      renewal falls due while a partly paid invoice ends with the period. */
  lemma {:induction false} InvoicesFormAChainIff(w: World, ops: seq<BillingOp>,
                                                 id: SubscriptionId, plan: Plan)
    requires id !in w.accounts
    requires RunsOrderly(Step(w, SignUp(id, plan)), ops, id)
    ensures AlwaysGapFree(Step(w, SignUp(id, plan)), ops, id, w.today + plan.trialDays)
            <==> RenewsCleanly(Step(w, SignUp(id, plan)), ops, id)
  {
    NewTrialIsChained(w, id, plan);
    hide Step;
    RunsKeepChainIff(Step(w, SignUp(id, plan)), ops, id, w.today + plan.trialDays);
  }

  // ── Every run ─────────────────────────────────────────────────────

  lemma LiveOfBothStep(a: seq<Invoice>, front: seq<Invoice>, last: Invoice)
    requires Live(a + front) == Live(a) + Live(front)
    ensures Live(a + (front + [last])) == Live(a) + Live(front + [last])
  {
    hide Live;
    Regroup(a, front, [last]);
    LiveAppend(a + front, last);
    LiveAppend(front, last);
    Regroup(Live(a), Live(front), if last.status == Void then [] else [last]);
  }

  lemma NothingLive()
    ensures Live([]) == []
  {
  }

  lemma {:induction false} LiveOfBoth(a: seq<Invoice>, b: seq<Invoice>)
    ensures Live(a + b) == Live(a) + Live(b)
    decreases |b|
  {
    hide *;
    if b == [] {
      NothingLive();
      NothingMore(a);
      NothingMore(Live(a));
    } else {
      var front, last := b[..|b| - 1], b[|b| - 1];
      LiveOfBoth(a, front);
      LiveOfBothStep(a, front, last);
      assert b == front + [last];
    }
  }

  lemma {:induction false} AllVoidIff(invoices: seq<Invoice>)
    ensures Live(invoices) == [] <==>
              forall j :: 0 <= j < |invoices| ==> invoices[j].status == Void
  {
    if invoices != [] {
      AllVoidIff(invoices[..|invoices| - 1]);
      assert invoices == invoices[..|invoices| - 1] + [invoices[|invoices| - 1]];
    }
  }

  /** Where invoice i stands among the others. */
  lemma {:induction false} LiveAround(invoices: seq<Invoice>, i: nat, inv: Invoice)
    requires i < |invoices|
    ensures
      var middle := if inv.status == Void then [] else [inv];
      Live(invoices[i := inv]) == Live(invoices[..i]) + middle + Live(invoices[i + 1..])
  {
    hide Live;
    var before, after := invoices[..i], invoices[i + 1..];
    assert invoices[i := inv] == (before + [inv]) + after;
    LiveOfBoth(before + [inv], after);
    LiveAppend(before, inv);
  }

  /** The payment completes a voided invoice, which makes it PAID. */
  predicate Revives(inv: Invoice, p: Payment)
  {
    inv.status == Void && Total(inv.payments + [p]) >= inv.amount
  }

  /** The voided invoice continues the chain: nothing unpaid, none after it, and it begins where the
      chain ends. */
  predicate ContinuesChain(invoices: seq<Invoice>, i: nat, origin: Day)
    requires i < |invoices|
  {
    var live := Live(invoices);
    && (forall j :: i < j < |invoices| ==> invoices[j].status == Void)
    && invoices[i].start == ChainEnd(live, origin) && invoices[i].start < invoices[i].end
    && (live != [] ==> live[|live| - 1].status == Paid)
  }

  /** An invoice put between the parts of a chain fits exactly when the second part is empty and it
      continues the first. */
  lemma {:induction false} InsertedIff(front: seq<Invoice>, back: seq<Invoice>, origin: Day,
                                       inv: Invoice)
    requires GapFree(front + back, origin) && inv.status == Paid
    ensures GapFree(front + [inv] + back, origin) <==>
              && back == [] && inv.start == ChainEnd(front, origin) && inv.start < inv.end
              && (front != [] ==> front[|front| - 1].status == Paid)
  {
    var n, kept, all := |front|, front + back, front + [inv] + back;
    if GapFree(all, origin) {
      assert all[n] == inv && inv.start < inv.end;
      if n > 0 { PaidUnlessLast(all, origin, n - 1); }
      if back != [] {
        assert kept[n] == back[0] == all[n + 1];
        PaidUnlessLast(all, origin, n);
        if n > 0 { PaidUnlessLast(kept, origin, n - 1); }
        assert false;
      }
    } else if back == [] && inv.start == ChainEnd(front, origin) && inv.start < inv.end
              && (front != [] ==> front[n - 1].status == Paid)
    {
      assert kept == front && all == front + [inv];
      NewInvoiceKeepsChain(front, origin, inv);
    }
  }

  lemma {:induction false} SameDatesKeepChain(live: seq<Invoice>, live': seq<Invoice>, origin: Day)
    requires GapFree(live, origin) && |live'| == |live|
    requires forall k :: 0 <= k < |live| ==>
               && live'[k].start == live[k].start && live'[k].end == live[k].end
               && (live'[k].status == live[k].status || live'[k].status == Paid)
    ensures GapFree(live', origin)
  {
    forall i | 0 <= i < |live'| - 1 ensures Follows(live', i) { assert Follows(live, i); }
  }

  /** Whatever happens to its payments, an invoice with the same dates, PAID before and after, or
      neither and not VOID, keeps the chain. */
  lemma {:induction false} ReplacedKeepsChain(front: seq<Invoice>, back: seq<Invoice>, origin: Day,
                                              was: Invoice, inv: Invoice)
    requires GapFree(front + [was] + back, origin)
    requires inv.start == was.start && inv.end == was.end
    requires inv.status == was.status || inv.status == Paid
    ensures GapFree(front + [inv] + back, origin)
  {
    var kept, all := front + [was] + back, front + [inv] + back;
    forall k | 0 <= k < |all|
      ensures all[k].start == kept[k].start && all[k].end == kept[k].end
      ensures all[k].status == kept[k].status || all[k].status == Paid
    {
    }
    SameDatesKeepChain(kept, all, origin);
  }

  lemma NoneAfter(invoices: seq<Invoice>, i: nat, rest: seq<Invoice>)
    requires i < |invoices| && rest == invoices[i + 1..]
    ensures (forall j :: i < j < |invoices| ==> invoices[j].status == Void)
            <==> forall k :: 0 <= k < |rest| ==> rest[k].status == Void
  {
    if forall k :: 0 <= k < |rest| ==> rest[k].status == Void {
      forall j | i < j < |invoices| ensures invoices[j].status == Void {
        assert rest[j - i - 1] == invoices[j];
      }
    }
  }

  /** Main theorem on payments: of gap-free invoices with any history, any payment on any invoice
      makes gap-free ones exactly when, if it revives a voided invoice, that continues the chain. */
  lemma {:induction false} PaymentFitsIff(a: Account, origin: Day, today: Day, i: nat, p: Payment)
    requires GapFree(Live(a.invoices), origin) && i < |a.invoices|
    ensures GapFree(Live(Pay(a, i, p, today).invoices), origin)
            <==> (Revives(a.invoices[i], p) ==> ContinuesChain(a.invoices, i, origin))
  {
    hide Live, GapFree, Total;
    var was, inv := a.invoices[i], Received(a.invoices[i], p);
    var front, back := Live(a.invoices[..i]), Live(a.invoices[i + 1..]);
    assert a.invoices[i := was] == a.invoices;
    LiveAround(a.invoices, i, was);
    LiveAround(a.invoices, i, inv);
    if was.status != Void {
      ReplacedKeepsChain(front, back, origin, was, inv);
    } else if Revives(was, p) {
      assert front + [] + back == front + back;
      InsertedIff(front, back, origin, inv);
      AllVoidIff(a.invoices[i + 1..]);
      NoneAfter(a.invoices, i, a.invoices[i + 1..]);
      if back == [] { assert Live(a.invoices) == front; }
    }
  }

  lemma {:induction false} ConversionFitsIff(a: Account, origin: Day, today: Day)
    requires GapFree(Live(a.invoices), origin)
    ensures GapFree(Live(ConvertTrial(a, today).invoices), origin)
            <==> NextFits(Live(a.invoices), a.periodEnd, origin)
  {
    Calendar.AddMonthsLands(a.periodEnd, if a.plan.interval == Annual then 12 else 1);
    hide Calendar.AddMonths, Calendar.MonthOf, Calendar.SameDayOrLast, GapFree, Live, NextFits,
         GenerateInvoice;
    var due := a.(status := PastDue);
    IssueFitsIff(due, origin, NextPeriodEnd(a.periodEnd, a.plan), today + 7);
  }

  /** Voiding on a plan change and marking overdue never break a chain. */
  lemma {:induction false} OtherStepsFit(a: Account, origin: Day, today: Day, plan: Plan)
    requires GapFree(Live(a.invoices), origin)
    ensures GapFree(Live(MarkOverdue(a, today).invoices), origin)
    ensures GapFree(Live(ChangePlan(a, plan).invoices), origin)
  {
    hide GapFree, Live, Voided, Kept, HasOverdue, AgedAll;
    LiveAged(a.invoices, today);
    AgedChain(Live(a.invoices), origin, today);
    LiveVoided(a.invoices);
    KeptOfChain(Live(a.invoices), origin);
    if Live(a.invoices) != [] { ShorterChain(Live(a.invoices), origin); }
  }

  /** The step asks for nothing the chain cannot take: an invoice issued by a job is the next one, and
      a voided invoice that a payment completes continues the chain. */
  predicate StepFits(a: Account, op: BillingOp, id: SubscriptionId, today: Day, known: bool,
                     origin: Day)
  {
    match op
    case ExpireTrials => TrialExpired(a, today) ==> NextFits(Live(a.invoices), a.periodEnd, origin)
    case RenewPeriods => RenewalDue(a, today) ==> NextFits(Live(a.invoices), a.periodEnd, origin)
    case Paying(s, i, p) =>
      s == id && i < |a.invoices| && !known && Revives(a.invoices[i], p) ==>
        ContinuesChain(a.invoices, i, origin)
    case _ => true
  }

  lemma {:induction false} EffectFitsIff(a: Account, op: BillingOp, id: SubscriptionId, today: Day,
                                         known: bool, origin: Day)
    requires GapFree(Live(a.invoices), origin)
    ensures GapFree(Live(Effect(a, op, id, today, known).invoices), origin)
            <==> StepFits(a, op, id, today, known, origin)
  {
    hide GapFree, Live, NextFits, ContinuesChain, Revives, TrialExpired, RenewalDue, ConvertTrial,
         MarkOverdue, ChangePlan, Pay, GenerateInvoice;
    match op
    case ExpireTrials => ConversionFitsIff(a, origin, today);
    case RenewPeriods => RenewalFitsIff(a, origin);
    case FlagOverdue => OtherStepsFit(a, origin, today, a.plan);
    case PlanChange(_, plan) => OtherStepsFit(a, origin, today, plan);
    case Paying(s, i, p) => if i < |a.invoices| { PaymentFitsIff(a, origin, today, i, p); }
    case _ =>
  }

  /** Every step of the run fits when it is taken. */
  predicate AlwaysFits(w: World, ops: seq<BillingOp>, id: SubscriptionId, origin: Day)
    decreases |ops|
  {
    id in w.accounts
    && (ops == []
        || (StepFits(w.accounts[id], ops[0], id, w.today, Known(w, ops[0]), origin)
            && AlwaysFits(Step(w, ops[0]), ops[1..], id, origin)))
  }

  lemma {:induction false} RunsFitIff(w: World, ops: seq<BillingOp>, id: SubscriptionId,
                                      origin: Day)
    requires id in w.accounts && GapFree(Live(w.accounts[id].invoices), origin)
    ensures AlwaysGapFree(w, ops, id, origin) <==> AlwaysFits(w, ops, id, origin)
    decreases |ops|
  {
    hide Live, GapFree, Step, StepFits, Effect, Known;
    if ops != [] {
      StepOf(w, ops[0], id);
      EffectFitsIff(w.accounts[id], ops[0], id, w.today, Known(w, ops[0]), origin);
      var w' := Step(w, ops[0]);
      if GapFree(Live(w'.accounts[id].invoices), origin) { RunsFitIff(w', ops[1..], id, origin); }
    }
  }

  /** Main theorem: from the start of a trial, over every run whatever, payments on PAID and VOID
      invoices and shortened trials included, the non-VOID invoices stay a gap-free chain exactly
      when each invoice a job issues is the next one or there already, and each voided invoice that
      a payment completes continues the chain. */
  lemma {:induction false} EveryRunFitsIff(w: World, ops: seq<BillingOp>, id: SubscriptionId,
                                           plan: Plan)
    requires id !in w.accounts
    ensures
      var (started, origin) := (Step(w, SignUp(id, plan)), w.today + plan.trialDays);
      AlwaysGapFree(started, ops, id, origin) <==> AlwaysFits(started, ops, id, origin)
  {
    hide *;
    NewTrialIsChained(w, id, plan);
    RunsFitIff(Step(w, SignUp(id, plan)), ops, id, w.today + plan.trialDays);
  }

  // ── Payments in full ──────────────────────────────────────────────

  /** The payment completes its invoice, or is a redelivery. */
  predicate InFull(a: Account, op: BillingOp, id: SubscriptionId, known: bool)
  {
    op.Paying? && op.id == id && op.invoice < |a.invoices| && !known ==>
      Total(a.invoices[op.invoice].payments + [op.payment]) >= a.invoices[op.invoice].amount
  }

  predicate RunsInFull(w: World, ops: seq<BillingOp>, id: SubscriptionId)
    decreases |ops|
  {
    ops == []
    || ((id in w.accounts ==> InFull(w.accounts[id], ops[0], id, Known(w, ops[0])))
        && RunsInFull(Step(w, ops[0]), ops[1..], id))
  }

  ghost predicate NothingPartlyPaid(a: Account)
  {
    forall i :: 0 <= i < |a.invoices| ==> !PartlyPaid(a.invoices[i])
  }

  lemma {:induction false} FullPaymentsLeaveNoPart(a: Account, op: BillingOp, id: SubscriptionId,
                                                   today: Day, known: bool)
    requires NothingPartlyPaid(a) && InFull(a, op, id, known)
    ensures NothingPartlyPaid(Effect(a, op, id, today, known))
  {
    hide Total, InvoicedFrom, NextPeriodEnd, Price, HasOverdue;
    var a' := Effect(a, op, id, today, known);
    if op.FlagOverdue? || op.PlanChange? {
      forall i | 0 <= i < |a'.invoices| ensures !PartlyPaid(a'.invoices[i]) {
        assert !PartlyPaid(a.invoices[i]);
      }
    }
  }

  lemma {:induction false} FullPaymentsRenewCleanly(w: World, ops: seq<BillingOp>,
                                                    id: SubscriptionId)
    requires id in w.accounts && NothingPartlyPaid(w.accounts[id]) && RunsInFull(w, ops, id)
    ensures RenewsCleanly(w, ops, id)
    decreases |ops|
  {
    if ops != [] {
      StepOf(w, ops[0], id);
      FullPaymentsLeaveNoPart(w.accounts[id], ops[0], id, w.today, Known(w, ops[0]));
      hide Step, InFull, Known, Effect, PartlyPaid, RenewalDue;
      FullPaymentsRenewCleanly(Step(w, ops[0]), ops[1..], id);
    }
  }

  /** So with every payment in full the invoices always form a gap-free chain. */
  lemma {:induction false} InvoicesFormAChain(w: World, ops: seq<BillingOp>, id: SubscriptionId,
                                              plan: Plan)
    requires id !in w.accounts
    requires RunsOrderly(Step(w, SignUp(id, plan)), ops, id)
    requires RunsInFull(Step(w, SignUp(id, plan)), ops, id)
    ensures AlwaysGapFree(Step(w, SignUp(id, plan)), ops, id, w.today + plan.trialDays)
  {
    NewTrialIsChained(w, id, plan);
    hide Step;
    FullPaymentsRenewCleanly(Step(w, SignUp(id, plan)), ops, id);
    InvoicesFormAChainIff(w, ops, id, plan);
  }

  /** Paying an open invoice its amount is a payment in full exactly when the payments before it do
      not come to less than nothing. */
  lemma {:induction false} AmountIsInFull(a: Account, id: SubscriptionId, i: nat, p: Payment)
    requires i < |a.invoices| && p.amount == a.invoices[i].amount
    ensures InFull(a, Paying(id, i, p), id, false) <==> Total(a.invoices[i].payments) >= 0
  {
    var payments := a.invoices[i].payments;
    assert (payments + [p])[..|payments|] == payments;
  }

  // ── Redelivered charges ───────────────────────────────────────────

  /** Payments only accumulate. */
  ghost predicate PaymentsKept(a: Account, a': Account)
  {
    |a.invoices| <= |a'.invoices|
    && forall i :: 0 <= i < |a.invoices| ==> a.invoices[i].payments <= a'.invoices[i].payments
  }

  lemma {:induction false} EffectKeepsPayments(a: Account, op: BillingOp, id: SubscriptionId,
                                               today: Day, known: bool)
    ensures PaymentsKept(a, Effect(a, op, id, today, known))
  {
    hide InvoicedFrom, HasOverdue, NextPeriodEnd, Price, Total;
  }

  lemma {:induction false} KeptChargesRemain(a: Account, a': Account, chargeId: string)
    requires PaymentsKept(a, a') && HasCharge(a, chargeId)
    ensures HasCharge(a', chargeId)
  {
    var i, j :| 0 <= i < |a.invoices| && 0 <= j < |a.invoices[i].payments|
                && a.invoices[i].payments[j].chargeId == chargeId;
    assert a'.invoices[i].payments[j] == a.invoices[i].payments[j];
  }

  lemma {:induction false} StepKeepsRecorded(w: World, op: BillingOp, chargeId: string)
    requires Recorded(w.accounts, chargeId)
    ensures Recorded(Step(w, op).accounts, chargeId)
  {
    var s :| s in w.accounts && HasCharge(w.accounts[s], chargeId);
    StepOf(w, op, s);
    EffectKeepsPayments(w.accounts[s], op, s, w.today, Known(w, op));
    KeptChargesRemain(w.accounts[s], Step(w, op).accounts[s], chargeId);
    hide Step, HasCharge;
  }

  lemma {:induction false} RunsKeepRecorded(w: World, ops: seq<BillingOp>, chargeId: string)
    requires Recorded(w.accounts, chargeId)
    ensures Recorded(Run(w, ops).accounts, chargeId)
    decreases |ops|
  {
    if ops != [] {
      StepKeepsRecorded(w, ops[0], chargeId);
      hide Step, Recorded;
      RunsKeepRecorded(Step(w, ops[0]), ops[1..], chargeId);
    }
  }

  lemma {:induction false} PaymentIsRecorded(w: World, id: SubscriptionId, i: nat, p: Payment)
    requires id in w.accounts && i < |w.accounts[id].invoices| && p.chargeId != ""
    ensures Recorded(Step(w, Paying(id, i, p)).accounts, p.chargeId)
  {
    var op := Paying(id, i, p);
    if Recorded(w.accounts, p.chargeId) {
      StepKeepsRecorded(w, op, p.chargeId);
    } else {
      StepOf(w, op, id);
      var a' := Step(w, op).accounts[id];
      assert a'.invoices[i].payments[|a'.invoices[i].payments| - 1] == p;
      assert HasCharge(a', p.chargeId);
    }
  }

  /** Main theorem: once a payment with a charge id has been taken, delivering that charge id again
      after any further run, for any invoice and any amount, changes nothing. */
  lemma {:induction false} RedeliveryChangesNothing(w: World, id: SubscriptionId, i: nat,
                                                    p: Payment, ops: seq<BillingOp>,
                                                    again: SubscriptionId, k: nat, q: Payment)
    requires id in w.accounts && i < |w.accounts[id].invoices|
    requires p.chargeId != "" && q.chargeId == p.chargeId
    ensures
      var later := Run(Step(w, Paying(id, i, p)), ops);
      Step(later, Paying(again, k, q)) == later
  {
    var later := Run(Step(w, Paying(id, i, p)), ops);
    PaymentIsRecorded(w, id, i, p);
    RunsKeepRecorded(Step(w, Paying(id, i, p)), ops, p.chargeId);
    hide Run, Recorded;
    assert Step(later, Paying(again, k, q)).accounts == later.accounts;
  }

  // ── Justified suspension ──────────────────────────────────────────

  ghost predicate AllHonest(w: World)
  {
    forall s :: s in w.accounts ==> BooksHonest(w.accounts[s])
  }

  lemma {:induction false} RunsStayHonest(w: World, ops: seq<BillingOp>)
    requires AllHonest(w)
    ensures AllHonest(Run(w, ops))
    decreases |ops|
  {
    if ops != [] {
      var w' := Step(w, ops[0]);
      forall s | s in w'.accounts ensures BooksHonest(w'.accounts[s]) {
        if s in w.accounts {
          StepOf(w, ops[0], s);
          EffectKeepsBooks(w.accounts[s], ops[0], s, w.today, Known(w, ops[0]));
        }
      }
      hide Step, BooksHonest;
      RunsStayHonest(w', ops[1..]);
    }
  }

  /** Main theorem: over every run from the empty platform, an invoice is PAID exactly when after some
      payment its payments so far came to its amount; without negative payments, exactly when it has
      a payment and they cover it now. */
  lemma {:induction false} PaidMeansCovered(start: Day, ops: seq<BillingOp>, id: SubscriptionId,
                                            i: nat)
    requires id in Run(World(start, map[]), ops).accounts
    requires i < |Run(World(start, map[]), ops).accounts[id].invoices|
    ensures
      var inv := Run(World(start, map[]), ops).accounts[id].invoices[i];
      && (inv.status == Paid <==> EverCovered(inv))
      && ((forall j :: 0 <= j < |inv.payments| ==> inv.payments[j].amount >= 0) ==>
            && (inv.status == Paid <==> inv.payments != [] && Total(inv.payments) >= inv.amount)
            && (inv.amount > 0 ==> (inv.status == Paid <==> Total(inv.payments) >= inv.amount)))
  {
    var w := World(start, map[]);
    RunsStayHonest(w, ops);
    var inv := Run(w, ops).accounts[id].invoices[i];
    hide Run, EverCovered;
    assert PaidIffCovered(inv);
    if forall j :: 0 <= j < |inv.payments| ==> inv.payments[j].amount >= 0 {
      CoveredWithoutRefunds(inv);
    }
  }

  /** An invoice that is not PAID is not covered. */
  lemma {:induction false} UnpaidIsUncovered(inv: Invoice)
    requires PaidIffCovered(inv) && inv.status != Paid
    ensures inv.payments == [] || Total(inv.payments) < inv.amount
  {
    assert inv.payments[..|inv.payments|] == inv.payments;
  }

  /** Main theorem: every suspension on day d, in any state a run reaches, has an OVERDUE invoice
      due on day d - 15 or before whose payments do not cover it. */
  lemma {:induction false} SuspensionIsJustified(start: Day, ops: seq<BillingOp>,
                                                 id: SubscriptionId)
    returns (i: nat)
    requires
      var w := Run(World(start, map[]), ops);
      id in w.accounts && Step(w, SuspendDelinquent).accounts[id] != w.accounts[id]
    ensures
      var w := Run(World(start, map[]), ops);
      && w.accounts[id].status == PastDue
      && i < |w.accounts[id].invoices|
      && var inv := w.accounts[id].invoices[i];
      && inv.status == Overdue && inv.due <= w.today - 15
      && !EverCovered(inv) && (inv.payments == [] || Total(inv.payments) < inv.amount)
      && !Step(w, SuspendDelinquent).accounts[id].tenantActive
  {
    var w := Run(World(start, map[]), ops);
    RunsStayHonest(World(start, map[]), ops);
    hide Run, EverCovered;
    StepOf(w, SuspendDelinquent, id);
    assert Delinquent(w.accounts[id], w.today);
    i :| 0 <= i < |w.accounts[id].invoices| && PastGrace(w.accounts[id].invoices[i], w.today);
    UnpaidIsUncovered(w.accounts[id].invoices[i]);
  }

  /** A tenant whose invoices are all VOID or have been covered is not suspended. */
  lemma {:induction false} PaidUpIsNeverSuspended(start: Day, ops: seq<BillingOp>,
                                                  id: SubscriptionId)
    requires id in Run(World(start, map[]), ops).accounts
    requires
      var invoices := Run(World(start, map[]), ops).accounts[id].invoices;
      forall i :: 0 <= i < |invoices| ==> invoices[i].status == Void || EverCovered(invoices[i])
    ensures
      var w := Run(World(start, map[]), ops);
      id in Step(w, SuspendDelinquent).accounts
      && Step(w, SuspendDelinquent).accounts[id] == w.accounts[id]
  {
    var w := Run(World(start, map[]), ops);
    StepOf(w, SuspendDelinquent, id);
    if Step(w, SuspendDelinquent).accounts[id] != w.accounts[id] {
      var i := SuspensionIsJustified(start, ops, id);
    }
  }

  /** The tenant owes nothing: every invoice is VOID or its payments, if any, come to its amount. */
  predicate OwesNothing(a: Account)
  {
    forall i :: 0 <= i < |a.invoices| ==>
      a.invoices[i].status == Void || Total(a.invoices[i].payments) >= a.invoices[i].amount
  }

  /** A tenant who owes nothing is suspended all the same exactly when PAST_DUE with an invoice over
      zero, marked overdue, past grace and never paid on. */
  lemma {:induction false} SuspendedOwingNothingIff(start: Day, ops: seq<BillingOp>,
                                                    id: SubscriptionId)
    requires
      var w := Run(World(start, map[]), ops);
      id in w.accounts && OwesNothing(w.accounts[id])
    ensures
      var w := Run(World(start, map[]), ops);
      var a := w.accounts[id];
      && id in Step(w, SuspendDelinquent).accounts
      && (Step(w, SuspendDelinquent).accounts[id] != a <==>
            a.status == PastDue
            && exists i :: 0 <= i < |a.invoices| && PastGrace(a.invoices[i], w.today)
                           && a.invoices[i].amount == 0 && a.invoices[i].payments == [])
  {
    var w := Run(World(start, map[]), ops);
    RunsStayHonest(World(start, map[]), ops);
    hide Run, EverCovered;
    StepOf(w, SuspendDelinquent, id);
    var a := w.accounts[id];
    if Delinquent(a, w.today) {
      var i :| 0 <= i < |a.invoices| && PastGrace(a.invoices[i], w.today);
      UnpaidIsUncovered(a.invoices[i]);
      assert a.invoices[i].payments == [] ==> Total(a.invoices[i].payments) == 0;
    }
  }

  // ── The earliest suspension ───────────────────────────────────────

  /** Converted on day c and never paid or reactivated since. */
  ghost predicate WaitingSince(a: Account, c: Day)
  {
    && (a.status == PastDue || a.status == Suspended || a.status == Cancelled)
    && forall i :: 0 <= i < |a.invoices| ==> a.invoices[i].due >= c + 7
  }

  predicate NoPayment(op: BillingOp, id: SubscriptionId)
  {
    !(op.Paying? && op.id == id) && !(op.Reactivation? && op.id == id)
  }

  lemma {:induction false} WaitingGoesOn(a: Account, op: BillingOp, id: SubscriptionId,
                                         today: Day, known: bool, c: Day)
    requires WaitingSince(a, c) && NoPayment(op, id)
    ensures WaitingSince(Effect(a, op, id, today, known), c)
  {
    hide InvoicedFrom, HasOverdue, Price, Total;
  }

  lemma {:induction false} RunsKeepWaiting(w: World, ops: seq<BillingOp>, id: SubscriptionId,
                                           c: Day)
    requires id in w.accounts && WaitingSince(w.accounts[id], c)
    requires forall k :: 0 <= k < |ops| ==> NoPayment(ops[k], id)
    ensures id in Run(w, ops).accounts && WaitingSince(Run(w, ops).accounts[id], c)
    decreases |ops|
  {
    if ops != [] {
      StepOf(w, ops[0], id);
      WaitingGoesOn(w.accounts[id], ops[0], id, w.today, Known(w, ops[0]), c);
      hide Step, WaitingSince, NoPayment;
      RunsKeepWaiting(Step(w, ops[0]), ops[1..], id, c);
    }
  }

  /** Main theorem: a trial converted on day c with no invoice before it, and neither paid nor
      reactivated since, is not suspended before day c + 22. */
  lemma {:induction false} NoSuspensionBeforeDay22(w: World, ops: seq<BillingOp>,
                                                   id: SubscriptionId)
    requires id in w.accounts && TrialExpired(w.accounts[id], w.today)
    requires w.accounts[id].invoices == []
    requires forall k :: 0 <= k < |ops| ==> NoPayment(ops[k], id)
    requires
      var end := Run(Step(w, ExpireTrials), ops);
      id in end.accounts && Step(end, SuspendDelinquent).accounts[id] != end.accounts[id]
    ensures Run(Step(w, ExpireTrials), ops).today >= w.today + 22
  {
    var w' := Step(w, ExpireTrials);
    var end := Run(w', ops);
    StepOf(w, ExpireTrials, id);
    RunsKeepWaiting(w', ops, id, w.today);
    StepOf(end, SuspendDelinquent, id);
    hide Run;
    var i :| 0 <= i < |end.accounts[id].invoices|
             && PastGrace(end.accounts[id].invoices[i], end.today);
  }

  // ── Particular tenants ────────────────────────────────────────────

  function Trialist(price: nat): Account
  {
    StartTrial(Plan(1, price, None, Monthly, 0), 0)
  }

  lemma FirstMonth()
    ensures Calendar.AddMonths(0, 1) == 31
  {
    Calendar.MonthOfIsUnique(0, 0);
  }

  lemma FirstInvoice(price: nat)
    ensures ConvertTrial(Trialist(price), 0)
            == Trialist(price).(status := PastDue,
                                invoices := [Invoice(0, 31, 7, price, Issued, [])])
  {
    FirstMonth();
    hide Calendar.AddMonths;
  }

  lemma OnePayment(p: Payment)
    ensures Total([p]) == p.amount
  {
    assert [p][..0] == [];
  }

  /** After a payment of 1 on the first invoice, of more than 1. */
  function OnePaid(price: nat): Account
  {
    Trialist(price).(status := Active, periodEnd := 31,
                     invoices := [Invoice(0, 31, 7, price, Issued, [Payment(1, "")])])
  }

  lemma AfterPartialPayment(price: nat)
    requires price > 1
    ensures Pay(ConvertTrial(Trialist(price), 0), 0, Payment(1, ""), 0) == OnePaid(price)
  {
    FirstInvoice(price);
    hide ConvertTrial;
    OnePayment(Payment(1, ""));
    assert [] + [Payment(1, "")] == [Payment(1, "")];
    hide Total;
  }

  lemma LiveOfTwo(first: Invoice, second: Invoice)
    requires first.status != Void && second.status != Void
    ensures Live([first] + [second]) == [first, second]
  {
    assert [first][..0] == [];
    LiveAppend([first], second);
  }

  /** A payment of 1 on an invoice of more moves the period on, and the renewal then adds a second
      unpaid invoice. */
  lemma {:induction false} PartialPaymentBreaksTheChain(price: nat)
    requires price > 1
    ensures
      var paid := Pay(ConvertTrial(Trialist(price), 0), 0, Payment(1, ""), 0);
      var live := Live(Renew(paid).invoices);
      && RenewalDue(paid, 24)
      && |live| == 2 && live[0].status == Issued && live[1].status == Issued
  {
    AfterPartialPayment(price);
    hide Pay, ConvertTrial, Live;
    var paid := OnePaid(price);
    var second := Invoice(31, 61, 31, price, Issued, []);
    assert Renew(paid).invoices == [paid.invoices[0]] + [second];
    LiveOfTwo(paid.invoices[0], second);
  }

  /** Two periods paid. */
  function TwoPaid(price: nat): Account
  {
    var p := Payment(price, "");
    Trialist(price).(status := Active, periodStart := 31, periodEnd := 61,
                     invoices := [Invoice(0, 31, 7, price, Paid, [p])]
                                 + [Invoice(31, 61, 31, price, Paid, [p])])
  }

  /** Paying the first of two PAID invoices again on its last day moves the period back, and the
      renewal then bills the second period again. */
  lemma {:induction false} PayingAgainBreaksTheChain(price: nat)
    ensures
      var a := TwoPaid(price);
      var paid := Pay(a, 0, Payment(price, ""), 31);
      && GapFree(Live(a.invoices), 0)
      && RenewalDue(paid, 31) && !GapFree(Live(Renew(paid).invoices), 0)
  {
    var a := TwoPaid(price);
    var paid := Pay(a, 0, Payment(price, ""), 31);
    var first, second := a.invoices[0], a.invoices[1];
    var again := Received(first, Payment(price, ""));
    assert paid.invoices == [again] + [second];
    LiveOfTwo(first, second);
    LiveOfTwo(again, second);
    hide Received, Live, Pay, Renew;
    RenewalFitsIff(paid, 0);
  }

  /** One period paid, the next billed, voided by a plan change and billed again. */
  function BilledAgain(price: nat): Account
  {
    Trialist(price).(status := Active, periodStart := 0, periodEnd := 31,
                     invoices := [Invoice(0, 31, 7, price, Paid, [Payment(price, "")]),
                                  Invoice(31, 61, 31, price, Void, []),
                                  Invoice(31, 61, 31, price, Issued, [])])
  }

  lemma LiveSkips(first: Invoice, voided: Invoice, second: Invoice)
    requires first.status != Void && voided.status == Void && second.status != Void
    ensures Live([first, voided, second]) == [first, second]
  {
    LiveOfTwo(first, second);
    LiveAround([first, voided, second], 1, voided);
    assert [first, voided, second][1 := voided] == [first, voided, second];
    assert [first, voided, second][..1] == [first] && [first, voided, second][2..] == [second];
    LiveOfBoth([first], [second]);
    hide *;
    assert Live([first]) + [] + Live([second]) == Live([first]) + Live([second]);
    assert [first] + [second] == [first, second];
  }

  /** Paying the voided invoice revives it beside the one that replaced it. */
  lemma {:induction false} RevivedInvoiceBreaksTheChain(price: nat)
    ensures
      var a := BilledAgain(price);
      && GapFree(Live(a.invoices), 0)
      && !GapFree(Live(Pay(a, 1, Payment(price, ""), 31).invoices), 0)
  {
    var a := BilledAgain(price);
    var first, voided, second := a.invoices[0], a.invoices[1], a.invoices[2];
    OnePayment(Payment(price, ""));
    assert [] + [Payment(price, "")] == [Payment(price, "")];
    LiveSkips(first, voided, second);
    hide Live, Pay, Total;
    PaymentFitsIff(a, 0, 31, 1, Payment(price, ""));
  }

  /** A plan that costs nothing still gets its tenant suspended, on day 22. */
  lemma {:induction false} FreePlanIsSuspended()
    ensures
      var a := MarkOverdue(ConvertTrial(Trialist(0), 0), 22);
      Delinquent(a, 22) && forall i :: 0 <= i < |a.invoices| ==> a.invoices[i].amount == 0
  {
    FirstInvoice(0);
    hide ConvertTrial;
    var a := MarkOverdue(ConvertTrial(Trialist(0), 0), 22);
    assert PastGrace(a.invoices[0], 22);
  }
}
