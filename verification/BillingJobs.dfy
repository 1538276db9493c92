/** The billing services and daily jobs as they run: fields updated subscription by subscription. */
module BillingJobs {
  import opened Rows
  import opened Billing

  /** The accounts once a job has been to the subscriptions in `done`. */
  function Swept(accounts: Accounts, done: set<SubscriptionId>, job: BillingOp, today: Day)
    : Accounts
  {
    map s | s in accounts ::
      if s in done then Effect(accounts[s], job, s, today, false) else accounts[s]
  }

  /** The query of each job. */
  predicate Selects(a: Account, job: BillingOp, today: Day)
  {
    match job
    case ExpireTrials => TrialExpired(a, today)
    case RenewPeriods => RenewalDue(a, today)
    case SuspendDelinquent => Delinquent(a, today)
    case _ => false
  }

  function Selected(accounts: Accounts, job: BillingOp, today: Day): (ids: set<SubscriptionId>)
    ensures ids <= accounts.Keys
  {
    set s | s in accounts && Selects(accounts[s], job, today)
  }

  lemma SweptNone(accounts: Accounts, ids: set<SubscriptionId>, job: BillingOp, today: Day)
    ensures Swept(accounts, Visited(Ordered(ids), 0), job, today) == accounts
  {
  }

  lemma SweptMore(accounts: Accounts, done: set<SubscriptionId>, s: SubscriptionId,
                  job: BillingOp, today: Day)
    requires s in accounts && s !in done
    ensures
      var before := Swept(accounts, done, job, today);
      && s in before && before[s] == accounts[s]
      && Swept(accounts, done + {s}, job, today)
         == before[s := Effect(accounts[s], job, s, today, false)]
  {
    hide Effect;
  }

  lemma SweptOne(accounts: Accounts, i: nat, job: BillingOp, today: Day)
    requires i < |Ordered(Selected(accounts, job, today))|
    ensures
      var order := Ordered(Selected(accounts, job, today));
      var before := Swept(accounts, Visited(order, i), job, today);
      && order[i] in accounts && order[i] in before && before[order[i]] == accounts[order[i]]
      && Selects(accounts[order[i]], job, today)
      && Swept(accounts, Visited(order, i + 1), job, today)
         == before[order[i] := Effect(accounts[order[i]], job, order[i], today, false)]
  {
    var ids := Selected(accounts, job, today);
    VisitOne(ids, i);
    hide Effect, Ordered, Visited, Selects, Swept;
    SweptMore(accounts, Visited(Ordered(ids), i), Ordered(ids)[i], job, today);
  }

  /** Visiting the subscriptions a job selects is the whole job. */
  lemma SweptAll(accounts: Accounts, job: BillingOp, today: Day)
    requires job.ExpireTrials? || job.RenewPeriods? || job.SuspendDelinquent?
    ensures
      var order := Ordered(Selected(accounts, job, today));
      World(today, Swept(accounts, Visited(order, |order|), job, today))
      == Step(World(today, accounts), job)
  {
    VisitAll(Selected(accounts, job, today));
    hide Ordered, Visited, ConvertTrial, Renew;
  }

  class Platform {
    var today: Day
    var accounts: Accounts

    function State(): World
      reads this
    {
      World(today, accounts)
    }

    constructor (start: Day)
      ensures State() == World(start, map[])
    {
      today, accounts := start, map[];
    }

    method SignUpTenant(id: SubscriptionId, plan: Plan)
      modifies this
      ensures State() == Step(old(State()), SignUp(id, plan))
    {
      if id in accounts {
        return;
      }
      var end := today + plan.trialDays;
      accounts := accounts[id := Account(plan, false, Trial, end, today, end, true, [])];
    }

    /** Nothing when an unsettled invoice begins on the same day. */
    method GenerateInvoiceFor(id: SubscriptionId, start: Day, end: Day, due: Day)
      requires id in accounts
      modifies this`accounts
      ensures accounts == old(accounts)[id := GenerateInvoice(old(accounts)[id], start, end, due)]
    {
      var a := accounts[id];
      if InvoicedFrom(a.invoices, start) {
        return;
      }
      var usd := a.usd && a.plan.priceUsd.Some? && a.plan.priceUsd.value != 0;
      var amount := if usd then a.plan.priceUsd.value else a.plan.priceMwk;
      accounts := accounts[id := a.(invoices := a.invoices
                                                + [Invoice(start, end, due, amount, Issued, [])])];
    }

    method ConvertOne(id: SubscriptionId)
      requires id in accounts && TrialExpired(accounts[id], today)
      modifies this`accounts
      ensures accounts
              == old(accounts)[id := Effect(old(accounts)[id], ExpireTrials, id, today, false)]
    {
      accounts := accounts[id := accounts[id].(status := PastDue)];
      var sub := accounts[id];
      GenerateInvoiceFor(id, sub.periodEnd, NextPeriodEnd(sub.periodEnd, sub.plan), today + 7);
    }

    method ProcessExpiredTrials() returns (created: nat)
      modifies this`accounts
      ensures State() == Step(old(State()), ExpireTrials)
      ensures created == |Selected(old(accounts), ExpireTrials, today)|
    {
      ghost var was := accounts;
      var order := Ordered(Selected(accounts, ExpireTrials, today));
      created := 0;
      SweptNone(was, Selected(was, ExpireTrials, today), ExpireTrials, today);
      for i := 0 to |order|
        invariant accounts == Swept(was, Visited(order, i), ExpireTrials, today) && created == i
      {
        SweptOne(was, i, ExpireTrials, today);
        hide Swept, Visited, Ordered, Selected, Effect, TrialExpired;
        ConvertOne(order[i]);
        created := created + 1;
      }
      SweptAll(was, ExpireTrials, today);
    }

    method RenewOne(id: SubscriptionId)
      requires id in accounts && RenewalDue(accounts[id], today)
      modifies this`accounts
      ensures accounts
              == old(accounts)[id := Effect(old(accounts)[id], RenewPeriods, id, today, false)]
    {
      var sub := accounts[id];
      GenerateInvoiceFor(id, sub.periodEnd, sub.periodEnd + 30, sub.periodEnd);
    }

    method GeneratePeriodInvoices() returns (created: nat)
      modifies this`accounts
      ensures State() == Step(old(State()), RenewPeriods)
      ensures created == |Selected(old(accounts), RenewPeriods, today)|
    {
      ghost var was := accounts;
      var order := Ordered(Selected(accounts, RenewPeriods, today));
      created := 0;
      SweptNone(was, Selected(was, RenewPeriods, today), RenewPeriods, today);
      for i := 0 to |order|
        invariant accounts == Swept(was, Visited(order, i), RenewPeriods, today) && created == i
      {
        SweptOne(was, i, RenewPeriods, today);
        hide Swept, Visited, Ordered, Selected, Effect, RenewalDue;
        RenewOne(order[i]);
        created := created + 1;
      }
      SweptAll(was, RenewPeriods, today);
    }

    /** Two bulk updates: invoices first, then the subscriptions that have an overdue one. */
    method MarkInvoicesOverdue()
      modifies this`accounts
      ensures State() == Step(old(State()), FlagOverdue)
    {
      accounts := map s | s in accounts ::
        accounts[s].(invoices := AgedAll(accounts[s].invoices, today));
      accounts := map s | s in accounts ::
        if accounts[s].status == Active && HasOverdue(accounts[s].invoices)
        then accounts[s].(status := PastDue) else accounts[s];
    }

    method SuspendOne(id: SubscriptionId)
      requires id in accounts && Delinquent(accounts[id], today)
      modifies this`accounts
      ensures accounts
              == old(accounts)[id := Effect(old(accounts)[id], SuspendDelinquent, id, today, false)]
    {
      accounts := accounts[id := accounts[id].(status := Suspended)];
      accounts := accounts[id := accounts[id].(tenantActive := false)];
    }

    method SuspendDelinquentTenants() returns (suspended: nat)
      modifies this`accounts
      ensures State() == Step(old(State()), SuspendDelinquent)
      ensures suspended == |Selected(old(accounts), SuspendDelinquent, today)|
    {
      ghost var was := accounts;
      var order := Ordered(Selected(accounts, SuspendDelinquent, today));
      suspended := 0;
      SweptNone(was, Selected(was, SuspendDelinquent, today), SuspendDelinquent, today);
      for i := 0 to |order|
        invariant accounts == Swept(was, Visited(order, i), SuspendDelinquent, today)
        invariant suspended == i
      {
        SweptOne(was, i, SuspendDelinquent, today);
        hide Swept, Visited, Ordered, Selected, Effect, Delinquent;
        SuspendOne(order[i]);
        suspended := suspended + 1;
      }
      SweptAll(was, SuspendDelinquent, today);
    }

    /** The existing payment's charge id makes the call a no-op. */
    method RecordPayment(id: SubscriptionId, i: nat, payment: Payment)
      requires id in accounts && i < |accounts[id].invoices|
      modifies this`accounts
      ensures State() == Step(old(State()), Paying(id, i, payment))
    {
      ghost var was := State();
      if Recorded(accounts, payment.chargeId) {
        assert Step(was, Paying(id, i, payment)).accounts == accounts;
        return;
      }
      var a := accounts[id];
      var inv := a.invoices[i];
      var payments := inv.payments + [payment];
      inv := inv.(payments := payments);
      if Total(payments) >= inv.amount {
        inv := inv.(status := Paid);
      }
      a := a.(invoices := a.invoices[i := inv]);
      if inv.end >= today {
        a := a.(periodStart := inv.start, periodEnd := inv.end);
      }
      if a.status == Trial {
        a := a.(status := Active);
      }
      if a.status == PastDue {
        a := a.(status := Active, tenantActive := true);
      }
      accounts := accounts[id := a];
      assert a == Pay(was.accounts[id], i, payment, today);
      assert accounts == Step(was, Paying(id, i, payment)).accounts;
    }

    method CancelSubscription(id: SubscriptionId)
      requires id in accounts
      modifies this`accounts
      ensures State() == Step(old(State()), Cancellation(id))
    {
      ghost var was := State();
      accounts := accounts[id := accounts[id].(status := Cancelled)];
      assert accounts == Step(was, Cancellation(id)).accounts;
    }

    method ReactivateSubscription(id: SubscriptionId)
      requires id in accounts
      modifies this`accounts
      ensures State() == Step(old(State()), Reactivation(id))
    {
      ghost var was := State();
      accounts := accounts[id := accounts[id].(status := Active)];
      accounts := accounts[id := accounts[id].(tenantActive := true)];
      assert accounts == Step(was, Reactivation(id)).accounts;
    }

    method ChangeSubscriptionPlan(id: SubscriptionId, plan: Plan)
      requires id in accounts
      modifies this`accounts
      ensures State() == Step(old(State()), PlanChange(id, plan))
    {
      ghost var was := State();
      if accounts[id].plan != plan {
        accounts := accounts[id := accounts[id].(plan := plan)];
        accounts := accounts[id := accounts[id].(invoices := Voided(accounts[id].invoices))];
      }
      assert accounts == Step(was, PlanChange(id, plan)).accounts;
    }
  }
}
