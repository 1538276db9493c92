/** Subscription billing: what the services do to one subscription, and the daily jobs that go over
    all of them.  All dates are days of one clock. */
module Billing {
  import opened Rows
  import Calendar

  type SubscriptionId = nat
  type Day = nat
  type Money = int

  datatype Interval = Monthly | Annual

  /** Prices are validated to be at least zero. */
  datatype Plan = Plan(id: nat, priceMwk: nat, priceUsd: Option<nat>, interval: Interval,
                       trialDays: nat)

  datatype InvoiceStatus = Draft | Issued | Paid | Overdue | Void

  datatype Payment = Payment(amount: Money, chargeId: string)

  datatype Invoice = Invoice(start: Day, end: Day, due: Day, amount: nat, status: InvoiceStatus,
                             payments: seq<Payment>)

  datatype Status = Trial | Active | PastDue | Suspended | Cancelled

  datatype Account = Account(plan: Plan, usd: bool, status: Status, trialEndsAt: Day,
                             periodStart: Day, periodEnd: Day, tenantActive: bool,
                             invoices: seq<Invoice>)

  type Accounts = map<SubscriptionId, Account>

  const GRACE_DAYS := 14

  // ── One subscription ──────────────────────────────────────────────

  function StartTrial(plan: Plan, today: Day): Account
  {
    var end := today + plan.trialDays;
    Account(plan, false, Trial, end, today, end, true, [])
  }

  function NextPeriodEnd(start: Day, plan: Plan): Day
  {
    Calendar.AddMonths(start, if plan.interval == Annual then 12 else 1)
  }

  /** USD only for a subscription that prefers it and a plan with a nonzero USD price. */
  function Price(plan: Plan, usd: bool): nat
  {
    if usd && plan.priceUsd.Some? && plan.priceUsd.value != 0 then plan.priceUsd.value
    else plan.priceMwk
  }

  predicate Unsettled(status: InvoiceStatus)
  {
    status == Draft || status == Issued
  }

  predicate InvoicedFrom(invoices: seq<Invoice>, start: Day)
  {
    exists i :: 0 <= i < |invoices| && invoices[i].start == start && Unsettled(invoices[i].status)
  }

  /** No second invoice while an unsettled one begins on the same day. */
  function GenerateInvoice(a: Account, start: Day, end: Day, due: Day): Account
  {
    if InvoicedFrom(a.invoices, start) then a
    else a.(invoices := a.invoices + [Invoice(start, end, due, Price(a.plan, a.usd), Issued, [])])
  }

  predicate TrialExpired(a: Account, today: Day)
  {
    a.status == Trial && a.trialEndsAt <= today
  }

  function ConvertTrial(a: Account, today: Day): Account
  {
    GenerateInvoice(a.(status := PastDue), a.periodEnd, NextPeriodEnd(a.periodEnd, a.plan),
                    today + 7)
  }

  predicate RenewalDue(a: Account, today: Day)
  {
    a.status == Active && today <= a.periodEnd <= today + 7
  }

  function Renew(a: Account): Account
  {
    GenerateInvoice(a, a.periodEnd, a.periodEnd + 30, a.periodEnd)
  }

  function Aged(inv: Invoice, today: Day): Invoice
  {
    if inv.status == Issued && inv.due < today then inv.(status := Overdue) else inv
  }

  function AgedAll(invoices: seq<Invoice>, today: Day): seq<Invoice>
  {
    seq(|invoices|, i requires 0 <= i < |invoices| => Aged(invoices[i], today))
  }

  predicate HasOverdue(invoices: seq<Invoice>)
  {
    exists i :: 0 <= i < |invoices| && invoices[i].status == Overdue
  }

  function MarkOverdue(a: Account, today: Day): Account
  {
    var invoices := AgedAll(a.invoices, today);
    a.(invoices := invoices,
       status := if a.status == Active && HasOverdue(invoices) then PastDue else a.status)
  }

  /** Overdue, and due before the grace period began. */
  predicate PastGrace(inv: Invoice, today: Day)
  {
    inv.status == Overdue && inv.due < today - GRACE_DAYS
  }

  predicate Delinquent(a: Account, today: Day)
  {
    a.status == PastDue && exists i :: 0 <= i < |a.invoices| && PastGrace(a.invoices[i], today)
  }

  function Suspend(a: Account): Account
  {
    a.(status := Suspended, tenantActive := false)
  }

  function VoidedOne(inv: Invoice): Invoice
  {
    if Unsettled(inv.status) then inv.(status := Void) else inv
  }

  function Voided(invoices: seq<Invoice>): seq<Invoice>
  {
    seq(|invoices|, i requires 0 <= i < |invoices| => VoidedOne(invoices[i]))
  }

  function ChangePlan(a: Account, plan: Plan): Account
  {
    if a.plan == plan then a else a.(plan := plan, invoices := Voided(a.invoices))
  }

  /** The view that extends a trial: the period end stays. */
  function ExtendTrial(a: Account, days: int): Account
  {
    if a.status != Trial || a.trialEndsAt + days < 0 then a
    else a.(trialEndsAt := a.trialEndsAt + days)
  }

  function Reactivate(a: Account): Account
  {
    a.(status := Active, tenantActive := true)
  }

  // ── Payments ──────────────────────────────────────────────────────

  function Total(payments: seq<Payment>): Money
  {
    if payments == [] then 0 else Total(payments[..|payments| - 1]) + payments[|payments| - 1].amount
  }

  function Received(inv: Invoice, p: Payment): Invoice
  {
    var payments := inv.payments + [p];
    inv.(payments := payments,
         status := if Total(payments) >= inv.amount then Paid else inv.status)
  }

  /** Any payment, full or not, moves the period of a current invoice and ends TRIAL or PAST_DUE. */
  function Pay(a: Account, i: nat, p: Payment, today: Day): Account
    requires i < |a.invoices|
  {
    var inv := a.invoices[i];
    a.(invoices := a.invoices[i := Received(inv, p)],
       periodStart := if inv.end >= today then inv.start else a.periodStart,
       periodEnd := if inv.end >= today then inv.end else a.periodEnd,
       status := if a.status == Trial || a.status == PastDue then Active else a.status,
       tenantActive := if a.status == PastDue then true else a.tenantActive)
  }

  predicate HasCharge(a: Account, chargeId: string)
  {
    exists i, j :: 0 <= i < |a.invoices| && 0 <= j < |a.invoices[i].payments|
                   && a.invoices[i].payments[j].chargeId == chargeId
  }

  /** A payment of any subscription already carries the charge id. */
  predicate Recorded(accounts: Accounts, chargeId: string)
  {
    chargeId != "" && exists s :: s in accounts && HasCharge(accounts[s], chargeId)
  }

  // ── The platform ──────────────────────────────────────────────────

  datatype World = World(today: Day, accounts: Accounts)

  datatype BillingOp =
    | Elapse(passed: nat)
    | SignUp(id: SubscriptionId, plan: Plan)
    | ExpireTrials
    | RenewPeriods
    | FlagOverdue
    | SuspendDelinquent
    | PlanChange(id: SubscriptionId, plan: Plan)
    | Extension(id: SubscriptionId, days: int)
    | Cancellation(id: SubscriptionId)
    | Reactivation(id: SubscriptionId)
    | Paying(id: SubscriptionId, invoice: nat, payment: Payment)

  /** What an operation does to one subscription; `known` says its charge id is already recorded. */
  function Effect(a: Account, op: BillingOp, id: SubscriptionId, today: Day, known: bool): Account
  {
    match op
    case ExpireTrials => if TrialExpired(a, today) then ConvertTrial(a, today) else a
    case RenewPeriods => if RenewalDue(a, today) then Renew(a) else a
    case FlagOverdue => MarkOverdue(a, today)
    case SuspendDelinquent => if Delinquent(a, today) then Suspend(a) else a
    case PlanChange(s, plan) => if s == id then ChangePlan(a, plan) else a
    case Extension(s, days) => if s == id then ExtendTrial(a, days) else a
    case Cancellation(s) => if s == id then a.(status := Cancelled) else a
    case Reactivation(s) => if s == id then Reactivate(a) else a
    case Paying(s, i, p) =>
      if s == id && i < |a.invoices| && !known then Pay(a, i, p, today) else a
    case Elapse(_) => a
    case SignUp(_, _) => a
  }

  predicate Known(w: World, op: BillingOp)
  {
    op.Paying? && Recorded(w.accounts, op.payment.chargeId)
  }

  function Step(w: World, op: BillingOp): World
  {
    match op
    case Elapse(passed) => w.(today := w.today + passed)
    case SignUp(id, plan) =>
      if id in w.accounts then w
      else w.(accounts := w.accounts[id := StartTrial(plan, w.today)])
    case _ =>
      w.(accounts := map s | s in w.accounts ::
           Effect(w.accounts[s], op, s, w.today, Known(w, op)))
  }

  function Run(w: World, ops: seq<BillingOp>): World
    decreases |ops|
  {
    if ops == [] then w else Run(Step(w, ops[0]), ops[1..])
  }
}
