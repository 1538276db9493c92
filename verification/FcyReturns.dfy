/** Monthly returns of foreign-currency receipts to the central bank. */
module FcyReturns {
  import opened Rows
  import Calendar
  import Desk

  type PropertyId = nat
  type PaymentId = nat
  type Day = nat
  type Money = int

  datatype Currency = Mwk | Usd | Eur | Gbp | Zar

  datatype FolioPayment = FolioPayment(property: PropertyId, means: Desk.PaymentMethod,
                                       currency: Currency, amount: Money, created: Day)

  type Payments = map<PaymentId, FolioPayment>

  /** The unique key of a return; month is its first day. */
  datatype Key = Key(property: PropertyId, month: Day, currency: Currency)

  datatype Return = Return(receipts: Money, refunds: Money, net: Money, count: nat)

  predicate Foreign(p: FolioPayment)
  {
    (p.means == Desk.CashUsd || p.means == Desk.Card) && (p.currency == Usd || p.currency == Eur)
  }

  /** The payments of a property and currency in [start, end). */
  function Between(payments: Payments, property: PropertyId, c: Currency, start: Day, end: Day)
    : set<PaymentId>
  {
    set i | i in payments && payments[i].property == property && Foreign(payments[i])
            && payments[i].currency == c && start <= payments[i].created < end
  }

  /** The query of one return: the window runs to the first of the next month. */
  function Receipts(payments: Payments, k: Key): set<PaymentId>
  {
    Between(payments, k.property, k.currency, k.month, Calendar.NextByThirtyTwoDays(k.month))
  }

  function Total(payments: Payments, ids: set<PaymentId>): Money
    requires ids <= payments.Keys
    decreases |ids|
  {
    if ids == {} then 0
    else
      var i := Least(ids);
      Total(payments, ids - {i}) + payments[i].amount
  }

  function ReturnFor(payments: Payments, k: Key): Return
  {
    var ids := Receipts(payments, k);
    Return(Total(payments, ids), 0, Total(payments, ids), |ids|)
  }

  // ── The monthly job ───────────────────────────────────────────────

  type Returns = map<Key, Return>

  function Due(active: set<PropertyId>, month: Day): set<Key>
  {
    set p, c | p in active && c in {Usd, Eur} :: Key(p, month, c)
  }

  /** A return for each of the keys with receipts, unless there is one already. */
  function Generated(filed: Returns, payments: Payments, keys: set<Key>): Returns
  {
    filed + map k | k in keys && k !in filed && Receipts(payments, k) != {} ::
              ReturnFor(payments, k)
  }

  lemma GeneratedAt(filed: Returns, payments: Payments, keys: set<Key>, k: Key)
    ensures k in Generated(filed, payments, keys) <==>
              k in filed || (k in keys && Receipts(payments, k) != {})
    ensures k in Generated(filed, payments, keys) ==>
              Generated(filed, payments, keys)[k]
              == if k in filed then filed[k] else ReturnFor(payments, k)
  {
    hide Receipts, ReturnFor;
  }

  lemma GeneratedMore(filed: Returns, payments: Payments, a: set<Key>, b: set<Key>)
    ensures Generated(Generated(filed, payments, a), payments, b)
            == Generated(filed, payments, a + b)
  {
    hide Generated, Receipts, ReturnFor;
    var once := Generated(filed, payments, a);
    forall k ensures k in Generated(once, payments, b) <==> k in Generated(filed, payments, a + b) {
      GeneratedAt(filed, payments, a, k);
      GeneratedAt(once, payments, b, k);
      GeneratedAt(filed, payments, a + b, k);
    }
    forall k | k in Generated(once, payments, b)
      ensures Generated(once, payments, b)[k] == Generated(filed, payments, a + b)[k]
    {
      GeneratedAt(filed, payments, a, k);
      GeneratedAt(once, payments, b, k);
      GeneratedAt(filed, payments, a + b, k);
    }
  }

  /** Running the job again changes nothing. */
  lemma {:induction false} SecondRunIsIdle(filed: Returns, payments: Payments, keys: set<Key>)
    ensures
      var once := Generated(filed, payments, keys);
      Generated(once, payments, keys) == once
  {
    GeneratedMore(filed, payments, keys, keys);
    assert keys + keys == keys;
  }

  lemma DueMore(done: set<PropertyId>, p: PropertyId, month: Day)
    ensures Due(done + {p}, month) == Due(done, month) + Due({p}, month)
    ensures Due({}, month) == {}
  {
  }

  /** The rows of the grouped query. */
  function Grouped(payments: Payments, property: PropertyId, month: Day): seq<Key>
  {
    (if Receipts(payments, Key(property, month, Usd)) != {} then [Key(property, month, Usd)] else [])
    + (if Receipts(payments, Key(property, month, Eur)) != {} then [Key(property, month, Eur)]
       else [])
  }

  /** The rows listed for some properties, those that existed before included. */
  function Listed(payments: Payments, properties: seq<PropertyId>, month: Day): nat
  {
    if properties == [] then 0
    else
      var n := |properties| - 1;
      Listed(payments, properties[..n], month) + |Grouped(payments, properties[n], month)|
  }

  lemma ListedMore(payments: Payments, properties: seq<PropertyId>, i: nat, month: Day)
    requires i < |properties|
    ensures Listed(payments, properties[..i + 1], month)
            == Listed(payments, properties[..i], month)
               + |Grouped(payments, properties[i], month)|
  {
    assert properties[..i + 1][..i] == properties[..i];
  }

  function KeysOf(rows: seq<Key>, i: nat): set<Key>
    requires i <= |rows|
  {
    set j | 0 <= j < i :: rows[j]
  }

  lemma GroupedIsDue(filed: Returns, payments: Payments, property: PropertyId, month: Day)
    ensures
      var rows := Grouped(payments, property, month);
      && (forall k :: k in rows <==> k in Due({property}, month) && Receipts(payments, k) != {})
      && Generated(filed, payments, KeysOf(rows, |rows|))
         == Generated(filed, payments, Due({property}, month))
  {
    hide Receipts, ReturnFor;
    var rows := Grouped(payments, property, month);
    assert Due({property}, month) == {Key(property, month, Usd), Key(property, month, Eur)};
    forall k ensures k in KeysOf(rows, |rows|) <==> k in rows {}
  }

  lemma NoRowYet(filed: Returns, payments: Payments, rows: seq<Key>)
    ensures Generated(filed, payments, KeysOf(rows, 0)) == filed
  {
  }

  lemma OneGenerated(filed: Returns, payments: Payments, k: Key)
    requires Receipts(payments, k) != {}
    ensures Generated(filed, payments, {k})
            == if k in filed then filed else filed[k := ReturnFor(payments, k)]
  {
    hide Receipts, ReturnFor;
  }

  lemma NextRow(filed: Returns, payments: Payments, property: PropertyId, month: Day, i: nat)
    requires i < |Grouped(payments, property, month)|
    ensures
      var rows := Grouped(payments, property, month);
      var before := Generated(filed, payments, KeysOf(rows, i));
      Generated(filed, payments, KeysOf(rows, i + 1))
      == if rows[i] in before then before else before[rows[i] := ReturnFor(payments, rows[i])]
  {
    var rows := Grouped(payments, property, month);
    assert Receipts(payments, rows[i]) != {};
    hide Grouped, Receipts;
    assert KeysOf(rows, i + 1) == KeysOf(rows, i) + {rows[i]};
    GeneratedMore(filed, payments, KeysOf(rows, i), {rows[i]});
    OneGenerated(Generated(filed, payments, KeysOf(rows, i)), payments, rows[i]);
  }

  lemma NextProperty(filed: Returns, payments: Payments, active: set<PropertyId>, i: nat,
                     month: Day)
    requires i < |Ordered(active)|
    ensures
      var order := Ordered(active);
      && Generated(Generated(filed, payments, Due(Visited(order, i), month)), payments,
                   Due({order[i]}, month))
         == Generated(filed, payments, Due(Visited(order, i + 1), month))
      && Listed(payments, order[..i + 1], month)
         == Listed(payments, order[..i], month) + |Grouped(payments, order[i], month)|
  {
    hide *;
    var order := Ordered(active);
    ListedMore(payments, order, i, month);
    VisitOne(active, i);
    DueMore(Visited(order, i), order[i], month);
    GeneratedMore(filed, payments, Due(Visited(order, i), month), Due({order[i]}, month));
  }

  class Office {
    var payments: Payments
    var filed: Returns

    constructor (p: Payments)
      ensures payments == p && filed == map[]
    {
      payments, filed := p, map[];
    }

    method GetOrCreate(k: Key, defaults: Return)
      modifies this`filed
      ensures filed == if k in old(filed) then old(filed) else old(filed)[k := defaults]
    {
      if k !in filed {
        filed := filed[k := defaults];
      }
    }

    /** One row per currency with receipts. */
    method GenerateReturn(property: PropertyId, month: Day) returns (listed: seq<Key>)
      modifies this`filed
      ensures filed == Generated(old(filed), payments, Due({property}, month))
      ensures listed == Grouped(payments, property, month)
    {
      hide *;
      ghost var was := filed;
      var rows := Grouped(payments, property, month);
      listed := [];
      NoRowYet(was, payments, rows);
      for i := 0 to |rows|
        invariant filed == Generated(was, payments, KeysOf(rows, i))
        invariant listed == rows[..i]
      {
        NextRow(was, payments, property, month, i);
        GetOrCreate(rows[i], ReturnFor(payments, rows[i]));
        listed := listed + [rows[i]];
      }
      GroupedIsDue(was, payments, property, month);
    }

    /** The monthly job: the previous month's returns of every active property. */
    method GenerateMonthlyReturns(active: set<PropertyId>, today: Day) returns (count: nat)
      requires Calendar.FirstOfMonth(today) > 0
      modifies this`filed
      ensures filed == Generated(old(filed), payments, Due(active, Calendar.PreviousMonth(today)))
      ensures count == Listed(payments, Ordered(active), Calendar.PreviousMonth(today))
    {
      ghost var was := filed;
      var month := Calendar.PreviousMonth(today);
      var order := Ordered(active);
      count := 0;
      assert Generated(was, payments, Due(Visited(order, 0), month)) == was;
      assert Listed(payments, order[..0], month) == 0;
      hide *;
      for i := 0 to |order|
        invariant filed == Generated(was, payments, Due(Visited(order, i), month))
        invariant count == Listed(payments, order[..i], month)
      {
        NextProperty(was, payments, active, i, month);
        var listed := GenerateReturn(order[i], month);
        count := count + |listed|;
      }
      VisitAll(active);
      assert order[..|order|] == order;
    }
  }

  // ── Each payment in one return ────────────────────────────────────

  lemma {:induction false} WindowIsTheMonth(payments: Payments, property: PropertyId, c: Currency,
                                            month: nat)
    ensures Receipts(payments, Key(property, Calendar.MonthStart(month), c))
            == Between(payments, property, c, Calendar.MonthStart(month),
                       Calendar.MonthStart(month + 1))
  {
    Calendar.FirstIsFirst(month);
    Calendar.ThirtyTwoDaysIsNextMonth(Calendar.MonthStart(month));
  }

  /** A USD or EUR payment by card or USD cash is counted by exactly one monthly return. */
  lemma {:induction false} ExactlyOneReturn(payments: Payments, i: PaymentId, property: PropertyId,
                                            c: Currency, month: nat)
    requires i in payments
    ensures i in Receipts(payments, Key(property, Calendar.MonthStart(month), c)) <==>
              Foreign(payments[i]) && payments[i].property == property
              && payments[i].currency == c && month == Calendar.MonthOf(payments[i].created)
  {
    WindowIsTheMonth(payments, property, c, month);
    Calendar.MonthOfIsUnique(payments[i].created, month);
  }

  lemma {:induction false} TotalWithout(payments: Payments, ids: set<PaymentId>, i: PaymentId)
    requires ids <= payments.Keys && i in ids
    ensures Total(payments, ids) == Total(payments, ids - {i}) + payments[i].amount
    decreases |ids|
  {
    var m := Least(ids);
    if m != i {
      TotalWithout(payments, ids - {m}, i);
      TotalWithout(payments, ids - {i}, m);
      assert ids - {m} - {i} == ids - {i} - {m};
    }
  }

  lemma {:induction false} TotalOfUnion(payments: Payments, a: set<PaymentId>, b: set<PaymentId>)
    requires a <= payments.Keys && b <= payments.Keys && a !! b
    ensures Total(payments, a + b) == Total(payments, a) + Total(payments, b)
    decreases |b|
  {
    if b == {} {
      assert a + b == a;
    } else {
      var i := Least(b);
      TotalOfUnion(payments, a, b - {i});
      TotalWithout(payments, a + b, i);
      assert a + b - {i} == a + (b - {i});
    }
  }

  lemma {:induction false} AdjacentWindows(payments: Payments, property: PropertyId, c: Currency,
                                           start: Day, mid: Day, end: Day)
    requires start <= mid <= end
    ensures Total(payments, Between(payments, property, c, start, end))
            == Total(payments, Between(payments, property, c, start, mid))
               + Total(payments, Between(payments, property, c, mid, end))
  {
    var early := Between(payments, property, c, start, mid);
    var late := Between(payments, property, c, mid, end);
    assert Between(payments, property, c, start, end) == early + late;
    TotalOfUnion(payments, early, late);
  }

  // ── Months of task runs ───────────────────────────────────────────

  /** One run of the monthly job: its day, the payments it finds and the properties active then. */
  datatype JobRun = JobRun(day: Day, payments: Payments, active: set<PropertyId>)

  /** One run in each month from the one after `first` on. */
  ghost predicate OncePerMonth(first: nat, runs: seq<JobRun>)
  {
    forall i :: 0 <= i < |runs| ==> Calendar.MonthOf(runs[i].day) == first + i + 1
  }

  /** Payments recorded later than a run's table are created on its day or after; none is changed. */
  ghost predicate GrowsAfter(payments: Payments, later: Payments, day: Day)
  {
    && (forall i :: i in payments ==> i in later && later[i] == payments[i])
    && (forall i :: i in later && i !in payments ==> later[i].created >= day)
  }

  /** What every run finds grows into the same table. */
  ghost predicate AllGrowInto(runs: seq<JobRun>, final: Payments)
  {
    forall i :: 0 <= i < |runs| ==> GrowsAfter(runs[i].payments, final, runs[i].day)
  }

  lemma FirstIsPositive(d: Day)
    requires Calendar.MonthOf(d) > 0
    ensures Calendar.FirstOfMonth(d) > 0
  {
    Calendar.MonthStartsIncrease(0, Calendar.MonthOf(d));
  }

  /** The returns after the monthly job ran once in each of a row of months, the first of them the
      month after `first`. */
  ghost function RunMonths(first: nat, runs: seq<JobRun>): Returns
    requires OncePerMonth(first, runs)
    decreases |runs|
  {
    if runs == [] then map[]
    else
      var n := |runs| - 1;
      FirstIsPositive(runs[n].day);
      Generated(RunMonths(first, runs[..n]), runs[n].payments,
                Due(runs[n].active, Calendar.PreviousMonth(runs[n].day)))
  }

  /** Sum of the receipts a property reports in one currency over months first .. first + n - 1. */
  function Reported(filed: Returns, property: PropertyId, c: Currency, first: nat, n: nat): Money
  {
    if n == 0 then 0
    else
      var k := Key(property, Calendar.MonthStart(first + n - 1), c);
      Reported(filed, property, c, first, n - 1) + (if k in filed then filed[k].receipts else 0)
  }

  lemma {:induction false} MonthStartsDiffer(a: nat, b: nat)
    requires a != b
    ensures Calendar.MonthStart(a) != Calendar.MonthStart(b)
  {
    if a < b { Calendar.MonthStartsIncrease(a, b); } else { Calendar.MonthStartsIncrease(b, a); }
  }

  lemma {:induction false} SameTotal(payments: Payments, later: Payments, ids: set<PaymentId>)
    requires ids <= payments.Keys && ids <= later.Keys
    requires forall i :: i in ids ==> payments[i] == later[i]
    ensures Total(payments, ids) == Total(later, ids)
    decreases |ids|
  {
    if ids != {} { SameTotal(payments, later, ids - {Least(ids)}); }
  }

  /** A month that is over when the job runs gets no payments afterwards. */
  lemma {:induction false} MonthIsOver(payments: Payments, later: Payments, day: Day,
                                       property: PropertyId, c: Currency)
    requires Calendar.MonthOf(day) > 0 && GrowsAfter(payments, later, day)
    ensures
      var k := Key(property, Calendar.MonthStart(Calendar.MonthOf(day) - 1), c);
      Receipts(payments, k) == Receipts(later, k) && ReturnFor(payments, k) == ReturnFor(later, k)
  {
    var m := Calendar.MonthOf(day) - 1;
    var k := Key(property, Calendar.MonthStart(m), c);
    WindowIsTheMonth(payments, property, c, m);
    WindowIsTheMonth(later, property, c, m);
    Calendar.MonthOfIsUnique(day, m + 1);
    hide Calendar.MonthStart, Calendar.MonthOf, Receipts, Total;
    assert Receipts(payments, k) == Receipts(later, k);
    SameTotal(payments, later, Receipts(payments, k));
  }

  lemma {:induction false} LastMonth(first: nat, runs: seq<JobRun>, final: Payments)
    requires OncePerMonth(first, runs) && runs != [] && AllGrowInto(runs, final)
    ensures
      var n := |runs| - 1;
      && OncePerMonth(first, runs[..n]) && AllGrowInto(runs[..n], final)
      && Calendar.MonthOf(runs[n].day) == first + n + 1
      && GrowsAfter(runs[n].payments, final, runs[n].day)
      && RunMonths(first, runs)
         == Generated(RunMonths(first, runs[..n]), runs[n].payments,
                      Due(runs[n].active, Calendar.MonthStart(first + n)))
  {
    hide GrowsAfter, Generated, Due, Calendar.MonthStart, Calendar.MonthOf, Calendar.FirstOfMonth,
         Calendar.PreviousMonth;
    var n := |runs| - 1;
    FirstIsPositive(runs[n].day);
    Calendar.PreviousMonthIsPrevious(runs[n].day);
  }

  lemma NoMonths(first: nat, runs: seq<JobRun>)
    requires OncePerMonth(first, runs) && runs == []
    ensures RunMonths(first, runs) == map[]
  {
  }

  lemma DueAt(active: set<PropertyId>, month: Day, k: Key)
    ensures k in Due(active, month) <==>
              k.property in active && k.month == month && (k.currency == Usd || k.currency == Eur)
  {
  }

  /** The job reported on month m, and the property was active when it did. */
  predicate CoveredBy(runs: seq<JobRun>, property: PropertyId, first: nat, m: nat)
  {
    first <= m < first + |runs| && property in runs[m - first].active
  }

  /** The returns hold exactly the months the job ran for, with what the final table says of them. */
  lemma {:induction false} ReturnOfMonth(first: nat, runs: seq<JobRun>, final: Payments,
                                         property: PropertyId, c: Currency, m: nat)
    requires OncePerMonth(first, runs) && AllGrowInto(runs, final) && (c == Usd || c == Eur)
    ensures
      var k := Key(property, Calendar.MonthStart(m), c);
      var filed := RunMonths(first, runs);
      && (k in filed <==> CoveredBy(runs, property, first, m) && Receipts(final, k) != {})
      && (k in filed ==> filed[k] == ReturnFor(final, k))
    decreases |runs|
  {
    hide Calendar.MonthStart, Calendar.MonthOf, OncePerMonth, AllGrowInto, GrowsAfter, RunMonths,
         Generated, Receipts, ReturnFor, Due;
    if runs == [] {
      NoMonths(first, runs);
    } else {
      var n := |runs| - 1;
      var k := Key(property, Calendar.MonthStart(m), c);
      var month := Calendar.MonthStart(first + n);
      LastMonth(first, runs, final);
      ReturnOfMonth(first, runs[..n], final, property, c, m);
      GeneratedAt(RunMonths(first, runs[..n]), runs[n].payments, Due(runs[n].active, month), k);
      MonthIsOver(runs[n].payments, final, runs[n].day, property, c);
      if m != first + n { MonthStartsDiffer(m, first + n); }
      DueAt(runs[n].active, month, k);
    }
  }

  lemma NothingReported(filed: Returns, payments: Payments, property: PropertyId, c: Currency,
                        first: nat)
    ensures Reported(filed, property, c, first, 0) == 0
    ensures Total(payments, Between(payments, property, c, Calendar.MonthStart(first),
                                    Calendar.MonthStart(first))) == 0
  {
    assert Between(payments, property, c, Calendar.MonthStart(first),
                   Calendar.MonthStart(first)) == {};
  }

  /** One more month reported: its receipts, or nothing where there are none. */
  lemma ReportedStep(filed: Returns, payments: Payments, property: PropertyId, c: Currency,
                     first: nat, n: nat)
    requires n > 0
    requires
      var k := Key(property, Calendar.MonthStart(first + n - 1), c);
      && (k in filed <==> Receipts(payments, k) != {})
      && (k in filed ==> filed[k] == ReturnFor(payments, k))
    ensures
      var k := Key(property, Calendar.MonthStart(first + n - 1), c);
      Reported(filed, property, c, first, n)
      == Reported(filed, property, c, first, n - 1) + Total(payments, Receipts(payments, k))
  {
    hide Receipts;
  }

  lemma {:induction false} ReportedIsBetween(first: nat, runs: seq<JobRun>, final: Payments,
                                             property: PropertyId, c: Currency, n: nat)
    requires OncePerMonth(first, runs) && AllGrowInto(runs, final) && (c == Usd || c == Eur)
    requires n <= |runs|
    requires forall m :: first <= m < first + n ==> CoveredBy(runs, property, first, m)
    ensures Reported(RunMonths(first, runs), property, c, first, n)
            == Total(final, Between(final, property, c, Calendar.MonthStart(first),
                                    Calendar.MonthStart(first + n)))
    decreases n
  {
    hide *;
    var filed := RunMonths(first, runs);
    if n == 0 {
      NothingReported(filed, final, property, c, first);
    } else {
      var m := first + n - 1;
      ReturnOfMonth(first, runs, final, property, c, m);
      ReportedStep(filed, final, property, c, first, n);
      ReportedIsBetween(first, runs, final, property, c, n - 1);
      WindowIsTheMonth(final, property, c, m);
      if first < m { Calendar.MonthStartsIncrease(first, m); }
      Calendar.MonthStartsIncrease(m, m + 1);
      AdjacentWindows(final, property, c, Calendar.MonthStart(first), Calendar.MonthStart(m),
                      Calendar.MonthStart(m + 1));
    }
  }

  /** Main theorem: when the job runs once in each of a row of months, on any day of them, while
      payments keep coming in, the receipts reported for a property active at each run and a
      currency add up to exactly the payments of the months covered, as the final table has them. */
  lemma {:induction false} NothingLostOrCountedTwice(first: nat, runs: seq<JobRun>, final: Payments,
                                                     property: PropertyId, c: Currency)
    requires OncePerMonth(first, runs) && AllGrowInto(runs, final) && (c == Usd || c == Eur)
    requires forall i :: 0 <= i < |runs| ==> property in runs[i].active
    ensures Reported(RunMonths(first, runs), property, c, first, |runs|)
            == Total(final, Between(final, property, c, Calendar.MonthStart(first),
                                    Calendar.MonthStart(first + |runs|)))
  {
    ReportedIsBetween(first, runs, final, property, c, |runs|);
  }
}
