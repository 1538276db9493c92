/** Gregorian months on one integer day clock: day 0 is 1 January of year 0, month index
    12 * year + (month - 1). */
module Calendar {

  type Day = int

  predicate Leap(year: nat)
  {
    year % 4 == 0 && (year % 100 != 0 || year % 400 == 0)
  }

  function YearOf(m: nat): nat { m / 12 }

  /** 1..12, as Python's date.month. */
  function MonthNumber(m: nat): (n: nat)
    ensures 1 <= n <= 12
  {
    m % 12 + 1
  }

  function DaysIn(m: nat): (n: nat)
    ensures 28 <= n <= 31
    ensures n == 28 || n == 29 ==> MonthNumber(m) == 2
  {
    var month := MonthNumber(m);
    if month == 2 then (if Leap(YearOf(m)) then 29 else 28)
    else if month in {4, 6, 9, 11} then 30
    else 31
  }

  function MonthStart(m: nat): (d: nat)
  {
    if m == 0 then 0 else MonthStart(m - 1) + DaysIn(m - 1)
  }

  lemma {:induction false} MonthStartsIncrease(a: nat, b: nat)
    requires a < b
    ensures MonthStart(a) + 28 <= MonthStart(b)
    ensures MonthStart(a) + DaysIn(a) <= MonthStart(b)
    decreases b
  {
    if a < b - 1 {
      MonthStartsIncrease(a, b - 1);
    }
  }

  function MonthFrom(m: nat, d: nat): (r: nat)
    requires MonthStart(m) <= d
    ensures MonthStart(r) <= d < MonthStart(r + 1)
    decreases d - MonthStart(m)
  {
    if d < MonthStart(m + 1) then m else MonthFrom(m + 1, d)
  }

  /** The month a day lies in. */
  function MonthOf(d: nat): (m: nat)
    ensures MonthStart(m) <= d < MonthStart(m + 1)
  {
    MonthFrom(0, d)
  }

  /** Every day lies in exactly one month window. */
  lemma {:induction false} MonthOfIsUnique(d: nat, m: nat)
    ensures MonthStart(m) <= d < MonthStart(m + 1) <==> m == MonthOf(d)
  {
    var r := MonthOf(d);
    if r < m {
      if r + 1 < m { MonthStartsIncrease(r + 1, m); }
    } else if m < r {
      if m + 1 < r { MonthStartsIncrease(m + 1, r); }
    }
  }

  /** date.replace(day=1) */
  function FirstOfMonth(d: nat): (f: nat)
    ensures f <= d
  {
    MonthStart(MonthOf(d))
  }

  /** fcy/services.py: (month.replace(day=1) + timedelta(days=32)).replace(day=1) */
  function NextByThirtyTwoDays(d: nat): nat
  {
    FirstOfMonth(FirstOfMonth(d) + 32)
  }

  /** fcy/tasks.py: (today.replace(day=1) - timedelta(days=1)).replace(day=1) */
  function PreviousMonth(d: nat): nat
    requires FirstOfMonth(d) > 0
  {
    FirstOfMonth(FirstOfMonth(d) - 1)
  }

  /** The first day of a month given as year and month number. */
  function DateOfFirst(year: nat, month: nat): nat
    requires 1 <= month <= 12
  {
    MonthStart(12 * year + month - 1)
  }

  lemma YearAndMonth(m: nat)
    ensures 12 * YearOf(m) + MonthNumber(m) - 1 == m
  {
  }

  /** rent_invoicing/tasks.py: the month window of today, by the December branch.
      Both ends are days of the month. */
  method MonthWindow(today: nat) returns (periodStart: nat, periodEnd: nat)
    ensures periodStart == MonthStart(MonthOf(today))
    ensures periodEnd == MonthStart(MonthOf(today) + 1) - 1
    ensures periodStart <= today <= periodEnd
  {
    var m := MonthOf(today);
    var year, month := YearOf(m), MonthNumber(m);
    YearAndMonth(m);
    hide MonthOf, YearOf, MonthNumber, DaysIn;
    periodStart := DateOfFirst(year, month);
    var nextMonth;
    if month == 12 {
      nextMonth := DateOfFirst(year + 1, 1);
    } else {
      nextMonth := DateOfFirst(year, month + 1);
    }
    periodEnd := nextMonth - 1;
  }

  lemma TwoMonthsAreLong(m: nat)
    ensures DaysIn(m) + DaysIn(m + 1) >= 59
    ensures MonthStart(m + 2) == MonthStart(m) + DaysIn(m) + DaysIn(m + 1)
  {
  }

  /** The 32-day step lands on the first of the next month, from every day of every month. */
  lemma {:induction false} ThirtyTwoDaysIsNextMonth(d: nat)
    ensures NextByThirtyTwoDays(d) == MonthStart(MonthOf(d) + 1)
  {
    hide MonthOf, DaysIn;
    var m := MonthOf(d);
    var f := FirstOfMonth(d);
    TwoMonthsAreLong(m);
    assert MonthStart(m + 1) == f + DaysIn(m) <= f + 32 < MonthStart(m + 2);
    hide MonthStart;
    MonthOfIsUnique(f, m);
    MonthOfIsUnique(f + 32, m + 1);
  }

  /** The first of the next month by the explicit December branch, as in rent_invoicing/tasks.py. */
  function NextByBranch(d: nat): nat
  {
    var m := MonthOf(d);
    if MonthNumber(m) == 12 then DateOfFirst(YearOf(m) + 1, 1)
    else DateOfFirst(YearOf(m), MonthNumber(m) + 1)
  }

  /** The two ways the source finds the next month agree on every day. */
  lemma {:induction false} NextStepsAgree(d: nat)
    ensures NextByThirtyTwoDays(d) == NextByBranch(d) == MonthStart(MonthOf(d) + 1)
  {
    ThirtyTwoDaysIsNextMonth(d);
    YearAndMonth(MonthOf(d));
    hide MonthOf, MonthStart, NextByThirtyTwoDays;
  }

  /** The step back of one day lands on the first of the previous month. */
  lemma {:induction false} PreviousMonthIsPrevious(d: nat)
    requires FirstOfMonth(d) > 0
    ensures MonthOf(d) > 0 && PreviousMonth(d) == MonthStart(MonthOf(d) - 1)
  {
    var m := MonthOf(d);
    MonthOfIsUnique(MonthStart(m) - 1, m - 1);
  }

  lemma {:induction false} FirstIsFirst(m: nat)
    ensures MonthOf(MonthStart(m)) == m && FirstOfMonth(MonthStart(m)) == MonthStart(m)
  {
    MonthOfIsUnique(MonthStart(m), m);
  }

  /** The next-month step and the previous-month step undo each other. */
  lemma {:induction false} PreviousInvertsNext(d: nat)
    ensures FirstOfMonth(NextByThirtyTwoDays(d)) == NextByThirtyTwoDays(d) > d
    ensures PreviousMonth(NextByThirtyTwoDays(d)) == FirstOfMonth(d)
    ensures FirstOfMonth(d) > 0 ==> NextByThirtyTwoDays(PreviousMonth(d)) == FirstOfMonth(d)
  {
    hide MonthOf, DaysIn, MonthStart;
    ThirtyTwoDaysIsNextMonth(d);
    FirstIsFirst(MonthOf(d) + 1);
    PreviousMonthIsPrevious(MonthStart(MonthOf(d) + 1));
    if FirstOfMonth(d) > 0 {
      PreviousMonthIsPrevious(d);
      FirstIsFirst(MonthOf(d) - 1);
      ThirtyTwoDaysIsNextMonth(MonthStart(MonthOf(d) - 1));
    }
  }

  /** relativedelta(months=k): same day of the month, cut to the month's last day. */
  function AddMonths(d: nat, k: nat): (r: nat)
  {
    var m := MonthOf(d);
    var offset := d - MonthStart(m);
    MonthStart(m + k) + (if offset < DaysIn(m + k) then offset else DaysIn(m + k) - 1)
  }

  /** The later day is the same of its month, or the month is too short and it is its last. */
  predicate SameDayOrLast(d: nat, later: nat)
  {
    var day, month := d - MonthStart(MonthOf(d)), MonthOf(later);
    later == MonthStart(month) + day
    || (later == MonthStart(month + 1) - 1 && day >= DaysIn(month))
  }

  lemma {:induction false} AddMonthsLands(d: nat, k: nat)
    ensures MonthOf(AddMonths(d, k)) == MonthOf(d) + k
    ensures SameDayOrLast(d, AddMonths(d, k))
    ensures k > 0 ==> AddMonths(d, k) > d
  {
    MonthOfIsUnique(AddMonths(d, k), MonthOf(d) + k);
    if k > 1 { MonthStartsIncrease(MonthOf(d) + 1, MonthOf(d) + k); }
  }
}
