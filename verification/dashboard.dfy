/** The derived values the dashboard shows: upcoming tasks, bills due soon,
    this month's expense total, and the five-item previews. All are pure
    functions of the collections and of the clock reading `now`. */
module Dashboard {
  import opened Dates
  import opened Seqs
  import opened Store
  import opened Types
  import AppContext

  /** A pending bill is due soon when it is at most this many days away,
      including bills whose date has already passed. */
  const DueSoonDays := 7

  /** How many items each dashboard list shows. */
  const PreviewSize := 5

  /** Midnight of the task's date lies strictly after the current instant. */
  predicate IsUpcoming(t: Task, now: Now)
  {
    DateMs(t.fields.date) > NowMs(now)
  }

  /** The bill is pending and its day difference from today is at most a
      week, with no lower bound. */
  predicate IsDueSoon(b: Bill, now: Now)
  {
    DaysUntil(b.fields.dueDate, now) <= DueSoonDays && b.fields.status == BillStatus.Pending
  }

  /** The expense falls in the calendar month and year of `now`. */
  predicate InCurrentMonth(e: Expense, now: Now)
  {
    e.fields.date.month == now.date.month && e.fields.date.year == now.date.year
  }

  /** The tasks dated on a later day than today, in collection order (no
      sorting). */
  function UpcomingTasks(tasks: seq<Task>, now: Now): (r: seq<Task>)
    ensures forall i :: 0 <= i < |r| ==> r[i] in tasks && DayNumber(r[i].fields.date) > DayNumber(now.date)
    ensures forall i :: 0 <= i < |tasks| && DayNumber(tasks[i].fields.date) > DayNumber(now.date) ==> tasks[i] in r
    ensures |r| == Count(tasks, (t: Task) => IsUpcoming(t, now))
  {
    var r := Filter(tasks, (t: Task) => IsUpcoming(t, now));
    FilterLength(tasks, (t: Task) => IsUpcoming(t, now));
    assert forall t: Task :: IsUpcoming(t, now) <==> DayNumber(t.fields.date) > DayNumber(now.date) by {
      forall t: Task ensures IsUpcoming(t, now) <==> DayNumber(t.fields.date) > DayNumber(now.date) {
        AfterNowIsLaterDay(t.fields.date, now);
      }
    }
    r
  }

  /** The pending bills due within a week of today, overdue ones included. */
  function DueSoonBills(bills: seq<Bill>, now: Now): (r: seq<Bill>)
    ensures forall i :: 0 <= i < |r| ==>
              r[i] in bills && r[i].fields.status == BillStatus.Pending
              && DayNumber(r[i].fields.dueDate) - DayNumber(now.date) <= DueSoonDays
    ensures forall i :: 0 <= i < |bills| ==>
              ((bills[i].fields.status == BillStatus.Pending
                && DayNumber(bills[i].fields.dueDate) - DayNumber(now.date) <= DueSoonDays) ==> bills[i] in r)
    ensures |r| == Count(bills, (b: Bill) => IsDueSoon(b, now))
  {
    FilterLength(bills, (b: Bill) => IsDueSoon(b, now));
    Filter(bills, (b: Bill) => IsDueSoon(b, now))
  }

  /** The upcoming view keeps the tasks in collection order: computing it on
      a concatenation computes it on each part, in place. */
  lemma UpcomingTasksKeepOrder(a: seq<Task>, b: seq<Task>, now: Now)
    ensures UpcomingTasks(a + b, now) == UpcomingTasks(a, now) + UpcomingTasks(b, now)
  {
    FilterAppend(a, b, (t: Task) => IsUpcoming(t, now));
  }

  /** The running total, starting from 0, of the amounts of the expenses
      dated in the current month, accumulated from the first expense to the
      last. */
  function MonthlyTotal(expenses: seq<Expense>, now: Now): (r: int)
    ensures (forall i :: 0 <= i < |expenses| ==> !InCurrentMonth(expenses[i], now)) ==> r == 0
    ensures (forall i :: 0 <= i < |expenses| ==> expenses[i].fields.amountCents >= 0) ==> r >= 0
  {
    if |expenses| == 0 then 0
    else
      var last := expenses[|expenses| - 1];
      MonthlyTotal(expenses[..|expenses| - 1], now)
        + (if InCurrentMonth(last, now) then last.fields.amountCents else 0)
  }

  /** Sum of the amounts of a sequence of expenses: the reference
      definition the fold is compared against. */
  function SumAmounts(expenses: seq<Expense>): int
  {
    if |expenses| == 0 then 0 else expenses[0].fields.amountCents + SumAmounts(expenses[1..])
  }

  lemma {:induction false} SumAmountsAppend(a: seq<Expense>, b: seq<Expense>)
    ensures SumAmounts(a + b) == SumAmounts(a) + SumAmounts(b)
  {
    if |a| == 0 {
      assert a + b == b;
    } else {
      assert (a + b)[1..] == a[1..] + b;
      SumAmountsAppend(a[1..], b);
    }
  }

  /** The monthly total is the sum of the amounts of exactly the expenses
      dated in the current month and year. */
  lemma {:induction false} MonthlyTotalIsSumOfMonth(expenses: seq<Expense>, now: Now)
    ensures MonthlyTotal(expenses, now) == SumAmounts(Filter(expenses, (e: Expense) => InCurrentMonth(e, now)))
  {
    var inMonth := (e: Expense) => InCurrentMonth(e, now);
    if |expenses| > 0 {
      var init, last := expenses[..|expenses| - 1], expenses[|expenses| - 1];
      assert expenses == init + [last];
      MonthlyTotalIsSumOfMonth(init, now);
      FilterAppend(init, [last], inMonth);
      SumAmountsAppend(Filter(init, inMonth), Filter([last], inMonth));
      assert [last][1..] == [];
    }
  }

  /** Appending an expense adds its amount to the total when it falls in the
      current month and leaves the total unchanged otherwise. */
  lemma MonthlyTotalAppend(expenses: seq<Expense>, e: Expense, now: Now)
    ensures MonthlyTotal(expenses + [e], now)
              == MonthlyTotal(expenses, now) + (if InCurrentMonth(e, now) then e.fields.amountCents else 0)
  {
  }

  /** A bill that is paid or overdue is never due soon, whatever its date. */
  lemma SettledBillsNotDueSoon(bills: seq<Bill>, now: Now, b: Bill)
    requires b.fields.status != BillStatus.Pending
    ensures b !in DueSoonBills(bills, now)
  {
  }

  /** A pending bill whose due day has already passed is due soon: the
      window has no lower bound. */
  lemma PastDuePendingBillIsDueSoon(bills: seq<Bill>, now: Now, i: int)
    requires 0 <= i < |bills|
    requires bills[i].fields.status == BillStatus.Pending
    requires DayNumber(bills[i].fields.dueDate) < DayNumber(now.date)
    ensures bills[i] in DueSoonBills(bills, now)
  {
  }

  /** With today 2024-03-01: a pending bill due 2024-03-08 (7 days) is due
      soon, one due 2024-03-09 (8 days) is not, and a paid bill due
      2024-03-02 is not. */
  lemma DueSoonBoundary(now: Now)
    requires now.date == Date(2024, 3, 1)
    ensures IsDueSoon(Record(1, BillFields("Rent", 100, Date(2024, 3, 8), "Housing", false, BillStatus.Pending)), now)
    ensures !IsDueSoon(Record(1, BillFields("Rent", 100, Date(2024, 3, 9), "Housing", false, BillStatus.Pending)), now)
    ensures !IsDueSoon(Record(1, BillFields("Rent", 100, Date(2024, 3, 2), "Housing", false, Paid)), now)
  {
  }

  /** Both previews show the first `min(5, n)` items of their list: the
      upcoming-task preview is the first five upcoming tasks in collection
      order (not the five soonest), and "recent" expenses are the first five
      recorded (the oldest). */
  lemma PreviewsArePrefixes(tasks: seq<Task>, expenses: seq<Expense>, now: Now)
    ensures var up := UpcomingTasks(tasks, now);
      var p := Take(up, PreviewSize);
      |p| == (if |up| < PreviewSize then |up| else PreviewSize) && p == up[..|p|]
    ensures var p := Take(expenses, PreviewSize);
      |p| == (if |expenses| < PreviewSize then |expenses| else PreviewSize) && p == expenses[..|p|]
  {
  }

  /** The figures on the dashboard's three cards and its two lists. */
  datatype Summary = Summary(
    upcomingCount: nat, monthlyTotalCents: int, dueSoonCount: nat,
    upcomingPreview: seq<Task>, recentExpenses: seq<Expense>)

  /** The displayed counts are the numbers of tasks and bills meeting each
      view's condition, and the previews are prefixes of what they preview. */
  function Summarize(s: AppContext.AppState, now: Now): (r: Summary)
    ensures r.upcomingCount == Count(s.tasks, (t: Task) => IsUpcoming(t, now))
    ensures r.dueSoonCount == Count(s.bills, (b: Bill) => IsDueSoon(b, now))
    ensures r.monthlyTotalCents == SumAmounts(Filter(s.expenses, (e: Expense) => InCurrentMonth(e, now)))
    ensures |r.upcomingPreview| == (if r.upcomingCount < PreviewSize then r.upcomingCount else PreviewSize)
    ensures |r.recentExpenses| == (if |s.expenses| < PreviewSize then |s.expenses| else PreviewSize)
    ensures var upcoming := UpcomingTasks(s.tasks, now);
      |r.upcomingPreview| <= |upcoming| && r.upcomingPreview == upcoming[..|r.upcomingPreview|]
    ensures forall i :: 0 <= i < |r.upcomingPreview| ==>
              r.upcomingPreview[i] in s.tasks && DayNumber(r.upcomingPreview[i].fields.date) > DayNumber(now.date)
    ensures |r.recentExpenses| <= |s.expenses| && r.recentExpenses == s.expenses[..|r.recentExpenses|]
  {
    var upcoming := UpcomingTasks(s.tasks, now);
    MonthlyTotalIsSumOfMonth(s.expenses, now);
    Summary(|upcoming|, MonthlyTotal(s.expenses, now), |DueSoonBills(s.bills, now)|,
            Take(upcoming, PreviewSize), Take(s.expenses, PreviewSize))
  }
}
