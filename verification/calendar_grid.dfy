/**
 * The calendar screens (Views/Calendar/MonthView.swift, CalendarView.swift and
 * WeekView.swift): the cells of a month grid, the seven days of a week, and
 * the transactions and totals of one day.
 *
 * The calendar is a parameter: `addDays(d, k)` is the date `k` days after
 * `d`, and `dayOf` maps a date to its day, so that two dates fall on the
 * same day exactly when `dayOf` agrees on them.
 */
module CalendarGrid {
  import opened Sequences
  import opened Wrappers
  import opened Entities
  import CalendarStats

  /**
   * The cells of `CalendarView.daysInMonth()`: `firstWeekday - 1` blank cells
   * (weekdays are numbered from 1, Sunday), then the days of the month.
   */
  function MonthCells(firstDay: Date, firstWeekday: int, daysInMonth: int, addDays: (Date, int) -> Date)
    : (r: seq<Option<Date>>)
    requires firstWeekday >= 1 && daysInMonth >= 0
    ensures |r| == firstWeekday - 1 + daysInMonth
    ensures forall i :: 0 <= i < firstWeekday - 1 ==> r[i] == None
    ensures forall k :: 0 <= k < daysInMonth ==> r[firstWeekday - 1 + k] == Some(addDays(firstDay, k))
  {
    seq(firstWeekday - 1 + daysInMonth,
        i requires 0 <= i < firstWeekday - 1 + daysInMonth =>
          if i < firstWeekday - 1 then None else Some(addDays(firstDay, i - (firstWeekday - 1))))
  }

  /** The cells of `MonthView.daysInMonth()`: the same cells, padded with blanks to 42. */
  function PaddedMonthCells(firstDay: Date, firstWeekday: int, daysInMonth: int, addDays: (Date, int) -> Date)
    : (r: seq<Option<Date>>)
    requires firstWeekday >= 1 && daysInMonth >= 0
    ensures |r| >= 42 && |r| >= firstWeekday - 1 + daysInMonth
    ensures r[..firstWeekday - 1 + daysInMonth] == MonthCells(firstDay, firstWeekday, daysInMonth, addDays)
    ensures forall i :: firstWeekday - 1 + daysInMonth <= i < |r| ==> r[i] == None
    ensures firstWeekday - 1 + daysInMonth > 42 ==> |r| == firstWeekday - 1 + daysInMonth
  {
    var cells := MonthCells(firstDay, firstWeekday, daysInMonth, addDays);
    var remainingDays := 42 - |cells|;
    if remainingDays > 0 then cells + seq(remainingDays, _ => None) else cells
  }

  /** For any real month (a weekday 1 to 7, 28 to 31 days) the padded grid has exactly six weeks. */
  lemma PaddedGridIsSixWeeks(firstDay: Date, firstWeekday: int, daysInMonth: int, addDays: (Date, int) -> Date)
    requires 1 <= firstWeekday <= 7 && 28 <= daysInMonth <= 31
    ensures |PaddedMonthCells(firstDay, firstWeekday, daysInMonth, addDays)| == 42
  {
  }

  /** The number of cells holding a date. */
  function CountDates(cells: seq<Option<Date>>): nat {
    if cells == [] then 0
    else CountDates(cells[..|cells| - 1]) + (if cells[|cells| - 1].Some? then 1 else 0)
  }

  lemma CountDatesAppend(a: seq<Option<Date>>, b: seq<Option<Date>>)
    ensures CountDates(a + b) == CountDates(a) + CountDates(b)
    decreases |b|
  {
    if b != [] {
      assert (a + b)[..|a + b| - 1] == a + b[..|b| - 1];
      CountDatesAppend(a, b[..|b| - 1]);
    } else {
      assert a + b == a;
    }
  }

  lemma {:induction false} CountDatesOfBlanks(cells: seq<Option<Date>>)
    requires forall i :: 0 <= i < |cells| ==> cells[i] == None
    ensures CountDates(cells) == 0
  {
    if cells != [] {
      CountDatesOfBlanks(cells[..|cells| - 1]);
    }
  }

  lemma {:induction false} CountDatesOfDates(cells: seq<Option<Date>>)
    requires forall i :: 0 <= i < |cells| ==> cells[i].Some?
    ensures CountDates(cells) == |cells|
  {
    if cells != [] {
      CountDatesOfDates(cells[..|cells| - 1]);
    }
  }

  /** Both grids hold exactly one cell per day of the month. */
  lemma GridsHoldEveryDayOnce(firstDay: Date, firstWeekday: int, daysInMonth: int, addDays: (Date, int) -> Date)
    requires firstWeekday >= 1 && daysInMonth >= 0
    ensures CountDates(MonthCells(firstDay, firstWeekday, daysInMonth, addDays)) == daysInMonth
    ensures CountDates(PaddedMonthCells(firstDay, firstWeekday, daysInMonth, addDays)) == daysInMonth
  {
    var cells := MonthCells(firstDay, firstWeekday, daysInMonth, addDays);
    var blanks, days := cells[..firstWeekday - 1], cells[firstWeekday - 1..];
    assert cells == blanks + days;
    CountDatesOfBlanks(blanks);
    CountDatesOfDates(days);
    CountDatesAppend(blanks, days);
    var padded := PaddedMonthCells(firstDay, firstWeekday, daysInMonth, addDays);
    var tail := padded[|cells|..];
    assert padded == cells + tail;
    CountDatesOfBlanks(tail);
    CountDatesAppend(cells, tail);
  }

  /**
   * `CalendarView.daysInMonth()`: starts from the blank cells and appends one
   * date per day of the month.  Swift's `1...daysInMonth` needs at least one day.
   */
  method DaysInMonth(firstDay: Date, firstWeekday: int, daysInMonth: int, addDays: (Date, int) -> Date)
    returns (days: seq<Option<Date>>)
    requires firstWeekday >= 1 && daysInMonth >= 1
    ensures days == MonthCells(firstDay, firstWeekday, daysInMonth, addDays)
  {
    days := seq(firstWeekday - 1, _ => None);
    for day := 1 to daysInMonth + 1
      invariant |days| == firstWeekday - 1 + day - 1
      invariant forall i :: 0 <= i < firstWeekday - 1 ==> days[i] == None
      invariant forall k :: 0 <= k < day - 1 ==> days[firstWeekday - 1 + k] == Some(addDays(firstDay, k))
    {
      days := days + [Some(addDays(firstDay, day - 1))];
    }
  }

  /** `MonthView.daysInMonth()`: the same loop, then blank cells up to 42. */
  method PaddedDaysInMonth(firstDay: Date, firstWeekday: int, daysInMonth: int, addDays: (Date, int) -> Date)
    returns (days: seq<Option<Date>>)
    requires firstWeekday >= 1 && daysInMonth >= 1
    ensures days == PaddedMonthCells(firstDay, firstWeekday, daysInMonth, addDays)
  {
    days := DaysInMonth(firstDay, firstWeekday, daysInMonth, addDays);
    var totalDays := |days|;
    var remainingDays := 42 - totalDays;
    if remainingDays > 0 {
      days := days + seq(remainingDays, _ => None);
    }
  }

  /** `daysInWeek()`: the start of the week and the six days after it. */
  function DaysInWeek(startOfWeek: Date, addDays: (Date, int) -> Date): (r: seq<Date>)
    ensures |r| == 7
    ensures forall k :: 0 <= k < 7 ==> r[k] == addDays(startOfWeek, k)
  {
    seq(7, k => addDays(startOfWeek, k))
  }

  /** When each added day moves the date forward, the week is in ascending order. */
  lemma DaysInWeekAscending(startOfWeek: Date, addDays: (Date, int) -> Date)
    requires forall k :: 0 <= k < 6 ==> addDays(startOfWeek, k) < addDays(startOfWeek, k + 1)
    ensures forall i, j :: 0 <= i < j < 7 ==> DaysInWeek(startOfWeek, addDays)[i] < DaysInWeek(startOfWeek, addDays)[j]
  {
    var r := DaysInWeek(startOfWeek, addDays);
    forall i, j | 0 <= i < j < 7
      ensures r[i] < r[j]
    {
      var k := i;
      while k < j
        invariant i <= k <= j
        invariant r[i] <= r[k] && (k > i ==> r[i] < r[k])
      {
        k := k + 1;
      }
    }
  }

  /** `calendar.isDate(t.date, inSameDayAs: date)` */
  function OnSameDay(dayOf: Date -> Date, date: Date): Transaction -> bool {
    (t: Transaction) => dayOf(t.date) == dayOf(date)
  }

  /**
   * `transactionsForSelectedDate()` (CalendarView and WeekView) and
   * `WeekDayRow.transactionsForDay()`: the transactions of that day, in order.
   */
  function TransactionsOn(ts: seq<Transaction>, dayOf: Date -> Date, date: Date): (r: seq<Transaction>)
    ensures IsSubsequence(r, ts)
    ensures forall t :: t in r <==> t in ts && dayOf(t.date) == dayOf(date)
    ensures forall t :: multiset(r)[t] == if dayOf(t.date) == dayOf(date) then multiset(ts)[t] else 0
  {
    FilterSpec(ts, OnSameDay(dayOf, date));
    Filter(ts, OnSameDay(dayOf, date))
  }

  /** `hasTransactions(on: date)`: some transaction falls on that day. */
  function HasTransactionsOn(ts: seq<Transaction>, dayOf: Date -> Date, date: Date): (b: bool)
    ensures b <==> exists i :: 0 <= i < |ts| && dayOf(ts[i].date) == dayOf(date)
  {
    FirstIndex(ts, OnSameDay(dayOf, date)).Some?
  }

  /** A day is marked exactly when its transaction list is not empty. */
  lemma HasTransactionsIffListNotEmpty(ts: seq<Transaction>, dayOf: Date -> Date, date: Date)
    ensures HasTransactionsOn(ts, dayOf, date) <==> TransactionsOn(ts, dayOf, date) != []
  {
    var r := TransactionsOn(ts, dayOf, date);
    if HasTransactionsOn(ts, dayOf, date) {
      var i :| 0 <= i < |ts| && dayOf(ts[i].date) == dayOf(date);
      assert ts[i] in r;
    }
    if r != [] {
      assert r[0] in ts;
      var i :| 0 <= i < |ts| && ts[i] == r[0];
      assert dayOf(ts[i].date) == dayOf(date);
    }
  }

  /** What a transaction adds to a day's total: its amount for income, minus it otherwise. */
  function SignedAmount(t: Transaction): real {
    if t.kind == Income then t.amount else -t.amount
  }

  /**
   * `calculateDayTotal()`: `nil` for a day without transactions, otherwise the
   * income amounts minus the expense amounts, by type.
   */
  function WeekDayTotal(ts: seq<Transaction>, dayOf: Date -> Date, date: Date): (r: Option<real>)
    ensures r.None? <==> !HasTransactionsOn(ts, dayOf, date)
    ensures r.Some? ==>
              r.value == Sum(Filter(TransactionsOn(ts, dayOf, date), IsIncome), TransactionAmount) -
                         Sum(Filter(TransactionsOn(ts, dayOf, date), IsExpense), TransactionAmount)
  {
    var transactions := TransactionsOn(ts, dayOf, date);
    HasTransactionsIffListNotEmpty(ts, dayOf, date);
    SignedSumSplits(transactions);
    if transactions == [] then None else Some(Sum(transactions, SignedAmount))
  }

  /** The signed total is the income total minus the expense total. */
  lemma {:induction false} SignedSumSplits(ts: seq<Transaction>)
    ensures Sum(ts, SignedAmount) ==
      Sum(Filter(ts, IsIncome), TransactionAmount) - Sum(Filter(ts, IsExpense), TransactionAmount)
  {
    if ts != [] {
      var init, x := ts[..|ts| - 1], ts[|ts| - 1];
      assert ts == init + [x];
      SignedSumSplits(init);
      FilterSnoc(init, x, IsIncome);
      FilterSnoc(init, x, IsExpense);
      SumSnoc(Filter(init, IsIncome), x, TransactionAmount);
      SumSnoc(Filter(init, IsExpense), x, TransactionAmount);
    }
  }

  /** The total is shown green when it is not negative. */
  predicate IsShownGreen(total: real) {
    total >= 0.0
  }

  /** A day shows green exactly when its income covers its expenses. */
  lemma GreenIffIncomeCoversExpenses(ts: seq<Transaction>, dayOf: Date -> Date, date: Date)
    requires HasTransactionsOn(ts, dayOf, date)
    ensures IsShownGreen(WeekDayTotal(ts, dayOf, date).value) <==>
      Sum(Filter(TransactionsOn(ts, dayOf, date), IsExpense), TransactionAmount) <=
      Sum(Filter(TransactionsOn(ts, dayOf, date), IsIncome), TransactionAmount)
  {
  }

  /**
   * The week row and the calendar's `DayTotal` agree: on the same transactions,
   * the week total is `DayTotal.total` (income is every non-expense type).
   */
  lemma WeekTotalIsDayTotal(ts: seq<Transaction>, dayOf: Date -> Date, date: Date)
    requires HasTransactionsOn(ts, dayOf, date)
    ensures var day := TransactionsOn(ts, dayOf, date);
      WeekDayTotal(ts, dayOf, date).value ==
      CalendarStats.DayTotal(Sum(Filter(day, IsExpense), TransactionAmount),
                             Sum(Filter(day, Not(IsExpense)), TransactionAmount)).Total()
  {
    var day := TransactionsOn(ts, dayOf, date);
    forall t | t in day
      ensures IsIncome(t) == Not(IsExpense)(t)
    {
      IncomeIsNotExpense(t);
    }
    FilterCongruent(day, IsIncome, Not(IsExpense));
  }
}
