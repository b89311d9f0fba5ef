/**
 * ViewModels/TransactionViewModel.swift: the in-memory store of
 * transactions, categories and budgets, and the dashboard's filters and
 * sums over it.  Persistence (`UserDefaults`, JSON) is not modelled: a
 * decoded list is an `Option` input, and the `save...` calls are no-ops.
 */
module TransactionStore {
  import opened Wrappers
  import opened Sequences
  import opened Entities
  import opened CategoryList

  // ---------------------------------------------------------------------
  // Filters and sums (pure computed members of the view model)
  // ---------------------------------------------------------------------

  /** `filteredTransactions(type:)`: everything for `nil`, else the transactions of that type. */
  function FilteredTransactions(ts: seq<Transaction>, kind: Option<TransactionType>): (r: seq<Transaction>)
    ensures kind.None? ==> r == ts
    ensures kind.Some? ==> IsSubsequence(r, ts) && forall t :: t in r <==> t in ts && t.kind == kind.value
    ensures kind.Some? ==> forall t :: multiset(r)[t] == if t.kind == kind.value then multiset(ts)[t] else 0
  {
    match kind
    case None => ts
    case Some(k) =>
      FilterSpec(ts, OfType(k));
      Filter(ts, OfType(k))
  }

  /** `totalBalance`: the signed sum of all amounts. */
  function TotalBalance(ts: seq<Transaction>): (b: real)
    ensures (forall t :: t in ts ==> t.amount >= 0.0) ==> b >= 0.0
    ensures (forall t :: t in ts ==> t.amount <= 0.0) ==> b <= 0.0
  {
    SumOfSigns(ts);
    Sum(ts, TransactionAmount)
  }

  lemma SumOfSigns(ts: seq<Transaction>)
    ensures (forall t :: t in ts ==> t.amount >= 0.0) ==> Sum(ts, TransactionAmount) >= 0.0
    ensures (forall t :: t in ts ==> t.amount <= 0.0) ==> Sum(ts, TransactionAmount) <= 0.0
  {
    if forall t :: t in ts ==> t.amount >= 0.0 {
      SumNonNegative(ts, TransactionAmount);
    }
    if forall t :: t in ts ==> t.amount <= 0.0 {
      SumNonPositive(ts, TransactionAmount);
    }
  }

  /** Adding a transaction moves the balance by exactly its amount. */
  lemma TotalBalanceAfterAdd(ts: seq<Transaction>, t: Transaction)
    ensures TotalBalance(ts + [t]) == TotalBalance(ts) + t.amount
  {
    SumSnoc(ts, t, TransactionAmount);
  }

  /** The balance is the income-typed sum plus the expense-typed sum (amounts are signed). */
  lemma TotalBalanceByType(ts: seq<Transaction>)
    ensures TotalBalance(ts) == Sum(Filter(ts, IsExpense), TransactionAmount) + Sum(Filter(ts, IsIncome), TransactionAmount)
  {
    SumSplit(ts, IsExpense, TransactionAmount);
    FilterCongruent(ts, Not(IsExpense), IsIncome);
  }

  /** The window test of `filterTransactions(for:)`: both ends included. */
  function InWindow(start: Date, now: Date): Transaction -> bool {
    (t: Transaction) => start <= t.date <= now
  }

  /**
   * `filterTransactions(for:)`, with the window's start (`now` minus 7 days,
   * one month or one year by the calendar) and `now` given.
   */
  function FilterTransactions(ts: seq<Transaction>, start: Date, now: Date): (r: seq<Transaction>)
    ensures IsSubsequence(r, ts)
    ensures forall t :: t in r <==> t in ts && start <= t.date && t.date <= now
    ensures forall t :: multiset(r)[t] == if start <= t.date && t.date <= now then multiset(ts)[t] else 0
  {
    FilterSpec(ts, InWindow(start, now));
    Filter(ts, InWindow(start, now))
  }

  predicate HasPositiveAmount(t: Transaction) {
    t.amount > 0.0
  }

  predicate HasNegativeAmount(t: Transaction) {
    t.amount < 0.0
  }

  /** `abs` on amounts. */
  function Abs(x: real): (r: real)
    ensures r >= 0.0 && (r == x || r == -x)
  {
    if x < 0.0 then -x else x
  }

  /** `periodIncome(for:)`: the sum of the strictly positive amounts in the window. */
  function PeriodIncome(ts: seq<Transaction>, start: Date, now: Date): (r: real)
    ensures r >= 0.0
    ensures r == Sum(Filter(FilterTransactions(ts, start, now), HasPositiveAmount), TransactionAmount)
    ensures (forall t :: t in ts && start <= t.date <= now ==> t.amount <= 0.0) ==> r == 0.0
  {
    var pos := Filter(FilterTransactions(ts, start, now), HasPositiveAmount);
    FilterSpec(FilterTransactions(ts, start, now), HasPositiveAmount);
    SumNonNegative(pos, TransactionAmount);
    SumOfFilterNone(FilterTransactions(ts, start, now), HasPositiveAmount, TransactionAmount);
    Sum(pos, TransactionAmount)
  }

  /** `periodExpenses(for:)`: the magnitude of the sum of the strictly negative amounts in the window. */
  function PeriodExpenses(ts: seq<Transaction>, start: Date, now: Date): (r: real)
    ensures r >= 0.0
    ensures r == -Sum(Filter(FilterTransactions(ts, start, now), HasNegativeAmount), TransactionAmount)
    ensures (forall t :: t in ts && start <= t.date <= now ==> t.amount >= 0.0) ==> r == 0.0
  {
    var neg := Filter(FilterTransactions(ts, start, now), HasNegativeAmount);
    FilterSpec(FilterTransactions(ts, start, now), HasNegativeAmount);
    SumNonPositive(neg, TransactionAmount);
    SumOfFilterNone(FilterTransactions(ts, start, now), HasNegativeAmount, TransactionAmount);
    Abs(Sum(neg, TransactionAmount))
  }

  /** A sum of zero amounts is zero. */
  lemma {:induction false} SumOfZeros(s: seq<Transaction>)
    requires forall t :: t in s ==> t.amount == 0.0
    ensures Sum(s, TransactionAmount) == 0.0
  {
    SumNonNegative(s, TransactionAmount);
    SumNonPositive(s, TransactionAmount);
  }

  /** Among the amounts that are not positive, the negative ones are all the negative ones. */
  lemma NegativesOfNonPositives(w: seq<Transaction>)
    ensures Filter(Filter(w, Not(HasPositiveAmount)), HasNegativeAmount) == Filter(w, HasNegativeAmount)
  {
    forall x | x in w
      ensures HasNegativeAmount(x) == (Not(HasPositiveAmount)(x) && HasNegativeAmount(x))
    {
      assert Not(HasPositiveAmount)(x) == !HasPositiveAmount(x);
    }
    FilterCompose(w, Not(HasPositiveAmount), HasNegativeAmount, HasNegativeAmount);
  }

  /** The amounts neither positive nor negative add up to zero. */
  lemma NeitherSignSumsToZero(w: seq<Transaction>)
    ensures Sum(Filter(Filter(w, Not(HasPositiveAmount)), Not(HasNegativeAmount)), TransactionAmount) == 0.0
  {
    var rest := Filter(w, Not(HasPositiveAmount));
    FilterMembers(w, Not(HasPositiveAmount));
    FilterMembers(rest, Not(HasNegativeAmount));
    forall t | t in Filter(rest, Not(HasNegativeAmount))
      ensures t.amount == 0.0
    {
      assert Not(HasNegativeAmount)(t) == !HasNegativeAmount(t);
      assert t in rest && !HasNegativeAmount(t);
      assert Not(HasPositiveAmount)(t) == !HasPositiveAmount(t);
      assert !HasPositiveAmount(t);
    }
    SumOfZeros(Filter(rest, Not(HasNegativeAmount)));
  }

  /** The positive and the negative amounts of `w` add up to its net sum. */
  lemma SignSplit(w: seq<Transaction>)
    ensures Sum(Filter(w, HasPositiveAmount), TransactionAmount) + Sum(Filter(w, HasNegativeAmount), TransactionAmount)
         == Sum(w, TransactionAmount)
  {
    var rest := Filter(w, Not(HasPositiveAmount));
    SumSplit(w, HasPositiveAmount, TransactionAmount);
    SumSplit(rest, HasNegativeAmount, TransactionAmount);
    NegativesOfNonPositives(w);
    NeitherSignSumsToZero(w);
  }

  /** Income minus expenses is the net sum of every transaction in the window. */
  lemma PeriodNet(ts: seq<Transaction>, start: Date, now: Date)
    ensures PeriodIncome(ts, start, now) - PeriodExpenses(ts, start, now)
         == Sum(FilterTransactions(ts, start, now), TransactionAmount)
  {
    SignSplit(FilterTransactions(ts, start, now));
  }

  /**
   * Where the sign of every amount agrees with its type, income and
   * expenses are the income-typed and (minus) the expense-typed sums.
   */
  lemma PeriodTotalsByType(ts: seq<Transaction>, start: Date, now: Date)
    requires forall t :: t in ts ==> SignMatchesType(t)
    ensures PeriodIncome(ts, start, now) == Sum(Filter(FilterTransactions(ts, start, now), IsIncome), TransactionAmount)
    ensures PeriodExpenses(ts, start, now) == -Sum(Filter(FilterTransactions(ts, start, now), IsExpense), TransactionAmount)
  {
    var w := FilterTransactions(ts, start, now);
    FilterCongruent(w, HasPositiveAmount, IsIncome);
    FilterCongruent(w, HasNegativeAmount, IsExpense);
  }

  /** The transactions of a category with a strictly negative amount. */
  function SpentIn(id: Uuid): Transaction -> bool {
    (t: Transaction) => t.categoryId == id && t.amount < 0.0
  }

  /** `spentAmount(for:)`: the magnitude of the negative amounts booked on the category. */
  function SpentAmount(ts: seq<Transaction>, category: Category): (r: real)
    ensures r >= 0.0
    ensures r == -Sum(Filter(ts, SpentIn(category.id)), TransactionAmount)
    ensures (forall t :: t in ts ==> t.categoryId != category.id || t.amount >= 0.0) ==> r == 0.0
  {
    var spent := Filter(ts, SpentIn(category.id));
    FilterSpec(ts, SpentIn(category.id));
    SumNonPositive(spent, TransactionAmount);
    SumOfFilterNone(ts, SpentIn(category.id), TransactionAmount);
    Abs(Sum(spent, TransactionAmount))
  }

  /** Where signs agree with types, the amount spent is minus the category's expense-typed sum. */
  lemma SpentAmountByType(ts: seq<Transaction>, category: Category)
    requires forall t :: t in ts ==> SignMatchesType(t)
    ensures SpentAmount(ts, category)
         == -Sum(Filter(ts, (t: Transaction) => t.categoryId == category.id && t.kind == Expense), TransactionAmount)
  {
    FilterCongruent(ts, SpentIn(category.id), (t: Transaction) => t.categoryId == category.id && t.kind == Expense);
  }

  /** One entry of `transactionsByDay(for:)`. */
  datatype DayAmount = DayAmount(date: Date, amount: real)

  function DayAmountValue(d: DayAmount): real {
    d.amount
  }

  /** The transactions whose start of day (`dayOf`) is `day`. */
  function OnDay(dayOf: Date -> Date, day: Date): Transaction -> bool {
    (t: Transaction) => dayOf(t.date) == day
  }

  ghost predicate StrictlyIncreasing(ds: seq<Date>) {
    forall i, j :: 0 <= i < j < |ds| ==> ds[i] < ds[j]
  }

  /** Adds `d` to an ascending list of distinct days, unless it is there already. */
  function InsertDay(ds: seq<Date>, d: Date): seq<Date> {
    if ds == [] then [d]
    else if d < ds[0] then [d] + ds
    else if d == ds[0] then ds
    else [ds[0]] + InsertDay(ds[1..], d)
  }

  lemma {:induction false} InsertDaySpec(ds: seq<Date>, d: Date)
    requires StrictlyIncreasing(ds)
    ensures StrictlyIncreasing(InsertDay(ds, d))
    ensures forall x :: x in InsertDay(ds, d) <==> x in ds || x == d
  {
    if ds != [] && d > ds[0] {
      var tail := ds[1..];
      assert ds == [ds[0]] + tail;
      InsertDaySpec(tail, d);
      var t := InsertDay(tail, d);
      forall j | 0 <= j < |t|
        ensures ds[0] < t[j]
      {
        assert t[j] in t;
        if t[j] != d {
          var k :| 0 <= k < |tail| && tail[k] == t[j];
          assert ds[k + 1] == t[j];
        }
      }
    }
  }

  /** The keys of `Dictionary(grouping:)` by start of day, in ascending order. */
  function DayKeys(w: seq<Transaction>, dayOf: Date -> Date): seq<Date> {
    if w == [] then [] else InsertDay(DayKeys(w[..|w| - 1], dayOf), dayOf(w[|w| - 1].date))
  }

  lemma {:induction false} DayKeysSpec(w: seq<Transaction>, dayOf: Date -> Date)
    ensures StrictlyIncreasing(DayKeys(w, dayOf))
    ensures forall d :: d in DayKeys(w, dayOf) <==> OccursOn(w, dayOf, d)
  {
    if w != [] {
      var init, x := w[..|w| - 1], w[|w| - 1];
      assert w == init + [x];
      DayKeysSpec(init, dayOf);
      InsertDaySpec(DayKeys(init, dayOf), dayOf(x.date));
      forall d | d in DayKeys(w, dayOf)
        ensures OccursOn(w, dayOf, d)
      {
        if d != dayOf(x.date) {
          var t :| t in init && dayOf(t.date) == d;
          assert t in w;
        }
      }
      forall d | OccursOn(w, dayOf, d)
        ensures d in DayKeys(w, dayOf)
      {
        var t :| t in w && dayOf(t.date) == d;
        if t != x {
          assert t in init;
        }
      }
    }
  }

  /** One entry per key: the key and the sum of the amounts on that day. */
  function ByDay(w: seq<Transaction>, keys: seq<Date>, dayOf: Date -> Date): seq<DayAmount> {
    if keys == [] then []
    else
      var k := keys[|keys| - 1];
      ByDay(w, keys[..|keys| - 1], dayOf) + [DayAmount(k, Sum(Filter(w, OnDay(dayOf, k)), TransactionAmount))]
  }

  lemma {:induction false} ByDaySpec(w: seq<Transaction>, keys: seq<Date>, dayOf: Date -> Date)
    ensures |ByDay(w, keys, dayOf)| == |keys|
    ensures forall i :: 0 <= i < |keys| ==>
      ByDay(w, keys, dayOf)[i] == DayAmount(keys[i], Sum(Filter(w, OnDay(dayOf, keys[i])), TransactionAmount))
  {
    if keys != [] {
      var init, k := keys[..|keys| - 1], keys[|keys| - 1];
      ByDaySpec(w, init, dayOf);
      var before := ByDay(w, init, dayOf);
      var r := ByDay(w, keys, dayOf);
      assert r == before + [DayAmount(k, Sum(Filter(w, OnDay(dayOf, k)), TransactionAmount))];
      forall i | 0 <= i < |keys|
        ensures r[i] == DayAmount(keys[i], Sum(Filter(w, OnDay(dayOf, keys[i])), TransactionAmount))
      {
        if i < |init| {
          assert r[i] == before[i] && init[i] == keys[i];
        }
      }
    }
  }

  /** Adding a transaction to the grouped list adds its amount to its own day only. */
  lemma {:induction false} ByDaySnoc(w: seq<Transaction>, t: Transaction, keys: seq<Date>, dayOf: Date -> Date)
    requires StrictlyIncreasing(keys)
    ensures Sum(ByDay(w + [t], keys, dayOf), DayAmountValue)
         == Sum(ByDay(w, keys, dayOf), DayAmountValue) + (if dayOf(t.date) in keys then t.amount else 0.0)
  {
    if keys != [] {
      var init, k := keys[..|keys| - 1], keys[|keys| - 1];
      assert keys == init + [k];
      assert k !in init;
      ByDaySnoc(w, t, init, dayOf);
      FilterSnoc(w, t, OnDay(dayOf, k));
      SumSnoc(Filter(w, OnDay(dayOf, k)), t, TransactionAmount);
      SumSnoc(ByDay(w + [t], init, dayOf), DayAmount(k, Sum(Filter(w + [t], OnDay(dayOf, k)), TransactionAmount)), DayAmountValue);
      SumSnoc(ByDay(w, init, dayOf), DayAmount(k, Sum(Filter(w, OnDay(dayOf, k)), TransactionAmount)), DayAmountValue);
    }
  }

  /** When every transaction's day is a key, the grouped amounts add up to the total. */
  lemma {:induction false} ByDayTotal(w: seq<Transaction>, keys: seq<Date>, dayOf: Date -> Date)
    requires StrictlyIncreasing(keys)
    requires forall t :: t in w ==> dayOf(t.date) in keys
    ensures Sum(ByDay(w, keys, dayOf), DayAmountValue) == Sum(w, TransactionAmount)
  {
    if w == [] {
      ByDayOfNothing(keys, dayOf);
    } else {
      var init, x := w[..|w| - 1], w[|w| - 1];
      assert w == init + [x];
      ByDayTotal(init, keys, dayOf);
      ByDaySnoc(init, x, keys, dayOf);
    }
  }

  lemma {:induction false} ByDayOfNothing(keys: seq<Date>, dayOf: Date -> Date)
    ensures Sum(ByDay([], keys, dayOf), DayAmountValue) == 0.0
  {
    if keys != [] {
      ByDayOfNothing(keys[..|keys| - 1], dayOf);
    }
  }

  /** Some transaction of `w` falls on day `d`. */
  ghost predicate OccursOn(w: seq<Transaction>, dayOf: Date -> Date, d: Date) {
    exists t :: t in w && dayOf(t.date) == d
  }

  /**
   * `Dictionary(grouping:by: startOfDay)` mapped to (day, sum) pairs and
   * sorted by day: one entry per day that has a transaction, ascending.
   */
  function GroupByDay(w: seq<Transaction>, dayOf: Date -> Date): (r: seq<DayAmount>)
    ensures forall i, j :: 0 <= i < j < |r| ==> r[i].date < r[j].date
    ensures forall t :: t in w ==> exists i :: 0 <= i < |r| && r[i].date == dayOf(t.date)
    ensures forall i :: 0 <= i < |r| ==> OccursOn(w, dayOf, r[i].date)
    ensures forall i :: 0 <= i < |r| ==> r[i].amount == Sum(Filter(w, OnDay(dayOf, r[i].date)), TransactionAmount)
  {
    var keys := DayKeys(w, dayOf);
    DayKeysSpec(w, dayOf);
    ByDaySpec(w, keys, dayOf);
    KeysCoverDays(w, dayOf);
    var r := ByDay(w, keys, dayOf);
    forall t | t in w
      ensures exists i :: 0 <= i < |r| && r[i].date == dayOf(t.date)
    {
      var i :| 0 <= i < |keys| && keys[i] == dayOf(t.date);
      assert r[i].date == dayOf(t.date);
    }
    r
  }

  /** Every transaction's day is one of the keys. */
  lemma KeysCoverDays(w: seq<Transaction>, dayOf: Date -> Date)
    ensures forall t :: t in w ==> dayOf(t.date) in DayKeys(w, dayOf)
  {
    DayKeysSpec(w, dayOf);
    forall t | t in w
      ensures dayOf(t.date) in DayKeys(w, dayOf)
    {
      assert OccursOn(w, dayOf, dayOf(t.date));
    }
  }

  /** The per-day amounts add up to the net sum of the transactions grouped. */
  lemma GroupByDayTotal(w: seq<Transaction>, dayOf: Date -> Date)
    ensures Sum(GroupByDay(w, dayOf), DayAmountValue) == Sum(w, TransactionAmount)
  {
    DayKeysSpec(w, dayOf);
    forall t | t in w
      ensures dayOf(t.date) in DayKeys(w, dayOf)
    {
      assert OccursOn(w, dayOf, dayOf(t.date));
    }
    ByDayTotal(w, DayKeys(w, dayOf), dayOf);
  }

  /** `transactionsByDay(for:)`: the window of `filterTransactions(for:)`, grouped by day. */
  function TransactionsByDay(ts: seq<Transaction>, start: Date, now: Date, dayOf: Date -> Date): (r: seq<DayAmount>)
    ensures forall i, j :: 0 <= i < j < |r| ==> r[i].date < r[j].date
    ensures forall t :: t in ts && start <= t.date <= now ==> exists i :: 0 <= i < |r| && r[i].date == dayOf(t.date)
    ensures forall i :: 0 <= i < |r| ==> OccursOn(FilterTransactions(ts, start, now), dayOf, r[i].date)
    ensures forall i :: 0 <= i < |r| ==>
      r[i].amount == Sum(Filter(FilterTransactions(ts, start, now), OnDay(dayOf, r[i].date)), TransactionAmount)
  {
    var w := FilterTransactions(ts, start, now);
    var r := GroupByDay(w, dayOf);
    forall t | t in ts && start <= t.date <= now
      ensures exists i :: 0 <= i < |r| && r[i].date == dayOf(t.date)
    {
      assert t in w;
    }
    r
  }

  /** The per-day amounts add up to the net sum of the window. */
  lemma TransactionsByDayTotal(ts: seq<Transaction>, start: Date, now: Date, dayOf: Date -> Date)
    ensures Sum(TransactionsByDay(ts, start, now, dayOf), DayAmountValue)
         == Sum(FilterTransactions(ts, start, now), TransactionAmount)
  {
    GroupByDayTotal(FilterTransactions(ts, start, now), dayOf);
  }

  /** The sort key of `recentTransactions`: later dates first. */
  function NegatedDate(t: Transaction): real {
    -(t.date as real)
  }

  /** `recentTransactions`: every transaction, latest first. */
  function RecentTransactions(ts: seq<Transaction>): (r: seq<Transaction>)
    ensures multiset(r) == multiset(ts)
    ensures forall i, j :: 0 <= i < j < |r| ==> r[i].date >= r[j].date
  {
    SortBySpec(ts, NegatedDate);
    var r := SortBy(ts, NegatedDate);
    assert forall i, j :: 0 <= i < j < |r| ==> NegatedDate(r[i]) <= NegatedDate(r[j]);
    r
  }

  predicate IsRecurringTransaction(t: Transaction) {
    t.isRecurring
  }

  /** `activeSubscriptions`: the recurring transactions, in order. */
  function ActiveSubscriptions(ts: seq<Transaction>): (r: seq<Transaction>)
    ensures IsSubsequence(r, ts)
    ensures forall t :: t in r <==> t in ts && t.isRecurring
    ensures forall t :: multiset(r)[t] == if t.isRecurring then multiset(ts)[t] else 0
  {
    FilterSpec(ts, IsRecurringTransaction);
    Filter(ts, IsRecurringTransaction)
  }

  /**
   * `createDefaultBudgets`: a monthly budget of 1000 for each expense
   * category, in category order; `ids` are the fresh `UUID()`s drawn.
   */
  function DefaultBudgets(cs: seq<Category>, ids: seq<Uuid>): (r: seq<Budget>)
    requires |ids| == |CategoriesOfType(cs, Expense)|
    ensures |r| == |CategoriesOfType(cs, Expense)|
    ensures forall i :: 0 <= i < |r| ==> r[i].id == ids[i] && r[i].category == CategoriesOfType(cs, Expense)[i]
    ensures forall b :: b in r ==> b.limit == 1000.0 && b.period == Month && b.category in cs && b.category.kind == Expense
  {
    var es := CategoriesOfType(cs, Expense);
    seq(|es|, i requires 0 <= i < |es| => Budget(ids[i], es[i], 1000.0, Month))
  }

  /** Every expense category, and no other, gets a default budget. */
  lemma DefaultBudgetsCoverExpenses(cs: seq<Category>, ids: seq<Uuid>)
    requires |ids| == |CategoriesOfType(cs, Expense)|
    ensures forall c :: c in cs && c.kind == Expense <==> exists b :: b in DefaultBudgets(cs, ids) && b.category == c
  {
    var r := DefaultBudgets(cs, ids);
    var es := CategoriesOfType(cs, Expense);
    forall c | c in cs && c.kind == Expense
      ensures exists b :: b in r && b.category == c
    {
      var i :| 0 <= i < |es| && es[i] == c;
      assert r[i] in r;
    }
  }

  // ---------------------------------------------------------------------
  // The budgets' view of a category
  // ---------------------------------------------------------------------

  function BudgetCategoryIdNot(id: Uuid): Budget -> bool {
    (b: Budget) => b.category.id != id
  }

  function BudgetHasId(id: Uuid): Budget -> bool {
    (b: Budget) => b.id == id
  }

  /**
   * `deleteTransaction(at:)`: `remove(atOffsets:)`, the elements whose
   * index is not an offset, in order.
   */
  function RemoveAtOffsets<T>(s: seq<T>, offsets: set<int>): seq<T> {
    if s == [] then []
    else
      var rest := RemoveAtOffsets(s[..|s| - 1], offsets);
      if |s| - 1 in offsets then rest else rest + [s[|s| - 1]]
  }

  lemma {:induction false} RemoveAtOffsetsLength<T>(s: seq<T>, offsets: set<int>)
    requires forall o :: o in offsets ==> 0 <= o < |s|
    ensures |RemoveAtOffsets(s, offsets)| == |s| - |offsets|
  {
    if s == [] {
      assert forall o :: o !in offsets;
      assert offsets == {};
    } else {
      var init, n := s[..|s| - 1], |s| - 1;
      var rest := offsets - {n};
      RemoveAtOffsetsLength(init, rest);
      RemoveAtOffsetsAgree(init, offsets, rest);
      if n in offsets {
        assert offsets == rest + {n};
      } else {
        assert rest == offsets;
      }
    }
  }

  lemma {:induction false} RemoveAtOffsetsOrder<T>(s: seq<T>, offsets: set<int>)
    ensures IsSubsequence(RemoveAtOffsets(s, offsets), s)
  {
    if s != [] {
      var init, x := s[..|s| - 1], s[|s| - 1];
      RemoveAtOffsetsOrder(init, offsets);
      var r := RemoveAtOffsets(s, offsets);
      if |s| - 1 in offsets {
        assert s == init + [x];
        SubsequenceOfLonger(RemoveAtOffsets(init, offsets), init, x);
      } else {
        assert r[..|r| - 1] == RemoveAtOffsets(init, offsets);
      }
    }
  }

  lemma {:induction false} RemoveAtOffsetsKeeps<T>(s: seq<T>, offsets: set<int>)
    ensures forall i :: 0 <= i < |s| && i !in offsets ==> s[i] in RemoveAtOffsets(s, offsets)
  {
    if s != [] {
      var init, n := s[..|s| - 1], |s| - 1;
      RemoveAtOffsetsKeeps(init, offsets);
      forall i | 0 <= i < |s| && i !in offsets
        ensures s[i] in RemoveAtOffsets(s, offsets)
      {
        if i < n {
          assert init[i] == s[i];
        }
      }
    }
  }

  /** The number of offsets below `i`: how far the element at `i` moves down. */
  function OffsetsBelow(offsets: set<int>, i: nat): (n: nat)
    ensures n <= i
  {
    if i == 0 then 0 else OffsetsBelow(offsets, i - 1) + (if i - 1 in offsets then 1 else 0)
  }

  /** The element at `i` of `s` sits at `i` minus the offsets below it in `r`. */
  ghost predicate MovedDown<T>(r: seq<T>, s: seq<T>, offsets: set<int>, i: nat)
    requires i < |s|
  {
    i - OffsetsBelow(offsets, i) < |r| && r[i - OffsetsBelow(offsets, i)] == s[i]
  }

  lemma {:induction false} RemoveAtOffsetsCount<T>(s: seq<T>, offsets: set<int>)
    ensures |RemoveAtOffsets(s, offsets)| == |s| - OffsetsBelow(offsets, |s|)
  {
    if s != [] {
      RemoveAtOffsetsCount(s[..|s| - 1], offsets);
    }
  }

  /** The element at a kept index `i` lands at `i` minus the offsets below it. */
  lemma {:induction false} RemoveAtOffsetsShiftAt<T>(s: seq<T>, offsets: set<int>, i: nat)
    requires i < |s| && i !in offsets
    ensures MovedDown(RemoveAtOffsets(s, offsets), s, offsets, i)
  {
    var init, n := s[..|s| - 1], |s| - 1;
    var rest, r := RemoveAtOffsets(init, offsets), RemoveAtOffsets(s, offsets);
    RemoveAtOffsetsCount(init, offsets);
    assert r == if n in offsets then rest else rest + [s[n]];
    if i < n {
      RemoveAtOffsetsShiftAt(init, offsets, i);
      var j := i - OffsetsBelow(offsets, i);
      assert rest[j] == init[i] == s[i];
      assert r[j] == rest[j];
    } else {
      assert r == rest + [s[n]];
    }
  }

  /** Every element that is not removed lands at its index minus the offsets below it. */
  lemma RemoveAtOffsetsShift<T>(s: seq<T>, offsets: set<int>)
    ensures forall i :: 0 <= i < |s| && i !in offsets ==> MovedDown(RemoveAtOffsets(s, offsets), s, offsets, i)
  {
    forall i | 0 <= i < |s| && i !in offsets
      ensures MovedDown(RemoveAtOffsets(s, offsets), s, offsets, i)
    {
      RemoveAtOffsetsShiftAt(s, offsets, i);
    }
  }

  /**
   * Removing `k` valid offsets shortens the array by `k`, keeps the rest in
   * order, and moves each kept element down by the number of offsets below it.
   */
  lemma RemoveAtOffsetsSpec<T>(s: seq<T>, offsets: set<int>)
    requires forall o :: o in offsets ==> 0 <= o < |s|
    ensures |RemoveAtOffsets(s, offsets)| == |s| - |offsets|
    ensures IsSubsequence(RemoveAtOffsets(s, offsets), s)
    ensures forall i :: 0 <= i < |s| && i !in offsets ==> s[i] in RemoveAtOffsets(s, offsets)
    ensures forall i :: 0 <= i < |s| && i !in offsets ==> MovedDown(RemoveAtOffsets(s, offsets), s, offsets, i)
  {
    RemoveAtOffsetsLength(s, offsets);
    RemoveAtOffsetsOrder(s, offsets);
    RemoveAtOffsetsKeeps(s, offsets);
    RemoveAtOffsetsShift(s, offsets);
  }

  /** Offsets beyond the end of a sequence do not affect it. */
  lemma {:induction false} RemoveAtOffsetsAgree<T>(s: seq<T>, offsets: set<int>, others: set<int>)
    requires forall o :: 0 <= o < |s| ==> (o in offsets <==> o in others)
    ensures RemoveAtOffsets(s, offsets) == RemoveAtOffsets(s, others)
  {
    if s != [] {
      RemoveAtOffsetsAgree(s[..|s| - 1], offsets, others);
    }
  }

  lemma {:induction false} SubsequenceOfLonger<T>(r: seq<T>, s: seq<T>, x: T)
    requires IsSubsequence(r, s)
    ensures IsSubsequence(r, s + [x])
  {
    assert (s + [x])[..|s|] == s;
    if r != [] {
      assert IsSubsequence(r, (s + [x])[..|s + [x]| - 1]);
    }
  }

  // ---------------------------------------------------------------------
  // The view model
  // ---------------------------------------------------------------------

  class TransactionViewModel {
    var transactions: seq<Transaction>
    var categories: seq<Category>
    var budgets: seq<Budget>

    /**
     * `init(context:)`: `loadCategories`, `loadTransactions` (which loads
     * nothing) and `loadBudgets`.  `savedCategories` and `savedBudgets`
     * are what decoding the stored lists produced, `nil` when there was
     * none; `budgetIds` are the ids drawn when default budgets are made.
     */
    constructor(savedCategories: Option<seq<Category>>, savedBudgets: Option<seq<Budget>>, budgetIds: seq<Uuid>)
      requires savedBudgets.None? ==> |budgetIds| == |CategoriesOfType(savedCategories.GetOr(DefaultCategories), Expense)|
      ensures categories == savedCategories.GetOr(DefaultCategories)
      ensures transactions == []
      ensures budgets == match savedBudgets
        case Some(bs) => bs
        case None => DefaultBudgets(categories, budgetIds)
    {
      transactions := [];
      categories := savedCategories.GetOr(DefaultCategories);
      match savedBudgets
      case Some(bs) =>
        budgets := bs;
      case None =>
        budgets := DefaultBudgets(savedCategories.GetOr(DefaultCategories), budgetIds);
    }

    /** `loadCategories`: the decoded list, or the default seed when there is none. */
    method LoadCategories(saved: Option<seq<Category>>)
      modifies this
      ensures categories == saved.GetOr(DefaultCategories)
      ensures transactions == old(transactions) && budgets == old(budgets)
    {
      match saved
      case Some(cs) =>
        categories := cs;
      case None =>
        categories := DefaultCategories;
    }

    /** `loadBudgets`: the decoded list, or the default budgets when there is none. */
    method LoadBudgets(saved: Option<seq<Budget>>, ids: seq<Uuid>)
      requires saved.None? ==> |ids| == |CategoriesOfType(categories, Expense)|
      modifies this
      ensures transactions == old(transactions) && categories == old(categories)
      ensures budgets == match saved
        case Some(bs) => bs
        case None => DefaultBudgets(categories, ids)
    {
      match saved
      case Some(bs) =>
        budgets := bs;
      case None =>
        CreateDefaultBudgets(ids);
    }

    /** `createDefaultBudgets` */
    method CreateDefaultBudgets(ids: seq<Uuid>)
      requires |ids| == |CategoriesOfType(categories, Expense)|
      modifies this
      ensures transactions == old(transactions) && categories == old(categories)
      ensures budgets == DefaultBudgets(categories, ids)
    {
      budgets := DefaultBudgets(categories, ids);
    }

    /** `addCategory(_:)` */
    method AddCategory(c: Category)
      modifies this
      ensures categories == old(categories) + [c]
      ensures transactions == old(transactions) && budgets == old(budgets)
    {
      categories := categories + [c];
    }

    /**
     * `deleteCategory(_:)`: removes every category with that id and every
     * budget whose category has it; everything else stays, in order.
     */
    method DeleteCategory(c: Category)
      modifies this
      ensures categories == Filter(old(categories), CategoryIdNotIn({c.id}))
      ensures budgets == Filter(old(budgets), BudgetCategoryIdNot(c.id))
      ensures IsSubsequence(categories, old(categories)) && IsSubsequence(budgets, old(budgets))
      ensures forall x :: x in categories <==> x in old(categories) && x.id != c.id
      ensures forall b :: b in budgets <==> b in old(budgets) && b.category.id != c.id
      ensures transactions == old(transactions)
    {
      FilterMembers(categories, CategoryIdNotIn({c.id}));
      FilterSubsequence(categories, CategoryIdNotIn({c.id}));
      FilterMembers(budgets, BudgetCategoryIdNot(c.id));
      FilterSubsequence(budgets, BudgetCategoryIdNot(c.id));
      categories := Filter(categories, CategoryIdNotIn({c.id}));
      budgets := Filter(budgets, BudgetCategoryIdNot(c.id));
    }

    /**
     * `updateCategory(_:)`: when a category has that id, the first one is
     * replaced and every budget of that category is given the new value;
     * otherwise nothing changes.
     */
    method UpdateCategory(c: Category)
      modifies this
      ensures categories == ReplaceFirst(old(categories), CategoryHasId(c.id), c)
      ensures (forall x :: x in old(categories) ==> x.id != c.id) ==> categories == old(categories) && budgets == old(budgets)
      ensures (exists x :: x in old(categories) && x.id == c.id) ==>
        |budgets| == |old(budgets)| &&
        forall i :: 0 <= i < |budgets| ==>
          budgets[i].id == old(budgets)[i].id && budgets[i].limit == old(budgets)[i].limit &&
          budgets[i].period == old(budgets)[i].period &&
          budgets[i].category == if old(budgets)[i].category.id == c.id then c else old(budgets)[i].category
      ensures transactions == old(transactions)
    {
      match FirstIndex(categories, CategoryHasId(c.id))
      case None =>
        ReplaceFirstNoMatch(categories, CategoryHasId(c.id), c);
      case Some(index) =>
        categories := categories[index := c];
        UpdateBudgetsForCategory(c);
    }

    /**
     * `updateBudgetsForCategory(_:)`: every budget whose category has the
     * id of `c` gets `c`, keeping its own id, limit and period.
     */
    method UpdateBudgetsForCategory(c: Category)
      modifies this
      ensures |budgets| == |old(budgets)|
      ensures forall i :: 0 <= i < |budgets| ==>
        budgets[i].id == old(budgets)[i].id && budgets[i].limit == old(budgets)[i].limit &&
        budgets[i].period == old(budgets)[i].period &&
        budgets[i].category == if old(budgets)[i].category.id == c.id then c else old(budgets)[i].category
      ensures transactions == old(transactions) && categories == old(categories)
    {
      var index := 0;
      while index < |budgets|
        invariant 0 <= index <= |budgets| == |old(budgets)|
        invariant forall i :: 0 <= i < index ==>
          budgets[i] == if old(budgets)[i].category.id == c.id then Budget(old(budgets)[i].id, c, old(budgets)[i].limit, old(budgets)[i].period) else old(budgets)[i]
        invariant forall i :: index <= i < |budgets| ==> budgets[i] == old(budgets)[i]
        invariant transactions == old(transactions) && categories == old(categories)
      {
        var budget := budgets[index];
        if budget.category.id == c.id {
          budgets := budgets[index := Budget(budget.id, c, budget.limit, budget.period)];
        }
        index := index + 1;
      }
    }

    /** `updateBudget(_:)`: replaces the first budget with the same id, if any. */
    method UpdateBudget(b: Budget)
      modifies this
      ensures budgets == ReplaceFirst(old(budgets), BudgetHasId(b.id), b)
      ensures transactions == old(transactions) && categories == old(categories)
    {
      budgets := ReplaceFirst(budgets, BudgetHasId(b.id), b);
    }

    /** `addTransaction(_:)` */
    method AddTransaction(t: Transaction)
      modifies this
      ensures transactions == old(transactions) + [t]
      ensures TotalBalance(transactions) == TotalBalance(old(transactions)) + t.amount
      ensures categories == old(categories) && budgets == old(budgets)
    {
      TotalBalanceAfterAdd(transactions, t);
      transactions := transactions + [t];
    }

    /** `deleteTransaction(at:)`; `remove(atOffsets:)` traps on an offset out of range. */
    method DeleteTransactions(offsets: set<int>)
      requires forall o :: o in offsets ==> 0 <= o < |transactions|
      modifies this
      ensures transactions == RemoveAtOffsets(old(transactions), offsets)
      ensures |transactions| == |old(transactions)| - |offsets|
      ensures categories == old(categories) && budgets == old(budgets)
    {
      RemoveAtOffsetsSpec(transactions, offsets);
      transactions := RemoveAtOffsets(transactions, offsets);
    }

    /** `deleteAllData`: no transactions, no budgets, the default categories. */
    method DeleteAllData()
      modifies this
      ensures transactions == [] && budgets == [] && categories == DefaultCategories
    {
      transactions := [];
      categories := DefaultCategories;
      budgets := [];
    }

    /** `resetAllData`, whose in-memory effect is that of `deleteAllData`. */
    method ResetAllData()
      modifies this
      ensures transactions == [] && budgets == [] && categories == DefaultCategories
    {
      transactions := [];
      categories := DefaultCategories;
      budgets := [];
    }
  }
}
