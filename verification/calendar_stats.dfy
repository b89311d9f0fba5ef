/**
 * ViewModels/CalendarViewModel.swift: the calendar's transactions keyed by
 * day, the per-day totals under the type and category filters, and the
 * statistics of the displayed week or month.
 *
 * Days are numbered so that the next day is one more; the dictionary's
 * keys are such day numbers.  The order in which Swift enumerates the
 * dictionary is an input (`keyOrder`), and the calendar's answers (the
 * first day of the period, the length of the month) are inputs too.
 */
module CalendarStats {
  import opened Wrappers
  import opened Sequences
  import opened Entities

  datatype ViewMode = Month | Week

  /** `DayTotal`: the expense and income sums of one day. */
  datatype DayTotal = DayTotal(expenses: real, income: real) {
    /** `total` */
    function Total(): real {
      income - expenses
    }
  }

  /** `PeriodStatistics` */
  datatype PeriodStatistics = PeriodStatistics(
    totalExpenses: real,
    totalIncome: real,
    topCategories: seq<(Category, real)>,
    dailyAverageExpense: real,
    dailyAverageIncome: real)
  {
    /** `balance` */
    function Balance(): real {
      totalIncome - totalExpenses
    }
  }

  /** `PeriodStatistics()`: every total zero, no top category. */
  const EmptyStatistics := PeriodStatistics(0.0, 0.0, [], 0.0, 0.0)

  // ---------------------------------------------------------------------
  // getFilteredTransactions(for:)
  // ---------------------------------------------------------------------

  /** The filter of `getFilteredTransactions`: a selected type, and a selected category if any is selected. */
  function Selected(types: set<TransactionType>, categories: set<Uuid>): Transaction -> bool {
    (t: Transaction) => t.kind in types && (categories == {} || t.categoryId in categories)
  }

  /** `getFilteredTransactions(for:)`: `nil` for a day without an entry, else its selected transactions. */
  function FilteredDay(m: map<Date, seq<Transaction>>, types: set<TransactionType>, categories: set<Uuid>, date: Date)
    : (r: Option<seq<Transaction>>)
    ensures r.None? <==> date !in m
    ensures r.Some? ==> IsSubsequence(r.value, m[date])
    ensures r.Some? ==> forall t :: t in r.value <==>
      t in m[date] && t.kind in types && (categories == {} || t.categoryId in categories)
    ensures r.Some? ==> forall t :: multiset(r.value)[t] ==
                                     if t.kind in types && (categories == {} || t.categoryId in categories)
                                     then multiset(m[date])[t] else 0
  {
    if date in m then
      FilterSpec(m[date], Selected(types, categories));
      Some(Filter(m[date], Selected(types, categories)))
    else None
  }

  /** With no type selected, every day's list is empty. */
  lemma NoTypeSelectedShowsNothing(m: map<Date, seq<Transaction>>, categories: set<Uuid>, date: Date)
    requires date in m
    ensures FilteredDay(m, {}, categories, date) == Some([])
  {
    FilterKeepsNone(m[date], Selected({}, categories));
  }

  /** With both types and no category selected, a day shows all of its transactions. */
  lemma EverythingSelectedShowsAll(m: map<Date, seq<Transaction>>, date: Date)
    requires date in m
    ensures FilteredDay(m, {Income, Expense}, {}, date) == Some(m[date])
  {
    forall t | t in m[date]
      ensures Selected({Income, Expense}, {})(t)
    {
      assert t.kind == Income || t.kind == Expense;
    }
    FilterKeepsAll(m[date], Selected({Income, Expense}, {}));
  }

  // ---------------------------------------------------------------------
  // The statistics of a period
  // ---------------------------------------------------------------------

  /**
   * The transactions of the days `d` with `start <= d < end`, taken day by
   * day in the enumeration order `keyOrder`.
   */
  function PeriodTransactions(m: map<Date, seq<Transaction>>, keyOrder: seq<Date>, start: Date, end: Date): seq<Transaction>
    requires forall k :: k in keyOrder ==> k in m
  {
    if keyOrder == [] then []
    else
      var k := keyOrder[|keyOrder| - 1];
      var before := PeriodTransactions(m, keyOrder[..|keyOrder| - 1], start, end);
      if start <= k < end then before + m[k] else before
  }

  /** One more key of the enumeration adds that day's transactions when it lies in the period. */
  lemma PeriodTransactionsSnoc(m: map<Date, seq<Transaction>>, keyOrder: seq<Date>, n: nat, start: Date, end: Date)
    requires n < |keyOrder|
    requires forall k :: k in keyOrder ==> k in m
    ensures PeriodTransactions(m, keyOrder[..n + 1], start, end)
         == if start <= keyOrder[n] < end then PeriodTransactions(m, keyOrder[..n], start, end) + m[keyOrder[n]]
            else PeriodTransactions(m, keyOrder[..n], start, end)
  {
    assert keyOrder[..n + 1][..n] == keyOrder[..n];
  }

  /** The period's transactions are those of the keys in the half-open interval, and only those. */
  lemma {:induction false} PeriodTransactionsSpec(m: map<Date, seq<Transaction>>, keyOrder: seq<Date>, start: Date, end: Date)
    requires forall k :: k in keyOrder ==> k in m
    ensures forall t :: t in PeriodTransactions(m, keyOrder, start, end) <==>
      exists k :: k in keyOrder && start <= k < end && t in m[k]
  {
    if keyOrder != [] {
      var init, k := keyOrder[..|keyOrder| - 1], keyOrder[|keyOrder| - 1];
      assert forall x :: x in init ==> x in keyOrder;
      PeriodTransactionsSpec(m, init, start, end);
      forall t | exists x :: x in keyOrder && start <= x < end && t in m[x]
        ensures t in PeriodTransactions(m, keyOrder, start, end)
      {
        var x :| x in keyOrder && start <= x < end && t in m[x];
        if x != k {
          assert x in init;
        }
      }
    }
  }

  /** Enumerating two runs of keys one after the other concatenates their transactions. */
  lemma {:induction false} PeriodTransactionsAppend(m: map<Date, seq<Transaction>>, a: seq<Date>, b: seq<Date>, start: Date, end: Date)
    requires forall k :: k in a ==> k in m
    requires forall k :: k in b ==> k in m
    ensures PeriodTransactions(m, a + b, start, end) == PeriodTransactions(m, a, start, end) + PeriodTransactions(m, b, start, end)
  {
    if b != [] {
      var init, k := b[..|b| - 1], b[|b| - 1];
      assert (a + b)[..|a + b| - 1] == a + init;
      PeriodTransactionsAppend(m, a, init, start, end);
    } else {
      assert a + b == a;
    }
  }

  /** The period's transactions of a single day: the day's list when it lies in the period. */
  lemma PeriodTransactionsOfDay(m: map<Date, seq<Transaction>>, k: Date, start: Date, end: Date)
    requires k in m
    ensures PeriodTransactions(m, [k], start, end) == if start <= k < end then m[k] else []
  {
    assert [k][..0] == [];
  }

  /**
   * Each occurrence of a key contributes its day's transactions once, when
   * the day lies in the period, and nothing otherwise.
   */
  lemma PeriodTransactionsRemove(m: map<Date, seq<Transaction>>, keyOrder: seq<Date>, i: nat, start: Date, end: Date)
    requires forall k :: k in keyOrder ==> k in m
    requires i < |keyOrder|
    ensures forall k :: k in keyOrder[..i] + keyOrder[i + 1..] ==> k in m
    ensures multiset(PeriodTransactions(m, keyOrder, start, end))
         == multiset(PeriodTransactions(m, keyOrder[..i] + keyOrder[i + 1..], start, end))
            + (if start <= keyOrder[i] < end then multiset(m[keyOrder[i]]) else multiset{})
  {
    var pre, k, post := keyOrder[..i], keyOrder[i], keyOrder[i + 1..];
    assert keyOrder == pre + ([k] + post);
    var day := PeriodTransactions(m, [k], start, end);
    var before, after := PeriodTransactions(m, pre, start, end), PeriodTransactions(m, post, start, end);
    PeriodTransactionsAppend(m, [k], post, start, end);
    PeriodTransactionsAppend(m, pre, [k] + post, start, end);
    PeriodTransactionsAppend(m, pre, post, start, end);
    PeriodTransactionsOfDay(m, k, start, end);
    assert PeriodTransactions(m, keyOrder, start, end) == before + (day + after);
    assert multiset(before + (day + after)) == multiset(before + after) + multiset(day);
  }

  /**
   * The period's transactions do not depend on the order in which the
   * dictionary enumerates its days: any enumeration of the same keys gives
   * the same transactions, each as often.
   */
  lemma {:induction false} PeriodTransactionsPermutation(m: map<Date, seq<Transaction>>, k1: seq<Date>, k2: seq<Date>, start: Date, end: Date)
    requires forall k :: k in k1 ==> k in m
    requires multiset(k1) == multiset(k2)
    ensures forall k :: k in k2 ==> k in m
    ensures multiset(PeriodTransactions(m, k1, start, end)) == multiset(PeriodTransactions(m, k2, start, end))
  {
    assert forall k :: k in k2 ==> k in m by {
      forall k | k in k2 ensures k in m {
        assert k in multiset(k1);
      }
    }
    if k1 != [] {
      var init, x := k1[..|k1| - 1], k1[|k1| - 1];
      assert x in multiset(k2);
      var i :| 0 <= i < |k2| && k2[i] == x;
      var rest := k2[..i] + k2[i + 1..];
      MultisetRemoveLast(k1, k2, i);
      var day := if start <= x < end then multiset(m[x]) else multiset{};
      PeriodTransactionsRemove(m, k1, |k1| - 1, start, end);
      assert k1[..|k1| - 1] + k1[|k1|..] == init;
      PeriodTransactionsRemove(m, k2, i, start, end);
      PeriodTransactionsPermutation(m, init, rest, start, end);
      assert multiset(PeriodTransactions(m, k1, start, end)) == multiset(PeriodTransactions(m, init, start, end)) + day;
      assert multiset(PeriodTransactions(m, k2, start, end)) == multiset(PeriodTransactions(m, rest, start, end)) + day;
    }
  }

  /** One entry of the `categoryTotals` dictionary. */
  datatype CategoryTotal = CategoryTotal(id: Uuid, amount: real)

  function TotalAmount(e: CategoryTotal): real {
    e.amount
  }

  function TotalHasId(id: Uuid): CategoryTotal -> bool {
    (e: CategoryTotal) => e.id == id
  }

  ghost predicate DistinctTotalIds(totals: seq<CategoryTotal>) {
    forall i, j :: 0 <= i < j < |totals| ==> totals[i].id != totals[j].id
  }

  /** `categoryTotals[id, default: 0] += amount`, entries kept in first-insertion order. */
  function AddAmount(totals: seq<CategoryTotal>, id: Uuid, amount: real): seq<CategoryTotal> {
    match FirstIndex(totals, TotalHasId(id))
    case None => totals + [CategoryTotal(id, amount)]
    case Some(i) => totals[i := CategoryTotal(id, totals[i].amount + amount)]
  }

  /** `categoryTotals[id, default: 0]`: the amount of the id's entry, or 0 without one. */
  function AmountOf(totals: seq<CategoryTotal>, id: Uuid): real {
    match FirstIndex(totals, TotalHasId(id))
    case None => 0.0
    case Some(i) => totals[i].amount
  }

  /** With each id present once, an entry's amount is the amount looked up for its id. */
  lemma AmountOfEntry(totals: seq<CategoryTotal>, e: CategoryTotal)
    requires DistinctTotalIds(totals) && e in totals
    ensures AmountOf(totals, e.id) == e.amount
  {
    var i :| 0 <= i < |totals| && totals[i] == e;
    assert TotalHasId(e.id)(totals[i]);
    var j := FirstIndex(totals, TotalHasId(e.id)).value;
    assert j <= i;
    assert totals[j].id == totals[i].id;
  }

  /** Appending a new id's entry: only that id's amount changes, from 0 to the entry's amount. */
  lemma AppendLookup(totals: seq<CategoryTotal>, id: Uuid, amount: real, other: Uuid)
    requires FirstIndex(totals, TotalHasId(id)).None?
    ensures AmountOf(totals + [CategoryTotal(id, amount)], other) ==
      AmountOf(totals, other) + (if other == id then amount else 0.0)
  {
    var r := totals + [CategoryTotal(id, amount)];
    assert forall j :: 0 <= j < |totals| ==> r[j] == totals[j];
    match FirstIndex(totals, TotalHasId(other)) {
      case None =>
        if other == id {
          assert TotalHasId(other)(r[|totals|]);
          var v := FirstIndex(r, TotalHasId(other)).value;
        } else {
          assert forall j :: 0 <= j < |r| ==> !TotalHasId(other)(r[j]);
        }
      case Some(k) =>
        assert FirstIndex(r, TotalHasId(other)) == Some(k);
    }
  }

  /** Raising the amount of the id's first entry: only that id's amount changes, by the amount. */
  lemma UpdateLookup(totals: seq<CategoryTotal>, i: nat, id: Uuid, amount: real, other: Uuid)
    requires FirstIndex(totals, TotalHasId(id)) == Some(i)
    ensures AmountOf(totals[i := CategoryTotal(id, totals[i].amount + amount)], other) ==
      AmountOf(totals, other) + (if other == id then amount else 0.0)
  {
    var r := totals[i := CategoryTotal(id, totals[i].amount + amount)];
    assert forall j :: 0 <= j < |r| && j != i ==> r[j] == totals[j];
    assert r[i].id == totals[i].id;
    match FirstIndex(totals, TotalHasId(other)) {
      case None =>
        assert forall j :: 0 <= j < |r| ==> !TotalHasId(other)(r[j]);
      case Some(k) =>
        assert FirstIndex(r, TotalHasId(other)) == Some(k);
    }
  }

  /** Adding to one id changes the amount looked up for that id by the amount, and no other. */
  lemma AddAmountLookup(totals: seq<CategoryTotal>, id: Uuid, amount: real, other: Uuid)
    ensures AmountOf(AddAmount(totals, id, amount), other) ==
      AmountOf(totals, other) + (if other == id then amount else 0.0)
  {
    var found := FirstIndex(totals, TotalHasId(id));
    if found.None? {
      assert AddAmount(totals, id, amount) == totals + [CategoryTotal(id, amount)];
      AppendLookup(totals, id, amount, other);
    } else {
      var i := found.value;
      assert AddAmount(totals, id, amount) == totals[i := CategoryTotal(id, totals[i].amount + amount)];
      UpdateLookup(totals, i, id, amount, other);
    }
  }

  /**
   * The entries after adding: each id still once, no entry but the id's
   * is new, the id is present, and every other id's entry is kept.
   */
  lemma AddAmountEntries(totals: seq<CategoryTotal>, id: Uuid, amount: real)
    ensures DistinctTotalIds(totals) ==> DistinctTotalIds(AddAmount(totals, id, amount))
    ensures forall e :: e in AddAmount(totals, id, amount) ==> e.id == id || e in totals
    ensures exists e :: e in AddAmount(totals, id, amount) && e.id == id
    ensures forall e :: e in totals && e.id != id ==> e in AddAmount(totals, id, amount)
  {
    var r := AddAmount(totals, id, amount);
    forall e | e in totals && e.id != id
      ensures e in r
    {
      var j :| 0 <= j < |totals| && totals[j] == e;
      assert r[j] == e;
    }
    match FirstIndex(totals, TotalHasId(id))
    case None =>
      assert r[|totals|] in r;
    case Some(i) =>
      assert r[i] in r;
      forall e | e in r
        ensures e.id == id || e in totals
      {
        var j :| 0 <= j < |r| && r[j] == e;
        if j != i {
          assert totals[j] == e;
        }
      }
  }

  /**
   * Adding to the dictionary raises the id's amount by `amount` (from 0
   * without an entry) and leaves every other id's amount and entry as they
   * were; it raises the grand total by the amount, keeps each id once, adds
   * no entry but the id's, and leaves the id present.
   */
  lemma AddAmountSpec(totals: seq<CategoryTotal>, id: Uuid, amount: real)
    ensures Sum(AddAmount(totals, id, amount), TotalAmount) == Sum(totals, TotalAmount) + amount
    ensures DistinctTotalIds(totals) ==> DistinctTotalIds(AddAmount(totals, id, amount))
    ensures forall e :: e in AddAmount(totals, id, amount) ==> e.id == id || e in totals
    ensures exists e :: e in AddAmount(totals, id, amount) && e.id == id
    ensures AmountOf(AddAmount(totals, id, amount), id) == AmountOf(totals, id) + amount
    ensures forall other :: other != id ==> AmountOf(AddAmount(totals, id, amount), other) == AmountOf(totals, other)
    ensures forall e :: e in totals && e.id != id ==> e in AddAmount(totals, id, amount)
  {
    AddAmountLookup(totals, id, amount, id);
    forall other | other != id
      ensures AmountOf(AddAmount(totals, id, amount), other) == AmountOf(totals, other)
    {
      AddAmountLookup(totals, id, amount, other);
    }
    AddAmountEntries(totals, id, amount);
    AddAmountSum(totals, id, amount);
  }

  lemma AddAmountSum(totals: seq<CategoryTotal>, id: Uuid, amount: real)
    ensures Sum(AddAmount(totals, id, amount), TotalAmount) == Sum(totals, TotalAmount) + amount
  {
    match FirstIndex(totals, TotalHasId(id))
    case None =>
      SumSnoc(totals, CategoryTotal(id, amount), TotalAmount);
    case Some(i) =>
      SumUpdate(totals, i, CategoryTotal(id, totals[i].amount + amount), TotalAmount);
  }

  /** The running totals of the loop of `updatePeriodStatistics`. */
  datatype Tally = Tally(expenses: real, income: real, totals: seq<CategoryTotal>)

  /** One iteration of the inner loop: expenses also go to their category's total. */
  function Step(tally: Tally, t: Transaction): Tally {
    if t.kind == Expense then
      Tally(tally.expenses + t.amount, tally.income, AddAmount(tally.totals, t.categoryId, t.amount))
    else
      Tally(tally.expenses, tally.income + t.amount, tally.totals)
  }

  /** The running totals after the transactions `ts`, from zero and an empty dictionary. */
  function TallyOf(ts: seq<Transaction>): Tally {
    if ts == [] then Tally(0.0, 0.0, []) else Step(TallyOf(ts[..|ts| - 1]), ts[|ts| - 1])
  }

  lemma {:induction false} TallyOfSums(ts: seq<Transaction>)
    ensures TallyOf(ts).expenses == Sum(Filter(ts, IsExpense), TransactionAmount)
    ensures TallyOf(ts).income == Sum(Filter(ts, Not(IsExpense)), TransactionAmount)
  {
    if ts != [] {
      var init, x := ts[..|ts| - 1], ts[|ts| - 1];
      TallyOfSums(init);
      var before := TallyOf(init);
      assert TallyOf(ts) == Step(before, x);
      if IsExpense(x) {
        assert Filter(ts, IsExpense) == Filter(init, IsExpense) + [x];
        assert Filter(ts, Not(IsExpense)) == Filter(init, Not(IsExpense));
        SumSnoc(Filter(init, IsExpense), x, TransactionAmount);
      } else {
        assert Filter(ts, IsExpense) == Filter(init, IsExpense);
        assert Filter(ts, Not(IsExpense)) == Filter(init, Not(IsExpense)) + [x];
        SumSnoc(Filter(init, Not(IsExpense)), x, TransactionAmount);
      }
    }
  }

  lemma {:induction false} TallyOfTotals(ts: seq<Transaction>)
    ensures Sum(TallyOf(ts).totals, TotalAmount) == TallyOf(ts).expenses
    ensures DistinctTotalIds(TallyOf(ts).totals)
  {
    if ts != [] {
      var init, x := ts[..|ts| - 1], ts[|ts| - 1];
      TallyOfTotals(init);
      var before := TallyOf(init);
      assert TallyOf(ts) == Step(before, x);
      if x.kind == Expense {
        assert TallyOf(ts).totals == AddAmount(before.totals, x.categoryId, x.amount);
        AddAmountSpec(before.totals, x.categoryId, x.amount);
      } else {
        assert TallyOf(ts).totals == before.totals;
      }
    }
  }

  lemma {:induction false} TallyOfEntries(ts: seq<Transaction>)
    ensures forall e :: e in TallyOf(ts).totals ==> exists t :: t in ts && t.kind == Expense && t.categoryId == e.id
  {
    if ts != [] {
      var init, x := ts[..|ts| - 1], ts[|ts| - 1];
      TallyOfEntries(init);
      forall e | e in TallyOf(ts).totals
        ensures exists t :: t in ts && t.kind == Expense && t.categoryId == e.id
      {
        if x.kind == Expense {
          AddAmountSpec(TallyOf(init).totals, x.categoryId, x.amount);
        }
        if e.id != x.categoryId || x.kind != Expense {
          assert e in TallyOf(init).totals;
          var t :| t in init && t.kind == Expense && t.categoryId == e.id;
          assert t in ts;
        } else {
          assert x in ts;
        }
      }
    }
  }

  /** The expenses booked on category `id`. */
  function ExpenseIn(id: Uuid): Transaction -> bool {
    (t: Transaction) => t.kind == Expense && t.categoryId == id
  }

  /** The sum of the expenses booked on category `id`. */
  function CategoryExpenses(ts: seq<Transaction>, id: Uuid): real {
    Sum(Filter(ts, ExpenseIn(id)), TransactionAmount)
  }

  /** The dictionary maps every category to the sum of its expenses (0 for a category without any). */
  lemma {:induction false} TallyOfAmounts(ts: seq<Transaction>)
    ensures forall id :: AmountOf(TallyOf(ts).totals, id) == CategoryExpenses(ts, id)
  {
    if ts != [] {
      var init, x := ts[..|ts| - 1], ts[|ts| - 1];
      TallyOfAmounts(init);
      var before := TallyOf(init);
      assert ts == init + [x];
      assert TallyOf(ts) == Step(before, x);
      forall id
        ensures AmountOf(TallyOf(ts).totals, id) == CategoryExpenses(ts, id)
      {
        FilterSnoc(init, x, ExpenseIn(id));
        if x.kind == Expense {
          AddAmountLookup(before.totals, x.categoryId, x.amount, id);
          if x.categoryId == id {
            SumSnoc(Filter(init, ExpenseIn(id)), x, TransactionAmount);
          }
        }
      }
    }
  }

  /** Every category with an expense has an entry. */
  lemma {:induction false} TallyOfCovers(ts: seq<Transaction>)
    ensures forall t :: t in ts && t.kind == Expense ==> exists e :: e in TallyOf(ts).totals && e.id == t.categoryId
  {
    if ts != [] {
      var init, x := ts[..|ts| - 1], ts[|ts| - 1];
      TallyOfCovers(init);
      var before := TallyOf(init);
      assert ts == init + [x];
      assert TallyOf(ts) == Step(before, x);
      if x.kind == Expense {
        AddAmountSpec(before.totals, x.categoryId, x.amount);
      }
      forall t | t in ts && t.kind == Expense
        ensures exists e :: e in TallyOf(ts).totals && e.id == t.categoryId
      {
        if t != x && (x.kind != Expense || t.categoryId != x.categoryId) {
          assert t in init;
          var e :| e in before.totals && e.id == t.categoryId;
          assert e in TallyOf(ts).totals;
        }
      }
    }
  }

  /** Each entry's amount is the sum of its category's expenses. */
  lemma EntryAmounts(ts: seq<Transaction>)
    ensures forall e :: e in TallyOf(ts).totals ==> e.amount == CategoryExpenses(ts, e.id)
  {
    TallyOfTotals(ts);
    TallyOfAmounts(ts);
    forall e | e in TallyOf(ts).totals
      ensures e.amount == CategoryExpenses(ts, e.id)
    {
      AmountOfEntry(TallyOf(ts).totals, e);
    }
  }

  /**
   * The totals are the expense-typed and the other-typed sums; the
   * dictionary holds one entry per category with an expense, no other, and
   * each entry's amount is its category's expense sum.
   */
  lemma TallyOfSpec(ts: seq<Transaction>)
    ensures TallyOf(ts).expenses == Sum(Filter(ts, IsExpense), TransactionAmount)
    ensures TallyOf(ts).income == Sum(Filter(ts, Not(IsExpense)), TransactionAmount)
    ensures Sum(TallyOf(ts).totals, TotalAmount) == TallyOf(ts).expenses
    ensures DistinctTotalIds(TallyOf(ts).totals)
    ensures forall e :: e in TallyOf(ts).totals ==> exists t :: t in ts && t.kind == Expense && t.categoryId == e.id
    ensures forall t :: t in ts && t.kind == Expense ==> exists e :: e in TallyOf(ts).totals && e.id == t.categoryId
    ensures forall e :: e in TallyOf(ts).totals ==> e.amount == CategoryExpenses(ts, e.id)
    ensures forall id :: AmountOf(TallyOf(ts).totals, id) == CategoryExpenses(ts, id)
  {
    TallyOfSums(ts);
    TallyOfTotals(ts);
    TallyOfEntries(ts);
    TallyOfCovers(ts);
    EntryAmounts(ts);
    TallyOfAmounts(ts);
  }

  /** The sort key of `sorted { $0.value > $1.value }`: larger totals first. */
  function NegatedTotal(e: CategoryTotal): real {
    -e.amount
  }

  /** `compactMap`: the entries whose category is found, paired with their amount. */
  function CompactLookup(entries: seq<CategoryTotal>, lookup: Uuid -> Option<Category>): (r: seq<(Category, real)>)
    ensures |r| <= |entries|
    ensures forall x :: x in r ==> exists e :: e in entries && lookup(e.id) == Some(x.0) && e.amount == x.1
  {
    if entries == [] then []
    else
      var e := entries[|entries| - 1];
      var rest := CompactLookup(entries[..|entries| - 1], lookup);
      assert forall x :: x in entries[..|entries| - 1] ==> x in entries;
      match lookup(e.id)
      case None => rest
      case Some(c) => rest + [(c, e.amount)]
  }

  /** The entries whose category the lookup finds. */
  function Found(lookup: Uuid -> Option<Category>): CategoryTotal -> bool {
    (e: CategoryTotal) => lookup(e.id).Some?
  }

  /**
   * `compactMap` position by position: the i-th pair is the i-th entry
   * whose category is found, with that category and the entry's amount.
   */
  lemma {:induction false} CompactLookupPositions(entries: seq<CategoryTotal>, lookup: Uuid -> Option<Category>)
    ensures |CompactLookup(entries, lookup)| == |Filter(entries, Found(lookup))|
    ensures forall i :: 0 <= i < |CompactLookup(entries, lookup)| ==>
      lookup(Filter(entries, Found(lookup))[i].id) == Some(CompactLookup(entries, lookup)[i].0) &&
      CompactLookup(entries, lookup)[i].1 == Filter(entries, Found(lookup))[i].amount
  {
    if entries != [] {
      var init, e := entries[..|entries| - 1], entries[|entries| - 1];
      CompactLookupPositions(init, lookup);
      assert entries == init + [e];
      FilterSnoc(init, e, Found(lookup));
    }
  }

  /** Every entry whose category is found is kept, with its category and amount. */
  lemma CompactLookupKeepsFound(entries: seq<CategoryTotal>, lookup: Uuid -> Option<Category>)
    ensures forall e :: e in entries && lookup(e.id).Some? ==> (lookup(e.id).value, e.amount) in CompactLookup(entries, lookup)
  {
    var f, r := Filter(entries, Found(lookup)), CompactLookup(entries, lookup);
    CompactLookupPositions(entries, lookup);
    FilterSpec(entries, Found(lookup));
    forall e | e in entries && lookup(e.id).Some?
      ensures (lookup(e.id).value, e.amount) in r
    {
      assert Found(lookup)(e);
      assert e in f;
      var i :| 0 <= i < |f| && f[i] == e;
      assert r[i] == (lookup(e.id).value, e.amount);
    }
  }

  /** `compactMap` keeps the order, so it keeps a non-increasing order of amounts. */
  lemma {:induction false} CompactLookupKeepsOrder(entries: seq<CategoryTotal>, lookup: Uuid -> Option<Category>)
    requires forall i, j :: 0 <= i < j < |entries| ==> entries[i].amount >= entries[j].amount
    ensures forall i, j :: 0 <= i < j < |CompactLookup(entries, lookup)| ==>
      CompactLookup(entries, lookup)[i].1 >= CompactLookup(entries, lookup)[j].1
  {
    if entries != [] {
      var init, e := entries[..|entries| - 1], entries[|entries| - 1];
      CompactLookupKeepsOrder(init, lookup);
      var rest := CompactLookup(init, lookup);
      forall x | x in rest
        ensures x.1 >= e.amount
      {
        var y :| y in init && lookup(y.id) == Some(x.0) && y.amount == x.1;
        var i :| 0 <= i < |init| && init[i] == y;
        assert entries[i] == y;
      }
      var r := CompactLookup(entries, lookup);
      if lookup(e.id).Some? {
        forall i, j | 0 <= i < j < |r|
          ensures r[i].1 >= r[j].1
        {
          if j == |rest| {
            assert r[i] == rest[i] && rest[i] in rest;
          } else {
            assert r[i] == rest[i] && r[j] == rest[j];
          }
        }
      }
    }
  }

  /** At most five: `prefix(5)`. */
  function AtMostFive(n: nat): nat {
    if n < 5 then n else 5
  }

  /**
   * `top` is a choice of the five largest totals (all of them when there
   * are fewer): taken from `totals`, in non-increasing order, and no total
   * left out is larger than one taken.  Ties may be broken either way.
   */
  ghost predicate IsTopFive(top: seq<CategoryTotal>, totals: seq<CategoryTotal>) {
    && |top| == AtMostFive(|totals|)
    && multiset(top) <= multiset(totals)
    && (forall i, j :: 0 <= i < j < |top| ==> top[i].amount >= top[j].amount)
    && (forall e, x :: e in multiset(totals) - multiset(top) && x in top ==> e.amount <= x.amount)
  }

  /** `sorted { $0.value > $1.value }.prefix(5)` */
  function TopTotals(totals: seq<CategoryTotal>): seq<CategoryTotal> {
    SortBySpec(totals, NegatedTotal);
    SortBy(totals, NegatedTotal)[..AtMostFive(|totals|)]
  }

  /** Splitting a sorted sequence at `k`: the prefix is sorted and nothing after it is larger. */
  lemma SortedPrefix(sorted: seq<CategoryTotal>, k: nat)
    requires k <= |sorted|
    requires SortedBy(sorted, NegatedTotal)
    ensures forall i, j :: 0 <= i < j < k ==> sorted[i].amount >= sorted[j].amount
    ensures forall e, x :: e in sorted[k..] && x in sorted[..k] ==> e.amount <= x.amount
  {
    forall i, j | 0 <= i < j < k
      ensures sorted[i].amount >= sorted[j].amount
    {
      assert NegatedTotal(sorted[i]) <= NegatedTotal(sorted[j]);
    }
    forall e, x | e in sorted[k..] && x in sorted[..k]
      ensures e.amount <= x.amount
    {
      var j :| k <= j < |sorted| && sorted[j] == e;
      var i :| 0 <= i < k && sorted[i] == x;
      assert NegatedTotal(sorted[i]) <= NegatedTotal(sorted[j]);
    }
  }

  /** What the prefix leaves out of the sorted sequence is what it leaves out of `totals`. */
  lemma PrefixLeavesOut(totals: seq<CategoryTotal>, sorted: seq<CategoryTotal>, k: nat)
    requires k <= |sorted|
    requires multiset(sorted) == multiset(totals)
    ensures multiset(totals) - multiset(sorted[..k]) == multiset(sorted[k..])
    ensures multiset(sorted[..k]) <= multiset(totals)
  {
    assert sorted == sorted[..k] + sorted[k..];
  }

  /** The sorted prefix is a choice of the five largest totals. */
  lemma TopTotalsSpec(totals: seq<CategoryTotal>)
    ensures IsTopFive(TopTotals(totals), totals)
  {
    SortBySpec(totals, NegatedTotal);
    var sorted := SortBy(totals, NegatedTotal);
    var k := AtMostFive(|totals|);
    SortedPrefix(sorted, k);
    PrefixLeavesOut(totals, sorted, k);
    assert TopTotals(totals) == sorted[..k];
  }

  /**
   * `topCategories`: the five largest totals, then those whose category is
   * found, each with its amount, in the order of the totals.
   */
  function TopCategories(totals: seq<CategoryTotal>, lookup: Uuid -> Option<Category>): (r: seq<(Category, real)>)
    ensures |r| <= 5
    ensures forall i, j :: 0 <= i < j < |r| ==> r[i].1 >= r[j].1
    ensures forall x :: x in r ==> exists e :: e in totals && lookup(e.id) == Some(x.0) && e.amount == x.1
  {
    var top := TopTotals(totals);
    TopTotalsSpec(totals);
    assert forall e :: e in top ==> e in multiset(top);
    CompactLookupKeepsOrder(top, lookup);
    CompactLookup(top, lookup)
  }

  /** The top categories are those found among a choice of the five largest totals. */
  lemma TopCategoriesSpec(totals: seq<CategoryTotal>, lookup: Uuid -> Option<Category>)
    ensures exists top :: IsTopFive(top, totals) && TopCategories(totals, lookup) == CompactLookup(top, lookup)
  {
    TopTotalsSpec(totals);
    assert TopCategories(totals, lookup) == CompactLookup(TopTotals(totals), lookup);
  }

  /** The statistics `updatePeriodStatistics` stores, over the days `start <= d < end`. */
  function StatisticsOf(m: map<Date, seq<Transaction>>, keyOrder: seq<Date>, start: Date, end: Date,
                        lookup: Uuid -> Option<Category>): PeriodStatistics
    requires forall k :: k in keyOrder ==> k in m
    requires start < end
  {
    var tally := TallyOf(PeriodTransactions(m, keyOrder, start, end));
    PeriodStatistics(tally.expenses, tally.income, TopCategories(tally.totals, lookup),
                     DailyAverage(tally.expenses, end - start), DailyAverage(tally.income, end - start))
  }

  /**
   * The period's statistics: the expense-typed and other-typed sums over
   * the transactions of the days in the half-open period, their balance,
   * the daily averages over the period's length, and as top categories
   * the five largest category totals (fewer when there are fewer) whose
   * category is found, in non-increasing order, each paired with the sum
   * of the period's expenses booked on it.
   */
  lemma StatisticsOfSpec(m: map<Date, seq<Transaction>>, keyOrder: seq<Date>, start: Date, end: Date,
                         lookup: Uuid -> Option<Category>)
    requires forall k :: k in keyOrder ==> k in m
    requires start < end
    ensures var s := StatisticsOf(m, keyOrder, start, end, lookup);
      var ts := PeriodTransactions(m, keyOrder, start, end);
      && s.totalExpenses == Sum(Filter(ts, IsExpense), TransactionAmount)
      && s.totalIncome == Sum(Filter(ts, Not(IsExpense)), TransactionAmount)
      && s.Balance() == Sum(Filter(ts, Not(IsExpense)), TransactionAmount) - Sum(Filter(ts, IsExpense), TransactionAmount)
      && s.dailyAverageExpense * (end - start) as real == s.totalExpenses
      && s.dailyAverageIncome * (end - start) as real == s.totalIncome
      && |s.topCategories| <= 5
      && (forall i, j :: 0 <= i < j < |s.topCategories| ==> s.topCategories[i].1 >= s.topCategories[j].1)
      && (exists top :: IsTopFive(top, TallyOf(ts).totals) && s.topCategories == CompactLookup(top, lookup))
      && (forall x :: x in s.topCategories ==>
            exists e :: e in TallyOf(ts).totals && lookup(e.id) == Some(x.0) && x.1 == CategoryExpenses(ts, e.id))
  {
    StatisticsDailyAverages(m, keyOrder, start, end, lookup);
    var ts := PeriodTransactions(m, keyOrder, start, end);
    var tally := TallyOf(ts);
    var top := TopCategories(tally.totals, lookup);
    TopCategoriesSpec(tally.totals, lookup);
    TallyOfSpec(ts);
    forall x | x in top
      ensures exists e :: e in tally.totals && lookup(e.id) == Some(x.0) && x.1 == CategoryExpenses(ts, e.id)
    {
      var e :| e in tally.totals && lookup(e.id) == Some(x.0) && e.amount == x.1;
      assert e.amount == CategoryExpenses(ts, e.id);
    }
  }

  /** The daily averages spread the period's totals evenly over its days. */
  lemma StatisticsDailyAverages(m: map<Date, seq<Transaction>>, keyOrder: seq<Date>, start: Date, end: Date,
                                lookup: Uuid -> Option<Category>)
    requires forall k :: k in keyOrder ==> k in m
    requires start < end
    ensures var s := StatisticsOf(m, keyOrder, start, end, lookup);
      && s.dailyAverageExpense * (end - start) as real == s.totalExpenses
      && s.dailyAverageIncome * (end - start) as real == s.totalIncome
  {
    var tally := TallyOf(PeriodTransactions(m, keyOrder, start, end));
    var s := StatisticsOf(m, keyOrder, start, end, lookup);
    assert s == PeriodStatistics(tally.expenses, tally.income, s.topCategories,
      DailyAverage(tally.expenses, end - start), DailyAverage(tally.income, end - start));
    DailyAverageSpreads(tally.expenses, end - start);
    DailyAverageSpreads(tally.income, end - start);
  }

  lemma DailyAverageSpreads(total: real, numberOfDays: int)
    requires numberOfDays > 0
    ensures DailyAverage(total, numberOfDays) * numberOfDays as real == total
  {
  }

  /** A sum over the transactions of one kind does not depend on the order of the transactions. */
  lemma FilteredSumPermutation(a: seq<Transaction>, b: seq<Transaction>, p: Transaction -> bool)
    requires multiset(a) == multiset(b)
    ensures Sum(Filter(a, p), TransactionAmount) == Sum(Filter(b, p), TransactionAmount)
  {
    FilterSpec(a, p);
    FilterSpec(b, p);
    assert multiset(Filter(a, p)) == multiset(Filter(b, p));
    SumPermutation(Filter(a, p), Filter(b, p), TransactionAmount);
  }

  /**
   * The period's sums, daily averages and per-category expenses do not
   * depend on the order in which the dictionary enumerates its days.
   */
  lemma StatisticsOrderIndependent(m: map<Date, seq<Transaction>>, k1: seq<Date>, k2: seq<Date>, start: Date, end: Date,
                                   lookup: Uuid -> Option<Category>)
    requires forall k :: k in k1 ==> k in m
    requires multiset(k1) == multiset(k2)
    requires start < end
    ensures forall k :: k in k2 ==> k in m
    ensures var s1, s2 := StatisticsOf(m, k1, start, end, lookup), StatisticsOf(m, k2, start, end, lookup);
      && s1.totalExpenses == s2.totalExpenses
      && s1.totalIncome == s2.totalIncome
      && s1.dailyAverageExpense == s2.dailyAverageExpense
      && s1.dailyAverageIncome == s2.dailyAverageIncome
    ensures forall id :: CategoryExpenses(PeriodTransactions(m, k1, start, end), id)
                      == CategoryExpenses(PeriodTransactions(m, k2, start, end), id)
  {
    PeriodTransactionsPermutation(m, k1, k2, start, end);
    var ts1, ts2 := PeriodTransactions(m, k1, start, end), PeriodTransactions(m, k2, start, end);
    TallyOfSpec(ts1);
    TallyOfSpec(ts2);
    FilteredSumPermutation(ts1, ts2, IsExpense);
    FilteredSumPermutation(ts1, ts2, Not(IsExpense));
    forall id ensures CategoryExpenses(ts1, id) == CategoryExpenses(ts2, id) {
      FilteredSumPermutation(ts1, ts2, ExpenseIn(id));
    }
  }

  /** `total / Double(numberOfDays)`: the total spread evenly over the days of the period. */
  function DailyAverage(total: real, numberOfDays: int): (r: real)
    requires numberOfDays > 0
    ensures r * numberOfDays as real == total
    ensures total >= 0.0 ==> 0.0 <= r <= total
  {
    total / numberOfDays as real
  }

  /** Every top category stands for expenses of the period booked on a category the lookup finds. */
  lemma TopCategoriesAreExpenses(m: map<Date, seq<Transaction>>, keyOrder: seq<Date>, start: Date, end: Date,
                                 lookup: Uuid -> Option<Category>)
    requires forall k :: k in keyOrder ==> k in m
    requires start < end
    ensures forall x :: x in StatisticsOf(m, keyOrder, start, end, lookup).topCategories ==>
      exists t :: t in PeriodTransactions(m, keyOrder, start, end) && t.kind == Expense && lookup(t.categoryId) == Some(x.0)
  {
    var ts := PeriodTransactions(m, keyOrder, start, end);
    TallyOfSpec(ts);
    forall x | x in StatisticsOf(m, keyOrder, start, end, lookup).topCategories
      ensures exists t :: t in ts && t.kind == Expense && lookup(t.categoryId) == Some(x.0)
    {
      var e :| e in TallyOf(ts).totals && lookup(e.id) == Some(x.0) && e.amount == x.1;
      var t :| t in ts && t.kind == Expense && t.categoryId == e.id;
    }
  }

  /** The category totals add up to the period's expenses. */
  lemma CategoryTotalsAddUp(ts: seq<Transaction>)
    ensures Sum(TallyOf(ts).totals, TotalAmount) == Sum(Filter(ts, IsExpense), TransactionAmount)
  {
    TallyOfSpec(ts);
  }

  /** The first day after the period: seven days on, or the length of the month on. */
  function PeriodEnd(mode: ViewMode, periodStart: Date, daysInMonth: int): (end: Date)
    ensures mode == ViewMode.Week ==> end - periodStart == 7
    ensures mode == ViewMode.Month ==> end - periodStart == daysInMonth
  {
    match mode
    case Week => periodStart + 7
    case Month => periodStart + daysInMonth
  }

  /**
   * The inner loop of `updatePeriodStatistics`, over one day's
   * transactions: it carries the running totals on from those of `before`.
   */
  method AddDay(ghost before: seq<Transaction>, expenses: real, income: real, totals: seq<CategoryTotal>,
                dayTransactions: seq<Transaction>)
    returns (totalExpenses: real, totalIncome: real, categoryTotals: seq<CategoryTotal>)
    requires Tally(expenses, income, totals) == TallyOf(before)
    ensures Tally(totalExpenses, totalIncome, categoryTotals) == TallyOf(before + dayTransactions)
  {
    totalExpenses, totalIncome, categoryTotals := expenses, income, totals;
    ghost var start := Tally(expenses, income, totals);
    var i := 0;
    while i < |dayTransactions|
      invariant 0 <= i <= |dayTransactions|
      invariant Tally(totalExpenses, totalIncome, categoryTotals) == TallyFrom(start, dayTransactions, i)
    {
      var transaction := dayTransactions[i];
      TallyFromNext(start, dayTransactions, i);
      if transaction.kind == Expense {
        StepExpense(Tally(totalExpenses, totalIncome, categoryTotals), transaction);
        totalExpenses := totalExpenses + transaction.amount;
        categoryTotals := AddAmount(categoryTotals, transaction.categoryId, transaction.amount);
      } else {
        StepIncome(Tally(totalExpenses, totalIncome, categoryTotals), transaction);
        totalIncome := totalIncome + transaction.amount;
      }
      i := i + 1;
    }
    TallyFromSpec(before, dayTransactions, i);
    assert dayTransactions[..i] == dayTransactions;
  }

  /** The running totals after the first `i` transactions of `ts`, carried on from `start`. */
  function TallyFrom(start: Tally, ts: seq<Transaction>, i: nat): Tally
    requires i <= |ts|
  {
    if i == 0 then start else Step(TallyFrom(start, ts, i - 1), ts[i - 1])
  }

  lemma StepExpense(tally: Tally, t: Transaction)
    requires t.kind == Expense
    ensures Step(tally, t) == Tally(tally.expenses + t.amount, tally.income, AddAmount(tally.totals, t.categoryId, t.amount))
  {
  }

  lemma StepIncome(tally: Tally, t: Transaction)
    requires t.kind != Expense
    ensures Step(tally, t) == Tally(tally.expenses, tally.income + t.amount, tally.totals)
  {
  }

  lemma TallyFromNext(start: Tally, ts: seq<Transaction>, i: nat)
    requires i < |ts|
    ensures TallyFrom(start, ts, i + 1) == Step(TallyFrom(start, ts, i), ts[i])
  {
  }

  lemma {:induction false} TallyFromSpec(before: seq<Transaction>, ts: seq<Transaction>, i: nat)
    requires i <= |ts|
    ensures TallyFrom(TallyOf(before), ts, i) == TallyOf(before + ts[..i])
  {
    if i == 0 {
      assert before + ts[..0] == before;
    } else {
      TallyFromSpec(before, ts, i - 1);
      AppendPrefixSnoc(before, ts, i - 1);
      TallyOfSnoc(before + ts[..i - 1], ts[i - 1]);
    }
  }

  /**
   * The outer loop of `updatePeriodStatistics`, over the dictionary in the
   * order `keyOrder`: the days inside the period pass through `AddDay`.
   */
  method AddDays(m: map<Date, seq<Transaction>>, keyOrder: seq<Date>, start: Date, end: Date)
    returns (totalExpenses: real, totalIncome: real, categoryTotals: seq<CategoryTotal>)
    requires forall k :: k in keyOrder ==> k in m
    ensures Tally(totalExpenses, totalIncome, categoryTotals) == TallyOf(PeriodTransactions(m, keyOrder, start, end))
  {
    totalExpenses, totalIncome, categoryTotals := 0.0, 0.0, [];
    var n := 0;
    while n < |keyOrder|
      invariant 0 <= n <= |keyOrder|
      invariant Tally(totalExpenses, totalIncome, categoryTotals) == TallyOf(PeriodTransactions(m, keyOrder[..n], start, end))
    {
      var date := keyOrder[n];
      PeriodTransactionsSnoc(m, keyOrder, n, start, end);
      if start <= date < end {
        ghost var before := PeriodTransactions(m, keyOrder[..n], start, end);
        totalExpenses, totalIncome, categoryTotals := AddDay(before, totalExpenses, totalIncome, categoryTotals, m[date]);
      }
      n := n + 1;
    }
    assert keyOrder[..n] == keyOrder;
  }

  /** The statistics built from the running totals of the whole period. */
  lemma StatisticsOfTally(m: map<Date, seq<Transaction>>, keyOrder: seq<Date>, start: Date, end: Date,
                          lookup: Uuid -> Option<Category>, expenses: real, income: real, totals: seq<CategoryTotal>)
    requires forall k :: k in keyOrder ==> k in m
    requires start < end
    requires Tally(expenses, income, totals) == TallyOf(PeriodTransactions(m, keyOrder, start, end))
    ensures StatisticsOf(m, keyOrder, start, end, lookup)
         == PeriodStatistics(expenses, income, TopCategories(totals, lookup),
                             DailyAverage(expenses, end - start), DailyAverage(income, end - start))
  {
  }

  lemma AppendPrefixSnoc<T>(a: seq<T>, b: seq<T>, i: nat)
    requires i < |b|
    ensures a + b[..i + 1] == (a + b[..i]) + [b[i]]
  {
    assert b[..i + 1] == b[..i] + [b[i]];
  }

  lemma TallyOfSnoc(s: seq<Transaction>, t: Transaction)
    ensures TallyOf(s + [t]) == Step(TallyOf(s), t)
  {
    assert (s + [t])[..|s|] == s;
  }

  /** Adding one transaction to the type-split sums. */
  lemma SplitSumsSnoc(s: seq<Transaction>, t: Transaction)
    ensures Sum(Filter(s + [t], IsExpense), TransactionAmount)
         == Sum(Filter(s, IsExpense), TransactionAmount) + (if t.kind == Expense then t.amount else 0.0)
    ensures Sum(Filter(s + [t], Not(IsExpense)), TransactionAmount)
         == Sum(Filter(s, Not(IsExpense)), TransactionAmount) + (if t.kind == Expense then 0.0 else t.amount)
  {
    FilterSnoc(s, t, IsExpense);
    FilterNotSnoc(s, t, IsExpense);
    SumSnoc(Filter(s, IsExpense), t, TransactionAmount);
    SumSnoc(Filter(s, Not(IsExpense)), t, TransactionAmount);
  }

  /** The day's totals after its first `i` transactions. */
  function DayTotalUpTo(day: seq<Transaction>, i: nat): DayTotal
    requires i <= |day|
  {
    if i == 0 then DayTotal(0.0, 0.0)
    else
      var total := DayTotalUpTo(day, i - 1);
      if day[i - 1].kind == Expense then total.(expenses := total.expenses + day[i - 1].amount)
      else total.(income := total.income + day[i - 1].amount)
  }

  lemma DayTotalNext(day: seq<Transaction>, i: nat)
    requires 0 < i <= |day|
    ensures DayTotalUpTo(day, i).expenses ==
      DayTotalUpTo(day, i - 1).expenses + (if day[i - 1].kind == Expense then day[i - 1].amount else 0.0)
    ensures DayTotalUpTo(day, i).income ==
      DayTotalUpTo(day, i - 1).income + (if day[i - 1].kind == Expense then 0.0 else day[i - 1].amount)
  {
  }

  lemma {:induction false} DayExpensesUpTo(day: seq<Transaction>, i: nat)
    requires i <= |day|
    ensures DayTotalUpTo(day, i).expenses == Sum(Filter(day[..i], IsExpense), TransactionAmount)
  {
    if i > 0 {
      DayExpensesUpTo(day, i - 1);
      DayTotalNext(day, i);
      assert day[..i] == day[..i - 1] + [day[i - 1]];
      SplitSumsSnoc(day[..i - 1], day[i - 1]);
    }
  }

  lemma {:induction false} DayIncomeUpTo(day: seq<Transaction>, i: nat)
    requires i <= |day|
    ensures DayTotalUpTo(day, i).income == Sum(Filter(day[..i], Not(IsExpense)), TransactionAmount)
  {
    if i > 0 {
      DayIncomeUpTo(day, i - 1);
      DayTotalNext(day, i);
      assert day[..i] == day[..i - 1] + [day[i - 1]];
      SplitSumsSnoc(day[..i - 1], day[i - 1]);
    }
  }

  /** The totals of the first `i` transactions are the expense-typed and the other-typed sums. */
  lemma DayTotalUpToSpec(day: seq<Transaction>, i: nat)
    requires i <= |day|
    ensures DayTotalUpTo(day, i).expenses == Sum(Filter(day[..i], IsExpense), TransactionAmount)
    ensures DayTotalUpTo(day, i).income == Sum(Filter(day[..i], Not(IsExpense)), TransactionAmount)
  {
    DayExpensesUpTo(day, i);
    DayIncomeUpTo(day, i);
  }

  /** The loop of `getDayTotal(for:)` over the day's selected transactions. */
  method SumDay(day: seq<Transaction>) returns (total: DayTotal)
    ensures total.expenses == Sum(Filter(day, IsExpense), TransactionAmount)
    ensures total.income == Sum(Filter(day, Not(IsExpense)), TransactionAmount)
  {
    total := DayTotal(0.0, 0.0);
    var i := 0;
    while i < |day|
      invariant 0 <= i <= |day|
      invariant total == DayTotalUpTo(day, i)
    {
      var transaction := day[i];
      if transaction.kind == Expense {
        total := total.(expenses := total.expenses + transaction.amount);
      } else {
        total := total.(income := total.income + transaction.amount);
      }
      i := i + 1;
    }
    DayTotalUpToSpec(day, i);
    assert day[..i] == day;
  }

  // ---------------------------------------------------------------------
  // The view model
  // ---------------------------------------------------------------------

  class CalendarViewModel {
    var selectedViewMode: ViewMode
    var transactions: map<Date, seq<Transaction>>
    var selectedCategories: set<Uuid>
    var selectedTypes: set<TransactionType>
    var periodStatistics: PeriodStatistics

    /** The initial state: month view, no day, both types, no category filter. */
    constructor()
      ensures selectedViewMode == ViewMode.Month && transactions == map[]
      ensures selectedCategories == {} && selectedTypes == {Expense, Income}
      ensures periodStatistics == EmptyStatistics
    {
      selectedViewMode := ViewMode.Month;
      transactions := map[];
      selectedCategories := {};
      selectedTypes := {Expense, Income};
      periodStatistics := EmptyStatistics;
    }

    /**
     * `getDayTotal(for:)`: zero for a day without an entry; otherwise the
     * sum of the selected expense-typed amounts and the sum of the other
     * selected amounts.
     */
    method GetDayTotal(date: Date) returns (total: DayTotal)
      ensures date !in transactions ==> total == DayTotal(0.0, 0.0)
      ensures date in transactions ==>
        var day := Filter(transactions[date], Selected(selectedTypes, selectedCategories));
        total.expenses == Sum(Filter(day, IsExpense), TransactionAmount) &&
        total.income == Sum(Filter(day, Not(IsExpense)), TransactionAmount)
    {
      var dayTransactions := FilteredDay(transactions, selectedTypes, selectedCategories, date);
      if dayTransactions.None? {
        return DayTotal(0.0, 0.0);
      }
      total := SumDay(dayTransactions.value);
    }

    /**
     * `updatePeriodStatistics()`: `keyOrder` is the order in which the
     * dictionary is enumerated (every key once), `periodStart` the first
     * day of the selected week or month, and `lookup` stands for
     * `getCategoryById`.
     */
    method UpdatePeriodStatistics(keyOrder: seq<Date>, periodStart: Date, daysInMonth: int,
                                  lookup: Uuid -> Option<Category>)
      requires forall i :: 0 <= i < |keyOrder| ==> keyOrder[i] in transactions
      requires forall k :: k in transactions ==> k in keyOrder
      requires forall i, j :: 0 <= i < j < |keyOrder| ==> keyOrder[i] != keyOrder[j]
      requires daysInMonth > 0
      modifies this
      ensures transactions == old(transactions) && selectedViewMode == old(selectedViewMode)
      ensures selectedTypes == old(selectedTypes) && selectedCategories == old(selectedCategories)
      ensures periodStatistics ==
        StatisticsOf(transactions, keyOrder, periodStart, PeriodEnd(selectedViewMode, periodStart, daysInMonth), lookup)
    {
      var periodEnd := PeriodEnd(selectedViewMode, periodStart, daysInMonth);
      var totalExpenses, totalIncome, categoryTotals := AddDays(transactions, keyOrder, periodStart, periodEnd);
      var numberOfDays := periodEnd - periodStart;
      StatisticsOfTally(transactions, keyOrder, periodStart, periodEnd, lookup, totalExpenses, totalIncome, categoryTotals);
      periodStatistics := PeriodStatistics(totalExpenses, totalIncome, TopCategories(categoryTotals, lookup),
                                           DailyAverage(totalExpenses, numberOfDays), DailyAverage(totalIncome, numberOfDays));
    }

  }
}
