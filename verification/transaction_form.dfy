/**
 * The new-transaction form (Views/Transactions/AddTransactionView.swift): its
 * validity test and the save action, which parses the amount, builds the
 * transaction and appends it to the transaction view model.
 */
module TransactionForms {
  import opened Wrappers
  import opened Entities
  import opened Sequences
  import opened TransactionStore

  /** `replacingOccurrences(of: ",", with: ".")` */
  function CommaToPoint(s: string): (r: string)
    ensures |r| == |s|
    ensures forall i :: 0 <= i < |s| ==> r[i] == (if s[i] == ',' then '.' else s[i])
    ensures ',' !in r
  {
    seq(|s|, i requires 0 <= i < |s| => if s[i] == ',' then '.' else s[i])
  }

  /** A text without commas is left as it is, so a second replacement changes nothing. */
  lemma CommaToPointIdempotent(s: string)
    ensures CommaToPoint(CommaToPoint(s)) == CommaToPoint(s)
    ensures ',' !in s ==> CommaToPoint(s) == s
  {
    if ',' !in s {
      assert forall i :: 0 <= i < |s| ==> s[i] != ',' by {
        forall i | 0 <= i < |s|
          ensures s[i] != ','
        {
          assert s[i] in s;
        }
      }
    }
  }

  /**
   * The transaction `saveTransaction` builds: the note only for a non-empty
   * description, and the interval only for a recurring transaction.
   */
  function BuiltTransaction(id: Uuid, amount: real, title: string, date: Date, kind: TransactionType,
                            categoryId: Uuid, description: string, isRecurring: bool,
                            recurringInterval: RecurringInterval): (t: Transaction)
    ensures t.id == id && t.amount == amount && t.title == title && t.date == date
    ensures t.kind == kind && t.categoryId == categoryId && t.isRecurring == isRecurring
    ensures t.note.None? <==> description == []
    ensures t.note.Some? ==> t.note.value == description
    ensures t.recurringInterval.Some? <==> isRecurring
    ensures t.recurringInterval.Some? ==> t.recurringInterval.value == recurringInterval
  {
    NewTransaction(id, amount, title, date, kind, categoryId,
                   note := if description == [] then None else Some(description),
                   isRecurring := isRecurring,
                   recurringInterval := if isRecurring then Some(recurringInterval) else None)
  }

  /**
   * The form stores the typed amount whatever the type, and its field has no
   * minus key, so an expense saved from it is positive.  The sign-based sums
   * then count it as income and not as an expense, and it never meets
   * `SignMatchesType`.
   */
  lemma FormExpenseCountsAsIncome(id: Uuid, x: real, title: string, date: Date, categoryId: Uuid,
                                  description: string, isRecurring: bool, recurringInterval: RecurringInterval)
    requires x > 0.0
    ensures var t := BuiltTransaction(id, x, title, date, Expense, categoryId, description, isRecurring, recurringInterval);
      && !SignMatchesType(t)
      && PeriodIncome([t], date, date) == x
      && PeriodExpenses([t], date, date) == 0.0
  {
    var t := BuiltTransaction(id, x, title, date, Expense, categoryId, description, isRecurring, recurringInterval);
    var w := FilterTransactions([t], date, date);
    assert [t] == [] + [t];
    assert w == [t];
    assert Filter(w, HasPositiveAmount) == [t];
    assert Filter(w, HasNegativeAmount) == [];
    assert [t][..0] == [];
    assert Sum([t], TransactionAmount) == TransactionAmount(t) == x;
  }

  /**
   * The form's state.  `amount` is the amount as typed; the view model is
   * the one the transaction is appended to.
   */
  class TransactionForm {
    var title: string
    var amount: string
    var description: string
    var date: Date
    var kind: TransactionType
    var selectedCategoryId: Option<Uuid>
    var isRecurring: bool
    var recurringInterval: RecurringInterval
    const viewModel: TransactionViewModel

    /** A new form: empty texts, an expense, no category, a monthly interval, dated `now`. */
    constructor(viewModel: TransactionViewModel, now: Date)
      ensures this.viewModel == viewModel
      ensures title == [] && amount == [] && description == [] && date == now
      ensures kind == Expense && selectedCategoryId == None && !isRecurring && recurringInterval == Monthly
    {
      this.viewModel := viewModel;
      title := [];
      amount := [];
      description := [];
      date := now;
      kind := Expense;
      selectedCategoryId := None;
      isRecurring := false;
      recurringInterval := Monthly;
    }

    /** `isValid`: the save button is enabled exactly for a title, an amount text and a category. */
    predicate IsValid(): (b: bool)
      reads this
      ensures b <==> |title| > 0 && |amount| > 0 && selectedCategoryId != None
    {
      title != [] && amount != [] && selectedCategoryId.Some?
    }

    /**
     * `saveTransaction()`.  `parseDouble` stands for `Double(_:)` and `newId`
     * for the `UUID()` the transaction receives.  When the amount does not
     * parse or no category is selected nothing is appended; otherwise exactly
     * the built transaction is.
     */
    method SaveTransaction(newId: Uuid, parseDouble: string -> Option<real>)
      modifies viewModel
      ensures viewModel.categories == old(viewModel.categories) && viewModel.budgets == old(viewModel.budgets)
      ensures parseDouble(CommaToPoint(amount)).None? || selectedCategoryId.None? ==>
        viewModel.transactions == old(viewModel.transactions)
      ensures parseDouble(CommaToPoint(amount)).Some? && selectedCategoryId.Some? ==>
        viewModel.transactions == old(viewModel.transactions) +
          [BuiltTransaction(newId, parseDouble(CommaToPoint(amount)).value, title, date, kind,
                            selectedCategoryId.value, description, isRecurring, recurringInterval)]
    {
      var parsed := parseDouble(CommaToPoint(amount));
      if parsed.None? || selectedCategoryId.None? {
        return;
      }
      var transaction := BuiltTransaction(newId, parsed.value, title, date, kind, selectedCategoryId.value,
                                          description, isRecurring, recurringInterval);
      viewModel.AddTransaction(transaction);
    }
  }
}
