/**
 * The entities of the finance model (the files under Models/).  Swift's `type`
 * field is called `kind` here, `type` being a reserved word of Dafny.
 * Dates are integer timestamps and amounts are exact reals.
 */
module Entities {
  import opened Wrappers

  /** A `UUID`: an opaque identifier, compared only for equality. */
  type Uuid = nat

  /** A `Date`, as a timestamp. */
  type Date = int

  datatype TransactionType = Income | Expense

  datatype RecurringInterval = Daily | Weekly | Monthly | Yearly

  /** `Budget.Period` */
  datatype BudgetPeriod = Week | Month | Year

  datatype Category = Category(
    id: Uuid,
    name: string,
    icon: string,
    color: string,  // a hex string such as "#2ECC71"
    kind: TransactionType,
    isDefault: bool,
    order: int)

  /** A budget embeds a copy of its category, not a reference to it. */
  datatype Budget = Budget(id: Uuid, category: Category, limit: real, period: BudgetPeriod)

  datatype Transaction = Transaction(
    id: Uuid,
    amount: real,
    title: string,
    date: Date,
    kind: TransactionType,
    categoryId: Uuid,
    note: Option<string>,
    isRecurring: bool,
    recurringInterval: Option<RecurringInterval>)

  /** One point of a statistics chart (its per-instance `UUID()` is not modelled). */
  datatype StatisticsData = StatisticsData(date: Date, amount: real, categoryId: Uuid, kind: TransactionType)

  /**
   * `Category.init`: `isDefault` and `order` default to `false` and `0`;
   * the default `id: UUID()` is drawn by the caller and passed in.
   */
  function NewCategory(id: Uuid, name: string, icon: string, color: string, kind: TransactionType,
                       isDefault: bool := false, order: int := 0): (c: Category)
    ensures c.id == id && c.name == name && c.icon == icon && c.color == color && c.kind == kind
    ensures c.isDefault == isDefault && c.order == order
  {
    Category(id, name, icon, color, kind, isDefault, order)
  }

  /**
   * `Category.defaultCategories`: two income categories followed by three
   * expense categories.  Swift draws their ids once, when the static list is
   * first read; they are the fixed identifiers 0 to 4 here.
   */
  const DefaultCategories: seq<Category> := [
    NewCategory(0, "Salaire", "dollarsign.circle.fill", "#2ECC71", Income, isDefault := true, order := 0),
    NewCategory(1, "Freelance", "briefcase.fill", "#27AE60", Income, isDefault := true, order := 1),
    NewCategory(2, "Alimentation", "cart.fill", "#E74C3C", Expense, isDefault := true, order := 0),
    NewCategory(3, "Transport", "car.fill", "#3498DB", Expense, isDefault := true, order := 1),
    NewCategory(4, "Logement", "house.fill", "#9B59B6", Expense, isDefault := true, order := 2)
  ]

  /** Five entries, the two income ones first, then the three expense ones. */
  lemma DefaultCategoriesShape()
    ensures |DefaultCategories| == 5
    ensures forall i :: 0 <= i < 2 ==> DefaultCategories[i].kind == Income
    ensures forall i :: 2 <= i < 5 ==> DefaultCategories[i].kind == Expense
    ensures forall c :: c in DefaultCategories ==> c.isDefault
  {
  }

  /** Within each type the seed's orders run 0, 1, ... without gaps. */
  lemma DefaultCategoryOrdersAreDense()
    ensures forall i :: 0 <= i < 2 ==> DefaultCategories[i].order == i
    ensures forall i :: 2 <= i < 5 ==> DefaultCategories[i].order == i - 2
  {
  }

  /** The seed's names, and its ids, are pairwise distinct. */
  lemma DefaultCategoryNamesDistinct()
    ensures forall i, j :: 0 <= i < j < |DefaultCategories| ==>
      DefaultCategories[i].name != DefaultCategories[j].name && DefaultCategories[i].id != DefaultCategories[j].id
  {
    var names := ["Salaire", "Freelance", "Alimentation", "Transport", "Logement"];
    assert forall i :: 0 <= i < 5 ==> DefaultCategories[i].name == names[i];
    assert names[0][0] == 'S' && names[1][0] == 'F' && names[2][0] == 'A' && names[3][0] == 'T' && names[4][0] == 'L';
  }

  /**
   * `Transaction.init`: `note`, `isRecurring` and `recurringInterval`
   * default to `nil`, `false` and `nil`; the default `id` is passed in.
   */
  function NewTransaction(id: Uuid, amount: real, title: string, date: Date, kind: TransactionType,
                          categoryId: Uuid, note: Option<string> := None, isRecurring: bool := false,
                          recurringInterval: Option<RecurringInterval> := None): (t: Transaction)
    ensures t.id == id && t.amount == amount && t.title == title && t.date == date
    ensures t.kind == kind && t.categoryId == categoryId
    ensures t.note == note && t.isRecurring == isRecurring && t.recurringInterval == recurringInterval
  {
    Transaction(id, amount, title, date, kind, categoryId, note, isRecurring, recurringInterval)
  }

  /** A transaction built without the optional arguments is a one-off without a note. */
  lemma NewTransactionDefaults(id: Uuid, amount: real, title: string, date: Date, kind: TransactionType, categoryId: Uuid)
    ensures NewTransaction(id, amount, title, date, kind, categoryId).note == None
    ensures !NewTransaction(id, amount, title, date, kind, categoryId).isRecurring
    ensures NewTransaction(id, amount, title, date, kind, categoryId).recurringInterval == None
  {
  }

  /** Transaction's `==`: two transactions are equal when their ids are. */
  predicate SameTransaction(a: Transaction, b: Transaction) {
    a.id == b.id
  }

  /** `==` ignores every field but the id, and is an equivalence relation. */
  lemma SameTransactionIsIdEquality(a: Transaction, b: Transaction, c: Transaction)
    ensures SameTransaction(a, b) <==> a.id == b.id
    ensures SameTransaction(a, a)
    ensures SameTransaction(a, b) ==> SameTransaction(b, a)
    ensures SameTransaction(a, b) && SameTransaction(b, c) ==> SameTransaction(a, c)
    ensures SameTransaction(a, a.(amount := b.amount, date := b.date, title := b.title))
  {
  }

  /** Transaction's `category` accessor, which always answers `nil`. */
  function TransactionCategory(t: Transaction): (c: Option<Category>)
    ensures c == None
  {
    None
  }

  // Predicates on transactions and categories, passed to `Filter`.

  predicate IsExpense(t: Transaction) {
    t.kind == Expense
  }

  predicate IsIncome(t: Transaction) {
    t.kind == Income
  }

  function OfType(kind: TransactionType): Transaction -> bool {
    (t: Transaction) => t.kind == kind
  }

  function TransactionAmount(t: Transaction): real {
    t.amount
  }

  function CategoryOfType(kind: TransactionType): Category -> bool {
    (c: Category) => c.kind == kind
  }

  function CategoryHasId(id: Uuid): Category -> bool {
    (c: Category) => c.id == id
  }

  /** The sign convention that makes the sign of `amount` agree with `kind`. */
  ghost predicate SignMatchesType(t: Transaction) {
    (t.kind == Expense ==> t.amount < 0.0) && (t.kind == Income ==> t.amount > 0.0)
  }

  /** Every type is income or expense: the two filters split a sequence. */
  lemma IncomeIsNotExpense(t: Transaction)
    ensures IsIncome(t) == !IsExpense(t)
  {
  }
}
