/**
 * The chart data of the statistics screen (ViewModels/StatisticsViewModel.swift).
 * The view model only reads its selection fields and the transactions of the
 * shared store, so its members are functions of those values: the selection
 * is a `Selection` value and the transactions a parameter.
 */
module Statistics {
  import opened Wrappers
  import opened Sequences
  import opened Entities
  import opened CategoryList

  /**
   * The fields `selectedDateRange` (a closed range `lower...upper`),
   * `compareWithPreviousPeriod` and `selectedCategories`.
   */
  datatype Selection = Selection(lower: Date, upper: Date, compareWithPreviousPeriod: bool, categories: set<Uuid>)

  /** `range.contains(t.date)` for the closed range `lower...upper`. */
  function InClosedRange(lower: Date, upper: Date): Transaction -> bool {
    (t: Transaction) => lower <= t.date <= upper
  }

  /** `selectedCategories.isEmpty || selectedCategories.contains(t.categoryId)` */
  function InCategories(categories: set<Uuid>): Transaction -> bool {
    (t: Transaction) => categories == {} || t.categoryId in categories
  }

  /** The three filters of the source applied one after the other. */
  function Kept(ts: seq<Transaction>, kind: TransactionType, lower: Date, upper: Date, categories: set<Uuid>): seq<Transaction> {
    Filter(Filter(Filter(ts, OfType(kind)), InClosedRange(lower, upper)), InCategories(categories))
  }

  /** The condition the three filters test together. */
  predicate IsKept(t: Transaction, kind: TransactionType, lower: Date, upper: Date, categories: set<Uuid>) {
    t.kind == kind && lower <= t.date <= upper && (categories == {} || t.categoryId in categories)
  }

  function Keeps(kind: TransactionType, lower: Date, upper: Date, categories: set<Uuid>): Transaction -> bool {
    (t: Transaction) => IsKept(t, kind, lower, upper, categories)
  }

  /** The three filters in a row are one filter on their conjunction. */
  lemma KeptIsOneFilter(ts: seq<Transaction>, kind: TransactionType, lower: Date, upper: Date, categories: set<Uuid>)
    ensures Kept(ts, kind, lower, upper, categories) == Filter(ts, Keeps(kind, lower, upper, categories))
  {
    var typeAndRange := (t: Transaction) => t.kind == kind && lower <= t.date <= upper;
    FilterCompose(ts, OfType(kind), InClosedRange(lower, upper), typeAndRange);
    FilterCompose(ts, typeAndRange, InCategories(categories), Keeps(kind, lower, upper, categories));
  }

  /** The chained filters keep exactly the transactions meeting all three conditions, in order. */
  lemma KeptSpec(ts: seq<Transaction>, kind: TransactionType, lower: Date, upper: Date, categories: set<Uuid>)
    ensures IsSubsequence(Kept(ts, kind, lower, upper, categories), ts)
    ensures forall t :: t in Kept(ts, kind, lower, upper, categories) <==>
      t in ts && IsKept(t, kind, lower, upper, categories)
    ensures forall t ::
              multiset(Kept(ts, kind, lower, upper, categories))[t] ==
              (if IsKept(t, kind, lower, upper, categories) then multiset(ts)[t] else 0)
  {
    KeptIsOneFilter(ts, kind, lower, upper, categories);
    FilterSpec(ts, Keeps(kind, lower, upper, categories));
  }

  /** The `StatisticsData` point built from one transaction. */
  function ToData(t: Transaction): StatisticsData {
    StatisticsData(t.date, t.amount, t.categoryId, t.kind)
  }

  /** `map { StatisticsData(date:amount:categoryId:type:) }` */
  function MapData(ts: seq<Transaction>): (r: seq<StatisticsData>)
    ensures |r| == |ts|
    ensures forall i :: 0 <= i < |ts| ==> r[i] == ToData(ts[i])
  {
    if ts == [] then [] else MapData(ts[..|ts| - 1]) + [ToData(ts[|ts| - 1])]
  }

  /** The point of every element of `ts` is in the map of `ts`. */
  lemma MapDataMembers(ts: seq<Transaction>, t: Transaction)
    ensures t in ts ==> ToData(t) in MapData(ts)
  {
    if t in ts {
      var i :| 0 <= i < |ts| && ts[i] == t;
      assert MapData(ts)[i] == ToData(t);
    }
  }

  function DataAmount(d: StatisticsData): real {
    d.amount
  }

  function DataDate(d: StatisticsData): real {
    d.date as real
  }

  /**
   * `statisticsData(for: type)`: the points of the transactions of that type
   * dated within the selected closed range and, when some categories are
   * selected, in one of them; sorted by ascending date.
   */
  function StatisticsDataFor(ts: seq<Transaction>, kind: TransactionType, sel: Selection): (r: seq<StatisticsData>)
    ensures multiset(r) == multiset(MapData(Kept(ts, kind, sel.lower, sel.upper, sel.categories)))
    ensures forall i, j :: 0 <= i < j < |r| ==> r[i].date <= r[j].date
  {
    var data := MapData(Kept(ts, kind, sel.lower, sel.upper, sel.categories));
    SortBySpec(data, DataDate);
    var r := SortBy(data, DataDate);
    assert forall i, j :: 0 <= i < j < |r| ==> DataDate(r[i]) <= DataDate(r[j]);
    r
  }

  /**
   * Every point of `statisticsData` comes from a transaction meeting the three
   * conditions, and every such transaction contributes its point.
   */
  lemma StatisticsDataMembers(ts: seq<Transaction>, kind: TransactionType, sel: Selection, t: Transaction)
    ensures t in ts && IsKept(t, kind, sel.lower, sel.upper, sel.categories) ==>
      ToData(t) in StatisticsDataFor(ts, kind, sel)
    ensures forall d :: d in StatisticsDataFor(ts, kind, sel) ==>
      d.kind == kind && sel.lower <= d.date <= sel.upper &&
      (sel.categories == {} || d.categoryId in sel.categories)
  {
    var kept := Kept(ts, kind, sel.lower, sel.upper, sel.categories);
    var r := StatisticsDataFor(ts, kind, sel);
    KeptSpec(ts, kind, sel.lower, sel.upper, sel.categories);
    MapDataMembers(kept, t);
    if t in ts && IsKept(t, kind, sel.lower, sel.upper, sel.categories) {
      assert ToData(t) in multiset(MapData(kept));
    }
    forall d | d in r
      ensures d.kind == kind && sel.lower <= d.date <= sel.upper &&
              (sel.categories == {} || d.categoryId in sel.categories)
    {
      assert d in multiset(MapData(kept));
      var i :| 0 <= i < |kept| && MapData(kept)[i] == d;
      assert kept[i] in kept;
    }
  }

  /** `periodTotal(for: data)`: the sum of the amounts, 0 for no data. */
  function PeriodTotal(data: seq<StatisticsData>): (r: real)
    ensures data == [] ==> r == 0.0
  {
    Sum(data, DataAmount)
  }

  /** The order of the points does not change the total. */
  lemma PeriodTotalPermutation(a: seq<StatisticsData>, b: seq<StatisticsData>)
    requires multiset(a) == multiset(b)
    ensures PeriodTotal(a) == PeriodTotal(b)
  {
    SumPermutation(a, b, DataAmount);
  }

  /** The points carry the transactions' amounts, so their total is the transactions' total. */
  lemma {:induction false} PeriodTotalOfMap(ts: seq<Transaction>)
    ensures PeriodTotal(MapData(ts)) == Sum(ts, TransactionAmount)
  {
    if ts != [] {
      var init := ts[..|ts| - 1];
      PeriodTotalOfMap(init);
      assert MapData(ts) == MapData(init) + [ToData(ts[|ts| - 1])];
      SumSnoc(MapData(init), ToData(ts[|ts| - 1]), DataAmount);
    }
  }

  /**
   * The total of the chart is the sum of the amounts of the selected
   * transactions, whatever order the sort puts them in.
   */
  lemma StatisticsTotal(ts: seq<Transaction>, kind: TransactionType, sel: Selection)
    ensures PeriodTotal(StatisticsDataFor(ts, kind, sel)) == Sum(Kept(ts, kind, sel.lower, sel.upper, sel.categories), TransactionAmount)
  {
    var kept := Kept(ts, kind, sel.lower, sel.upper, sel.categories);
    PeriodTotalPermutation(StatisticsDataFor(ts, kind, sel), MapData(kept));
    PeriodTotalOfMap(kept);
  }

  function DataOfCategory(categoryId: Uuid): StatisticsData -> bool {
    (d: StatisticsData) => d.categoryId == categoryId
  }

  /** `categoryTotal(for: categoryId, in: data)`: the total of the points of one category. */
  function CategoryTotal(categoryId: Uuid, data: seq<StatisticsData>): real {
    Sum(Filter(data, DataOfCategory(categoryId)), DataAmount)
  }

  /** A category without points totals 0. */
  lemma CategoryTotalOfAbsent(categoryId: Uuid, data: seq<StatisticsData>)
    requires forall d :: d in data ==> d.categoryId != categoryId
    ensures CategoryTotal(categoryId, data) == 0.0
  {
    FilterSpec(data, DataOfCategory(categoryId));
  }

  /**
   * A category's total is the period total of its points, and together with
   * the total of the other points it makes up the period total.
   */
  lemma CategoryTotalSplitsPeriodTotal(categoryId: Uuid, data: seq<StatisticsData>)
    ensures CategoryTotal(categoryId, data) == PeriodTotal(Filter(data, DataOfCategory(categoryId)))
    ensures CategoryTotal(categoryId, data) + PeriodTotal(Filter(data, Not(DataOfCategory(categoryId)))) == PeriodTotal(data)
  {
    SumSplit(data, DataOfCategory(categoryId), DataAmount);
  }

  /** A category's total does not depend on the order of the points. */
  lemma CategoryTotalPermutation(categoryId: Uuid, a: seq<StatisticsData>, b: seq<StatisticsData>)
    requires multiset(a) == multiset(b)
    ensures CategoryTotal(categoryId, a) == CategoryTotal(categoryId, b)
  {
    var p := DataOfCategory(categoryId);
    FilterSpec(a, p);
    FilterSpec(b, p);
    assert multiset(Filter(a, p)) == multiset(Filter(b, p));
    SumPermutation(Filter(a, p), Filter(b, p), DataAmount);
  }

  /**
   * The window before the selected one: it has the same length and ends at
   * the selected range's lower bound, which it includes.
   */
  function PreviousRange(sel: Selection): (r: (Date, Date))
    ensures r.1 == sel.lower
    ensures r.1 - r.0 == sel.upper - sel.lower
  {
    var periodLength := sel.upper - sel.lower;
    (sel.lower - periodLength, sel.lower)
  }

  /**
   * `previousPeriodData(for: type)`: `nil` unless the comparison is switched
   * on; otherwise the points of the previous window, with the same type and
   * category filters, in the order of the transactions (not sorted).
   */
  function PreviousPeriodData(ts: seq<Transaction>, kind: TransactionType, sel: Selection): (r: Option<seq<StatisticsData>>)
    ensures r.None? <==> !sel.compareWithPreviousPeriod
    ensures r.Some? ==> r.value == MapData(Kept(ts, kind, PreviousRange(sel).0, sel.lower, sel.categories))
  {
    if !sel.compareWithPreviousPeriod then None
    else
      var previous := PreviousRange(sel);
      Some(MapData(Kept(ts, kind, previous.0, previous.1, sel.categories)))
  }

  /**
   * The previous-period points are those `statisticsData` would give for the
   * previous window: the same points, only not sorted.
   */
  lemma PreviousPeriodIsUnsortedStatistics(ts: seq<Transaction>, kind: TransactionType, sel: Selection)
    requires sel.compareWithPreviousPeriod
    ensures PreviousPeriodData(ts, kind, sel).Some?
    ensures multiset(PreviousPeriodData(ts, kind, sel).value) ==
      multiset(StatisticsDataFor(ts, kind, sel.(lower := PreviousRange(sel).0, upper := sel.lower)))
  {
  }

  /**
   * Both windows are closed, so a selected transaction dated exactly at the
   * lower bound is counted in the current window and in the previous one.
   */
  lemma BoundaryInBothWindows(ts: seq<Transaction>, kind: TransactionType, sel: Selection, t: Transaction)
    requires sel.lower <= sel.upper && sel.compareWithPreviousPeriod
    requires t in ts && t.kind == kind && t.date == sel.lower
    requires sel.categories == {} || t.categoryId in sel.categories
    ensures ToData(t) in StatisticsDataFor(ts, kind, sel)
    ensures ToData(t) in PreviousPeriodData(ts, kind, sel).value
  {
    StatisticsDataMembers(ts, kind, sel, t);
    var previous := PreviousRange(sel);
    KeptSpec(ts, kind, previous.0, previous.1, sel.categories);
    MapDataMembers(Kept(ts, kind, previous.0, previous.1, sel.categories), t);
  }

  /** `categoryName(for: id)`: the name of the first category with that id, else "Inconnu". */
  function CategoryName(cs: seq<Category>, id: Uuid): (r: string)
    ensures (forall c :: c in cs ==> c.id != id) ==> r == "Inconnu"
    ensures forall i :: 0 <= i < |cs| && cs[i].id == id && (forall j :: 0 <= j < i ==> cs[j].id != id) ==>
      r == cs[i].name
  {
    match CategoryFor(cs, id)
    case None => "Inconnu"
    case Some(c) => c.name
  }
}
