/**
 * Operations on an array of categories that both view models perform
 * (ViewModels/TransactionViewModel.swift and ViewModels/SettingsViewModel.swift):
 * the per-type lists, lookup by id, replacement and removal of the first
 * entry with an id, and the next free display order of a type.
 */
module CategoryList {
  import opened Wrappers
  import opened Sequences
  import opened Entities

  /** `categories.filter { $0.type == kind }` (`expenseCategories`, `incomeCategories`). */
  function CategoriesOfType(cs: seq<Category>, kind: TransactionType): (r: seq<Category>)
    ensures IsSubsequence(r, cs)
    ensures forall c :: c in r <==> c in cs && c.kind == kind
    ensures forall c :: multiset(r)[c] == if c.kind == kind then multiset(cs)[c] else 0
  {
    FilterSpec(cs, CategoryOfType(kind));
    Filter(cs, CategoryOfType(kind))
  }

  /** `category(for: id)`: the first category with that id, if any. */
  function CategoryFor(cs: seq<Category>, id: Uuid): (r: Option<Category>)
    ensures r.None? <==> forall c :: c in cs ==> c.id != id
    ensures r.Some? ==> exists i :: 0 <= i < |cs| && cs[i] == r.value && r.value.id == id &&
                                   forall j :: 0 <= j < i ==> cs[j].id != id
  {
    match FirstIndex(cs, CategoryHasId(id))
    case None => None
    case Some(i) => Some(cs[i])
  }

  /** No two categories share an id (ids are fresh UUIDs). */
  ghost predicate UniqueIds(cs: seq<Category>) {
    forall i, j :: 0 <= i < j < |cs| ==> cs[i].id != cs[j].id
  }

  lemma UniqueIdsSnoc(cs: seq<Category>, c: Category)
    ensures UniqueIds(cs + [c]) <==> UniqueIds(cs) && forall x :: x in cs ==> x.id != c.id
  {
    var s := cs + [c];
    if UniqueIds(cs) && forall x :: x in cs ==> x.id != c.id {
      forall i, j | 0 <= i < j < |s|
        ensures s[i].id != s[j].id
      {
        if j == |cs| {
          assert s[i] in cs;
        }
      }
    }
    if UniqueIds(s) {
      forall x | x in cs
        ensures x.id != c.id
      {
        var i :| 0 <= i < |cs| && cs[i] == x;
        assert s[i] == x && s[|cs|] == c;
      }
      assert forall i, j :: 0 <= i < j < |cs| ==> s[i] == cs[i] && s[j] == cs[j];
    }
  }

  /** Removing categories keeps the ids unique. */
  lemma {:induction false} UniqueIdsFilter(cs: seq<Category>, p: Category -> bool)
    requires UniqueIds(cs)
    ensures UniqueIds(Filter(cs, p))
  {
    if cs != [] {
      var init, x := cs[..|cs| - 1], cs[|cs| - 1];
      assert cs == init + [x];
      UniqueIdsSnoc(init, x);
      UniqueIdsFilter(init, p);
      if p(x) {
        FilterSpec(init, p);
        UniqueIdsSnoc(Filter(init, p), x);
      }
    }
  }

  /** `categories.remove(at: firstIndex(where: id == id))` when there is such an index. */
  function RemoveFirstWithId(cs: seq<Category>, id: Uuid): seq<Category> {
    match FirstIndex(cs, CategoryHasId(id))
    case None => cs
    case Some(i) => cs[..i] + cs[i + 1..]
  }

  /** The categories whose id is not among `ids`. */
  function CategoryIdNotIn(ids: set<Uuid>): Category -> bool {
    (c: Category) => c.id !in ids
  }

  /** With unique ids, removing the first category with an id removes every category with it. */
  lemma RemoveFirstIsFilter(cs: seq<Category>, id: Uuid)
    requires UniqueIds(cs)
    ensures RemoveFirstWithId(cs, id) == Filter(cs, CategoryIdNotIn({id}))
  {
    var keep := CategoryIdNotIn({id});
    match FirstIndex(cs, CategoryHasId(id))
    case None =>
      KeepAllWithoutId(cs, id);
    case Some(i) =>
      var a, x, b := cs[..i], cs[i], cs[i + 1..];
      assert cs == (a + [x]) + b;
      assert !keep(x);
      forall y | y in a
        ensures keep(y)
      {
        var k :| 0 <= k < |a| && a[k] == y;
        assert cs[k] == y;
      }
      forall y | y in b
        ensures keep(y)
      {
        var k :| 0 <= k < |b| && b[k] == y;
        assert cs[i + 1 + k] == y;
      }
      FilterAppend(a + [x], b, keep);
      FilterSnoc(a, x, keep);
      FilterKeepsAll(a, keep);
      FilterKeepsAll(b, keep);
      assert RemoveFirstWithId(cs, id) == a + b;
  }

  lemma KeepAllWithoutId(cs: seq<Category>, id: Uuid)
    requires forall j :: 0 <= j < |cs| ==> !CategoryHasId(id)(cs[j])
    ensures Filter(cs, CategoryIdNotIn({id})) == cs
  {
    forall y | y in cs
      ensures CategoryIdNotIn({id})(y)
    {
      var k :| 0 <= k < |cs| && cs[k] == y;
    }
    FilterKeepsAll(cs, CategoryIdNotIn({id}));
  }

  /** The largest order in `cs`, `nil` when `cs` is empty (`map { $0.order }.max()`). */
  function MaxOrder(cs: seq<Category>): (r: Option<int>)
    ensures r.None? <==> cs == []
    ensures r.Some? ==> (exists c :: c in cs && c.order == r.value) && forall c :: c in cs ==> c.order <= r.value
  {
    if cs == [] then None
    else
      var last := cs[|cs| - 1].order;
      assert cs == cs[..|cs| - 1] + [cs[|cs| - 1]];
      match MaxOrder(cs[..|cs| - 1])
      case None => Some(last)
      case Some(m) => Some(if m < last then last else m)
  }

  /**
   * `nextCategoryOrder(for: kind)`: one more than the largest order of that
   * type, or 0 when there is no category of that type.
   */
  function NextCategoryOrder(cs: seq<Category>, kind: TransactionType): (r: int)
    ensures forall c :: c in cs && c.kind == kind ==> c.order < r
    ensures (forall c :: c in cs ==> c.kind != kind) ==> r == 0
    ensures (exists c :: c in cs && c.kind == kind) ==> exists c :: c in cs && c.kind == kind && c.order == r - 1
  {
    MaxOrder(CategoriesOfType(cs, kind)).GetOr(-1) + 1
  }
}
