/**
 * ViewModels/SettingsViewModel.swift: the category list edited from the
 * settings screens, and the `hasPIN` flag.  The other settings (currency,
 * language, reminders, biometrics, sync) are not modelled.
 */
module SettingsStore {
  import opened Wrappers
  import opened Sequences
  import opened Entities
  import opened SafeSubscript
  import opened CategoryList

  // ---------------------------------------------------------------------
  // deleteCategories(at:type:)
  // ---------------------------------------------------------------------

  /**
   * One step of `deleteCategories`: the category at `index` of the
   * per-type list captured beforehand, if there is one, is removed by id
   * from the current list.
   */
  function DeleteOne(cs: seq<Category>, filtered: seq<Category>, index: int): seq<Category> {
    match SafeGet(filtered, index)
    case None => cs
    case Some(c) => RemoveFirstWithId(cs, c.id)
  }

  /** The steps of `deleteCategories` for the indices in the order the index set yields them. */
  function DeleteAtIndices(cs: seq<Category>, filtered: seq<Category>, indices: seq<int>): seq<Category> {
    if indices == [] then cs
    else DeleteOne(DeleteAtIndices(cs, filtered, indices[..|indices| - 1]), filtered, indices[|indices| - 1])
  }

  /** The ids of the entries of `filtered` that the indices designate; the other indices are ignored. */
  function TargetIds(filtered: seq<Category>, indices: seq<int>): set<Uuid> {
    set i | i in indices && 0 <= i < |filtered| :: filtered[i].id
  }

  lemma TargetIdsSnoc(filtered: seq<Category>, indices: seq<int>, i: int)
    ensures TargetIds(filtered, indices + [i])
         == TargetIds(filtered, indices) + (if 0 <= i < |filtered| then {filtered[i].id} else {})
  {
    var extra := if 0 <= i < |filtered| then {filtered[i].id} else {};
    forall id | id in TargetIds(filtered, indices + [i])
      ensures id in TargetIds(filtered, indices) + extra
    {
      var j :| j in indices + [i] && 0 <= j < |filtered| && filtered[j].id == id;
      if j != i {
        assert j in indices;
      }
    }
  }

  /**
   * With unique ids, `deleteCategories` removes exactly the categories
   * designated by the in-range indices and keeps the others in order.
   */
  lemma {:induction false} DeleteAtIndicesIsFilter(cs: seq<Category>, filtered: seq<Category>, indices: seq<int>)
    requires UniqueIds(cs)
    ensures DeleteAtIndices(cs, filtered, indices) == Filter(cs, CategoryIdNotIn(TargetIds(filtered, indices)))
  {
    if indices == [] {
      assert TargetIds(filtered, indices) == {};
      FilterKeepsAll(cs, CategoryIdNotIn({}));
    } else {
      var init, i := indices[..|indices| - 1], indices[|indices| - 1];
      assert indices == init + [i];
      DeleteAtIndicesIsFilter(cs, filtered, init);
      TargetIdsSnoc(filtered, init, i);
      var before := TargetIds(filtered, init);
      var mid := Filter(cs, CategoryIdNotIn(before));
      assert DeleteAtIndices(cs, filtered, indices) == DeleteOne(mid, filtered, i);
      if 0 <= i < |filtered| {
        var id := filtered[i].id;
        assert DeleteOne(mid, filtered, i) == RemoveFirstWithId(mid, id);
        UniqueIdsFilter(cs, CategoryIdNotIn(before));
        RemoveFirstIsFilter(mid, id);
        FilterCompose(cs, CategoryIdNotIn(before), CategoryIdNotIn({id}), CategoryIdNotIn(before + {id}));
        assert TargetIds(filtered, indices) == before + {id};
      } else {
        assert TargetIds(filtered, indices) == before;
      }
    }
  }

  /**
   * `deleteCategories` on the per-type list of `kind` leaves the
   * categories of the other type, and their order, untouched.
   */
  lemma DeleteCategoriesKeepsOtherType(cs: seq<Category>, kind: TransactionType, other: TransactionType, indices: seq<int>)
    requires UniqueIds(cs)
    requires other != kind
    ensures Filter(DeleteAtIndices(cs, Filter(cs, CategoryOfType(kind)), indices), CategoryOfType(other))
         == Filter(cs, CategoryOfType(other))
  {
    var filtered := Filter(cs, CategoryOfType(kind));
    var ids := TargetIds(filtered, indices);
    DeleteAtIndicesIsFilter(cs, filtered, indices);
    forall x | x in cs
      ensures CategoryOfType(other)(x) == (CategoryIdNotIn(ids)(x) && CategoryOfType(other)(x))
    {
      if x.kind == other && x.id in ids {
        // the designated category has the type `kind`, and shares its id with `x`
        var i :| i in indices && 0 <= i < |filtered| && filtered[i].id == x.id;
        FilteredEntry(cs, kind, i);
        SameIdSameCategory(cs, x, filtered[i]);
        assert false;
      }
    }
    FilterCompose(cs, CategoryIdNotIn(ids), CategoryOfType(other), CategoryOfType(other));
  }

  /** An entry of the per-type list is a category of that type. */
  lemma FilteredEntry(cs: seq<Category>, kind: TransactionType, i: int)
    requires 0 <= i < |Filter(cs, CategoryOfType(kind))|
    ensures Filter(cs, CategoryOfType(kind))[i] in cs && Filter(cs, CategoryOfType(kind))[i].kind == kind
  {
    FilterSpec(cs, CategoryOfType(kind));
    assert Filter(cs, CategoryOfType(kind))[i] in Filter(cs, CategoryOfType(kind));
  }

  /** With unique ids, two categories of the list with the same id are the same. */
  lemma SameIdSameCategory(cs: seq<Category>, x: Category, y: Category)
    requires UniqueIds(cs) && x in cs && y in cs && x.id == y.id
    ensures x == y
  {
    var a :| 0 <= a < |cs| && cs[a] == x;
    var b :| 0 <= b < |cs| && cs[b] == y;
    assert !(a < b) && !(b < a);
  }

  // ---------------------------------------------------------------------
  // moveCategory(from:to:type:)
  // ---------------------------------------------------------------------

  /**
   * The loop of `moveCategory`: the category at position `k` of the moved
   * per-type list is written back, by id, with order `k`.
   */
  function ApplyOrders(cs: seq<Category>, moved: seq<Category>): seq<Category> {
    if moved == [] then cs
    else
      var k := |moved| - 1;
      ReplaceFirst(ApplyOrders(cs, moved[..k]), CategoryHasId(moved[k].id), moved[k].(order := k))
  }

  lemma ApplyOrdersSnoc(cs: seq<Category>, moved: seq<Category>, k: nat)
    requires k < |moved|
    ensures ApplyOrders(cs, moved[..k + 1])
         == ReplaceFirst(ApplyOrders(cs, moved[..k]), CategoryHasId(moved[k].id), moved[k].(order := k))
  {
    assert moved[..k + 1][..k] == moved[..k];
  }

  /**
   * `a` is `cs` where each category found at position `k` of `moved` has
   * order `k`, and every other category is unchanged.
   */
  ghost predicate OrdersApplied(cs: seq<Category>, moved: seq<Category>, a: seq<Category>) {
    |a| == |cs| &&
    (forall j, k :: 0 <= j < |cs| && 0 <= k < |moved| && cs[j].id == moved[k].id ==> a[j] == cs[j].(order := k)) &&
    (forall j :: 0 <= j < |cs| && (forall k :: 0 <= k < |moved| ==> moved[k].id != cs[j].id) ==> a[j] == cs[j])
  }

  /** Replacing by id, where exactly one position has the id, replaces that position. */
  lemma ReplaceAtUniqueId(a: seq<Category>, c: Category, j0: int)
    requires 0 <= j0 < |a| && a[j0].id == c.id
    requires forall j :: 0 <= j < |a| && j != j0 ==> a[j].id != c.id
    ensures ReplaceFirst(a, CategoryHasId(c.id), c) == a[j0 := c]
  {
  }

  /** `OrdersApplied` only changes orders: every position keeps its id. */
  lemma OrdersAppliedKeepsIds(cs: seq<Category>, moved: seq<Category>, a: seq<Category>)
    requires OrdersApplied(cs, moved, a)
    ensures forall j :: 0 <= j < |cs| ==> a[j].id == cs[j].id
  {
    forall j | 0 <= j < |cs|
      ensures a[j].id == cs[j].id
    {
      if k :| 0 <= k < |moved| && cs[j].id == moved[k].id {
        assert a[j] == cs[j].(order := k);
      }
    }
  }

  /** One more moved category, found at the single position `j0`, is written with its order. */
  lemma OrdersAppliedStep(cs: seq<Category>, moved: seq<Category>, a: seq<Category>, j0: int)
    requires |moved| > 0
    requires OrdersApplied(cs, moved[..|moved| - 1], a)
    requires 0 <= j0 < |cs| && cs[j0] == moved[|moved| - 1]
    requires forall j :: 0 <= j < |cs| && j != j0 ==> cs[j].id != moved[|moved| - 1].id
    requires forall k :: 0 <= k < |moved| - 1 ==> moved[k].id != moved[|moved| - 1].id
    ensures OrdersApplied(cs, moved, a[j0 := moved[|moved| - 1].(order := |moved| - 1)])
  {
    var n := |moved| - 1;
    var prefix := moved[..n];
    var r := a[j0 := moved[n].(order := n)];
    forall j, k | 0 <= j < |cs| && 0 <= k < |moved| && cs[j].id == moved[k].id
      ensures r[j] == cs[j].(order := k)
    {
      if k < n {
        assert prefix[k] == moved[k];
        assert j != j0;
      } else {
        assert j == j0;
      }
    }
    forall j | 0 <= j < |cs| && (forall k :: 0 <= k < |moved| ==> moved[k].id != cs[j].id)
      ensures r[j] == cs[j]
    {
      forall k | 0 <= k < n
        ensures prefix[k].id != cs[j].id
      {
        assert prefix[k] == moved[k];
      }
      assert moved[n].id != cs[j].id;
    }
  }

  lemma {:induction false} ApplyOrdersSpec(cs: seq<Category>, moved: seq<Category>)
    requires UniqueIds(cs) && UniqueIds(moved)
    requires forall k :: 0 <= k < |moved| ==> moved[k] in cs
    ensures OrdersApplied(cs, moved, ApplyOrders(cs, moved))
  {
    if moved != [] {
      var n := |moved| - 1;
      var prefix, m := moved[..n], moved[n];
      assert UniqueIds(prefix) && forall k :: 0 <= k < |prefix| ==> prefix[k] in cs by {
        assert forall k :: 0 <= k < n ==> prefix[k] == moved[k];
      }
      ApplyOrdersSpec(cs, prefix);
      var a := ApplyOrders(cs, prefix);
      OrdersAppliedKeepsIds(cs, prefix, a);
      var j0 :| 0 <= j0 < |cs| && cs[j0] == m;
      assert forall j :: 0 <= j < |cs| && j != j0 ==> cs[j].id != m.id;
      ReplaceAtUniqueId(a, m.(order := n), j0);
      OrdersAppliedStep(cs, moved, a, j0);
    }
  }

  /** After the orders are applied, each position differs from its old category in `order` at most. */
  lemma OnlyOrdersChange(cs: seq<Category>, moved: seq<Category>, r: seq<Category>)
    requires OrdersApplied(cs, moved, r)
    ensures forall j :: 0 <= j < |cs| ==> r[j] == cs[j].(order := r[j].order)
  {
    forall j | 0 <= j < |cs|
      ensures r[j] == cs[j].(order := r[j].order)
    {
      if k :| 0 <= k < |moved| && moved[k].id == cs[j].id {
        assert r[j] == cs[j].(order := k);
      }
    }
  }

  /** After the orders are applied, the category at position `k` of `moved` carries order `k`. */
  lemma MovedCarryTheirPositions(cs: seq<Category>, moved: seq<Category>, r: seq<Category>)
    requires OrdersApplied(cs, moved, r)
    requires forall k :: 0 <= k < |moved| ==> moved[k] in cs
    ensures forall k :: 0 <= k < |moved| ==> moved[k].(order := k) in r
  {
    forall k | 0 <= k < |moved|
      ensures moved[k].(order := k) in r
    {
      var j :| 0 <= j < |cs| && cs[j] == moved[k];
      assert r[j] == cs[j].(order := k);
    }
  }

  /** Categories of another type than the moved ones keep their order. */
  lemma OtherTypeUntouched(cs: seq<Category>, kind: TransactionType, moved: seq<Category>, r: seq<Category>)
    requires OrdersApplied(cs, moved, r)
    requires UniqueIds(cs)
    requires forall k :: 0 <= k < |moved| ==> moved[k] in cs && moved[k].kind == kind
    ensures forall j :: 0 <= j < |cs| && cs[j].kind != kind ==> r[j] == cs[j]
  {
    forall j | 0 <= j < |cs| && cs[j].kind != kind
      ensures r[j] == cs[j]
    {
      forall k | 0 <= k < |moved|
        ensures moved[k].id != cs[j].id
      {
        var i :| 0 <= i < |cs| && cs[i] == moved[k];
      }
    }
  }

  /**
   * When `moved` is an arrangement of the categories of `kind`, after
   * `moveCategory` they carry the orders 0, 1, ... in the arranged order,
   * the categories of the other type are unchanged, and no position and
   * no field other than `order` changes.
   */
  lemma MoveCategoryEffect(cs: seq<Category>, kind: TransactionType, moved: seq<Category>)
    requires UniqueIds(cs) && UniqueIds(moved)
    requires forall c :: c in moved <==> c in cs && c.kind == kind
    ensures |ApplyOrders(cs, moved)| == |cs|
    ensures forall j :: 0 <= j < |cs| ==> ApplyOrders(cs, moved)[j] == cs[j].(order := ApplyOrders(cs, moved)[j].order)
    ensures forall k :: 0 <= k < |moved| ==> moved[k].(order := k) in ApplyOrders(cs, moved)
    ensures forall j :: 0 <= j < |cs| && cs[j].kind != kind ==> ApplyOrders(cs, moved)[j] == cs[j]
  {
    assert forall k :: 0 <= k < |moved| ==> moved[k] in cs && moved[k].kind == kind by {
      forall k | 0 <= k < |moved|
        ensures moved[k] in cs && moved[k].kind == kind
      {
        assert moved[k] in moved;
      }
    }
    ApplyOrdersSpec(cs, moved);
    var r := ApplyOrders(cs, moved);
    OnlyOrdersChange(cs, moved, r);
    MovedCarryTheirPositions(cs, moved, r);
    OtherTypeUntouched(cs, kind, moved, r);
  }

  // ---------------------------------------------------------------------
  // The view model
  // ---------------------------------------------------------------------

  class SettingsViewModel {
    var categories: seq<Category>
    var hasPIN: bool

    /** `init()`: the default categories, and no PIN. */
    constructor()
      ensures categories == DefaultCategories && !hasPIN
    {
      categories := DefaultCategories;
      hasPIN := false;
    }

    /** `updatePIN(_:)`: the PIN itself is not stored. */
    method UpdatePin(pin: string)
      modifies this
      ensures hasPIN && categories == old(categories)
    {
      hasPIN := true;
    }

    /** `removePIN()` */
    method RemovePin()
      modifies this
      ensures !hasPIN && categories == old(categories)
    {
      hasPIN := false;
    }

    /**
     * `deleteCategories(at:type:)`: `indices` are the index set's elements
     * in ascending order; each designates an entry of the per-type list
     * taken before any removal, and out-of-range indices are ignored.
     */
    method DeleteCategories(indices: seq<int>, kind: TransactionType)
      modifies this
      ensures categories == DeleteAtIndices(old(categories), Filter(old(categories), CategoryOfType(kind)), indices)
      ensures UniqueIds(old(categories)) ==>
        categories == Filter(old(categories), CategoryIdNotIn(TargetIds(Filter(old(categories), CategoryOfType(kind)), indices)))
      ensures hasPIN == old(hasPIN)
    {
      var filtered := Filter(categories, CategoryOfType(kind));
      var n := 0;
      while n < |indices|
        invariant 0 <= n <= |indices|
        invariant categories == DeleteAtIndices(old(categories), filtered, indices[..n])
        invariant hasPIN == old(hasPIN)
      {
        assert indices[..n + 1][..n] == indices[..n];
        var categoryToDelete := SafeGet(filtered, indices[n]);
        if categoryToDelete.Some? {
          var actualIndex := FirstIndex(categories, CategoryHasId(categoryToDelete.value.id));
          if actualIndex.Some? {
            categories := categories[..actualIndex.value] + categories[actualIndex.value + 1..];
          }
        }
        n := n + 1;
      }
      assert indices[..n] == indices;
      if UniqueIds(old(categories)) {
        DeleteAtIndicesIsFilter(old(categories), filtered, indices);
      }
    }

    /** `addCategory(_:)` */
    method AddCategory(c: Category)
      modifies this
      ensures categories == old(categories) + [c]
      ensures hasPIN == old(hasPIN)
    {
      categories := categories + [c];
    }

    /** `updateCategory(_:)`: the first category with that id is replaced; none, nothing changes. */
    method UpdateCategory(c: Category)
      modifies this
      ensures categories == ReplaceFirst(old(categories), CategoryHasId(c.id), c)
      ensures hasPIN == old(hasPIN)
    {
      match FirstIndex(categories, CategoryHasId(c.id))
      case Some(index) =>
        categories := categories[index := c];
      case None =>
    }

    /**
     * `moveCategory(from:to:type:)`: `moved` is the per-type list after
     * `move(fromOffsets:toOffset:)`; each of its entries is written back
     * with its new position as order.
     */
    method MoveCategory(moved: seq<Category>)
      modifies this
      ensures categories == ApplyOrders(old(categories), moved)
      ensures hasPIN == old(hasPIN)
    {
      var k := 0;
      while k < |moved|
        invariant 0 <= k <= |moved|
        invariant categories == ApplyOrders(old(categories), moved[..k])
        invariant hasPIN == old(hasPIN)
      {
        ApplyOrdersSnoc(old(categories), moved, k);
        UpdateCategory(moved[k].(order := k));
        k := k + 1;
      }
      assert moved[..k] == moved;
    }

    /** `resetToDefaultCategories()` */
    method ResetToDefaultCategories()
      modifies this
      ensures categories == DefaultCategories && hasPIN == old(hasPIN)
    {
      categories := DefaultCategories;
    }
  }

  /** `validatePIN(_:)`, which accepts every PIN. */
  function ValidatePin(pin: string): (ok: bool)
    ensures ok
  {
    true
  }
}
