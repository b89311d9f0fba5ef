/**
 * The Swift collection operations the finance model is built from --
 * `filter`, `reduce(0) { $0 + ... }`, `firstIndex(where:)` and `sorted(by:)` --
 * together with the facts about them that the rest of the model relies on.
 * `Filter` and `Sum` recurse on the LAST element, as a left-to-right loop
 * that appends or accumulates does.
 */
module Sequences {
  import opened Wrappers

  /** `s.filter(p)`: the elements satisfying `p`, in their original order. */
  function Filter<T>(s: seq<T>, p: T -> bool): (r: seq<T>)
    ensures |r| <= |s|
  {
    if s == [] then []
    else
      var rest := Filter(s[..|s| - 1], p);
      if p(s[|s| - 1]) then rest + [s[|s| - 1]] else rest
  }

  /** The negation of a predicate (the `else` branch of a two-way split). */
  function Not<T>(p: T -> bool): T -> bool {
    x => !p(x)
  }

  /** `r` is `s` with some elements left out and the others kept in their order. */
  ghost predicate IsSubsequence<T>(r: seq<T>, s: seq<T>)
    decreases |s|
  {
    if r == [] then true
    else if s == [] then false
    else
      (r[|r| - 1] == s[|s| - 1] && IsSubsequence(r[..|r| - 1], s[..|s| - 1]))
      || IsSubsequence(r, s[..|s| - 1])
  }

  /** Leaving elements out of a subsequence gives a subsequence. */
  lemma {:induction false} SubsequenceTransitive<T>(r: seq<T>, s: seq<T>, t: seq<T>)
    requires IsSubsequence(r, s) && IsSubsequence(s, t)
    ensures IsSubsequence(r, t)
    decreases |t|
  {
    if r != [] {
      var s', t' := s[..|s| - 1], t[..|t| - 1];
      if s[|s| - 1] == t[|t| - 1] && IsSubsequence(s', t') {
        if r[|r| - 1] == s[|s| - 1] && IsSubsequence(r[..|r| - 1], s') {
          SubsequenceTransitive(r[..|r| - 1], s', t');
        } else {
          SubsequenceTransitive(r, s', t');
        }
      } else {
        SubsequenceTransitive(r, s, t');
      }
    }
  }

  lemma FilterSnoc<T>(s: seq<T>, x: T, p: T -> bool)
    ensures Filter(s + [x], p) == if p(x) then Filter(s, p) + [x] else Filter(s, p)
  {
    assert (s + [x])[..|s|] == s;
  }

  lemma FilterNotSnoc<T>(s: seq<T>, x: T, p: T -> bool)
    ensures Filter(s + [x], Not(p)) == if p(x) then Filter(s, Not(p)) else Filter(s, Not(p)) + [x]
  {
    FilterSnoc(s, x, Not(p));
    assert Not(p)(x) == !p(x);
  }

  /**
   * `filter` keeps exactly the elements satisfying `p`: each of them as often
   * as it occurs in `s`, none of the others, and in their original order.
   */
  lemma {:induction false} FilterSpec<T>(s: seq<T>, p: T -> bool)
    ensures IsSubsequence(Filter(s, p), s)
    ensures forall x :: x in Filter(s, p) <==> x in s && p(x)
    ensures forall x :: multiset(Filter(s, p))[x] == if p(x) then multiset(s)[x] else 0
  {
    if s != [] {
      var init, x := s[..|s| - 1], s[|s| - 1];
      assert s == init + [x];
      FilterSpec(init, p);
      var r := Filter(s, p);
      if p(x) {
        assert r == Filter(init, p) + [x];
        assert r[..|r| - 1] == Filter(init, p);
      } else {
        assert r == Filter(init, p);
      }
    }
  }

  /** The membership half of `FilterSpec`. */
  lemma FilterMembers<T>(s: seq<T>, p: T -> bool)
    ensures forall x :: x in Filter(s, p) <==> x in s && p(x)
  {
    FilterSpec(s, p);
  }

  /** The order half of `FilterSpec`. */
  lemma FilterSubsequence<T>(s: seq<T>, p: T -> bool)
    ensures IsSubsequence(Filter(s, p), s)
  {
    FilterSpec(s, p);
  }

  lemma {:induction false} FilterAppend<T>(a: seq<T>, b: seq<T>, p: T -> bool)
    ensures Filter(a + b, p) == Filter(a, p) + Filter(b, p)
  {
    if b == [] {
      assert a + b == a;
    } else {
      var init, x := b[..|b| - 1], b[|b| - 1];
      assert b == init + [x];
      assert a + b == (a + init) + [x];
      FilterAppend(a, init, p);
      FilterSnoc(a + init, x, p);
      FilterSnoc(init, x, p);
    }
  }

  /** Filtering with a predicate every element satisfies changes nothing. */
  lemma {:induction false} FilterKeepsAll<T>(s: seq<T>, p: T -> bool)
    requires forall x :: x in s ==> p(x)
    ensures Filter(s, p) == s
  {
    if s != [] {
      var init := s[..|s| - 1];
      assert forall x :: x in init ==> x in s;
      FilterKeepsAll(init, p);
      assert s == init + [s[|s| - 1]];
    }
  }

  /** Filtering with a predicate no element satisfies leaves nothing. */
  lemma {:induction false} FilterKeepsNone<T>(s: seq<T>, p: T -> bool)
    requires forall x :: x in s ==> !p(x)
    ensures Filter(s, p) == []
  {
    if s != [] {
      var init := s[..|s| - 1];
      assert forall x :: x in init ==> x in s;
      FilterKeepsNone(init, p);
      assert s[|s| - 1] in s;
    }
  }

  /** When no element satisfies `p`, the filtered sum is zero. */
  lemma SumOfFilterNone<T>(s: seq<T>, p: T -> bool, f: T -> real)
    ensures (forall x :: x in s ==> !p(x)) ==> Sum(Filter(s, p), f) == 0.0
  {
    if forall x :: x in s ==> !p(x) {
      FilterKeepsNone(s, p);
    }
  }

  /** Two predicates that agree on the elements of `s` filter it alike. */
  lemma {:induction false} FilterCongruent<T>(s: seq<T>, p: T -> bool, q: T -> bool)
    requires forall x :: x in s ==> p(x) == q(x)
    ensures Filter(s, p) == Filter(s, q)
  {
    if s != [] {
      var init := s[..|s| - 1];
      assert forall x :: x in init ==> x in s;
      FilterCongruent(init, p, q);
    }
  }

  /** Two successive filters are one filter by the conjunction. */
  lemma {:induction false} FilterCompose<T>(s: seq<T>, p: T -> bool, q: T -> bool, both: T -> bool)
    requires forall x :: x in s ==> both(x) == (p(x) && q(x))
    ensures Filter(Filter(s, p), q) == Filter(s, both)
  {
    if s != [] {
      var init, x := s[..|s| - 1], s[|s| - 1];
      assert forall y :: y in init ==> y in s;
      FilterCompose(init, p, q, both);
      if p(x) {
        FilterSnoc(Filter(init, p), x, q);
      }
    }
  }

  /** `reduce(0) { $0 + f($1) }`: the sum of `f` over `s`, added left to right. */
  function Sum<T>(s: seq<T>, f: T -> real): real {
    if s == [] then 0.0 else Sum(s[..|s| - 1], f) + f(s[|s| - 1])
  }

  lemma SumSnoc<T>(s: seq<T>, x: T, f: T -> real)
    ensures Sum(s + [x], f) == Sum(s, f) + f(x)
  {
    assert (s + [x])[..|s|] == s;
  }

  lemma {:induction false} SumAppend<T>(a: seq<T>, b: seq<T>, f: T -> real)
    ensures Sum(a + b, f) == Sum(a, f) + Sum(b, f)
  {
    if b == [] {
      assert a + b == a;
    } else {
      var init, x := b[..|b| - 1], b[|b| - 1];
      assert b == init + [x];
      assert a + b == (a + init) + [x];
      SumAppend(a, init, f);
      SumSnoc(a + init, x, f);
      SumSnoc(init, x, f);
    }
  }

  lemma SumMiddle<T>(a: seq<T>, x: T, b: seq<T>, f: T -> real)
    ensures Sum(a + [x] + b, f) == Sum(a + b, f) + f(x)
  {
    SumAppend(a + [x], b, f);
    SumSnoc(a, x, f);
    SumAppend(a, b, f);
  }

  lemma MultisetMiddle<T>(a: seq<T>, x: T, b: seq<T>)
    ensures multiset(a + b) == multiset(a + [x] + b) - multiset{x}
  {
    assert a + [x] + b == a + ([x] + b);
  }

  /** Taking the last element of `a` out of `a` and out of its permutation `b` leaves permutations. */
  lemma MultisetRemoveLast<T>(a: seq<T>, b: seq<T>, i: nat)
    requires multiset(a) == multiset(b)
    requires a != [] && i < |b| && b[i] == a[|a| - 1]
    ensures multiset(a[..|a| - 1]) == multiset(b[..i] + b[i + 1..])
  {
    assert a == a[..|a| - 1] + [a[|a| - 1]];
    assert b == b[..i] + [b[i]] + b[i + 1..];
    MultisetMiddle(b[..i], b[i], b[i + 1..]);
  }

  /** A sum does not depend on the order of its terms. */
  lemma {:induction false} SumPermutation<T>(a: seq<T>, b: seq<T>, f: T -> real)
    requires multiset(a) == multiset(b)
    ensures Sum(a, f) == Sum(b, f)
  {
    if a != [] {
      var init, x := a[..|a| - 1], a[|a| - 1];
      assert a == init + [x];
      assert multiset(init) == multiset(a) - multiset{x};
      assert x in multiset(b);
      var i :| 0 <= i < |b| && b[i] == x;
      var pre, post := b[..i], b[i + 1..];
      assert b == pre + [x] + post;
      MultisetMiddle(pre, x, post);
      SumPermutation(init, pre + post, f);
      SumMiddle(pre, x, post, f);
      SumSnoc(init, x, f);
    }
  }

  /** Replacing one term changes the sum by the difference. */
  lemma SumUpdate<T>(s: seq<T>, i: int, x: T, f: T -> real)
    requires 0 <= i < |s|
    ensures Sum(s[i := x], f) == Sum(s, f) - f(s[i]) + f(x)
  {
    var a, b := s[..i], s[i + 1..];
    assert s == (a + [s[i]]) + b;
    assert s[i := x] == (a + [x]) + b;
    SumAppend(a + [s[i]], b, f);
    SumAppend(a + [x], b, f);
    SumSnoc(a, s[i], f);
    SumSnoc(a, x, f);
  }

  lemma {:induction false} SumNonNegative<T>(s: seq<T>, f: T -> real)
    requires forall x :: x in s ==> f(x) >= 0.0
    ensures Sum(s, f) >= 0.0
  {
    if s != [] {
      var init := s[..|s| - 1];
      assert forall x :: x in init ==> x in s;
      SumNonNegative(init, f);
    }
  }

  lemma {:induction false} SumNonPositive<T>(s: seq<T>, f: T -> real)
    requires forall x :: x in s ==> f(x) <= 0.0
    ensures Sum(s, f) <= 0.0
  {
    if s != [] {
      var init := s[..|s| - 1];
      assert forall x :: x in init ==> x in s;
      SumNonPositive(init, f);
    }
  }

  /** Splitting a sequence by a predicate and its negation splits its sum. */
  lemma {:induction false} SumSplit<T>(s: seq<T>, p: T -> bool, f: T -> real)
    ensures Sum(Filter(s, p), f) + Sum(Filter(s, Not(p)), f) == Sum(s, f)
  {
    if s != [] {
      var init, x := s[..|s| - 1], s[|s| - 1];
      SumSplit(init, p, f);
      if p(x) {
        SumSnoc(Filter(init, p), x, f);
      } else {
        SumSnoc(Filter(init, Not(p)), x, f);
      }
    }
  }

  /** `firstIndex(where: p)`: the position of the first element satisfying `p`. */
  function FirstIndex<T>(s: seq<T>, p: T -> bool): (r: Option<nat>)
    ensures r.Some? ==> r.value < |s| && p(s[r.value]) && forall j :: 0 <= j < r.value ==> !p(s[j])
    ensures r.None? <==> forall j :: 0 <= j < |s| ==> !p(s[j])
  {
    if s == [] then None
    else if p(s[0]) then Some(0)
    else
      match FirstIndex(s[1..], p)
      case None => None
      case Some(i) => Some(i + 1)
  }

  /**
   * `if let i = s.firstIndex(where: p) { s[i] = x }`: the first element
   * satisfying `p` is replaced by `x`; every other position is unchanged.
   */
  function ReplaceFirst<T>(s: seq<T>, p: T -> bool, x: T): (r: seq<T>)
    ensures |r| == |s|
    ensures forall j :: 0 <= j < |s| ==>
      r[j] == if p(s[j]) && (forall k :: 0 <= k < j ==> !p(s[k])) then x else s[j]
  {
    match FirstIndex(s, p)
    case None => s
    case Some(i) => s[i := x]
  }

  /** Nothing matches: nothing changes. */
  lemma ReplaceFirstNoMatch<T>(s: seq<T>, p: T -> bool, x: T)
    requires forall y :: y in s ==> !p(y)
    ensures ReplaceFirst(s, p, x) == s
  {
    assert forall j :: 0 <= j < |s| ==> s[j] in s;
  }

  /** `key` never decreases along `s`. */
  ghost predicate SortedBy<T>(s: seq<T>, key: T -> real) {
    forall i, j :: 0 <= i < j < |s| ==> key(s[i]) <= key(s[j])
  }

  /** Inserts `x` after every element whose key is not greater than its own. */
  function Insert<T>(s: seq<T>, x: T, key: T -> real): seq<T> {
    if s == [] then [x]
    else if key(x) < key(s[0]) then [x] + s
    else [s[0]] + Insert(s[1..], x, key)
  }

  /** `sorted(by:)` on a numeric key, as a stable insertion sort. */
  function SortBy<T>(s: seq<T>, key: T -> real): seq<T> {
    if s == [] then [] else Insert(SortBy(s[..|s| - 1], key), s[|s| - 1], key)
  }

  /** A sorted sequence stays sorted under a new head no greater than any of its keys. */
  lemma SortedCons<T>(y: T, t: seq<T>, key: T -> real)
    requires SortedBy(t, key)
    requires forall j :: 0 <= j < |t| ==> key(y) <= key(t[j])
    ensures SortedBy([y] + t, key)
  {
    var r := [y] + t;
    forall i, j | 0 <= i < j < |r|
      ensures key(r[i]) <= key(r[j])
    {
      assert r[j] == t[j - 1];
      if i > 0 {
        assert r[i] == t[i - 1];
      }
    }
  }

  /** Inserting keeps a lower bound that holds for `x` and for every element. */
  lemma {:induction false} InsertBound<T>(s: seq<T>, x: T, key: T -> real, b: real)
    requires b <= key(x)
    requires forall j :: 0 <= j < |s| ==> b <= key(s[j])
    ensures forall j :: 0 <= j < |Insert(s, x, key)| ==> b <= key(Insert(s, x, key)[j])
  {
    if s != [] && key(s[0]) <= key(x) {
      var t := Insert(s[1..], x, key);
      InsertBound(s[1..], x, key, b);
      assert Insert(s, x, key) == [s[0]] + t;
    }
  }

  lemma {:induction false} InsertSorted<T>(s: seq<T>, x: T, key: T -> real)
    requires SortedBy(s, key)
    ensures SortedBy(Insert(s, x, key), key)
  {
    if s == [] {
    } else if key(x) < key(s[0]) {
      SortedCons(x, s, key);
    } else {
      var tail := s[1..];
      InsertSorted(tail, x, key);
      InsertBound(tail, x, key, key(s[0]));
      SortedCons(s[0], Insert(tail, x, key), key);
    }
  }

  lemma {:induction false} InsertMultiset<T>(s: seq<T>, x: T, key: T -> real)
    ensures multiset(Insert(s, x, key)) == multiset(s) + multiset{x}
  {
    if s != [] && key(s[0]) <= key(x) {
      assert s == [s[0]] + s[1..];
      InsertMultiset(s[1..], x, key);
    }
  }

  /** Inserting into a sorted sequence keeps it sorted and adds exactly `x`. */
  lemma InsertSpec<T>(s: seq<T>, x: T, key: T -> real)
    requires SortedBy(s, key)
    ensures SortedBy(Insert(s, x, key), key)
    ensures multiset(Insert(s, x, key)) == multiset(s) + multiset{x}
  {
    InsertSorted(s, x, key);
    InsertMultiset(s, x, key);
  }

  /** The sort returns a permutation of its input in non-decreasing key order. */
  lemma {:induction false} SortBySpec<T>(s: seq<T>, key: T -> real)
    ensures SortedBy(SortBy(s, key), key)
    ensures multiset(SortBy(s, key)) == multiset(s)
    ensures |SortBy(s, key)| == |s|
  {
    if s != [] {
      var init, x := s[..|s| - 1], s[|s| - 1];
      assert s == init + [x];
      SortBySpec(init, key);
      InsertSpec(SortBy(init, key), x, key);
      assert |SortBy(s, key)| == |multiset(SortBy(s, key))|;
    }
  }
}
