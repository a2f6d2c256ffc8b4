/** Generic list operations behind the components' `filter`, `map`, `reduce` and `sort` calls. */
module Seqs {
  import opened Common

  /** `s.map(f)`. */
  function Map<T, U>(s: seq<T>, f: T -> U): (r: seq<U>)
    ensures |r| == |s|
    ensures forall i :: 0 <= i < |s| ==> r[i] == f(s[i])
  {
    seq(|s|, i requires 0 <= i < |s| => f(s[i]))
  }

  /** `s.filter(p)`: the elements satisfying `p`, in their original order. */
  function Filter<T>(s: seq<T>, p: T -> bool): (r: seq<T>)
    ensures |r| <= |s|
    ensures forall i :: 0 <= i < |r| ==> r[i] in s && p(r[i])
    ensures forall i :: 0 <= i < |s| && p(s[i]) ==> s[i] in r
  {
    if s == [] then []
    else if p(s[0]) then [s[0]] + Filter(s[1..], p)
    else Filter(s[1..], p)
  }

  lemma {:induction false} FilterAppend<T>(a: seq<T>, b: seq<T>, p: T -> bool)
    ensures Filter(a + b, p) == Filter(a, p) + Filter(b, p)
  {
    if a == [] {
      assert a + b == b;
    } else {
      assert (a + b)[1..] == a[1..] + b;
      FilterAppend(a[1..], b, p);
    }
  }

  lemma FilterMember<T>(s: seq<T>, p: T -> bool, x: T)
    ensures x in Filter(s, p) <==> x in s && p(x)
  {
    if x in s && p(x) {
      var i :| 0 <= i < |s| && s[i] == x;
    }
  }

  /** Filtering one more element at the end: what a loop over the input does. */
  lemma FilterSnoc<T>(s: seq<T>, x: T, p: T -> bool)
    ensures Filter(s + [x], p) == Filter(s, p) + (if p(x) then [x] else [])
  {
    FilterAppend(s, [x], p);
  }

  /** Filtering keeps every copy of an accepted element and no copy of a rejected one. */
  lemma {:induction false} FilterMultiplicity<T>(s: seq<T>, p: T -> bool, x: T)
    ensures multiset(Filter(s, p))[x] == if p(x) then multiset(s)[x] else 0
  {
    if s != [] {
      FilterMultiplicity(s[1..], p, x);
      assert s == [s[0]] + s[1..];
      assert multiset(s) == multiset{s[0]} + multiset(s[1..]);
      if p(s[0]) {
        assert multiset(Filter(s, p)) == multiset{s[0]} + multiset(Filter(s[1..], p));
      }
    }
  }

  /** Two filters in a row keep exactly what both predicates accept. */
  lemma {:induction false} FilterFilter<T>(s: seq<T>, p: T -> bool, q: T -> bool)
    ensures Filter(Filter(s, p), q) == Filter(s, x => p(x) && q(x))
  {
    if s != [] {
      FilterFilter(s[1..], p, q);
    }
  }

  /** Two filters in a row are one filter by a predicate that is their conjunction. */
  lemma FilterFilterInto<T>(s: seq<T>, p: T -> bool, q: T -> bool, r: T -> bool)
    requires forall i :: 0 <= i < |s| ==> r(s[i]) == (p(s[i]) && q(s[i]))
    ensures Filter(Filter(s, p), q) == Filter(s, r)
  {
    FilterFilter(s, p, q);
    FilterCongruent(s, x => p(x) && q(x), r);
  }

  /** A filter with a predicate that accepts everything changes nothing. */
  lemma {:induction false} FilterAll<T>(s: seq<T>, p: T -> bool)
    requires forall i :: 0 <= i < |s| ==> p(s[i])
    ensures Filter(s, p) == s
  {
    if s != [] {
      FilterAll(s[1..], p);
    }
  }

  /** Filters with predicates that agree on the elements of `s` agree. */
  lemma {:induction false} FilterCongruent<T>(s: seq<T>, p: T -> bool, q: T -> bool)
    requires forall i :: 0 <= i < |s| ==> p(s[i]) == q(s[i])
    ensures Filter(s, p) == Filter(s, q)
  {
    if s != [] {
      FilterCongruent(s[1..], p, q);
    }
  }

  /** `a` can be obtained from `b` by deleting elements (order is kept). */
  predicate IsSubsequence<T(==)>(a: seq<T>, b: seq<T>)
  {
    if a == [] then true
    else if b == [] then false
    else if a[0] == b[0] then IsSubsequence(a[1..], b[1..])
    else IsSubsequence(a, b[1..])
  }

  lemma {:induction false} FilterIsSubsequence<T>(s: seq<T>, p: T -> bool)
    ensures IsSubsequence(Filter(s, p), s)
  {
    if s != [] {
      FilterIsSubsequence(s[1..], p);
      var r := Filter(s[1..], p);
      if !p(s[0]) && r != [] {
        assert r[0] in r;
      }
    }
  }

  /** No element occurs twice. */
  predicate NoDup<T(==)>(s: seq<T>)
  {
    forall i, j :: 0 <= i < j < |s| ==> s[i] != s[j]
  }

  lemma NoDupFilter<T>(s: seq<T>, p: T -> bool)
    requires NoDup(s)
    ensures NoDup(Filter(s, p))
  {
    if s != [] {
      assert NoDup(s[1..]);
      NoDupFilter(s[1..], p);
    }
  }

  /** `s.filter(y => y !== x)`. */
  function Remove<T(==)>(s: seq<T>, x: T): (r: seq<T>)
    ensures x !in r
    ensures forall i :: 0 <= i < |r| ==> r[i] in s
    ensures forall i :: 0 <= i < |s| && s[i] != x ==> s[i] in r
  {
    Filter(s, y => y != x)
  }

  /** Removing keeps the remaining elements in their order and keeps a duplicate-free list so. */
  lemma RemoveSubsequence<T>(s: seq<T>, x: T)
    ensures IsSubsequence(Remove(s, x), s)
    ensures NoDup(s) ==> NoDup(Remove(s, x))
  {
    FilterIsSubsequence(s, y => y != x);
    if NoDup(s) {
      NoDupFilter(s, y => y != x);
    }
  }

  lemma RemoveAbsent<T>(s: seq<T>, x: T)
    requires x !in s
    ensures Remove(s, x) == s
  {
    FilterAll(s, y => y != x);
  }

  /** Appending an element that is not yet present and then removing it restores the list. */
  lemma RemoveAppended<T>(s: seq<T>, x: T)
    requires x !in s
    ensures Remove(s + [x], x) == s
  {
    FilterSnoc(s, x, y => y != x);
    RemoveAbsent(s, x);
  }

  /** Appending an absent element keeps a duplicate-free list duplicate-free. */
  lemma NoDupSnoc<T>(s: seq<T>, x: T)
    requires NoDup(s) && x !in s
    ensures NoDup(s + [x])
  {
    var t := s + [x];
    forall i, j | 0 <= i < j < |t|
      ensures t[i] != t[j]
    {
      if j == |s| {
        assert t[i] == s[i];
      }
    }
  }

  /** Removes the element when it is present and appends it otherwise. */
  function Toggle<T(==)>(s: seq<T>, x: T): (r: seq<T>)
    ensures x in r <==> x !in s
    ensures forall i :: 0 <= i < |r| && r[i] != x ==> r[i] in s
    ensures forall i :: 0 <= i < |s| && s[i] != x ==> s[i] in r
  {
    if x in s then Remove(s, x) else s + [x]
  }

  /** Toggling leaves the other elements, in their order, exactly as they were. */
  lemma ToggleKeepsOthers<T>(s: seq<T>, x: T)
    ensures Remove(Toggle(s, x), x) == Remove(s, x)
  {
    if x in s {
      FilterFilterInto(s, y => y != x, y => y != x, y => y != x);
    } else {
      FilterSnoc(s, x, y => y != x);
    }
  }

  /** Toggling an absent element twice restores the list. */
  lemma ToggleTwice<T>(s: seq<T>, x: T)
    requires x !in s
    ensures Toggle(Toggle(s, x), x) == s
  {
    RemoveAppended(s, x);
  }

  /** Toggling keeps a duplicate-free list duplicate-free. */
  lemma ToggleNoDup<T>(s: seq<T>, x: T)
    requires NoDup(s)
    ensures NoDup(Toggle(s, x))
  {
    if x in s {
      RemoveSubsequence(s, x);
    } else {
      NoDupSnoc(s, x);
    }
  }

  // ---------------------------------------------------------------------------
  // Sums (`reduce((a, b) => a + b, 0)`), folded from the left like `reduce`.

  function Sum(s: seq<real>): real
  {
    if s == [] then 0.0 else Sum(s[..|s| - 1]) + s[|s| - 1]
  }

  lemma {:induction false} SumAppend(a: seq<real>, b: seq<real>)
    ensures Sum(a + b) == Sum(a) + Sum(b)
  {
    if b == [] {
      assert a + b == a;
    } else {
      assert (a + b)[..|a + b| - 1] == a + b[..|b| - 1];
      SumAppend(a, b[..|b| - 1]);
    }
  }

  lemma SumCons(x: real, s: seq<real>)
    ensures Sum([x] + s) == x + Sum(s)
  {
    SumAppend([x], s);
  }

  /** `s.reduce((acc, x) => acc + f(x), 0)`. */
  function SumBy<T>(s: seq<T>, f: T -> real): real
  {
    if s == [] then 0.0 else SumBy(s[..|s| - 1], f) + f(s[|s| - 1])
  }

  lemma SumBySnoc<T>(s: seq<T>, x: T, f: T -> real)
    ensures SumBy(s + [x], f) == SumBy(s, f) + f(x)
  {
    assert (s + [x])[..|s|] == s;
  }

  /** Summing mapped values is summing by the mapping function. */
  lemma {:induction false} SumByMap<T>(s: seq<T>, f: T -> real)
    ensures SumBy(Map(s, f), x => x) == SumBy(s, f)
  {
    if s != [] {
      SumByMap(s[..|s| - 1], f);
      assert Map(s, f)[..|s| - 1] == Map(s[..|s| - 1], f);
    }
  }

  /** Summing `g` over the images under `f` is summing `h` over the originals, when `g ∘ f` agrees with `h`. */
  lemma {:induction false} SumByMapInto<T, U>(s: seq<T>, f: T -> U, g: U -> real, h: T -> real)
    requires forall x :: g(f(x)) == h(x)
    ensures SumBy(Map(s, f), g) == SumBy(s, h)
  {
    if s != [] {
      SumByMapInto(s[..|s| - 1], f, g, h);
      assert Map(s, f)[..|s| - 1] == Map(s[..|s| - 1], f);
    }
  }

  /** The average of values that all lie in `[lo, hi]` lies in `[lo, hi]`. */
  lemma {:induction false} SumByBounds<T>(s: seq<T>, f: T -> real, lo: real, hi: real)
    requires forall i :: 0 <= i < |s| ==> lo <= f(s[i]) <= hi
    ensures lo * |s| as real <= SumBy(s, f) <= hi * |s| as real
  {
    if s != [] {
      SumByBounds(s[..|s| - 1], f, lo, hi);
    }
  }

  lemma SumByAverage<T>(s: seq<T>, f: T -> real, lo: real, hi: real)
    requires |s| >= 1
    requires forall i :: 0 <= i < |s| ==> lo <= f(s[i]) <= hi
    ensures lo <= SumBy(s, f) / |s| as real <= hi
  {
    SumByBounds(s, f, lo, hi);
    AverageBounds(SumBy(s, f), |s| as real, lo, hi);
  }

  lemma {:induction false} SumByAppend<T>(a: seq<T>, b: seq<T>, f: T -> real)
    ensures SumBy(a + b, f) == SumBy(a, f) + SumBy(b, f)
  {
    if b == [] {
      assert a + b == a;
    } else {
      assert (a + b)[..|a + b| - 1] == a + b[..|b| - 1];
      SumByAppend(a, b[..|b| - 1], f);
    }
  }

  /** Summing over the elements that satisfy `p` or `q`, two predicates that never
      hold together, is summing over each and adding. */
  lemma {:induction false} SumByFilterSplit<T>(s: seq<T>, p: T -> bool, q: T -> bool, f: T -> real)
    requires forall i :: 0 <= i < |s| ==> !(p(s[i]) && q(s[i]))
    ensures SumBy(Filter(s, x => p(x) || q(x)), f) == SumBy(Filter(s, p), f) + SumBy(Filter(s, q), f)
  {
    if s != [] {
      var s' := s[..|s| - 1];
      var x := s[|s| - 1];
      assert s == s' + [x];
      SumByFilterSplit(s', p, q, f);
      FilterSnoc(s', x, y => p(y) || q(y));
      FilterSnoc(s', x, p);
      FilterSnoc(s', x, q);
      SumByAppend(Filter(s', y => p(y) || q(y)), if p(x) || q(x) then [x] else [], f);
      SumByAppend(Filter(s', p), if p(x) then [x] else [], f);
      SumByAppend(Filter(s', q), if q(x) then [x] else [], f);
      assert SumBy([x], f) == f(x) by {
        assert [x][..0] == [];
      }
    }
  }

  function SumInt(s: seq<int>): int
  {
    if s == [] then 0 else SumInt(s[..|s| - 1]) + s[|s| - 1]
  }

  lemma {:induction false} SumIntAppend(a: seq<int>, b: seq<int>)
    ensures SumInt(a + b) == SumInt(a) + SumInt(b)
  {
    if b == [] {
      assert a + b == a;
    } else {
      assert (a + b)[..|a + b| - 1] == a + b[..|b| - 1];
      SumIntAppend(a, b[..|b| - 1]);
    }
  }

  lemma SumIntCons(x: int, s: seq<int>)
    ensures SumInt([x] + s) == x + SumInt(s)
  {
    SumIntAppend([x], s);
    assert [x][..0] == [];
  }

  /** Sum of a sequence in which one element was raised by `d`. */
  lemma {:induction false} SumIntUpdate(s: seq<int>, k: int, d: int)
    requires 0 <= k < |s|
    ensures SumInt(s[k := s[k] + d]) == SumInt(s) + d
  {
    var t := s[k := s[k] + d];
    if k == |s| - 1 {
      assert t[..|t| - 1] == s[..|s| - 1];
    } else {
      assert t[..|t| - 1] == s[..|s| - 1][k := s[k] + d];
      SumIntUpdate(s[..|s| - 1], k, d);
    }
  }

  // ---------------------------------------------------------------------------
  // Sorting. `[...s].sort((a, b) => key(a) - key(b))` is a stable sort of a copy;
  // it is modelled as a stable insertion sort on a value, so the input is never
  // reordered.

  predicate SortedBy<T>(s: seq<T>, key: T -> real)
  {
    forall i, j :: 0 <= i < j < |s| ==> key(s[i]) <= key(s[j])
  }

  function InsertByKey<T>(x: T, s: seq<T>, key: T -> real): (r: seq<T>)
    ensures |r| == |s| + 1
    ensures multiset(r) == multiset(s) + multiset{x}
  {
    if s == [] || key(x) <= key(s[0]) then [x] + s
    else
      assert s == [s[0]] + s[1..];
      [s[0]] + InsertByKey(x, s[1..], key)
  }

  /** Every element's key is at least `b`. */
  predicate AllAtLeast<T>(s: seq<T>, key: T -> real, b: real)
  {
    forall i :: 0 <= i < |s| ==> b <= key(s[i])
  }

  /** A head no larger than any key of a sorted tail gives a sorted sequence. */
  lemma SortedCons<T>(h: T, t: seq<T>, key: T -> real)
    requires SortedBy(t, key) && AllAtLeast(t, key, key(h))
    ensures SortedBy([h] + t, key)
  {
    var r := [h] + t;
    forall i, j | 0 <= i < j < |r| ensures key(r[i]) <= key(r[j]) {
      assert r[j] == t[j - 1];
      if i > 0 {
        assert r[i] == t[i - 1];
      }
    }
  }

  /** Inserting an element of key at least `b` keeps every key at least `b`. */
  lemma {:induction false} InsertByKeyBound<T>(x: T, s: seq<T>, key: T -> real, b: real)
    requires AllAtLeast(s, key, b) && b <= key(x)
    ensures AllAtLeast(InsertByKey(x, s, key), key, b)
  {
    if s == [] || key(x) <= key(s[0]) {
      var r := [x] + s;
      forall i | 0 <= i < |r| ensures b <= key(r[i]) {
        if i > 0 {
          assert r[i] == s[i - 1];
        }
      }
    } else {
      var t := s[1..];
      assert forall i :: 0 <= i < |t| ==> t[i] == s[i + 1];
      InsertByKeyBound(x, t, key, b);
      var r := [s[0]] + InsertByKey(x, t, key);
      forall i | 0 <= i < |r| ensures b <= key(r[i]) {
        if i > 0 {
          assert r[i] == InsertByKey(x, t, key)[i - 1];
        }
      }
    }
  }

  lemma {:induction false} InsertByKeySorted<T>(x: T, s: seq<T>, key: T -> real)
    requires SortedBy(s, key)
    ensures SortedBy(InsertByKey(x, s, key), key)
  {
    if s == [] || key(x) <= key(s[0]) {
      SortedCons(x, s, key);
    } else {
      var t := s[1..];
      assert forall i :: 0 <= i < |t| ==> t[i] == s[i + 1];
      InsertByKeySorted(x, t, key);
      InsertByKeyBound(x, t, key, key(s[0]));
      SortedCons(s[0], InsertByKey(x, t, key), key);
    }
  }

  /** Filtering keeps a sequence sorted. */
  lemma {:induction false} FilterSorted<T>(s: seq<T>, p: T -> bool, key: T -> real)
    requires SortedBy(s, key)
    ensures SortedBy(Filter(s, p), key)
  {
    if s != [] {
      var t := s[1..];
      assert forall i :: 0 <= i < |t| ==> t[i] == s[i + 1];
      FilterSorted(t, p, key);
      if p(s[0]) {
        var r := Filter(t, p);
        forall j | 0 <= j < |r| ensures key(s[0]) <= key(r[j]) {
          var k :| 0 <= k < |t| && t[k] == r[j];
        }
        SortedCons(s[0], r, key);
      }
    }
  }

  /** A stable sort of `s` by ascending `key`. */
  function SortByKey<T>(s: seq<T>, key: T -> real): (r: seq<T>)
    ensures |r| == |s|
    ensures multiset(r) == multiset(s)
  {
    if s == [] then []
    else
      assert s == [s[0]] + s[1..];
      InsertByKey(s[0], SortByKey(s[1..], key), key)
  }

  lemma {:induction false} SortByKeySorted<T>(s: seq<T>, key: T -> real)
    ensures SortedBy(SortByKey(s, key), key)
  {
    if s != [] {
      SortByKeySorted(s[1..], key);
      InsertByKeySorted(s[0], SortByKey(s[1..], key), key);
    }
  }

  /** `s[i]` has the smallest key of `s`, and no element before it has that key. */
  predicate FirstSmallest<T>(s: seq<T>, key: T -> real, i: int)
  {
    && 0 <= i < |s|
    && (forall j :: 0 <= j < |s| ==> key(s[i]) <= key(s[j]))
    && (forall j :: 0 <= j < i ==> key(s[i]) < key(s[j]))
  }

  lemma InsertByKeyHead<T>(x: T, s: seq<T>, key: T -> real)
    requires s != []
    ensures InsertByKey(x, s, key)[0] == if key(x) <= key(s[0]) then x else s[0]
  {
  }

  /**
   * The sort is stable at its head: the first element of the result is the first
   * element of the input, in input order, whose key is the smallest.
   */
  lemma {:induction false} SortByKeyHead<T>(s: seq<T>, key: T -> real)
    requires s != []
    ensures exists i :: FirstSmallest(s, key, i) && SortByKey(s, key)[0] == s[i]
  {
    var t := s[1..];
    if t == [] {
      assert FirstSmallest(s, key, 0);
    } else {
      var r := SortByKey(t, key);
      assert SortByKey(s, key) == InsertByKey(s[0], r, key);
      SortByKeyHead(t, key);
      var k :| FirstSmallest(t, key, k) && r[0] == t[k];
      InsertByKeyHead(s[0], r, key);
      if key(s[0]) <= key(t[k]) {
        FirstSmallestAtHead(s, key, k);
      } else {
        FirstSmallestInTail(s, key, k);
      }
    }
  }

  /** A head no larger than the smallest key of the tail is the first smallest. */
  lemma FirstSmallestAtHead<T>(s: seq<T>, key: T -> real, k: int)
    requires s != [] && FirstSmallest(s[1..], key, k) && key(s[0]) <= key(s[1..][k])
    ensures FirstSmallest(s, key, 0)
  {
    forall j | 0 < j < |s| ensures key(s[0]) <= key(s[j]) {
      assert s[j] == s[1..][j - 1];
    }
  }

  /** A head larger than the smallest key of the tail leaves the first smallest in the tail. */
  lemma FirstSmallestInTail<T>(s: seq<T>, key: T -> real, k: int)
    requires s != [] && FirstSmallest(s[1..], key, k) && key(s[1..][k]) < key(s[0])
    ensures FirstSmallest(s, key, k + 1) && s[k + 1] == s[1..][k]
  {
    forall j | 0 < j < |s| ensures key(s[k + 1]) <= key(s[j]) && (j < k + 1 ==> key(s[k + 1]) < key(s[j])) {
      assert s[j] == s[1..][j - 1];
    }
  }

  lemma SortByKeyMember<T>(s: seq<T>, key: T -> real, x: T)
    ensures x in SortByKey(s, key) <==> x in s
  {
    var r := SortByKey(s, key);
    assert x in r <==> x in multiset(r);
    assert x in s <==> x in multiset(s);
  }

  lemma MapCons<T, U>(h: T, t: seq<T>, f: T -> U)
    ensures Map([h] + t, f) == [f(h)] + Map(t, f)
  {
    assert forall i :: 0 < i <= |t| ==> ([h] + t)[i] == t[i - 1];
  }

  lemma {:induction false} MapInsertByKey<T, U>(x: T, s: seq<T>, key: T -> real, f: T -> U)
    ensures multiset(Map(InsertByKey(x, s, key), f)) == multiset(Map(s, f)) + multiset{f(x)}
  {
    if s == [] || key(x) <= key(s[0]) {
      MapCons(x, s, f);
    } else {
      var t := s[1..];
      assert s == [s[0]] + t;
      var r := InsertByKey(x, t, key);
      assert InsertByKey(x, s, key) == [s[0]] + r;
      MapInsertByKey(x, t, key, f);
      MapCons(s[0], r, f);
      MapCons(s[0], t, f);
    }
  }

  /** Sorting and then mapping gives a permutation of mapping the input. */
  lemma {:induction false} MapSortByKey<T, U>(s: seq<T>, key: T -> real, f: T -> U)
    ensures multiset(Map(SortByKey(s, key), f)) == multiset(Map(s, f))
  {
    if s != [] {
      var t := s[1..];
      assert s == [s[0]] + t;
      MapSortByKey(t, key, f);
      MapInsertByKey(s[0], SortByKey(t, key), key, f);
      MapCons(s[0], t, f);
    }
  }

  // ---------------------------------------------------------------------------
  // `Math.max(...s)` and `Math.min(...s)`

  /** The largest element of a non-empty sequence. */
  function Largest(s: seq<real>): (r: real)
    requires s != []
    ensures forall i :: 0 <= i < |s| ==> s[i] <= r
    ensures exists i :: 0 <= i < |s| && s[i] == r
  {
    if |s| == 1 then s[0]
    else
      var m := Largest(s[..|s| - 1]);
      assert forall i :: 0 <= i < |s| - 1 ==> s[..|s| - 1][i] == s[i];
      if s[|s| - 1] > m then s[|s| - 1] else m
  }

  /** The smallest element of a non-empty sequence. */
  function Smallest(s: seq<real>): (r: real)
    requires s != []
    ensures forall i :: 0 <= i < |s| ==> r <= s[i]
    ensures exists i :: 0 <= i < |s| && s[i] == r
  {
    if |s| == 1 then s[0]
    else
      var m := Smallest(s[..|s| - 1]);
      assert forall i :: 0 <= i < |s| - 1 ==> s[..|s| - 1][i] == s[i];
      if s[|s| - 1] < m then s[|s| - 1] else m
  }

  /** `Math.max(...s)`: `-Infinity` for an empty spread. */
  function MaxOf(s: seq<real>): (r: JsNumber)
    ensures s == [] <==> r == NegInfinity
    ensures s != [] ==> r == Finite(Largest(s))
  {
    if s == [] then NegInfinity else Finite(Largest(s))
  }

  /** `Math.min(...s)`: `Infinity` for an empty spread. */
  function MinOf(s: seq<real>): (r: JsNumber)
    ensures s == [] <==> r == PosInfinity
    ensures s != [] ==> r == Finite(Smallest(s))
  {
    if s == [] then PosInfinity else Finite(Smallest(s))
  }
}
