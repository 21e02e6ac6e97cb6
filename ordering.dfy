/** Python's `sorted(xs, key=k, reverse=True)` and `list.sort(key=k, reverse=True)`:
    a stable sort into non-increasing key order, written as an insertion sort,
    together with list comprehensions `[x for x in xs if p(x)]`. */
module Ordering {
  import opened Wrappers

  /** `s` is in non-increasing order of `key`. */
  predicate SortedDesc<T>(s: seq<T>, key: T -> real) {
    forall i, j :: 0 <= i < j < |s| ==> key(s[i]) >= key(s[j])
  }

  /** Places `x` before the first element whose key does not exceed x's key,
      so `x` precedes every element of `s` with an equal key. */
  function Insert<T>(x: T, s: seq<T>, key: T -> real): (r: seq<T>)
    ensures |r| == |s| + 1
    ensures multiset(r) == multiset(s) + multiset{x}
  {
    if s == [] then [x]
    else if key(s[0]) <= key(x) then [x] + s
    else assert s == [s[0]] + s[1..]; [s[0]] + Insert(x, s[1..], key)
  }

  /** The stable descending sort. */
  function SortDesc<T>(s: seq<T>, key: T -> real): (r: seq<T>)
    ensures |r| == |s|
    ensures multiset(r) == multiset(s)
  {
    if s == [] then []
    else assert s == [s[0]] + s[1..]; Insert(s[0], SortDesc(s[1..], key), key)
  }

  /** The list comprehension `[x for x in s if p(x)]`. */
  function Select<T>(s: seq<T>, p: T -> bool): (r: seq<T>)
    ensures |r| <= |s|
    ensures forall i :: 0 <= i < |r| ==> p(r[i])
    ensures multiset(r) <= multiset(s)
    ensures forall x :: x in s && p(x) ==> x in r
  {
    if s == [] then []
    else
      assert s == [s[0]] + s[1..];
      if p(s[0]) then [s[0]] + Select(s[1..], p) else Select(s[1..], p)
  }

  /** The elements of `s` whose key equals `v`, in order. */
  function WithKey<T>(s: seq<T>, key: T -> real, v: real): seq<T> {
    if s == [] then []
    else if key(s[0]) == v then [s[0]] + WithKey(s[1..], key, v)
    else WithKey(s[1..], key, v)
  }

  /** The first `k` elements, or all of them when there are fewer: Python's `s[:k]`. */
  function Take<T>(s: seq<T>, k: nat): (r: seq<T>)
    ensures |r| == if |s| < k then |s| else k
    ensures r <= s
  {
    if |s| <= k then s else s[..k]
  }

  lemma {:induction false} InsertSorted<T>(x: T, s: seq<T>, key: T -> real)
    requires SortedDesc(s, key)
    ensures SortedDesc(Insert(x, s, key), key)
  {
    if s != [] && key(s[0]) > key(x) {
      var t := s[1..];
      InsertSorted(x, t, key);
      forall i | 0 <= i < |t| ensures key(t[i]) <= key(s[0]) {
        assert t[i] == s[i + 1];
      }
      InsertBounded(x, t, key, key(s[0]));
      ConsSorted(s[0], Insert(x, t, key), key);
    } else if s != [] {
      ConsSorted(x, s, key);
    }
  }

  /** Inserting an element no greater than a bound into a list no greater than it keeps
      every key within the bound. */
  lemma InsertBounded<T>(x: T, t: seq<T>, key: T -> real, b: real)
    requires key(x) <= b
    requires forall i :: 0 <= i < |t| ==> key(t[i]) <= b
    ensures forall j :: 0 <= j < |Insert(x, t, key)| ==> key(Insert(x, t, key)[j]) <= b
  {
    var r := Insert(x, t, key);
    forall j | 0 <= j < |r| ensures key(r[j]) <= b {
      assert r[j] in multiset(r);
      if r[j] != x {
        assert r[j] in multiset(t);
        var m :| 0 <= m < |t| && t[m] == r[j];
      }
    }
  }

  /** A head at least every key of a sorted tail gives a sorted list. */
  lemma ConsSorted<T>(h: T, r: seq<T>, key: T -> real)
    requires SortedDesc(r, key)
    requires forall j :: 0 <= j < |r| ==> key(r[j]) <= key(h)
    ensures SortedDesc([h] + r, key)
  {
    var u := [h] + r;
    forall i, j | 0 <= i < j < |u| ensures key(u[i]) >= key(u[j]) {
      assert u[j] == r[j - 1];
      if i > 0 {
        assert u[i] == r[i - 1];
      }
    }
  }

  /** The sort produces non-increasing keys; with `multiset(r) == multiset(s)`
      (in SortDesc's contract) it is a sorted permutation. */
  lemma {:induction false} SortDescSorted<T>(s: seq<T>, key: T -> real)
    ensures SortedDesc(SortDesc(s, key), key)
  {
    if s != [] {
      SortDescSorted(s[1..], key);
      InsertSorted(s[0], SortDesc(s[1..], key), key);
    }
  }

  lemma {:induction false} WithKeyInsert<T>(x: T, s: seq<T>, key: T -> real, v: real)
    ensures WithKey(Insert(x, s, key), key, v)
         == if key(x) == v then [x] + WithKey(s, key, v) else WithKey(s, key, v)
  {
    if s == [] {
    } else if key(s[0]) <= key(x) {
      assert Insert(x, s, key) == [x] + s;
      assert ([x] + s)[1..] == s;
    } else {
      WithKeyInsert(x, s[1..], key, v);
      assert Insert(x, s, key)[1..] == Insert(x, s[1..], key);
    }
  }

  /** Stability: among elements with one and the same key, the sort keeps input order. */
  lemma {:induction false} SortDescStable<T>(s: seq<T>, key: T -> real, v: real)
    ensures WithKey(SortDesc(s, key), key, v) == WithKey(s, key, v)
  {
    if s != [] {
      SortDescStable(s[1..], key, v);
      WithKeyInsert(s[0], SortDesc(s[1..], key), key, v);
    }
  }

  lemma {:induction false} SelectInsert<T>(x: T, s: seq<T>, key: T -> real, p: T -> bool)
    requires SortedDesc(s, key)
    ensures Select(Insert(x, s, key), p)
         == if p(x) then Insert(x, Select(s, p), key) else Select(s, p)
  {
    if s != [] && key(s[0]) <= key(x) {
      SelectInsertFront(x, s, key, p);
    } else if s != [] {
      var t := s[1..];
      SortedTail(s, t, key);
      SelectInsert(x, t, key, p);
      SelectInsertStep(x, s, t, key, p);
    }
  }

  /** The case of `SelectInsert` where `x` goes in front. */
  lemma SelectInsertFront<T>(x: T, s: seq<T>, key: T -> real, p: T -> bool)
    requires SortedDesc(s, key) && s != [] && key(s[0]) <= key(x)
    ensures Select(Insert(x, s, key), p) == if p(x) then Insert(x, Select(s, p), key) else Select(s, p)
  {
    assert Insert(x, s, key) == [x] + s;
    SelectCons(x, s, p);
    if p(x) {
      SelectFront(x, s, key, p);
    }
  }

  /** The tail of a sorted list is sorted. */
  lemma SortedTail<T>(s: seq<T>, t: seq<T>, key: T -> real)
    requires SortedDesc(s, key) && s != [] && t == s[1..]
    ensures SortedDesc(t, key)
  {
    forall i, j | 0 <= i < j < |t| ensures key(t[i]) >= key(t[j]) {
      assert t[i] == s[i + 1] && t[j] == s[j + 1];
    }
  }

  /** The recursive case of `SelectInsert`: a head that outranks `x` stays in front, on both
      sides of the equation. */
  lemma SelectInsertStep<T>(x: T, s: seq<T>, t: seq<T>, key: T -> real, p: T -> bool)
    requires s != [] && key(s[0]) > key(x) && t == s[1..]
    requires Select(Insert(x, t, key), p) == if p(x) then Insert(x, Select(t, p), key) else Select(t, p)
    ensures Select(Insert(x, s, key), p) == if p(x) then Insert(x, Select(s, p), key) else Select(s, p)
  {
    var h := s[0];
    var it := Insert(x, t, key);
    var st := Select(t, p);
    assert Insert(x, s, key) == [h] + it;
    SelectCons(h, it, p);
    assert Select(s, p) == if p(h) then [h] + st else st;
    if p(x) && p(h) {
      InsertCons(x, h, st, key);
    }
  }

  /** Selecting from a list with a head decides the head, then selects from the tail. */
  lemma SelectCons<T>(h: T, w: seq<T>, p: T -> bool)
    ensures Select([h] + w, p) == if p(h) then [h] + Select(w, p) else Select(w, p)
  {
    assert ([h] + w)[1..] == w;
  }

  /** Inserting below a head keeps the head in front. */
  lemma InsertCons<T>(x: T, h: T, w: seq<T>, key: T -> real)
    requires key(h) > key(x)
    ensures Insert(x, [h] + w, key) == [h] + Insert(x, w, key)
  {
    assert ([h] + w)[1..] == w;
  }

  /** In a sorted list whose head does not outrank `x`, no selected element outranks `x`
      either, so inserting `x` into the selection puts it first. */
  lemma {:induction false} SelectFront<T>(x: T, s: seq<T>, key: T -> real, p: T -> bool)
    requires SortedDesc(s, key)
    requires s != [] && key(s[0]) <= key(x)
    ensures [x] + Select(s, p) == Insert(x, Select(s, p), key)
  {
    var t := Select(s, p);
    if t != [] {
      assert t[0] in multiset(t);
      assert t[0] in s;
      var m :| 0 <= m < |s| && s[m] == t[0];
      assert key(t[0]) <= key(s[0]);
    }
  }

  /** Sorting then selecting equals selecting then sorting (for a stable sort). */
  lemma {:induction false} SortSelectCommute<T>(s: seq<T>, key: T -> real, p: T -> bool)
    ensures Select(SortDesc(s, key), p) == SortDesc(Select(s, p), key)
  {
    if s != [] {
      var t := s[1..];
      SortSelectCommute(t, key, p);
      SortDescSorted(t, key);
      SelectInsert(s[0], SortDesc(t, key), key, p);
      if p(s[0]) {
        assert Select(s, p) == [s[0]] + Select(t, p);
        assert ([s[0]] + Select(t, p))[1..] == Select(t, p);
      } else {
        assert Select(s, p) == Select(t, p);
      }
    }
  }

  /** Extending the input by one element extends the selection by that element when it qualifies. */
  lemma {:induction false} SelectSnoc<T>(s: seq<T>, x: T, p: T -> bool)
    ensures Select(s + [x], p) == Select(s, p) + (if p(x) then [x] else [])
  {
    if s == [] {
      assert [x][1..] == [];
    } else {
      assert (s + [x])[1..] == s[1..] + [x];
      SelectSnoc(s[1..], x, p);
    }
  }

  /** Extending a prefix by one element extends its selection by that element when it is
      selected: the step of a filtering loop. */
  lemma SelectPrefixStep<T>(s: seq<T>, i: int, p: T -> bool)
    requires 0 <= i < |s|
    ensures Select(s[..i + 1], p) == Select(s[..i], p) + (if p(s[i]) then [s[i]] else [])
  {
    assert s[..i + 1] == s[..i] + [s[i]];
    SelectSnoc(s[..i], s[i], p);
  }

  /** Sorting loses no element. */
  lemma SortDescHas<T>(s: seq<T>, key: T -> real, x: T)
    requires x in s
    ensures x in SortDesc(s, key)
  {
    assert x in multiset(s);
    assert x in multiset(SortDesc(s, key));
  }

  /** The first `k` elements of a descending sort outrank every element left out. */
  lemma TopKOutranksRest<T>(s: seq<T>, key: T -> real, k: nat, i: int, j: int)
    requires 0 <= i < |Take(SortDesc(s, key), k)| <= j < |s|
    ensures key(Take(SortDesc(s, key), k)[i]) >= key(SortDesc(s, key)[j])
  {
    SortDescSorted(s, key);
  }

  /** The conjunction of two filters. */
  function Both<T>(p: T -> bool, q: T -> bool): T -> bool {
    (x: T) => p(x) && q(x)
  }

  /** Filtering twice equals filtering once by the conjunction. */
  lemma {:induction false} SelectSelect<T>(s: seq<T>, p: T -> bool, q: T -> bool)
    ensures Select(Select(s, p), q) == Select(s, Both(p, q))
  {
    if s != [] {
      var t := s[1..];
      SelectSelect(t, p, q);
      assert Both(p, q)(s[0]) == (p(s[0]) && q(s[0]));
      if p(s[0]) {
        var u := [s[0]] + Select(t, p);
        assert Select(s, p) == u;
        assert u[1..] == Select(t, p);
      } else {
        assert Select(s, p) == Select(t, p);
      }
    }
  }

  /** Sorting a selection keeps exactly the selected elements. */
  lemma SortedSelectionMembers<T>(s: seq<T>, p: T -> bool, key: T -> real, x: T)
    ensures x in SortDesc(Select(s, p), key) <==> x in s && p(x)
  {
    var t := Select(s, p);
    assert x in SortDesc(t, key) <==> x in multiset(t);
    if x in t {
      var i :| 0 <= i < |t| && t[i] == x;
    }
  }

  /** Everything in a sorted selection passes the filter. */
  lemma SortedSelectionPasses<T>(s: seq<T>, p: T -> bool, key: T -> real)
    ensures forall x :: x in SortDesc(Select(s, p), key) ==> p(x)
  {
    var t := Select(s, p);
    forall x | x in SortDesc(t, key) ensures p(x) {
      assert x in multiset(SortDesc(t, key));
      assert x in multiset(t);
      var i :| 0 <= i < |t| && t[i] == x;
    }
  }

  /** Two complementary filters split a list in two. */
  lemma {:induction false} SelectComplement<T>(s: seq<T>, p: T -> bool, q: T -> bool)
    requires forall x :: q(x) <==> !p(x)
    ensures multiset(Select(s, p)) + multiset(Select(s, q)) == multiset(s)
    ensures |Select(s, p)| + |Select(s, q)| == |s|
  {
    if s != [] {
      SelectComplement(s[1..], p, q);
      assert s == [s[0]] + s[1..];
    }
  }

  /** Keep the results of `f` that are present, in input order. */
  function FilterMap<T, U>(s: seq<T>, f: T -> Option<U>): seq<U> {
    if s == [] then []
    else
      var last := f(s[|s| - 1]);
      FilterMap(s[..|s| - 1], f) + (if last.Some? then [last.value] else [])
  }

  /** Extending the input by one element extends the result by that element's result, if any. */
  lemma FilterMapSnoc<T, U>(s: seq<T>, x: T, f: T -> Option<U>)
    ensures FilterMap(s + [x], f) == FilterMap(s, f) + (if f(x).Some? then [f(x).value] else [])
  {
    assert (s + [x])[..|s|] == s;
  }

  /** The kept results appear in input order: the `k`-th comes from a strictly increasing
      position `idx[k]`, and every position not chosen is one `f` rejects. */
  lemma {:induction false} FilterMapInOrder<T, U>(s: seq<T>, f: T -> Option<U>) returns (idx: seq<int>)
    ensures |idx| == |FilterMap(s, f)|
    ensures forall k :: 0 <= k < |idx| ==> 0 <= idx[k] < |s| && f(s[idx[k]]) == Some(FilterMap(s, f)[k])
    ensures forall k, l :: 0 <= k < l < |idx| ==> idx[k] < idx[l]
    ensures forall j :: 0 <= j < |s| && j !in idx ==> f(s[j]).None?
  {
    if s == [] {
      idx := [];
    } else {
      var n := |s| - 1;
      var prev := FilterMapInOrder(s[..n], f);
      if f(s[n]).Some? {
        idx := prev + [n];
      } else {
        idx := prev;
      }
      forall j | 0 <= j < |s| && j !in idx ensures f(s[j]).None? {
        if j < n {
          assert j !in prev;
          assert s[..n][j] == s[j];
        }
      }
    }
  }
}
