/**
 * The array operations the application uses: `filter`, `slice`, `reverse`
 * and `sort` with a numeric comparator.  `Array.prototype.sort` is stable, so
 * the sort is modelled by a stable insertion sort on a numeric key.
 */
module Sequences {

  /** `s.filter(p)`. */
  function Filter<T>(s: seq<T>, p: T -> bool): (r: seq<T>)
    ensures |r| <= |s|
    ensures forall i :: 0 <= i < |r| ==> p(r[i])
  {
    if |s| == 0 then []
    else (if p(s[0]) then [s[0]] else []) + Filter(s[1..], p)
  }

  /** Membership in a filtered sequence: exactly the elements that pass. */
  lemma {:induction false} FilterMembers<T>(s: seq<T>, p: T -> bool, x: T)
    ensures x in Filter(s, p) <==> x in s && p(x)
  {
    if |s| > 0 {
      FilterMembers(s[1..], p, x);
      assert x in s <==> x == s[0] || x in s[1..];
    }
  }

  /** Filtering distributes over concatenation: the relative order is kept. */
  lemma {:induction false} FilterConcat<T>(a: seq<T>, b: seq<T>, p: T -> bool)
    ensures Filter(a + b, p) == Filter(a, p) + Filter(b, p)
  {
    if |a| == 0 {
      assert a + b == b;
    } else {
      var head := if p(a[0]) then [a[0]] else [];
      FilterConcat(a[1..], b, p);
      assert (a + b)[0] == a[0] && (a + b)[1..] == a[1..] + b;
      assert Filter(a + b, p) == head + Filter(a[1..] + b, p);
      assert Filter(a, p) == head + Filter(a[1..], p);
    }
  }

  /** Two filters in a row are one filter by the conjunction. */
  lemma {:induction false} FilterFilter<T>(s: seq<T>, p: T -> bool, q: T -> bool, both: T -> bool)
    requires forall x :: both(x) == (p(x) && q(x))
    ensures Filter(Filter(s, p), q) == Filter(s, both)
  {
    if |s| > 0 {
      FilterFilter(s[1..], p, q, both);
      FilterConcat(if p(s[0]) then [s[0]] else [], Filter(s[1..], p), q);
    }
  }

  /** A filter that every element passes leaves the sequence as it is. */
  lemma {:induction false} FilterAll<T>(s: seq<T>, p: T -> bool)
    requires forall i :: 0 <= i < |s| ==> p(s[i])
    ensures Filter(s, p) == s
  {
    if |s| > 0 {
      FilterAll(s[1..], p);
      assert [s[0]] + s[1..] == s;
    }
  }

  /** Filtering never changes the multiset of what passes. */
  lemma {:induction false} FilterMultiset<T>(s: seq<T>, p: T -> bool)
    ensures multiset(Filter(s, p)) <= multiset(s)
  {
    if |s| > 0 {
      FilterMultiset(s[1..], p);
      assert s == [s[0]] + s[1..];
    }
  }

  /** A filter that no element passes leaves nothing. */
  lemma {:induction false} FilterNone<T>(s: seq<T>, p: T -> bool)
    requires forall i :: 0 <= i < |s| ==> !p(s[i])
    ensures Filter(s, p) == []
  {
    if |s| > 0 {
      FilterNone(s[1..], p);
    }
  }

  /** Filtering the sequence with one more element at the back. */
  lemma FilterSnoc<T>(s: seq<T>, x: T, p: T -> bool)
    ensures Filter(s + [x], p) == Filter(s, p) + (if p(x) then [x] else [])
  {
    FilterConcat(s, [x], p);
    assert Filter([x], p) == (if p(x) then [x] else []) + Filter([x][1..], p);
  }

  /** `s.map(f)`. */
  function Map<T, U>(s: seq<T>, f: T -> U): (r: seq<U>)
    ensures |r| == |s|
    ensures forall i :: 0 <= i < |s| ==> r[i] == f(s[i])
  {
    if |s| == 0 then [] else [f(s[0])] + Map(s[1..], f)
  }

  /** Mapping a prefix one element longer. */
  lemma MapPrefixStep<T, U>(s: seq<T>, i: nat, f: T -> U)
    requires i < |s|
    ensures Map(s[..i + 1], f) == Map(s[..i], f) + [f(s[i])]
  {
    assert s[..i + 1] == s[..i] + [s[i]];
    MapSnoc(s[..i], s[i], f);
  }

  /** Mapping a sequence with one more element at the back. */
  lemma {:induction false} MapSnoc<T, U>(s: seq<T>, x: T, f: T -> U)
    ensures Map(s + [x], f) == Map(s, f) + [f(x)]
  {
    assert Map(s + [x], f)[..|s|] == Map(s, f);
  }

  // ------------------------------------------------------------- reductions

  /** `s.reduce((sum, x) => sum + f(x), 0)`. */
  function Sum<T>(s: seq<T>, f: T -> int): int
  {
    if |s| == 0 then 0 else f(s[0]) + Sum(s[1..], f)
  }

  /** The same reduction over a real-valued field. */
  function SumReal<T>(s: seq<T>, f: T -> real): real
  {
    if |s| == 0 then 0.0 else f(s[0]) + SumReal(s[1..], f)
  }

  /** `Math.max(...s.map(f))` on a non-empty sequence: an upper bound that is attained. */
  function MaxOf<T>(s: seq<T>, f: T -> int): (m: int)
    requires |s| > 0
    ensures forall i :: 0 <= i < |s| ==> f(s[i]) <= m
    ensures exists i :: 0 <= i < |s| && f(s[i]) == m
  {
    if |s| == 1 then f(s[0])
    else
      var rest := MaxOf(s[1..], f);
      assert forall i :: 1 <= i < |s| ==> s[i] == s[1..][i - 1];
      if f(s[0]) >= rest then f(s[0]) else rest
  }

  /** A sum of values between `lo` and `hi` lies between `lo` and `hi` times the count. */
  lemma {:induction false} SumBounds<T>(s: seq<T>, f: T -> int, lo: int, hi: int)
    requires forall i :: 0 <= i < |s| ==> lo <= f(s[i]) <= hi
    ensures lo * |s| <= Sum(s, f) <= hi * |s|
  {
    if |s| > 0 {
      var n := |s| - 1;
      assert forall i :: 0 <= i < n ==> s[1..][i] == s[i + 1];
      SumBounds(s[1..], f, lo, hi);
      assert lo * |s| == lo * n + lo && hi * |s| == hi * n + hi;
      assert lo * n <= Sum(s[1..], f) <= hi * n;
      assert lo <= f(s[0]) <= hi;
    }
  }

  /** `s.slice(-n)` for n > 0: the last n elements, or all of them. */
  function LastN<T>(s: seq<T>, n: nat): (r: seq<T>)
    ensures |r| == if |s| <= n then |s| else n
    ensures r == s[|s| - |r|..]
  {
    if |s| <= n then s else s[|s| - n..]
  }

  /** `s.reverse()`. */
  function Reverse<T>(s: seq<T>): (r: seq<T>)
    ensures |r| == |s|
    ensures forall i :: 0 <= i < |s| ==> r[i] == s[|s| - 1 - i]
    ensures multiset(r) == multiset(s)
  {
    if |s| == 0 then []
    else
      assert s == [s[0]] + s[1..];
      Reverse(s[1..]) + [s[0]]
  }

  /** A rendered list of `cond && <item>` entries: the items whose condition holds, in order. */
  function Conditional<T>(show: seq<bool>, items: seq<T>): (r: seq<T>)
    requires |show| == |items|
    ensures |r| <= |items|
  {
    if |items| == 0 then []
    else (if show[0] then [items[0]] else []) + Conditional(show[1..], items[1..])
  }

  /** With distinct items, an item is in the list exactly when its condition holds. */
  lemma {:induction false} ConditionalMember<T>(show: seq<bool>, items: seq<T>, i: nat)
    requires |show| == |items| && i < |items|
    requires forall j, k :: 0 <= j < k < |items| ==> items[j] != items[k]
    ensures items[i] in Conditional(show, items) <==> show[i]
  {
    var rest := Conditional(show[1..], items[1..]);
    assert Conditional(show, items) == (if show[0] then [items[0]] else []) + rest;
    if i == 0 {
      assert forall k :: 0 <= k < |items[1..]| ==> items[1..][k] == items[k + 1];
      ConditionalAvoids(show[1..], items[1..], items[0]);
    } else {
      ConditionalMember(show[1..], items[1..], i - 1);
    }
  }

  /** A value that is none of the items is not in the list. */
  lemma {:induction false} ConditionalAvoids<T>(show: seq<bool>, items: seq<T>, x: T)
    requires |show| == |items|
    requires forall k :: 0 <= k < |items| ==> items[k] != x
    ensures x !in Conditional(show, items)
  {
    if |items| > 0 {
      assert forall k :: 0 <= k < |items[1..]| ==> items[1..][k] == items[k + 1];
      ConditionalAvoids(show[1..], items[1..], x);
    }
  }

  /** `s.slice(0, end)`: a negative end counts from the back. */
  function SliceTo<T>(s: seq<T>, end: int): (r: seq<T>)
    ensures r <= s
    ensures 0 <= end ==> |r| == if end <= |s| then end else |s|
    ensures end < 0 ==> |r| == if |s| + end >= 0 then |s| + end else 0
  {
    var stop := if end < 0 then (if |s| + end >= 0 then |s| + end else 0)
                else (if end <= |s| then end else |s|);
    s[..stop]
  }

  // ---------------------------------------------------------------- sorting

  /** `a` may stand before `b` when sorting by `key`, ascending or descending. */
  predicate InOrder<T>(key: T -> int, desc: bool, a: T, b: T)
  {
    if desc then key(a) >= key(b) else key(a) <= key(b)
  }

  ghost predicate Sorted<T>(s: seq<T>, key: T -> int, desc: bool)
  {
    forall i, j :: 0 <= i < j < |s| ==> InOrder(key, desc, s[i], s[j])
  }

  /** A suffix of a sorted sequence is sorted. */
  lemma SuffixSorted<T>(s: seq<T>, key: T -> int, desc: bool, m: nat)
    requires Sorted(s, key, desc) && m <= |s|
    ensures Sorted(s[m..], key, desc)
  {
    forall i, j | 0 <= i < j < |s| - m ensures InOrder(key, desc, s[m..][i], s[m..][j]) {
      assert s[m..][i] == s[m + i] && s[m..][j] == s[m + j];
    }
  }

  /** A sequence in ascending order, reversed, is in descending order. */
  lemma ReverseSorted<T>(s: seq<T>, key: T -> int)
    requires Sorted(s, key, false)
    ensures Sorted(Reverse(s), key, true)
  {
    var r := Reverse(s);
    forall i, j | 0 <= i < j < |r| ensures InOrder(key, true, r[i], r[j]) {
      assert InOrder(key, false, s[|s| - 1 - j], s[|s| - 1 - i]);
    }
  }

  /** The last n elements are some of the elements. */
  lemma LastNSubset<T>(s: seq<T>, n: nat)
    ensures multiset(LastN(s, n)) <= multiset(s)
  {
    var kept := LastN(s, n);
    assert s == s[..|s| - |kept|] + kept;
  }

  /** Of a sequence in ascending order, no element left out of the last `n` has a larger key than one kept. */
  lemma LastNAreLargest<T>(s: seq<T>, key: T -> int, n: nat)
    requires Sorted(s, key, false)
    ensures forall x, y :: x in multiset(s) - multiset(LastN(s, n)) && y in LastN(s, n) ==> key(x) <= key(y)
  {
    var kept := LastN(s, n);
    var m := |s| - |kept|;
    assert s == s[..m] + kept;
    forall x, y | x in multiset(s) - multiset(kept) && y in kept ensures key(x) <= key(y) {
      assert x in multiset(s[..m]);
      var j :| 0 <= j < m && s[..m][j] == x;
      var k :| 0 <= k < |kept| && kept[k] == y;
      assert s[j] == x && s[m + k] == y;
    }
  }

  /** Insert `x` in front of the first element it may precede. */
  function Insert<T>(x: T, s: seq<T>, key: T -> int, desc: bool): (r: seq<T>)
    ensures |r| == |s| + 1
    ensures multiset(r) == multiset{x} + multiset(s)
  {
    if |s| == 0 || InOrder(key, desc, x, s[0]) then [x] + s
    else
      assert s == [s[0]] + s[1..];
      [s[0]] + Insert(x, s[1..], key, desc)
  }

  /** The stable sort by `key` (`sort((a, b) => key(a) - key(b))`, or `key(b) - key(a)` when `desc`). */
  function SortBy<T>(s: seq<T>, key: T -> int, desc: bool): (r: seq<T>)
    ensures |r| == |s|
    ensures multiset(r) == multiset(s)
  {
    if |s| == 0 then []
    else
      assert s == [s[0]] + s[1..];
      Insert(s[0], SortBy(s[1..], key, desc), key, desc)
  }

  lemma {:induction false} InsertSorted<T>(x: T, s: seq<T>, key: T -> int, desc: bool)
    requires Sorted(s, key, desc)
    ensures Sorted(Insert(x, s, key, desc), key, desc)
  {
    if |s| > 0 && !InOrder(key, desc, x, s[0]) {
      var tail := Insert(x, s[1..], key, desc);
      InsertSorted(x, s[1..], key, desc);
      var r := [s[0]] + tail;
      forall j | 0 < j < |r|
        ensures InOrder(key, desc, s[0], r[j])
      {
        assert r[j] in multiset(tail);
        assert r[j] == x || r[j] in multiset(s[1..]);
        if r[j] != x {
          var k :| 0 <= k < |s[1..]| && s[1..][k] == r[j];
          assert s[k + 1] == r[j];
        }
      }
    }
  }

  /** The sort's output is ordered by the key. */
  lemma {:induction false} SortBySorted<T>(s: seq<T>, key: T -> int, desc: bool)
    ensures Sorted(SortBy(s, key, desc), key, desc)
  {
    if |s| > 0 {
      SortBySorted(s[1..], key, desc);
      InsertSorted(s[0], SortBy(s[1..], key, desc), key, desc);
    }
  }

  /** The elements whose key is `v`, in order. */
  function WithKey<T>(s: seq<T>, key: T -> int, v: int): seq<T>
  {
    Filter(s, KeyIs(key, v))
  }

  function KeyIs<T>(key: T -> int, v: int): T -> bool
  {
    (x: T) => key(x) == v
  }

  lemma {:induction false} InsertWithKey<T>(x: T, s: seq<T>, key: T -> int, desc: bool, v: int)
    ensures WithKey(Insert(x, s, key, desc), key, v)
         == (if key(x) == v then [x] else []) + WithKey(s, key, v)
  {
    if |s| == 0 || InOrder(key, desc, x, s[0]) {
      var r := [x] + s;
      assert r[0] == x && r[1..] == s;
    } else {
      var tail := Insert(x, s[1..], key, desc);
      var r := [s[0]] + tail;
      assert r[0] == s[0] && r[1..] == tail;
      InsertWithKey(x, s[1..], key, desc, v);
      // x goes after s[0] only when their keys differ, so at most one of them has key v
      assert key(x) != key(s[0]);
    }
  }

  /** Stability: elements with equal keys keep the order they had before sorting. */
  lemma {:induction false} SortByStable<T>(s: seq<T>, key: T -> int, desc: bool, v: int)
    ensures WithKey(SortBy(s, key, desc), key, v) == WithKey(s, key, v)
  {
    if |s| > 0 {
      var p := KeyIs(key, v);
      SortByStable(s[1..], key, desc, v);
      InsertWithKey(s[0], SortBy(s[1..], key, desc), key, desc, v);
      FilterConcat([s[0]], s[1..], p);
      assert s == [s[0]] + s[1..];
    }
  }

  /** A sequence already in order is left as it is. */
  lemma {:induction false} SortBySortedInput<T>(s: seq<T>, key: T -> int, desc: bool)
    requires Sorted(s, key, desc)
    ensures SortBy(s, key, desc) == s
  {
    if |s| > 0 {
      assert Sorted(s[1..], key, desc) by {
        forall i, j | 0 <= i < j < |s| - 1 ensures InOrder(key, desc, s[1..][i], s[1..][j]) {
          assert s[1..][i] == s[i + 1] && s[1..][j] == s[j + 1];
        }
      }
      SortBySortedInput(s[1..], key, desc);
      if |s| > 1 {
        assert InOrder(key, desc, s[0], s[1]);
      }
      assert [s[0]] + s[1..] == s;
    }
  }
}
