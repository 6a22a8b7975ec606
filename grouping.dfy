/**
 * Grouping in insertion order, as the statistics code does with a plain
 * object used as a counter (`counts[k] = (counts[k] || 0) + 1`) and with a
 * `Map` from a key to the list of values seen for it.  Both keep their keys in
 * order of first insertion.
 */
module Grouping {
  import opened Strings

  // ------------------------------------------------------------- counters

  /** The keys of a list of pairs (a counter, a group list, the pairs grouped), in order. */
  function Keys<K, V>(t: seq<(K, V)>): (r: seq<K>)
    ensures |r| == |t|
    ensures forall i :: 0 <= i < |t| ==> r[i] == t[i].0
  {
    if |t| == 0 then [] else [t[0].0] + Keys(t[1..])
  }

  /** The count stored for `k`, or 0 (`counts[k] || 0`). */
  function Lookup<K(==)>(t: seq<(K, nat)>, k: K): nat
  {
    if |t| == 0 then 0 else if t[0].0 == k then t[0].1 else Lookup(t[1..], k)
  }

  function SumCounts<K>(t: seq<(K, nat)>): nat
  {
    if |t| == 0 then 0 else t[0].1 + SumCounts(t[1..])
  }

  /** `counts[k] = (counts[k] || 0) + 1`: a known key is bumped in place, a new one goes last. */
  function Bump<K(==)>(t: seq<(K, nat)>, k: K): (r: seq<(K, nat)>)
    ensures Keys(r) == if k in Keys(t) then Keys(t) else Keys(t) + [k]
    ensures Lookup(r, k) == Lookup(t, k) + 1
    ensures SumCounts(r) == SumCounts(t) + 1
  {
    if |t| == 0 then [(k, 1)]
    else if t[0].0 == k then [(k, t[0].1 + 1)] + t[1..]
    else
      var r := [t[0]] + Bump(t[1..], k);
      assert k in Keys(t) <==> k in Keys(t[1..]);
      assert Keys(t) == [t[0].0] + Keys(t[1..]);
      r
  }

  lemma {:induction false} BumpOther<K>(t: seq<(K, nat)>, k: K, k': K)
    requires k' != k
    ensures Lookup(Bump(t, k), k') == Lookup(t, k')
  {
    if |t| > 0 && t[0].0 != k {
      BumpOther(t[1..], k, k');
    }
  }

  /** The counter after counting every key of `ks` in order. */
  function Tally<K(==)>(ks: seq<K>): seq<(K, nat)>
  {
    if |ks| == 0 then [] else Bump(Tally(ks[..|ks| - 1]), ks[|ks| - 1])
  }

  /** Counting one more key at the back bumps that key. */
  lemma TallySnoc<K>(ks: seq<K>, k: K)
    ensures Tally(ks + [k]) == Bump(Tally(ks), k)
  {
    assert (ks + [k])[..|ks|] == ks;
  }

  lemma {:induction false} OccurrencesSnoc<T>(s: seq<T>, c: T)
    requires |s| > 0
    ensures Occurrences(s, c) == Occurrences(s[..|s| - 1], c) + (if s[|s| - 1] == c then 1 else 0)
  {
    if |s| > 1 {
      OccurrencesSnoc(s[1..], c);
      assert s[1..][..|s[1..]| - 1] == s[..|s| - 1][1..];
    }
  }

  /** Each key's count is its number of occurrences; the keys are the distinct keys in first-seen order. */
  lemma {:induction false} TallyCounts<K>(ks: seq<K>, k: K)
    ensures Lookup(Tally(ks), k) == Occurrences(ks, k)
    ensures Keys(Tally(ks)) == Distinct(ks)
  {
    if |ks| > 0 {
      TallyCounts(ks[..|ks| - 1], k);
      OccurrencesSnoc(ks, k);
      if ks[|ks| - 1] != k {
        BumpOther(Tally(ks[..|ks| - 1]), ks[|ks| - 1], k);
      }
    }
  }

  /** The counts add up to the number of keys counted. */
  lemma {:induction false} TallySum<K>(ks: seq<K>)
    ensures SumCounts(Tally(ks)) == |ks|
  {
    if |ks| > 0 {
      TallySum(ks[..|ks| - 1]);
    }
  }

  // ---------------------------------------------------------------- groups

  /** The values stored for `k`, or none. */
  function LookupGroup<K(==), V>(g: seq<(K, seq<V>)>, k: K): seq<V>
  {
    if |g| == 0 then [] else if g[0].0 == k then g[0].1 else LookupGroup(g[1..], k)
  }

  /** `map.get(k).push(v)`, creating an empty list for a new key first; a new key goes last. */
  function Push<K(==), V>(g: seq<(K, seq<V>)>, k: K, v: V): (r: seq<(K, seq<V>)>)
    ensures Keys(r) == if k in Keys(g) then Keys(g) else Keys(g) + [k]
    ensures LookupGroup(r, k) == LookupGroup(g, k) + [v]
  {
    if |g| == 0 then [(k, [v])]
    else if g[0].0 == k then [(k, g[0].1 + [v])] + g[1..]
    else
      var r := [g[0]] + Push(g[1..], k, v);
      assert k in Keys(g) <==> k in Keys(g[1..]);
      assert Keys(g) == [g[0].0] + Keys(g[1..]);
      r
  }

  lemma {:induction false} PushOther<K, V>(g: seq<(K, seq<V>)>, k: K, v: V, k': K)
    requires k' != k
    ensures LookupGroup(Push(g, k, v), k') == LookupGroup(g, k')
  {
    if |g| > 0 && g[0].0 != k {
      PushOther(g[1..], k, v, k');
    }
  }

  /** The groups after pushing every pair of `ps` in order. */
  function GroupBy<K(==), V>(ps: seq<(K, V)>): seq<(K, seq<V>)>
  {
    if |ps| == 0 then [] else Push(GroupBy(ps[..|ps| - 1]), ps[|ps| - 1].0, ps[|ps| - 1].1)
  }

  /** Grouping one more pair at the back pushes it. */
  lemma GroupBySnoc<K, V>(ps: seq<(K, V)>, p: (K, V))
    ensures GroupBy(ps + [p]) == Push(GroupBy(ps), p.0, p.1)
  {
    assert (ps + [p])[..|ps|] == ps;
  }

  /** The values paired with `k`, in order. */
  function ValuesFor<K(==), V>(ps: seq<(K, V)>, k: K): seq<V>
  {
    if |ps| == 0 then []
    else ValuesFor(ps[..|ps| - 1], k) + (if ps[|ps| - 1].0 == k then [ps[|ps| - 1].1] else [])
  }

  /**
   * One group per distinct key, in first-seen order; the group of `k` holds
   * exactly the values paired with `k`, in order.
   */
  lemma GroupByGroups<K, V>(ps: seq<(K, V)>, k: K)
    ensures Keys(GroupBy(ps)) == Distinct(Keys(ps))
    ensures LookupGroup(GroupBy(ps), k) == ValuesFor(ps, k)
  {
    GroupByKeys(ps);
    GroupByValues(ps, k);
  }

  lemma {:induction false} GroupByKeys<K, V>(ps: seq<(K, V)>)
    ensures Keys(GroupBy(ps)) == Distinct(Keys(ps))
  {
    if |ps| > 0 {
      var init, last := ps[..|ps| - 1], ps[|ps| - 1];
      GroupByKeys(init);
      assert Keys(ps)[..|ps| - 1] == Keys(init);
      DistinctLast(Keys(ps));
      var d := Distinct(Keys(init));
      assert Keys(GroupBy(ps)) == if last.0 in d then d else d + [last.0] by {
        assert GroupBy(ps) == Push(GroupBy(init), last.0, last.1);
      }
    }
  }

  lemma DistinctLast<T>(s: seq<T>)
    requires |s| > 0
    ensures Distinct(s) == var d := Distinct(s[..|s| - 1]); if s[|s| - 1] in d then d else d + [s[|s| - 1]]
  {
  }

  lemma {:induction false} GroupByValues<K, V>(ps: seq<(K, V)>, k: K)
    ensures LookupGroup(GroupBy(ps), k) == ValuesFor(ps, k)
  {
    if |ps| > 0 {
      var init := ps[..|ps| - 1];
      GroupByValues(init, k);
      if ps[|ps| - 1].0 != k {
        PushOther(GroupBy(init), ps[|ps| - 1].0, ps[|ps| - 1].1, k);
      }
    }
  }

  /** With distinct keys, looking up the key at position `i` finds that group. */
  lemma {:induction false} LookupGroupAt<K, V>(g: seq<(K, seq<V>)>, i: nat)
    requires i < |g|
    requires forall a, b :: 0 <= a < b < |g| ==> Keys(g)[a] != Keys(g)[b]
    ensures LookupGroup(g, g[i].0) == g[i].1
  {
    if i > 0 {
      assert Keys(g)[0] != Keys(g)[i];
      forall a, b | 0 <= a < b < |g| - 1
        ensures Keys(g[1..])[a] != Keys(g[1..])[b]
      {
        assert Keys(g)[a + 1] != Keys(g)[b + 1];
      }
      LookupGroupAt(g[1..], i - 1);
    }
  }

  /** A key that occurs among the pairs has at least one value. */
  lemma {:induction false} ValuesForPresent<K, V>(ps: seq<(K, V)>, k: K)
    requires k in Keys(ps)
    ensures |ValuesFor(ps, k)| > 0
  {
    if ps[|ps| - 1].0 != k {
      var init := ps[..|ps| - 1];
      var j :| 0 <= j < |ps| && Keys(ps)[j] == k;
      assert Keys(init)[j] == k;
      ValuesForPresent(init, k);
    }
  }

  /**
   * Position by position: group `i` of `GroupBy(ps)` is the `i`-th distinct
   * key with all the values paired with it, and it is never empty.
   */
  lemma GroupByAt<K, V>(ps: seq<(K, V)>, i: nat)
    requires i < |GroupBy(ps)|
    ensures |GroupBy(ps)| == |Distinct(Keys(ps))|
    ensures GroupBy(ps)[i].0 == Distinct(Keys(ps))[i]
    ensures GroupBy(ps)[i].1 == ValuesFor(ps, GroupBy(ps)[i].0)
    ensures |GroupBy(ps)[i].1| > 0
  {
    var g := GroupBy(ps);
    var k := g[i].0;
    GroupByGroups(ps, k);
    LookupGroupAt(g, i);
    assert Keys(g)[i] == k;
    ValuesForPresent(ps, k);
  }
}
