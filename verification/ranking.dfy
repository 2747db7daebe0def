/** Filtering and ranking of record sequences, as the scripts do them with
    list comprehensions, Python's `sorted(..., key=..., reverse=True)` (a stable
    sort), slicing `[:top_n]` and `max(..., key=...)`. Keys are exact reals so
    that one ranking serves integer counters and ratios alike. */
module Ranking {
  import opened Wrappers

  /** `r` keeps exactly the elements of `s` that satisfy `p`, with their multiplicity. */
  ghost predicate SelectedFrom<T(!new)>(r: seq<T>, s: seq<T>, p: T -> bool) {
    forall x :: multiset(r)[x] == if p(x) then multiset(s)[x] else 0
  }

  /** The list comprehension `[x for x in s if p(x)]`. */
  function Filter<T(==,!new)>(s: seq<T>, p: T -> bool): (r: seq<T>)
    ensures |r| <= |s|
    ensures forall i :: 0 <= i < |r| ==> p(r[i])
  {
    if |s| == 0 then []
    else (if p(s[0]) then [s[0]] else []) + Filter(s[1..], p)
  }

  /** The comprehension keeps exactly the elements that satisfy `p`, each as often as it
      occurs in `s`. */
  lemma {:induction false} FilterSelects<T(!new)>(s: seq<T>, p: T -> bool)
    ensures SelectedFrom(Filter(s, p), s, p)
    decreases |s|
  {
    if |s| > 0 {
      FilterSelects(s[1..], p);
      assert s == [s[0]] + s[1..];
      assert multiset(s) == multiset{s[0]} + multiset(s[1..]);
      var head := if p(s[0]) then [s[0]] else [];
      assert multiset(Filter(s, p)) == multiset(head) + multiset(Filter(s[1..], p));
    }
  }

  /** Keys never increase from left to right. */
  predicate NonIncreasing<T>(s: seq<T>, key: T -> real) {
    forall i, j :: 0 <= i < j < |s| ==> key(s[i]) >= key(s[j])
  }

  /** The subsequence of the elements of `s` whose key is `k`, in their order in `s`. */
  function WithKey<T>(s: seq<T>, key: T -> real, k: real): seq<T> {
    if |s| == 0 then []
    else (if key(s[0]) == k then [s[0]] else []) + WithKey(s[1..], key, k)
  }

  /** Places `x` in front of the first element whose key is not larger than its own. */
  function Insert<T(==)>(x: T, s: seq<T>, key: T -> real): (r: seq<T>)
    ensures |r| == |s| + 1
    ensures multiset(r) == multiset(s) + multiset{x}
  {
    if |s| == 0 then [x]
    else if key(s[0]) <= key(x) then [x] + s
    else
      assert s == [s[0]] + s[1..];
      [s[0]] + Insert(x, s[1..], key)
  }

  /** Inserting into a ranked sequence keeps it ranked. */
  lemma {:induction false} InsertSorted<T>(x: T, s: seq<T>, key: T -> real)
    requires NonIncreasing(s, key)
    ensures NonIncreasing(Insert(x, s, key), key)
    decreases |s|
  {
    if |s| > 0 && key(s[0]) > key(x) {
      var rest := Insert(x, s[1..], key);
      InsertSorted(x, s[1..], key);
      forall j | 0 <= j < |rest|
        ensures key(s[0]) >= key(rest[j])
      {
        assert rest[j] in multiset(rest);
        if rest[j] != x {
          assert rest[j] in multiset(s[1..]);
          var k :| 0 <= k < |s[1..]| && s[1..][k] == rest[j];
          assert s[k + 1] == rest[j];
        }
      }
      assert Insert(x, s, key) == [s[0]] + rest;
    }
  }

  /** `sorted(s, key=key, reverse=True)`: a permutation of `s` in non-increasing key order. */
  function Rank<T(==)>(s: seq<T>, key: T -> real): (r: seq<T>)
    ensures |r| == |s|
    ensures multiset(r) == multiset(s)
    ensures NonIncreasing(r, key)
  {
    if |s| == 0 then []
    else
      assert s == [s[0]] + s[1..];
      InsertSorted(s[0], Rank(s[1..], key), key);
      Insert(s[0], Rank(s[1..], key), key)
  }

  lemma {:induction false} InsertWithKey<T>(x: T, s: seq<T>, key: T -> real, k: real)
    ensures WithKey(Insert(x, s, key), key, k) == (if key(x) == k then [x] else []) + WithKey(s, key, k)
    decreases |s|
  {
    var front := if key(x) == k then [x] else [];
    if |s| == 0 {
      assert [x][1..] == [];
      assert WithKey([x], key, k) == front + WithKey([x][1..], key, k);
    } else if key(s[0]) <= key(x) {
      assert ([x] + s)[1..] == s;
      assert WithKey([x] + s, key, k) == front + WithKey(([x] + s)[1..], key, k);
    } else {
      var rest := Insert(x, s[1..], key);
      assert Insert(x, s, key) == [s[0]] + rest;
      assert ([s[0]] + rest)[1..] == rest;
      var head := if key(s[0]) == k then [s[0]] else [];
      assert WithKey([s[0]] + rest, key, k) == head + WithKey(rest, key, k);
      InsertWithKey(x, s[1..], key, k);
      assert WithKey(s, key, k) == head + WithKey(s[1..], key, k);
      assert head == [] || front == [];
    }
  }

  /** Equal keys keep their original relative order: for every key value, the elements
      with that key appear in the ranking in the order they had in the input. */
  lemma {:induction false} RankStable<T>(s: seq<T>, key: T -> real, k: real)
    ensures WithKey(Rank(s, key), key, k) == WithKey(s, key, k)
    decreases |s|
  {
    if |s| > 0 {
      RankStable(s[1..], key, k);
      InsertWithKey(s[0], Rank(s[1..], key), key, k);
    }
  }

  /** Ranking an already ranked sequence changes nothing. */
  lemma {:induction false} RankOfSorted<T>(s: seq<T>, key: T -> real)
    requires NonIncreasing(s, key)
    ensures Rank(s, key) == s
    decreases |s|
  {
    if |s| > 0 {
      RankOfSorted(s[1..], key);
      assert s == [s[0]] + s[1..];
    }
  }

  /** Ranking is idempotent. */
  lemma RankIdempotent<T>(s: seq<T>, key: T -> real)
    ensures Rank(Rank(s, key), key) == Rank(s, key)
  {
    RankOfSorted(Rank(s, key), key);
  }

  /** Python's slice `s[:n]`, including its reading of a negative `n` as "all but the last -n". */
  function Prefix<T>(s: seq<T>, n: int): (r: seq<T>)
    ensures 0 <= n ==> |r| == if n < |s| then n else |s|
    ensures n < 0 ==> |r| == if |s| + n > 0 then |s| + n else 0
    ensures r == s[..|r|]
  {
    if n >= 0 then (if n < |s| then s[..n] else s)
    else if |s| + n > 0 then s[..|s| + n]
    else []
  }

  /** The displayed top list `sorted(s, key=key, reverse=True)[:n]`: drawn from `s`,
      in rank order, and no shown element has a smaller key than one left out. */
  function TopN<T(==)>(s: seq<T>, key: T -> real, n: int): (r: seq<T>)
    ensures |r| <= |s| && forall i :: 0 <= i < |r| ==> r[i] == Rank(s, key)[i]
    ensures 0 <= n ==> |r| == if n < |s| then n else |s|
    ensures n < 0 ==> |r| == if |s| + n > 0 then |s| + n else 0
    ensures multiset(r) <= multiset(s)
    ensures NonIncreasing(r, key)
    ensures forall i, j :: 0 <= i < |r| <= j < |s| ==> key(r[i]) >= key(Rank(s, key)[j])
  {
    var ranked := Rank(s, key);
    var r := Prefix(ranked, n);
    SortedPrefix(ranked, key, |r|);
    r
  }

  lemma SortedPrefix<T>(s: seq<T>, key: T -> real, m: nat)
    requires m <= |s|
    requires NonIncreasing(s, key)
    ensures multiset(s[..m]) <= multiset(s)
    ensures NonIncreasing(s[..m], key)
    ensures forall i, j :: 0 <= i < m <= j < |s| ==> key(s[..m][i]) >= key(s[j])
  {
    assert s == s[..m] + s[m..];
    assert multiset(s) == multiset(s[..m]) + multiset(s[m..]);
  }

  /** Scans left to right for the largest key, replacing the best so far only on a strictly larger key. */
  function MaxScan<T>(s: seq<T>, key: T -> real, best: nat, next: nat): (i: nat)
    requires best < next <= |s|
    requires forall j :: 0 <= j < next ==> key(s[j]) <= key(s[best])
    requires forall j :: 0 <= j < best ==> key(s[j]) < key(s[best])
    ensures i < |s|
    ensures forall j :: 0 <= j < |s| ==> key(s[j]) <= key(s[i])
    ensures forall j :: 0 <= j < i ==> key(s[j]) < key(s[i])
    decreases |s| - next
  {
    if next == |s| then best
    else if key(s[next]) > key(s[best]) then MaxScan(s, key, next, next + 1)
    else MaxScan(s, key, best, next + 1)
  }

  /** The index of `max(s, key=key)`: the first element attaining the largest key. */
  function FirstMaxIndex<T>(s: seq<T>, key: T -> real): (i: nat)
    requires |s| > 0
    ensures i < |s|
    ensures forall j :: 0 <= j < |s| ==> key(s[j]) <= key(s[i])
    ensures forall j :: 0 <= j < i ==> key(s[j]) < key(s[i])
  {
    MaxScan(s, key, 0, 1)
  }

  lemma {:induction false} WithKeyFirst<T>(s: seq<T>, key: T -> real, i: nat)
    requires i < |s|
    requires forall j :: 0 <= j < i ==> key(s[j]) != key(s[i])
    ensures |WithKey(s, key, key(s[i]))| > 0
    ensures WithKey(s, key, key(s[i]))[0] == s[i]
    decreases i
  {
    if i > 0 {
      WithKeyFirst(s[1..], key, i - 1);
    }
  }

  /** The element `max(key=...)` picks is the head of the stable descending ranking. */
  lemma {:induction false} RankHeadIsFirstMax<T>(s: seq<T>, key: T -> real)
    requires |s| > 0
    ensures Rank(s, key)[0] == s[FirstMaxIndex(s, key)]
  {
    var r := Rank(s, key);
    var i := FirstMaxIndex(s, key);
    assert r[0] in multiset(s);
    assert s[i] in multiset(r);
    assert key(r[0]) == key(s[i]);
    WithKeyFirst(r, key, 0);
    WithKeyFirst(s, key, i);
    RankStable(s, key, key(s[i]));
  }

  /** Filtering then taking one key's elements equals taking that key's elements then filtering. */
  lemma {:induction false} WithKeyOfFilter<T(!new)>(s: seq<T>, p: T -> bool, key: T -> real, k: real)
    ensures WithKey(Filter(s, p), key, k) == Filter(WithKey(s, key, k), p)
    decreases |s|
  {
    if |s| > 0 {
      WithKeyOfFilter(s[1..], p, key, k);
      var head := if p(s[0]) then [s[0]] else [];
      assert Filter(s, p) == head + Filter(s[1..], p);
      WithKeyAppend(head, Filter(s[1..], p), key, k);
      var front := if key(s[0]) == k then [s[0]] else [];
      FilterAppend(front, WithKey(s[1..], key, k), p);
      if |head| == 1 {
        assert head[1..] == [];
      }
      if |front| == 1 {
        assert front[1..] == [];
      }
    }
  }

  lemma {:induction false} WithKeyAppend<T>(a: seq<T>, b: seq<T>, key: T -> real, k: real)
    ensures WithKey(a + b, key, k) == WithKey(a, key, k) + WithKey(b, key, k)
    decreases |a|
  {
    if |a| > 0 {
      assert (a + b)[1..] == a[1..] + b;
      WithKeyAppend(a[1..], b, key, k);
    } else {
      assert a + b == b;
    }
  }

  lemma {:induction false} FilterAppend<T(!new)>(a: seq<T>, b: seq<T>, p: T -> bool)
    ensures Filter(a + b, p) == Filter(a, p) + Filter(b, p)
    decreases |a|
  {
    if |a| > 0 {
      assert (a + b)[1..] == a[1..] + b;
      FilterAppend(a[1..], b, p);
    } else {
      assert a + b == b;
    }
  }

  /** Ranking a filtered sequence keeps, for each key, the original order of the kept elements. */
  lemma RankOfFilterStable<T(!new)>(s: seq<T>, p: T -> bool, key: T -> real)
    ensures forall k :: WithKey(Rank(Filter(s, p), key), key, k) == Filter(WithKey(s, key, k), p)
  {
    forall k ensures WithKey(Rank(Filter(s, p), key), key, k) == Filter(WithKey(s, key, k), p) {
      RankStable(Filter(s, p), key, k);
      WithKeyOfFilter(s, p, key, k);
    }
  }

  /** Every element kept by a selection satisfies the condition and occurs in the source. */
  lemma SelectedFromMembers<T(!new)>(r: seq<T>, s: seq<T>, p: T -> bool)
    requires SelectedFrom(r, s, p)
    ensures forall i :: 0 <= i < |r| ==> p(r[i]) && r[i] in s
    ensures forall x :: x in s && p(x) ==> x in r
  {
    forall i | 0 <= i < |r|
      ensures p(r[i]) && r[i] in s
    {
      assert multiset(r)[r[i]] > 0;
    }
    forall x | x in s && p(x)
      ensures x in r
    {
      assert multiset(s)[x] > 0;
    }
  }

  /** `max(s, key=key)` behind the scripts' `if s:` guard: absent for an empty list, otherwise
      the first element with the largest key, which is also the head of the ranking. */
  function MaxBy<T(==)>(s: seq<T>, key: T -> real): (r: Option<T>)
    ensures r.None? <==> |s| == 0
    ensures r.Some? ==> r.value in s && forall j :: 0 <= j < |s| ==> key(s[j]) <= key(r.value)
    ensures r.Some? ==> r.value == Rank(s, key)[0]
  {
    if |s| == 0 then None
    else
      RankHeadIsFirstMax(s, key);
      Some(s[FirstMaxIndex(s, key)])
  }
}
