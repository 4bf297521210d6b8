/**
 * The iterator and vector operations the source leans on: a stable descending sort by an
 * integer key (`Vec::sort_by` with a reversed comparison), `filter`/`retain` and `take(n)`.
 */
module Sequences {
  import opened Wrappers

  predicate SortedDesc<T>(s: seq<T>, key: T -> int)
  {
    forall i, j :: 0 <= i < j < |s| ==> key(s[i]) >= key(s[j])
  }

  /** The elements of `s` whose key is `k`, in their order in `s`. */
  function WithKey<T>(s: seq<T>, key: T -> int, k: int): seq<T>
  {
    if s == [] then [] else (if key(s[0]) == k then [s[0]] else []) + WithKey(s[1..], key, k)
  }

  /** Places `x` after the elements with a strictly larger key and before the rest. */
  function Insert<T>(x: T, s: seq<T>, key: T -> int): (r: seq<T>)
    requires SortedDesc(s, key)
    ensures |r| == |s| + 1 && multiset(r) == multiset(s) + multiset{x}
    ensures SortedDesc(r, key)
  {
    if s == [] || key(s[0]) <= key(x) then [x] + s
    else
      var rest := Insert(x, s[1..], key);
      assert s == [s[0]] + s[1..];
      ConsSorted(s[0], rest, s[1..], x, key);
      [s[0]] + rest
  }

  /** An element no smaller than a sorted permutation of `t` plus `x` heads it, still sorted. */
  lemma {:induction false} ConsSorted<T>(y: T, rest: seq<T>, t: seq<T>, x: T, key: T -> int)
    requires SortedDesc(rest, key) && SortedDesc([y] + t, key)
    requires multiset(rest) == multiset(t) + multiset{x} && key(x) <= key(y)
    ensures SortedDesc([y] + rest, key)
    ensures multiset([y] + rest) == multiset([y] + t) + multiset{x}
  {
    assert forall j :: 0 <= j < |t| ==> key(t[j]) <= key(y) by {
      forall j | 0 <= j < |t| ensures key(t[j]) <= key(y) {
        assert ([y] + t)[0] == y && ([y] + t)[j + 1] == t[j];
      }
    }
    KeysBounded(rest, t, x, key, key(y));
    var r := [y] + rest;
    forall i, j | 0 <= i < j < |r| ensures key(r[i]) >= key(r[j]) {
      assert r[j] == rest[j - 1];
      if i > 0 {
        assert r[i] == rest[i - 1];
      }
    }
  }

  /** A permutation of `t` plus `x` has no key above a bound that `t` and `x` respect. */
  lemma {:induction false} KeysBounded<T>(r: seq<T>, t: seq<T>, x: T, key: T -> int, bound: int)
    requires multiset(r) == multiset(t) + multiset{x}
    requires key(x) <= bound && forall j :: 0 <= j < |t| ==> key(t[j]) <= bound
    ensures forall j :: 0 <= j < |r| ==> key(r[j]) <= bound
  {
    forall j | 0 <= j < |r| ensures key(r[j]) <= bound {
      var y := r[j];
      assert y in multiset(r);
      if y != x {
        assert y in multiset(t);
        var m :| 0 <= m < |t| && t[m] == y;
      }
    }
  }

  /** Stable sort, largest key first. */
  function SortDesc<T>(s: seq<T>, key: T -> int): (r: seq<T>)
    ensures |r| == |s| && multiset(r) == multiset(s)
    ensures SortedDesc(r, key)
  {
    if s == [] then []
    else
      assert s == [s[0]] + s[1..];
      Insert(s[0], SortDesc(s[1..], key), key)
  }

  lemma {:induction false} InsertKeepsTies<T>(x: T, s: seq<T>, key: T -> int, k: int)
    requires SortedDesc(s, key)
    ensures WithKey(Insert(x, s, key), key, k) == (if key(x) == k then [x] else []) + WithKey(s, key, k)
  {
    var r := Insert(x, s, key);
    var hx := if key(x) == k then [x] else [];
    if s == [] || key(s[0]) <= key(x) {
      assert r == [x] + s;
      assert WithKey(r, key, k) == hx + WithKey(s, key, k) by {
        assert r[0] == x && r[1..] == s;
      }
    } else {
      var rest := Insert(x, s[1..], key);
      var hs := if key(s[0]) == k then [s[0]] else [];
      assert r == [s[0]] + rest;
      assert WithKey(r, key, k) == hs + WithKey(rest, key, k) by {
        assert r[0] == s[0] && r[1..] == rest;
      }
      InsertKeepsTies(x, s[1..], key, k);
      assert WithKey(s, key, k) == hs + WithKey(s[1..], key, k);
      if key(x) == k {
        assert hs == [];
      } else {
        assert hx == [];
      }
    }
  }

  /** Stability: the elements sharing any one key keep their original relative order. */
  lemma {:induction false} SortDescIsStable<T>(s: seq<T>, key: T -> int, k: int)
    ensures WithKey(SortDesc(s, key), key, k) == WithKey(s, key, k)
  {
    if s != [] {
      SortDescIsStable(s[1..], key, k);
      InsertKeepsTies(s[0], SortDesc(s[1..], key), key, k);
    }
  }

  /** Iterator `take(n)`: the first `n` elements, or all of them. */
  function Take<T>(s: seq<T>, n: nat): (r: seq<T>)
    ensures |r| == (if n < |s| then n else |s|)
    ensures r == s[..|r|]
  {
    if n < |s| then s[..n] else s
  }

  lemma {:induction false} TakeIsSubMultiset<T>(s: seq<T>, n: nat)
    ensures multiset(Take(s, n)) <= multiset(s)
  {
    var r := Take(s, n);
    assert s == r + s[|r|..];
  }

  /** A prefix of a descending sequence is descending. */
  lemma {:induction false} TakeKeepsOrder<T>(s: seq<T>, n: nat, key: T -> int)
    requires SortedDesc(s, key)
    ensures SortedDesc(Take(s, n), key)
  {
    var r := Take(s, n);
    forall i, j | 0 <= i < j < |r| ensures key(r[i]) >= key(r[j]) {
      assert r[i] == s[i] && r[j] == s[j];
    }
  }

  /** Taking a prefix of a descending sequence keeps elements no smaller than any it drops. */
  lemma {:induction false} TakeKeepsLargest<T>(s: seq<T>, n: nat, key: T -> int)
    requires SortedDesc(s, key)
    ensures forall i, x :: 0 <= i < |Take(s, n)| && x in multiset(s) - multiset(Take(s, n)) ==> key(x) <= key(Take(s, n)[i])
  {
    var r := Take(s, n);
    assert s == r + s[|r|..];
    forall i, x | 0 <= i < |r| && x in multiset(s) - multiset(r)
      ensures key(x) <= key(r[i])
    {
      assert multiset(s) == multiset(r) + multiset(s[|r|..]);
      assert x in multiset(s[|r|..]);
      var m :| 0 <= m < |s[|r|..]| && s[|r|..][m] == x;
      assert s[|r| + m] == x;
    }
  }

  /**
   * The position of the kept element with the latest time: a strictly later time replaces
   * the one found so far, so the first of several equally late elements wins.
   */
  function FirstLatest<T>(s: seq<T>, keep: T -> bool, time: T -> int): (r: Option<nat>)
    ensures r.None? <==> forall j :: 0 <= j < |s| ==> !keep(s[j])
    ensures r.Some? ==> r.value < |s| && keep(s[r.value])
    ensures r.Some? ==> forall j :: 0 <= j < |s| && keep(s[j]) ==> time(s[j]) <= time(s[r.value])
    ensures r.Some? ==> forall j :: 0 <= j < r.value && keep(s[j]) ==> time(s[j]) < time(s[r.value])
  {
    if s == [] then None
    else
      var n := |s| - 1;
      var init := s[..n];
      var prev := FirstLatest(init, keep, time);
      assert forall j :: 0 <= j < n ==> init[j] == s[j];
      if !keep(s[n]) then prev
      else if prev.None? || time(s[n]) > time(s[prev.value]) then Some(n)
      else prev
  }

  /** One more element: it takes the lead when kept and strictly later than the leader so far. */
  lemma {:induction false} FirstLatestStep<T>(s: seq<T>, i: nat, keep: T -> bool, time: T -> int)
    requires i < |s|
    ensures var prev := FirstLatest(s[..i], keep, time);
            FirstLatest(s[..i + 1], keep, time)
            == if !keep(s[i]) then prev
               else if prev.None? || time(s[i]) > time(s[prev.value]) then Some(i)
               else prev
  {
    assert s[..i + 1][..i] == s[..i];
  }

  /** Iterator `filter` and `Vec::retain`: the elements satisfying `p`, in order. */
  function Filter<T>(s: seq<T>, p: T -> bool): (r: seq<T>)
    ensures |r| <= |s|
    ensures forall i :: 0 <= i < |r| ==> p(r[i])
    ensures forall x :: x in r ==> x in s
  {
    if s == [] then [] else (if p(s[0]) then [s[0]] else []) + Filter(s[1..], p)
  }

  /** Every element satisfying `p` is kept as often as it occurs; the others are dropped. */
  lemma {:induction false} FilterCount<T>(s: seq<T>, p: T -> bool, x: T)
    ensures multiset(Filter(s, p))[x] == if p(x) then multiset(s)[x] else 0
  {
    if s != [] {
      FilterCount(s[1..], p, x);
      assert s == [s[0]] + s[1..];
    }
  }

  lemma {:induction false} FilterAppend<T>(a: seq<T>, b: seq<T>, p: T -> bool)
    ensures Filter(a + b, p) == Filter(a, p) + Filter(b, p)
  {
    if a == [] {
      assert a + b == b;
    } else {
      var h := if p(a[0]) then [a[0]] else [];
      assert Filter(a + b, p) == h + Filter(a[1..] + b, p) by {
        assert (a + b)[0] == a[0];
        assert (a + b)[1..] == a[1..] + b;
      }
      FilterAppend(a[1..], b, p);
      assert h + (Filter(a[1..], p) + Filter(b, p)) == (h + Filter(a[1..], p)) + Filter(b, p);
    }
  }

}
