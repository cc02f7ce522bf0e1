/** Sequence combinators standing in for the source's Array methods:
    `filter` and `slice(-n)`. */
module Seqs {

  /** `s.filter(f)`: the elements satisfying f, in their original order. */
  function Filter<T>(f: T -> bool, s: seq<T>): (r: seq<T>)
    ensures |r| <= |s|
    ensures forall x :: x in r ==> f(x) && x in s
    ensures forall x :: x in s && f(x) ==> x in r
    decreases |s|
  {
    if s == [] then []
    else Filter(f, s[..|s| - 1]) + (if f(s[|s| - 1]) then [s[|s| - 1]] else [])
  }

  lemma {:induction false} FilterAppend<T>(f: T -> bool, a: seq<T>, b: seq<T>)
    ensures Filter(f, a + b) == Filter(f, a) + Filter(f, b)
    decreases |b|
  {
    if b == [] {
      assert a + b == a;
    } else {
      var init, last := b[..|b| - 1], b[|b| - 1];
      assert (a + b)[..|a + b| - 1] == a + init && (a + b)[|a + b| - 1] == last;
      FilterAppend(f, a, init);
      var tail := if f(last) then [last] else [];
      assert Filter(f, a + b) == Filter(f, a + init) + tail;
      assert Filter(f, b) == Filter(f, init) + tail;
      AppendAssociative(Filter(f, a), Filter(f, init), tail);
    }
  }

  lemma AppendAssociative<T>(a: seq<T>, b: seq<T>, c: seq<T>)
    ensures (a + b) + c == a + (b + c)
  {
  }

  lemma TakeOneMore<T>(s: seq<T>, i: nat)
    requires i < |s|
    ensures s[..i + 1] == s[..i] + [s[i]]
  {
  }

  /** Filtering respects a common prefix. */
  lemma FilterSamePrefix<T>(f: T -> bool, a: seq<T>, b: seq<T>, c: seq<T>)
    requires Filter(f, b) == Filter(f, c)
    ensures Filter(f, a + b) == Filter(f, a + c)
  {
    FilterAppend(f, a, b);
    FilterAppend(f, a, c);
  }

  /** Filtering a sequence with a given head. */
  lemma FilterCons<T>(f: T -> bool, x: T, s: seq<T>)
    ensures Filter(f, [x] + s) == (if f(x) then [x] else []) + Filter(f, s)
  {
    assert [x][..0] == [] && [x][0] == x;
    assert Filter(f, [x]) == (if f(x) then [x] else []);
    FilterAppend(f, [x], s);
  }

  /** Two neighbours of which at most one is kept may trade places. */
  lemma FilterSwap<T>(f: T -> bool, u: T, v: T, w: seq<T>)
    requires !(f(u) && f(v))
    ensures Filter(f, [u] + ([v] + w)) == Filter(f, [v] + ([u] + w))
  {
    FilterCons(f, u, [v] + w);
    FilterCons(f, v, w);
    FilterCons(f, v, [u] + w);
    FilterCons(f, u, w);
  }

  /** Multiplicities: filtering keeps x exactly as often as s holds it, or drops it. */
  lemma {:induction false} FilterMultiset<T>(f: T -> bool, s: seq<T>, x: T)
    ensures multiset(Filter(f, s))[x] == if f(x) then multiset(s)[x] else 0
    decreases |s|
  {
    if s != [] {
      FilterMultiset(f, s[..|s| - 1], x);
      assert s == s[..|s| - 1] + [s[|s| - 1]];
    }
  }

  /** The keys of s strictly increase along s. */
  predicate IncreasingBy<T>(key: T -> int, s: seq<T>) {
    forall i, j :: 0 <= i < j < |s| ==> key(s[i]) < key(s[j])
  }

  /** Filtering keeps the relative order of what it keeps. */
  lemma {:induction false} FilterIncreasing<T>(f: T -> bool, key: T -> int, s: seq<T>)
    requires IncreasingBy(key, s)
    ensures IncreasingBy(key, Filter(f, s))
    decreases |s|
  {
    if s != [] {
      var init, last := s[..|s| - 1], s[|s| - 1];
      assert IncreasingBy(key, init);
      FilterIncreasing(f, key, init);
      var r := Filter(f, init);
      assert forall x :: x in r ==> key(x) < key(last) by {
        forall x | x in r
          ensures key(x) < key(last)
        {
          var i :| 0 <= i < |init| && init[i] == x;
          assert s[i] == x;
        }
      }
    }
  }

  /** Filtering with a test every element passes changes nothing. */
  lemma {:induction false} FilterAll<T>(f: T -> bool, s: seq<T>)
    requires forall i :: 0 <= i < |s| ==> f(s[i])
    ensures Filter(f, s) == s
    decreases |s|
  {
    if s != [] {
      var init := s[..|s| - 1];
      FilterAll(f, init);
      assert f(s[|s| - 1]);
      assert Filter(f, s) == Filter(f, init) + [s[|s| - 1]];
      assert init + [s[|s| - 1]] == s;
    }
  }

  /** The last n elements of s (all of s if it is shorter): `s.slice(-n)`. */
  function KeepLast<T>(s: seq<T>, n: nat): (r: seq<T>)
    ensures |r| <= n && |r| <= |s|
    ensures r == s[|s| - |r|..]
    ensures |s| <= n ==> r == s
    ensures |s| >= n ==> |r| == n
  {
    if |s| <= n then s else s[|s| - n..]
  }
}
