/**
 * Sequences as Python lists: filtering comprehensions, slicing with Python's
 * negative-index rules, and `list.sort`, which is a stable sort (also with
 * `reverse=True`, where ties still keep their input order).
 */
module Sorting {

  /** `[x for x in s if p(x)]`. */
  function Filter<T(!new)>(s: seq<T>, p: T -> bool): (r: seq<T>)
    ensures |r| <= |s|
    ensures forall x :: x in r <==> x in s && p(x)
  {
    if s == [] then []
    else if p(s[0]) then [s[0]] + Filter(s[1..], p)
    else Filter(s[1..], p)
  }

  /** A filter that rejects exactly the positions `lo` to `hi - 1` cuts that slice out. */
  lemma {:induction false} FilterDropsSlice<T(!new)>(s: seq<T>, lo: nat, hi: nat, p: T -> bool)
    requires lo <= hi <= |s|
    requires forall i :: 0 <= i < |s| ==> (p(s[i]) <==> !(lo <= i < hi))
    ensures Filter(s, p) == s[..lo] + s[hi..]
  {
    if s != [] {
      var t := s[1..];
      var lo', hi' := if lo > 0 then lo - 1 else 0, if hi > 0 then hi - 1 else 0;
      forall i | 0 <= i < |t| ensures p(t[i]) <==> !(lo' <= i < hi') {
        assert t[i] == s[i + 1];
      }
      FilterDropsSlice(t, lo', hi', p);
      SliceAfterHead(s, lo, hi);
      if lo > 0 || hi == 0 {
        assert p(s[0]);
        assert Filter(s, p) == [s[0]] + Filter(t, p);
      } else {
        assert !p(s[0]);
        assert Filter(s, p) == Filter(t, p);
      }
    }
  }

  /** The slices of `s` around `lo` and `hi`, through its tail. */
  lemma SliceAfterHead<T>(s: seq<T>, lo: nat, hi: nat)
    requires lo <= hi <= |s| && s != []
    ensures var t := s[1..];
      && (lo > 0 ==> s[..lo] + s[hi..] == [s[0]] + (t[..lo - 1] + t[hi - 1..]))
      && (lo == 0 < hi ==> s[..lo] + s[hi..] == t[..0] + t[hi - 1..])
      && (hi == 0 ==> s[..lo] + s[hi..] == [s[0]] + (t[..0] + t[0..]))
  {
    var t := s[1..];
    if lo > 0 {
      var a, b := s[..lo], [s[0]] + t[..lo - 1];
      assert |a| == |b|;
      forall k | 0 <= k < lo ensures a[k] == b[k] {
        if k > 0 { assert b[k] == t[k - 1]; }
      }
      assert s[hi..] == t[hi - 1..];
    } else if hi > 0 {
      assert s[hi..] == t[hi - 1..];
    } else {
      assert s == [s[0]] + t;
    }
  }

  /** Filtering twice keeps what both filters keep, in the same order. */
  lemma {:induction false} FilterTwice<T(!new)>(s: seq<T>, p: T -> bool, q: T -> bool, pq: T -> bool)
    requires forall x :: pq(x) == (p(x) && q(x))
    ensures Filter(Filter(s, p), q) == Filter(s, pq)
  {
    if s != [] {
      FilterTwice(s[1..], p, q, pq);
    }
  }

  /** Filters that agree on every element keep the same elements. */
  lemma {:induction false} FilterSame<T(!new)>(s: seq<T>, p: T -> bool, q: T -> bool)
    requires forall x :: p(x) == q(x)
    ensures Filter(s, p) == Filter(s, q)
  {
    if s != [] {
      FilterSame(s[1..], p, q);
    }
  }

  /** A filter every element passes keeps the whole sequence. */
  lemma {:induction false} FilterKeepsAll<T(!new)>(s: seq<T>, p: T -> bool)
    requires forall x :: x in s ==> p(x)
    ensures Filter(s, p) == s
  {
    if s != [] {
      assert forall x :: x in s[1..] ==> x in s;
      FilterKeepsAll(s[1..], p);
    }
  }

  /** Number of elements of `s` satisfying `p`. */
  function CountIf<T>(s: seq<T>, p: T -> bool): nat
  {
    if s == [] then 0 else (if p(s[0]) then 1 else 0) + CountIf(s[1..], p)
  }

  /** Python's normalisation of a slice bound `k` against a list of length `n`. */
  function SliceBound(k: int, n: nat): (b: nat)
    ensures b <= n
    ensures 0 <= k <= n ==> b == k
    ensures k > n ==> b == n
  {
    if k < 0 then (if n + k < 0 then 0 else n + k)
    else if k > n then n
    else k
  }

  /** `s[:k]` in Python: a negative `k` drops `-k` elements from the end. */
  function Take<T>(s: seq<T>, k: int): (r: seq<T>)
    ensures r == s[..SliceBound(k, |s|)]
    ensures 0 <= k ==> |r| == if k <= |s| then k else |s|
  {
    s[..SliceBound(k, |s|)]
  }

  /** `s[k:]` in Python. */
  function Drop<T>(s: seq<T>, k: int): (r: seq<T>)
    ensures r == s[SliceBound(k, |s|)..]
    ensures Take(s, k) + r == s
  {
    s[SliceBound(k, |s|)..]
  }

  /** `s[a:b]` in Python. */
  function Slice<T>(s: seq<T>, a: int, b: int): (r: seq<T>)
    ensures var lo, hi := SliceBound(a, |s|), SliceBound(b, |s|);
      r == if lo <= hi then s[lo..hi] else []
  {
    var lo, hi := SliceBound(a, |s|), SliceBound(b, |s|);
    if lo <= hi then s[lo..hi] else []
  }

  /** The first components of a list of pairs: a dict's keys, or the actual labels of `(actual, predicted)` pairs. */
  function Firsts<A, B>(ps: seq<(A, B)>): (r: seq<A>)
    ensures |r| == |ps| && forall i :: 0 <= i < |ps| ==> r[i] == ps[i].0
  {
    seq(|ps|, i requires 0 <= i < |ps| => ps[i].0)
  }

  /** The second components of a list of pairs: the predicted labels of `(actual, predicted)` pairs. */
  function Seconds<A, B>(ps: seq<(A, B)>): (r: seq<B>)
    ensures |r| == |ps| && forall i :: 0 <= i < |ps| ==> r[i] == ps[i].1
  {
    seq(|ps|, i requires 0 <= i < |ps| => ps[i].1)
  }

  /** `le(a, b)`: `a` may be placed before `b`. A sort key must be total and transitive. */
  ghost predicate TotalPreorder<T(!new)>(le: (T, T) -> bool)
  {
    && (forall a, b :: le(a, b) || le(b, a))
    && (forall a, b, c :: le(a, b) && le(b, c) ==> le(a, c))
  }

  ghost predicate Sorted<T>(s: seq<T>, le: (T, T) -> bool)
  {
    forall i, j :: 0 <= i < j < |s| ==> le(s[i], s[j])
  }

  /**
   * Two elements that are tied under `le` appear in the order of `pos`,
   * the position they had in the input.
   */
  ghost predicate TiesInOrder<T>(s: seq<T>, le: (T, T) -> bool, pos: T -> int)
  {
    forall i, j :: 0 <= i < j < |s| && le(s[j], s[i]) ==> pos(s[i]) < pos(s[j])
  }

  ghost predicate Increasing<T>(s: seq<T>, pos: T -> int)
  {
    forall i, j :: 0 <= i < j < |s| ==> pos(s[i]) < pos(s[j])
  }

  /** Inserts `x` after every element that may precede it. */
  function Insert<T>(t: seq<T>, x: T, le: (T, T) -> bool): (r: seq<T>)
    ensures |r| == |t| + 1
    ensures multiset(r) == multiset(t) + multiset{x}
  {
    if t == [] then [x]
    else if le(t[0], x) then
      assert t == [t[0]] + t[1..];
      [t[0]] + Insert(t[1..], x, le)
    else [x] + t
  }

  /** Stable insertion sort: the reference definition of Python's `list.sort(key=...)`. */
  function Sort<T>(s: seq<T>, le: (T, T) -> bool): (r: seq<T>)
    ensures |r| == |s|
    ensures multiset(r) == multiset(s)
  {
    if s == [] then []
    else
      assert s == s[..|s| - 1] + [s[|s| - 1]];
      Insert(Sort(s[..|s| - 1], le), s[|s| - 1], le)
  }

  lemma {:induction false} InsertSorted<T(!new)>(t: seq<T>, x: T, le: (T, T) -> bool)
    requires TotalPreorder(le)
    requires Sorted(t, le)
    ensures Sorted(Insert(t, x, le), le)
  {
    if t != [] {
      var r := Insert(t, x, le);
      if le(t[0], x) {
        var rest := Insert(t[1..], x, le);
        InsertSorted(t[1..], x, le);
        forall j | 0 <= j < |rest| ensures le(t[0], rest[j]) {
          assert rest[j] in multiset(rest);
          if rest[j] != x {
            assert rest[j] in multiset(t[1..]);
            var k :| 0 <= k < |t[1..]| && t[1..][k] == rest[j];
            assert t[1 + k] == rest[j];
          }
        }
        assert r == [t[0]] + rest;
        forall i, j | 0 <= i < j < |r| ensures le(r[i], r[j]) {
          if i > 0 { assert r[i] == rest[i - 1] && r[j] == rest[j - 1]; }
          else { assert r[j] == rest[j - 1]; }
        }
      } else {
        assert le(x, t[0]);
        forall i, j | 0 <= i < j < |r| ensures le(r[i], r[j]) {
          if i > 0 { assert r[i] == t[i - 1] && r[j] == t[j - 1]; }
          else {
            assert r[j] == t[j - 1];
            if j > 1 { assert le(t[0], t[j - 1]); }
          }
        }
      }
    }
  }

  /** No element after the insertion point may precede `x`. */
  lemma {:induction false} NoneAfterPrecedes<T(!new)>(t: seq<T>, x: T, le: (T, T) -> bool)
    requires TotalPreorder(le)
    requires Sorted(t, le) && t != [] && !le(t[0], x)
    ensures forall k :: 0 <= k < |t| ==> !le(t[k], x)
  {
    forall k | 0 < k < |t| ensures !le(t[k], x) {
      assert le(t[0], t[k]);
    }
  }

  lemma {:induction false} InsertTiesInOrder<T(!new)>(t: seq<T>, x: T, le: (T, T) -> bool, pos: T -> int)
    requires TotalPreorder(le)
    requires Sorted(t, le) && TiesInOrder(t, le, pos)
    requires forall k :: 0 <= k < |t| ==> pos(t[k]) < pos(x)
    ensures TiesInOrder(Insert(t, x, le), le, pos)
  {
    if t != [] {
      if le(t[0], x) {
        var rest := Insert(t[1..], x, le);
        TailKeepsOrder(t, le, pos);
        InsertTiesInOrder(t[1..], x, le, pos);
        HeadBeforeRest(t, x, le, pos, rest);
        ConsTiesInOrder(t[0], rest, le, pos);
        assert Insert(t, x, le) == [t[0]] + rest;
      } else {
        NoneAfterPrecedes(t, x, le);
        ConsTiesInOrder(x, t, le, pos);
        assert Insert(t, x, le) == [x] + t;
      }
    }
  }

  /** The tail of an ordered sequence is ordered in both senses. */
  lemma TailKeepsOrder<T>(t: seq<T>, le: (T, T) -> bool, pos: T -> int)
    requires t != [] && Sorted(t, le) && TiesInOrder(t, le, pos)
    ensures Sorted(t[1..], le) && TiesInOrder(t[1..], le, pos)
  {
    var u := t[1..];
    forall i, j | 0 <= i < j < |u| ensures le(u[i], u[j]) {
      assert u[i] == t[i + 1] && u[j] == t[j + 1];
    }
    forall i, j | 0 <= i < j < |u| && le(u[j], u[i]) ensures pos(u[i]) < pos(u[j]) {
      assert u[i] == t[i + 1] && u[j] == t[j + 1];
    }
  }

  /** The head of `t` comes before every element of the rest it may tie with. */
  lemma HeadBeforeRest<T>(t: seq<T>, x: T, le: (T, T) -> bool, pos: T -> int, rest: seq<T>)
    requires t != [] && TiesInOrder(t, le, pos)
    requires forall k :: 0 <= k < |t| ==> pos(t[k]) < pos(x)
    requires rest == Insert(t[1..], x, le)
    ensures forall j :: 0 <= j < |rest| ==> pos(t[0]) < pos(rest[j]) || !le(rest[j], t[0])
  {
    forall j | 0 <= j < |rest| ensures pos(t[0]) < pos(rest[j]) || !le(rest[j], t[0]) {
      assert rest[j] in multiset(rest);
      if rest[j] != x {
        assert rest[j] in multiset(t[1..]);
        var k :| 0 <= k < |t[1..]| && t[1..][k] == rest[j];
        assert t[1 + k] == rest[j];
      }
    }
  }

  /** An element put in front keeps ties in order when it precedes every element it ties with. */
  lemma ConsTiesInOrder<T>(h: T, rest: seq<T>, le: (T, T) -> bool, pos: T -> int)
    requires TiesInOrder(rest, le, pos)
    requires forall j :: 0 <= j < |rest| ==> pos(h) < pos(rest[j]) || !le(rest[j], h)
    ensures TiesInOrder([h] + rest, le, pos)
  {
    var r := [h] + rest;
    forall i, j | 0 <= i < j < |r| && le(r[j], r[i]) ensures pos(r[i]) < pos(r[j]) {
      assert r[j] == rest[j - 1];
      if i > 0 { assert r[i] == rest[i - 1]; }
    }
  }

  /** The result of `Sort` is ordered by `le`. */
  lemma {:induction false} SortSorted<T(!new)>(s: seq<T>, le: (T, T) -> bool)
    requires TotalPreorder(le)
    ensures Sorted(Sort(s, le), le)
  {
    if s != [] {
      SortSorted(s[..|s| - 1], le);
      InsertSorted(Sort(s[..|s| - 1], le), s[|s| - 1], le);
    }
  }

  /** `Sort` is stable: tied elements keep the order they had in `s`. */
  lemma {:induction false} SortTiesInOrder<T(!new)>(s: seq<T>, le: (T, T) -> bool, pos: T -> int)
    requires TotalPreorder(le)
    requires Increasing(s, pos)
    ensures TiesInOrder(Sort(s, le), le, pos)
  {
    if s != [] {
      var init, x := s[..|s| - 1], s[|s| - 1];
      var t := Sort(init, le);
      SortTiesInOrder(init, le, pos);
      SortSorted(init, le);
      forall k | 0 <= k < |t| ensures pos(t[k]) < pos(x) {
        assert t[k] in multiset(t);
        assert t[k] in multiset(init);
        var m :| 0 <= m < |init| && init[m] == t[k];
        assert s[m] == t[k];
      }
      InsertTiesInOrder(t, x, le, pos);
    }
  }
}
