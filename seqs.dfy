/** The three array operations the application is built from, as functions on
    sequences: `filter`, `find` and a `map` that rewrites only the elements a
    predicate selects. */
module Seqs {
  import opened Optional

  /** `a` is an order-preserving subsequence of `b`. */
  predicate IsSubsequence<T(==)>(a: seq<T>, b: seq<T>)
    decreases |b|
  {
    if a == [] then true
    else if b == [] then false
    else if a[0] == b[0] then IsSubsequence(a[1..], b[1..])
    else IsSubsequence(a, b[1..])
  }

  /** `Array.prototype.filter`: the elements of `s` that satisfy `p`, in order. */
  function Filter<T(==)>(s: seq<T>, p: T -> bool): (r: seq<T>)
    ensures |r| <= |s|
    ensures forall i :: 0 <= i < |r| ==> r[i] in s && p(r[i])
    ensures forall i :: 0 <= i < |s| && p(s[i]) ==> s[i] in r
    decreases |s|
  {
    if s == [] then [] else (if p(s[0]) then [s[0]] else []) + Filter(s[1..], p)
  }

  lemma {:induction false} FilterIsSubsequence<T>(s: seq<T>, p: T -> bool)
    ensures IsSubsequence(Filter(s, p), s)
    decreases |s|
  {
    if s != [] {
      FilterIsSubsequence(s[1..], p);
      if p(s[0]) {
        assert Filter(s, p) == [s[0]] + Filter(s[1..], p);
        assert Filter(s, p)[1..] == Filter(s[1..], p);
      } else {
        assert Filter(s, p) == Filter(s[1..], p);
        SubsequenceOfTail(Filter(s[1..], p), s);
      }
    }
  }

  lemma {:induction false} SubsequenceOfTail<T>(a: seq<T>, b: seq<T>)
    requires b != [] && IsSubsequence(a, b[1..])
    ensures IsSubsequence(a, b)
    decreases |b|, 0
  {
    if a != [] && a[0] == b[0] {
      // a[0] also occurs in b[1..]; take it there one step later
      SubsequenceDropHead(a, b[1..]);
    }
  }

  lemma {:induction false} SubsequenceDropHead<T>(a: seq<T>, b: seq<T>)
    requires a != [] && IsSubsequence(a, b)
    ensures IsSubsequence(a[1..], b)
    decreases |b|, 1
  {
    if b != [] {
      if a[0] == b[0] {
        SubsequenceOfTail(a[1..], b);
      } else {
        SubsequenceDropHead(a, b[1..]);
        SubsequenceOfTail(a[1..], b);
      }
    }
  }

  /** Filtering distributes over concatenation: appending a record to a list
      appends it to every filtered view it belongs to. */
  lemma {:induction false} FilterConcat<T>(a: seq<T>, b: seq<T>, p: T -> bool)
    ensures Filter(a + b, p) == Filter(a, p) + Filter(b, p)
    decreases |a|
  {
    if a == [] {
      assert a + b == b;
    } else {
      assert (a + b)[1..] == a[1..] + b;
      FilterConcat(a[1..], b, p);
    }
  }

  /** Filtering by a predicate that implies another is filtering the other's
      result by it, so a narrower filter keeps a sub-list of a wider one. */
  lemma {:induction false} FilterNarrower<T>(s: seq<T>, p: T -> bool, q: T -> bool)
    requires forall i :: 0 <= i < |s| && p(s[i]) ==> q(s[i])
    ensures Filter(s, p) == Filter(Filter(s, q), p)
    decreases |s|
  {
    if s != [] {
      FilterNarrower(s[1..], p, q);
      if q(s[0]) {
        assert Filter(s, q) == [s[0]] + Filter(s[1..], q);
        FilterConcat([s[0]], Filter(s[1..], q), p);
        assert [s[0]][1..] == [];
      } else {
        assert Filter(s, q) == Filter(s[1..], q);
        assert Filter(s, p) == Filter(s[1..], p);
      }
    }
  }

  /** A filter that keeps no element gives the empty list. */
  lemma {:induction false} FilterKeepsNone<T>(s: seq<T>, p: T -> bool)
    requires forall i :: 0 <= i < |s| ==> !p(s[i])
    ensures Filter(s, p) == []
    decreases |s|
  {
    if s != [] {
      FilterKeepsNone(s[1..], p);
    }
  }

  /** A filter that keeps every element is the identity. */
  lemma {:induction false} FilterKeepsAll<T>(s: seq<T>, p: T -> bool)
    requires forall i :: 0 <= i < |s| ==> p(s[i])
    ensures Filter(s, p) == s
    decreases |s|
  {
    if s != [] {
      FilterKeepsAll(s[1..], p);
    }
  }

  /** Two complementary filters split a list: their lengths add up to its length. */
  lemma {:induction false} FilterComplementCount<T>(s: seq<T>, p: T -> bool, q: T -> bool)
    requires forall i :: 0 <= i < |s| ==> q(s[i]) == !p(s[i])
    ensures |Filter(s, p)| + |Filter(s, q)| == |s|
    decreases |s|
  {
    if s != [] {
      FilterComplementCount(s[1..], p, q);
    }
  }

  /** A filter whose predicate is the disjoint union of two others is as long
      as those two filters together. */
  lemma {:induction false} FilterSplitCount<T>(s: seq<T>, p: T -> bool, a: T -> bool, b: T -> bool)
    requires forall i :: 0 <= i < |s| ==> p(s[i]) == (a(s[i]) || b(s[i])) && !(a(s[i]) && b(s[i]))
    ensures |Filter(s, p)| == |Filter(s, a)| + |Filter(s, b)|
    decreases |s|
  {
    if s != [] {
      FilterSplitCount(s[1..], p, a, b);
    }
  }

  /** Two lists of one length that agree wherever either element is kept
      filter to the same list. */
  lemma {:induction false} FilterAgreeing<T>(s: seq<T>, t: seq<T>, p: T -> bool)
    requires |s| == |t|
    requires forall i :: 0 <= i < |s| && (p(s[i]) || p(t[i])) ==> s[i] == t[i]
    ensures Filter(s, p) == Filter(t, p)
    decreases |s|
  {
    if s != [] {
      FilterAgreeing(s[1..], t[1..], p);
    }
  }

  /** `i` is the position `Array.prototype.find` stops at. */
  predicate IsFirstMatch<T>(s: seq<T>, p: T -> bool, i: int) {
    0 <= i < |s| && p(s[i]) && forall j :: 0 <= j < i ==> !p(s[j])
  }

  /** There is at most one first match. */
  lemma FirstMatchUnique<T>(s: seq<T>, p: T -> bool, i: int, j: int)
    requires IsFirstMatch(s, p, i) && IsFirstMatch(s, p, j)
    ensures i == j
  {
  }

  /** `Array.prototype.find`: the first element of `s` satisfying `p`, if any. */
  function Find<T(==)>(s: seq<T>, p: T -> bool): (r: Option<T>)
    ensures r.None? <==> forall j :: 0 <= j < |s| ==> !p(s[j])
    ensures r.Some? ==> exists i :: IsFirstMatch(s, p, i) && s[i] == r.value
    decreases |s|
  {
    if s == [] then None
    else if p(s[0]) then (assert IsFirstMatch(s, p, 0); Some(s[0]))
    else
      var r := Find(s[1..], p);
      if r.Some? then
        var i :| IsFirstMatch(s[1..], p, i) && s[1..][i] == r.value;
        assert IsFirstMatch(s, p, i + 1);
        r
      else r
  }

  /** `find` on a concatenation looks in the second part only when the first
      has no match. */
  lemma {:induction false} FindConcat<T>(a: seq<T>, b: seq<T>, p: T -> bool)
    ensures Find(a + b, p) == if Find(a, p).Some? then Find(a, p) else Find(b, p)
    decreases |a|
  {
    if a == [] {
      assert a + b == b;
    } else {
      assert (a + b)[1..] == a[1..] + b;
      FindConcat(a[1..], b, p);
    }
  }

  /** `list.map(x => hit(x) ? f(x) : x)`: the shape of every update in the store. */
  function MapWhere<T>(s: seq<T>, hit: T -> bool, f: T -> T): (r: seq<T>)
    ensures |r| == |s|
    ensures forall i :: 0 <= i < |s| ==> r[i] == if hit(s[i]) then f(s[i]) else s[i]
  {
    seq(|s|, i requires 0 <= i < |s| => if hit(s[i]) then f(s[i]) else s[i])
  }

  /** `list.map(f)`. */
  function Map<T, U>(s: seq<T>, f: T -> U): (r: seq<U>)
    ensures |r| == |s|
    ensures forall i :: 0 <= i < |s| ==> r[i] == f(s[i])
  {
    seq(|s|, i requires 0 <= i < |s| => f(s[i]))
  }

  /** The keys of `s` never decrease from left to right. */
  predicate SortedBy<T>(s: seq<T>, key: T -> int) {
    forall i, j :: 0 <= i < j < |s| ==> key(s[i]) <= key(s[j])
  }

  /** Filtering keeps every lower bound of the keys. */
  lemma {:induction false} FilterKeepsBound<T>(s: seq<T>, p: T -> bool, key: T -> int, b: int)
    requires forall i :: 0 <= i < |s| ==> b <= key(s[i])
    ensures forall i :: 0 <= i < |Filter(s, p)| ==> b <= key(Filter(s, p)[i])
    decreases |s|
  {
    if s != [] {
      FilterKeepsBound(s[1..], p, key, b);
    }
  }

  /** A key no greater than the keys of a sorted list can go in front of it. */
  lemma ConsSorted<T>(x: T, rest: seq<T>, key: T -> int)
    requires SortedBy(rest, key)
    requires forall i :: 0 <= i < |rest| ==> key(x) <= key(rest[i])
    ensures SortedBy([x] + rest, key)
  {
    var r := [x] + rest;
    forall i, j | 0 <= i < j < |r| ensures key(r[i]) <= key(r[j]) {
      assert r[j] == rest[j - 1];
      if i > 0 {
        assert r[i] == rest[i - 1];
      }
    }
  }

  /** Filtering keeps a sorted list sorted. */
  lemma {:induction false} FilterKeepsSorted<T>(s: seq<T>, p: T -> bool, key: T -> int)
    requires SortedBy(s, key)
    ensures SortedBy(Filter(s, p), key)
    decreases |s|
  {
    if s != [] {
      var tail := s[1..];
      assert SortedBy(tail, key) by {
        forall i, j | 0 <= i < j < |tail| ensures key(tail[i]) <= key(tail[j]) {
          assert tail[i] == s[i + 1] && tail[j] == s[j + 1];
        }
      }
      FilterKeepsSorted(tail, p, key);
      if p(s[0]) {
        assert forall i :: 0 <= i < |tail| ==> key(s[0]) <= key(tail[i]) by {
          forall i | 0 <= i < |tail| ensures key(s[0]) <= key(tail[i]) {
            assert tail[i] == s[i + 1];
          }
        }
        FilterKeepsBound(tail, p, key, key(s[0]));
        ConsSorted(s[0], Filter(tail, p), key);
      }
    }
  }

  /** No value occurs twice. */
  predicate Distinct<T(==)>(s: seq<T>) {
    forall i, j :: 0 <= i < |s| && 0 <= j < |s| && i != j ==> s[i] != s[j]
  }
}
