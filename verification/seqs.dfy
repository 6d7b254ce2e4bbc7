/** Sequence operations the pages perform on their in-memory lists:
    `Array.prototype.filter`, `splice(i, 1)` and `indexOf` + `splice`. */
module Seqs {

  /** `a` is obtained from `b` by deleting elements, keeping the order. */
  ghost predicate IsSubseq<T>(a: seq<T>, b: seq<T>)
    decreases |b|
  {
    if a == [] then true
    else if b == [] then false
    else if a[0] == b[0] then IsSubseq(a[1..], b[1..])
    else IsSubseq(a, b[1..])
  }

  /** `s.filter(p)`: exactly the elements satisfying `p`, each with its
      multiplicity, in their original order. */
  function Filter<T(!new)>(s: seq<T>, p: T -> bool): (r: seq<T>)
    ensures |r| <= |s|
    ensures forall i :: 0 <= i < |r| ==> p(r[i])
    ensures forall x :: x in r <==> x in s && p(x)
    ensures forall x :: multiset(r)[x] == if p(x) then multiset(s)[x] else 0
  {
    if s == [] then []
    else
      var rest := Filter(s[1..], p);
      assert s == [s[0]] + s[1..];
      if p(s[0]) then [s[0]] + rest else rest
  }

  lemma {:induction false} FilterIsSubseq<T(!new)>(s: seq<T>, p: T -> bool)
    ensures IsSubseq(Filter(s, p), s)
  {
    if s != [] {
      FilterIsSubseq(s[1..], p);
      var rest := Filter(s[1..], p);
      if p(s[0]) {
        assert ([s[0]] + rest)[1..] == rest;
      } else {
        SubseqOfTail(rest, s);
      }
    }
  }

  lemma {:induction false} SubseqOfTail<T>(a: seq<T>, b: seq<T>)
    requires b != [] && IsSubseq(a, b[1..])
    ensures IsSubseq(a, b)
    decreases |b|, |a|
  {
    if a != [] && a[0] == b[0] {
      SubseqDropHead(a, b[1..]);
    }
  }

  lemma {:induction false} SubseqDropHead<T>(a: seq<T>, b: seq<T>)
    requires a != [] && IsSubseq(a, b)
    ensures IsSubseq(a[1..], b)
    decreases |b|, |a| + 1
  {
    if a[0] == b[0] {
      if a[1..] != [] {
        SubseqOfTail(a[1..], b);
      }
    } else {
      SubseqDropHead(a, b[1..]);
      if a[1..] != [] {
        SubseqOfTail(a[1..], b);
      }
    }
  }

  /** Filters that agree on the elements of `s` select the same list. */
  lemma {:induction false} FilterCongruent<T(!new)>(s: seq<T>, p: T -> bool, q: T -> bool)
    requires forall i :: 0 <= i < |s| ==> p(s[i]) == q(s[i])
    ensures Filter(s, p) == Filter(s, q)
  {
    if s != [] {
      FilterCongruent(s[1..], p, q);
    }
  }

  /** Two filters in a row select what their conjunction selects, so the
      order in which successive filters are applied does not matter. */
  lemma {:induction false} FilterFilter<T(!new)>(s: seq<T>, p: T -> bool, q: T -> bool, pq: T -> bool)
    requires forall i :: 0 <= i < |s| ==> pq(s[i]) == (p(s[i]) && q(s[i]))
    ensures Filter(Filter(s, p), q) == Filter(s, pq)
  {
    if s != [] {
      FilterFilter(s[1..], p, q, pq);
    }
  }

  /** A filter that keeps everything is the identity. */
  lemma {:induction false} FilterAll<T(!new)>(s: seq<T>, p: T -> bool)
    requires forall i :: 0 <= i < |s| ==> p(s[i])
    ensures Filter(s, p) == s
  {
    if s != [] {
      FilterAll(s[1..], p);
      assert s == [s[0]] + s[1..];
    }
  }

  /** A predicate and its negation split a list into two parts that together
      have its length. */
  lemma {:induction false} FilterPartition<T(!new)>(s: seq<T>, p: T -> bool, np: T -> bool)
    requires forall i :: 0 <= i < |s| ==> np(s[i]) == !p(s[i])
    ensures |Filter(s, p)| + |Filter(s, np)| == |s|
  {
    if s != [] {
      FilterPartition(s[1..], p, np);
    }
  }

  /** `s.splice(i, 1)` on a copy: the element at `i` is removed when `i` is an
      index of `s`; otherwise nothing changes. */
  function RemoveAt<T>(s: seq<T>, i: nat): (r: seq<T>)
    ensures i < |s| ==> |r| == |s| - 1
    ensures i < |s| ==> forall j :: 0 <= j < i ==> r[j] == s[j]
    ensures i < |s| ==> forall j :: i <= j < |r| ==> r[j] == s[j + 1]
    ensures i >= |s| ==> r == s
  {
    if i < |s| then s[..i] + s[i + 1..] else s
  }

  /** The position of the first occurrence of `x`, as `indexOf`. */
  function IndexOf<T(==)>(s: seq<T>, x: T): (k: int)
    ensures -1 <= k < |s|
    ensures k == -1 <==> x !in s
    ensures k >= 0 ==> s[k] == x && x !in s[..k]
  {
    if s == [] then -1
    else if s[0] == x then 0
    else
      var k := IndexOf(s[1..], x);
      if k == -1 then -1
      else
        assert s[..k + 1] == [s[0]] + s[1..][..k];
        k + 1
  }

  /** An occurrence at `j` bounds the first occurrence, and is it when `x`
      does not occur earlier. */
  lemma IndexOfAt<T>(s: seq<T>, x: T, j: nat)
    requires j < |s| && s[j] == x
    ensures 0 <= IndexOf(s, x) <= j
    ensures x !in s[..j] ==> IndexOf(s, x) == j
  {
  }

  /** `const i = s.indexOf(x); if (i > -1) s.splice(i, 1)`: the first
      occurrence of `x` is dropped and everything else keeps its order. */
  function RemoveFirst<T(==)>(s: seq<T>, x: T): (r: seq<T>)
    ensures x !in s ==> r == s
    ensures x in s ==> |r| == |s| - 1
    ensures x in s ==> r == s[..IndexOf(s, x)] + s[IndexOf(s, x) + 1..]
    ensures multiset(r) == multiset(s) - multiset{x}
  {
    var k := IndexOf(s, x);
    if k > -1 then
      assert s == s[..k] + [s[k]] + s[k + 1..];
      RemoveAt(s, k)
    else s
  }

  /** How many times `x` occurs in `s`. */
  function Occurrences<T(==)>(s: seq<T>, x: T): nat {
    multiset(s)[x]
  }

  predicate NoDuplicates<T(==)>(s: seq<T>) {
    forall i, j :: 0 <= i < j < |s| ==> s[i] != s[j]
  }
}
