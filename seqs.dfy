/** Sequence helpers shared by the stores and the views: the `Array.prototype.filter`
    that both `deleteCommand` and the console's log filter are built on, and the
    order-preservation and duplicate-freedom notions their contracts are stated in. */
module Seqs {

  /** `a` can be obtained from `b` by deleting elements: relative order is kept and
      nothing is invented. */
  predicate IsSubsequence<T(==)>(a: seq<T>, b: seq<T>)
    decreases |b|
  {
    if a == [] then true
    else if b == [] then false
    else (a[0] == b[0] && IsSubsequence(a[1..], b[1..])) || IsSubsequence(a, b[1..])
  }

  /** No element occurs twice: the insertion-ordered contents of a JavaScript `Set`. */
  predicate NoDuplicates<T(==)>(s: seq<T>)
  {
    forall i, j :: 0 <= i < j < |s| ==> s[i] != s[j]
  }

  /** `s.filter(p)`: the elements of `s` that satisfy `p`, in their original order. */
  function Keep<T(==,!new)>(s: seq<T>, p: T -> bool): (r: seq<T>)
    ensures |r| <= |s|
    ensures forall x :: x in r <==> x in s && p(x)
    ensures IsSubsequence(r, s)
    ensures forall x :: multiset(r)[x] == if p(x) then multiset(s)[x] else 0
  {
    if s == [] then []
    else
      assert s == [s[0]] + s[1..];
      if p(s[0]) then [s[0]] + Keep(s[1..], p)
      else Keep(s[1..], p)
  }

  /** A filter that rejects nothing returns its input unchanged. */
  lemma {:induction false} KeepAll<T(!new)>(s: seq<T>, p: T -> bool)
    requires forall x :: x in s ==> p(x)
    ensures Keep(s, p) == s
  {
    if s != [] {
      assert s[0] in s;
      forall x | x in s[1..] ensures p(x) { assert x in s; }
      KeepAll(s[1..], p);
      assert s == [s[0]] + s[1..];
    }
  }

  /** Filters that agree on every element of `s` select the same subsequence. */
  lemma {:induction false} KeepSame<T(!new)>(s: seq<T>, p: T -> bool, q: T -> bool)
    requires forall x :: x in s ==> p(x) == q(x)
    ensures Keep(s, p) == Keep(s, q)
  {
    if s != [] {
      assert s[0] in s;
      forall x | x in s[1..] ensures p(x) == q(x) { assert x in s; }
      KeepSame(s[1..], p, q);
    }
  }

  /** Filtering keeps a sequence duplicate-free. */
  lemma {:induction false} KeepNoDuplicates<T(!new)>(s: seq<T>, p: T -> bool)
    requires NoDuplicates(s)
    ensures NoDuplicates(Keep(s, p))
  {
    if s != [] {
      TailNoDuplicates(s);
      KeepNoDuplicates(s[1..], p);
      if p(s[0]) {
        var t := Keep(s[1..], p);
        assert s[0] !in t;
        PrependNoDuplicates(s[0], t);
      }
    }
  }

  /** The tail of a duplicate-free sequence is duplicate-free and lacks the head. */
  lemma TailNoDuplicates<T>(s: seq<T>)
    requires s != [] && NoDuplicates(s)
    ensures NoDuplicates(s[1..]) && s[0] !in s[1..]
  {
    forall i, j | 0 <= i < j < |s[1..]| ensures s[1..][i] != s[1..][j] {
      assert s[1..][i] == s[i + 1] && s[1..][j] == s[j + 1];
    }
    forall k | 0 <= k < |s[1..]| ensures s[1..][k] != s[0] { assert s[1..][k] == s[k + 1]; }
  }

  /** Putting an element in front of a duplicate-free sequence that lacks it keeps it duplicate-free. */
  lemma PrependNoDuplicates<T>(x: T, t: seq<T>)
    requires NoDuplicates(t) && x !in t
    ensures NoDuplicates([x] + t)
  {
    var r := [x] + t;
    forall i, j | 0 <= i < j < |r| ensures r[i] != r[j] {
      if i == 0 { assert r[j] == t[j - 1]; assert r[j] in t; }
      else { assert r[i] == t[i - 1] && r[j] == t[j - 1]; }
    }
  }

  /** Appending a new element to a duplicate-free sequence that lacks it keeps it duplicate-free. */
  lemma AppendNoDuplicates<T>(s: seq<T>, x: T)
    requires NoDuplicates(s) && x !in s
    ensures NoDuplicates(s + [x])
  {
    var r := s + [x];
    forall i, j | 0 <= i < j < |r| ensures r[i] != r[j] {
      if j == |s| { assert r[i] == s[i]; assert s[i] in s; }
      else { assert r[i] == s[i] && r[j] == s[j]; }
    }
  }

  /** Appending three elements one at a time appends their display. */
  lemma AppendThree<T>(h: seq<T>, a: T, b: T, c: T)
    ensures h + [a] + [b] + [c] == h + [a, b, c]
  {
  }

  /** Appending four elements one at a time appends their display. */
  lemma AppendFour<T>(h: seq<T>, a: T, b: T, c: T, d: T)
    ensures h + [a] + [b] + [c] + [d] == h + [a, b, c, d]
  {
  }

  /** Appending six elements one at a time appends their display. */
  lemma AppendSix<T>(h: seq<T>, a: T, b: T, c: T, d: T, e: T, f: T)
    ensures h + [a] + [b] + [c] + [d] + [e] + [f] == h + [a, b, c, d, e, f]
  {
  }

  /** Appending two blocks one after the other appends their concatenation. */
  lemma AppendThen<T>(h: seq<T>, xs: seq<T>, ys: seq<T>)
    ensures h + xs + ys == h + (xs + ys)
  {
  }

  /** A single append followed by a block is one append. */
  lemma AppendOneThen<T>(h: seq<T>, a: T, xs: seq<T>)
    ensures h + [a] + xs == h + ([a] + xs)
  {
  }
}
