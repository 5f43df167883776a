/** Order-preserving filtering and prefixes of sequences: the `filter` and
    `slice(0, n)` of the JavaScript arrays the core works on. */
module Seqs {

  /** `s.filter(p)`: the elements of `s` that satisfy `p`, in their order. */
  function Filter<T>(p: T -> bool, s: seq<T>): (r: seq<T>)
    ensures |r| <= |s|
    decreases |s|
  {
    if s == [] then []
    else (if p(s[0]) then [s[0]] else []) + Filter(p, s[1..])
  }

  /** What a filter keeps: elements of the input that satisfy the predicate,
      and every such element. */
  lemma {:induction false} FilterMembers<T>(p: T -> bool, s: seq<T>)
    ensures forall i :: 0 <= i < |Filter(p, s)| ==> Filter(p, s)[i] in s && p(Filter(p, s)[i])
    ensures forall i :: 0 <= i < |s| && p(s[i]) ==> s[i] in Filter(p, s)
    decreases |s|
  {
    if s != [] {
      FilterMembers(p, s[1..]);
      var r := Filter(p, s);
      forall i | 0 <= i < |s| && p(s[i])
        ensures s[i] in r
      {
        if i > 0 {
          assert s[i] == s[1..][i - 1];
        }
      }
    }
  }

  /** Filtering a sequence with a known first element. */
  lemma FilterCons<T>(p: T -> bool, x: T, s: seq<T>)
    ensures Filter(p, [x] + s) == (if p(x) then [x] else []) + Filter(p, s)
  {
    assert ([x] + s)[1..] == s;
  }

  /** The first element a filter keeps is the first that satisfies it. */
  lemma {:induction false} FirstOfFilter<T>(p: T -> bool, s: seq<T>, k: nat)
    requires k < |s| && p(s[k])
    requires forall j :: 0 <= j < k ==> !p(s[j])
    ensures Take(Filter(p, s), 1) == [s[k]]
    decreases k
  {
    if k > 0 {
      FirstOfFilter(p, s[1..], k - 1);
    }
  }

  /** `s.slice(0, n)`. */
  function Take<T>(s: seq<T>, n: nat): (r: seq<T>)
    ensures |r| == if |s| < n then |s| else n
    ensures forall i :: 0 <= i < |r| ==> r[i] == s[i]
  {
    if |s| <= n then s else s[..n]
  }

  /** `a` is `b` with some elements removed: order kept, nothing invented. */
  predicate IsSubsequence<T(==)>(a: seq<T>, b: seq<T>)
    decreases |b|
  {
    if a == [] then true
    else if b == [] then false
    else if a[0] == b[0] then IsSubsequence(a[1..], b[1..])
    else IsSubsequence(a, b[1..])
  }

  lemma {:induction false} FilterIsSubsequence<T>(p: T -> bool, s: seq<T>)
    ensures IsSubsequence(Filter(p, s), s)
    decreases |s|
  {
    if s != [] {
      FilterIsSubsequence(p, s[1..]);
      if !p(s[0]) {
        assert Filter(p, s) == Filter(p, s[1..]);
        SubsequenceOfTail(Filter(p, s[1..]), s);
      } else {
        assert Filter(p, s)[1..] == Filter(p, s[1..]);
      }
    }
  }

  lemma {:induction false} SubsequenceOfTail<T>(a: seq<T>, b: seq<T>)
    requires b != []
    requires IsSubsequence(a, b[1..])
    ensures IsSubsequence(a, b)
    decreases |b|, 1
  {
    if a != [] && a[0] == b[0] {
      // a[1..] is a subsequence of b[1..] because a is one of b[1..]
      SubsequenceDropHead(a, b[1..]);
    }
  }

  lemma {:induction false} SubsequenceDropHead<T>(a: seq<T>, b: seq<T>)
    requires a != []
    requires IsSubsequence(a, b)
    ensures IsSubsequence(a[1..], b)
    decreases |b| + 1, 0
  {
    if b != [] {
      if a[0] == b[0] {
        SubsequenceOfTail(a[1..], b);
      } else {
        SubsequenceDropHead(a, b[1..]);
        SubsequenceOfTail(a[1..], b);
      }
    }
  }

  /** Filtering by a predicate `q` that implies `p` on `s` keeps a
      subsequence of what filtering by `p` keeps. */
  lemma {:induction false} FilterStronger<T>(q: T -> bool, p: T -> bool, s: seq<T>)
    requires forall x :: x in s && q(x) ==> p(x)
    ensures IsSubsequence(Filter(q, s), Filter(p, s))
    decreases |s|
  {
    if s != [] {
      FilterStronger(q, p, s[1..]);
      var fq, fp := Filter(q, s), Filter(p, s);
      if q(s[0]) {
        assert fq[0] == s[0] == fp[0] && fq[1..] == Filter(q, s[1..]) && fp[1..] == Filter(p, s[1..]);
      } else if p(s[0]) {
        assert fp[1..] == Filter(p, s[1..]) && fq == Filter(q, s[1..]);
        SubsequenceOfTail(fq, fp);
      } else {
        assert fp == Filter(p, s[1..]) && fq == Filter(q, s[1..]);
      }
    }
  }

  /** A filter whose predicate holds everywhere returns its input. */
  lemma {:induction false} FilterAll<T>(p: T -> bool, s: seq<T>)
    requires forall x :: x in s ==> p(x)
    ensures Filter(p, s) == s
    decreases |s|
  {
    if s != [] {
      FilterAll(p, s[1..]);
    }
  }

  /** Filters agree when their predicates agree on the input. */
  lemma {:induction false} FilterCongruent<T>(p: T -> bool, q: T -> bool, s: seq<T>)
    requires forall x :: x in s ==> (p(x) <==> q(x))
    ensures Filter(p, s) == Filter(q, s)
    decreases |s|
  {
    if s != [] {
      FilterCongruent(p, q, s[1..]);
    }
  }

  /** Filtering a concatenation filters each part. */
  lemma {:induction false} FilterAppend<T>(p: T -> bool, a: seq<T>, b: seq<T>)
    ensures Filter(p, a + b) == Filter(p, a) + Filter(p, b)
    decreases |a|
  {
    if a == [] {
      assert a + b == b;
    } else {
      var head := if p(a[0]) then [a[0]] else [];
      assert (a + b)[0] == a[0] && (a + b)[1..] == a[1..] + b;
      FilterAppend(p, a[1..], b);
      calc {
        Filter(p, a + b);
        head + Filter(p, a[1..] + b);
        head + (Filter(p, a[1..]) + Filter(p, b));
        (head + Filter(p, a[1..])) + Filter(p, b);
        Filter(p, a) + Filter(p, b);
      }
    }
  }
}
