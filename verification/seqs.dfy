/** Generic sequence operations: order-preserving filtering, subsequences and sums. */
module Seqs {

  /** `s.filter(keep)`: the elements passing `keep`, in their original order. */
  function Filter<T>(s: seq<T>, keep: T -> bool): (r: seq<T>)
    ensures |r| <= |s|
  {
    if |s| == 0 then [] else (if keep(s[0]) then [s[0]] else []) + Filter(s[1..], keep)
  }

  /** `a` can be obtained from `b` by deleting elements, keeping the rest in order. */
  predicate IsSubsequence<T(==)>(a: seq<T>, b: seq<T>)
    decreases |b|
  {
    if |a| == 0 then true
    else if |b| == 0 then false
    else (a[0] == b[0] && IsSubsequence(a[1..], b[1..])) || IsSubsequence(a, b[1..])
  }

  /** `s.reduce((acc, x) => acc + f(x), 0)`. */
  function Sum<T>(s: seq<T>, f: T -> int): int
  {
    if |s| == 0 then 0 else f(s[0]) + Sum(s[1..], f)
  }

  /** An element survives filtering exactly when it was there and passes the test. */
  lemma {:induction false} FilterMembership<T>(s: seq<T>, keep: T -> bool, x: T)
    ensures x in Filter(s, keep) <==> x in s && keep(x)
  {
    if |s| > 0 {
      FilterMembership(s[1..], keep, x);
      assert s == [s[0]] + s[1..];
    }
  }

  /** Filtering is the identity when every element passes. */
  lemma {:induction false} FilterIdentity<T>(s: seq<T>, keep: T -> bool)
    requires forall i :: 0 <= i < |s| ==> keep(s[i])
    ensures Filter(s, keep) == s
  {
    if |s| > 0 {
      FilterIdentity(s[1..], keep);
    }
  }

  /** Two tests that agree on every element filter alike. */
  lemma {:induction false} FilterExtensional<T>(s: seq<T>, f: T -> bool, g: T -> bool)
    requires forall i :: 0 <= i < |s| ==> f(s[i]) == g(s[i])
    ensures Filter(s, f) == Filter(s, g)
  {
    if |s| > 0 {
      FilterExtensional(s[1..], f, g);
    }
  }

  /** Filtering distributes over concatenation. */
  lemma {:induction false} FilterAppend<T>(a: seq<T>, b: seq<T>, keep: T -> bool)
    ensures Filter(a + b, keep) == Filter(a, keep) + Filter(b, keep)
  {
    if |a| > 0 {
      assert (a + b)[1..] == a[1..] + b;
      FilterAppend(a[1..], b, keep);
    } else {
      assert a + b == b;
    }
  }

  /** Two filters in a row are one filter by the conjunction of their tests. */
  lemma {:induction false} FilterFused<T>(s: seq<T>, first: T -> bool, second: T -> bool, both: T -> bool)
    requires forall i :: 0 <= i < |s| ==> both(s[i]) == (first(s[i]) && second(s[i]))
    ensures Filter(Filter(s, first), second) == Filter(s, both)
  {
    if |s| > 0 {
      var head := if first(s[0]) then [s[0]] else [];
      FilterAppend(head, Filter(s[1..], first), second);
      FilterFused(s[1..], first, second, both);
    }
  }

  /** A filtered sequence is an order-preserving subsequence of its input. */
  lemma {:induction false} FilterIsSubsequence<T>(s: seq<T>, keep: T -> bool)
    ensures IsSubsequence(Filter(s, keep), s)
  {
    if |s| > 0 {
      FilterIsSubsequence(s[1..], keep);
      var r := Filter(s, keep);
      if keep(s[0]) {
        assert r[0] == s[0] && r[1..] == Filter(s[1..], keep);
      } else {
        assert r == Filter(s[1..], keep);
      }
    }
  }

  /** Every element of a filtered sequence passes the test. */
  lemma {:induction false} FilterAllPass<T>(s: seq<T>, keep: T -> bool)
    ensures forall i :: 0 <= i < |Filter(s, keep)| ==> keep(Filter(s, keep)[i])
  {
    if |s| > 0 {
      FilterAllPass(s[1..], keep);
      var r := Filter(s, keep);
      if keep(s[0]) {
        assert forall i :: 1 <= i < |r| ==> r[i] == Filter(s[1..], keep)[i - 1];
      }
    }
  }
}
