/** Sequences as bags: the bag union of a function over a sequence does not
    depend on the order, and neither does being free of repetitions. */
module Bags {
  function Sum<X, Y>(xs: seq<X>, f: X -> multiset<Y>): multiset<Y> {
    if xs == [] then multiset{} else Sum(xs[..|xs| - 1], f) + f(xs[|xs| - 1])
  }

  lemma SumSnoc<X, Y>(xs: seq<X>, x: X, f: X -> multiset<Y>)
    ensures Sum(xs + [x], f) == Sum(xs, f) + f(x)
  {
    assert (xs + [x])[..|xs|] == xs;
  }

  lemma {:induction false} SumMoves<X, Y>(b: seq<X>, x: X, c: seq<X>, f: X -> multiset<Y>)
    ensures Sum(b + [x] + c, f) == Sum(b + c, f) + f(x)
    decreases |c|
  {
    if c == [] {
      assert b + [x] + c == b + [x] && b + c == b;
      SumSnoc(b, x, f);
    } else {
      var n := |c| - 1;
      SumMoves(b, x, c[..n], f);
      assert b + [x] + c == (b + [x] + c[..n]) + [c[n]] && b + c == (b + c[..n]) + [c[n]];
      SumSnoc(b + [x] + c[..n], c[n], f);
      SumSnoc(b + c[..n], c[n], f);
    }
  }

  lemma SameMembers<X>(a: seq<X>, b: seq<X>)
    requires multiset(a) == multiset(b)
    ensures |a| == |b| && forall x :: x in a <==> x in b
  {
    assert |multiset(a)| == |a| && |multiset(b)| == |b|;
    forall x ensures x in a <==> x in b {
      assert x in a <==> x in multiset(a);
      assert x in b <==> x in multiset(b);
    }
  }

  lemma WithoutOne<X>(b: seq<X>, k: nat)
    requires k < |b|
    ensures b == b[..k] + [b[k]] + b[k + 1..]
    ensures multiset(b[..k] + b[k + 1..]) == multiset(b) - multiset{b[k]}
  {
    assert b == b[..k] + [b[k]] + b[k + 1..];
    assert multiset(b) == multiset(b[..k] + [b[k]]) + multiset(b[k + 1..]);
  }

  /** A permutation of a list holds its last element somewhere; without it, the rest
      is a permutation of the rest. */
  lemma LastElsewhere<X>(a: seq<X>, b: seq<X>) returns (k: nat)
    requires a != [] && multiset(a) == multiset(b)
    ensures k < |b| && b[k] == a[|a| - 1] && b == b[..k] + [b[k]] + b[k + 1..]
    ensures multiset(a[..|a| - 1]) == multiset(b[..k] + b[k + 1..])
  {
    var n := |a| - 1;
    SameMembers(a, b);
    assert a[n] in a;
    k :| 0 <= k < |b| && b[k] == a[n];
    WithoutOne(a, n);
    WithoutOne(b, k);
    assert a[..n] + a[n + 1..] == a[..n];
  }

  lemma {:induction false} SumPermutes<X, Y>(a: seq<X>, b: seq<X>, f: X -> multiset<Y>)
    requires multiset(a) == multiset(b)
    ensures Sum(a, f) == Sum(b, f)
    decreases |a|
  {
    if a == [] {
      SameMembers(a, b);
    } else {
      var n := |a| - 1;
      var k := LastElsewhere(a, b);
      SumPermutes(a[..n], b[..k] + b[k + 1..], f);
      SumMoves(b[..k], b[k], b[k + 1..], f);
    }
  }

  ghost predicate Distinct<X>(s: seq<X>) { forall i, j | 0 <= i < j < |s| :: s[i] != s[j] }

  lemma {:induction false} OccursOnce<X>(s: seq<X>, x: X)
    requires Distinct(s)
    ensures multiset(s)[x] <= 1
  {
    if s != [] {
      var n := |s| - 1;
      assert s == s[..n] + [s[n]];
      OccursOnce(s[..n], x);
      assert s[n] !in s[..n];
    }
  }

  lemma OccursTwice<X>(s: seq<X>, i: int, j: int)
    requires 0 <= i < j < |s| && s[i] == s[j]
    ensures multiset(s)[s[i]] >= 2
  {
    assert s == s[..j] + [s[j]] + s[j + 1..];
    assert s[..j][i] == s[i];
  }

  lemma DistinctPermutes<X>(a: seq<X>, b: seq<X>)
    requires Distinct(a) && multiset(a) == multiset(b)
    ensures Distinct(b)
  {
    forall i, j | 0 <= i < j < |b| ensures b[i] != b[j] {
      OccursOnce(a, b[i]);
      if b[i] == b[j] { OccursTwice(b, i, j); }
    }
  }
}
