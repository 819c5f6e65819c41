/** Quorum arithmetic over finite sets. */
module Quorum {

  function SuperMajority(n: nat): nat { 2 * n / 3 + 1 }

  /** ceil(n / 3) */
  function TrustCount(n: nat): nat { (n + 2) / 3 }

  lemma {:induction false} SubsetSize<T>(a: set<T>, b: set<T>)
    requires a <= b
    ensures |a| <= |b|
  {
    assert b == a + (b - a);
  }

  lemma {:induction false} OneMore<T>(s: set<T>, x: T)
    requires x !in s
    ensures |s + {x}| == |s| + 1
  {
  }

  lemma {:induction false} OverlapSize<T>(a: set<T>, b: set<T>, u: set<T>)
    requires a <= u && b <= u
    ensures |a| + |b| - |u| <= |a * b|
    ensures |b - a| <= |u| - |a|
  {
    assert |a + b| == |a| + |b| - |a * b|;
    SubsetSize(a + b, u);
    SubsetSize(b - a, u - a);
  }

  /** Two quorums drawn from at most n members share at least TrustCount(n) of
      them, and inside either one the shared part outnumbers the rest. */
  lemma {:induction false} QuorumsOverlap<T>(a: set<T>, b: set<T>, u: set<T>, n: nat)
    requires a <= u && b <= u && |u| <= n
    requires SuperMajority(n) <= |a| && SuperMajority(n) <= |b|
    ensures TrustCount(n) <= |a * b|
    ensures |b - a| < |a * b|
    ensures |b - a| < SuperMajority(n)
  {
    OverlapSize(a, b, u);
  }

  /** Members of a quorum `a` that also sit in a quorum `b` win any split of `b` that puts them on one side. */
  lemma {:induction false} QuorumOutvotes<T>(a: set<T>, b: set<T>, u: set<T>, n: nat, side: set<T>)
    requires a <= u && b <= u && |u| <= n
    requires SuperMajority(n) <= |a| && SuperMajority(n) <= |b|
    requires a * b <= side <= b
    ensures |b - side| < |side|
  {
    QuorumsOverlap(a, b, u, n);
    SubsetSize(a * b, side);
    SubsetSize(b - side, b - a);
  }

  /** A set that `f` maps one-to-one into `u` is no larger than `u`. */
  lemma {:induction false} InjectionSize<S(!new), T>(s: set<S>, f: S -> T, u: set<T>)
    requires forall x :: x in s ==> f(x) in u
    requires forall x, y :: x in s && y in s && f(x) == f(y) ==> x == y
    ensures |s| <= |u|
  {
    if s != {} {
      var x :| x in s;
      InjectionSize(s - {x}, f, u - {f(x)});
    }
  }
}
