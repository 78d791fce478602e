/** Sizes of finite sets, and sums over a finite range of threads. */
module Counting {

  lemma {:induction false} SizeOfRange(n: nat, r: set<nat>)
    requires forall w: nat :: w in r <==> w < n
    ensures |r| == n
  {
    if n == 0 {
      assert r == {};
    } else {
      SizeOfRange(n - 1, r - {n - 1});
    }
  }

  lemma {:induction false} SubsetSize<T>(a: set<T>, b: set<T>)
    requires a <= b
    ensures |a| <= |b|
  {
    if a != {} {
      var x :| x in a;
      SubsetSize(a - {x}, b - {x});
    }
  }

  lemma Singleton<T>(r: set<T>, a: T)
    requires |r| == 1 && a in r
    ensures r == {a}
  {
    assert |r - {a}| == 0;
  }

  /** More values than the set has elements: two are equal. */
  lemma {:induction false} Pigeonhole<T>(s: seq<T>, b: set<T>) returns (i: nat, j: nat)
    requires forall k :: 0 <= k < |s| ==> s[k] in b
    requires |s| > |b|
    ensures i < j < |s| && s[i] == s[j]
  {
    j := |s| - 1;
    if k: nat :| k < j && s[k] == s[j] {
      i := k;
    } else {
      i, j := Pigeonhole(s[..j], b - {s[j]});
    }
  }

  /** The sum of the ranks of the first n entries. */
  function TotalRank<P>(m: map<nat, P>, n: nat, rank: P -> nat): nat {
    if n == 0 then 0
    else TotalRank(m, n - 1, rank) + if n - 1 in m then rank(m[n - 1]) else 0
  }

  lemma {:induction false} RankMove<P>(m: map<nat, P>, n: nat, rank: P -> nat, w: nat, p: P)
    requires w in m
    ensures TotalRank(m[w := p], n, rank) == TotalRank(m, n, rank) + if w < n then rank(p) - rank(m[w]) else 0
  {
    if n > 0 { RankMove(m, n - 1, rank, w, p); }
  }

  lemma {:induction false} RankBound<P>(m: map<nat, P>, n: nat, rank: P -> nat, bound: nat)
    requires forall p :: rank(p) <= bound
    ensures TotalRank(m, n, rank) <= bound * n
  {
    if n > 0 { RankBound(m, n - 1, rank, bound); }
  }
}
