/** Quorum arithmetic of the PBFT replica, and the counting facts about sets
    of replica ids that every safety argument in this project rests on. */
module Quorum {

  /** The number of faulty replicas tolerated among n. */
  function Faults(n: nat): nat
    requires n >= 1
  {
    (n - 1) / 3
  }

  /** `Pbft::GetQuorumSize`: the number of prepares that prepare an instance;
      one more commit than this commits it. The sizes 1 to 3 are special cases. */
  function QuorumSize(n: nat): (q: nat)
    requires n >= 1
    ensures 2 * (q + 1) >= n + Faults(n) + 1
    ensures q + 1 <= n - Faults(n)
  {
    if n == 1 then 0
    else if n == 2 || n == 3 then 1
    else
      var f := Faults(n);
      if n == 3 * f + 1 then 2 * f
      else 2 * f + 1
  }

  /** The ids 0 .. n-1, as `GetValidatorIndex` hands them out. */
  function Replicas(n: nat): (s: set<int>)
    ensures |s| == n
    ensures forall i :: i in s <==> 0 <= i < n
  {
    if n == 0 then {} else Replicas(n - 1) + {n - 1}
  }

  lemma SubsetSize<T>(a: set<T>, b: set<T>)
    requires a <= b
    ensures |a| <= |b|
  {
    assert b == a + (b - a);
  }

  /** Inclusion and exclusion inside a universe of size n. */
  lemma Overlap<T>(a: set<T>, b: set<T>, universe: set<T>)
    requires a <= universe && b <= universe
    ensures |a * b| >= |a| + |b| - |universe|
  {
    SubsetSize(a + b, universe);
    assert |a + b| + |a * b| == |a| + |b| by {
      assert a + b == a + (b - a);
      assert b == (b - a) + (a * b);
    }
  }

  /** Any two commit quorums share more members than may be faulty. */
  lemma QuorumsIntersect(n: nat, a: set<int>, b: set<int>)
    requires n >= 1
    requires a <= Replicas(n) && b <= Replicas(n)
    requires |a| >= QuorumSize(n) + 1 && |b| >= QuorumSize(n) + 1
    ensures |a * b| >= Faults(n) + 1
  {
    Overlap(a, b, Replicas(n));
  }

  /** Two commit quorums have a correct replica in common. */
  lemma CommonCorrect(n: nat, faulty: set<int>, a: set<int>, b: set<int>) returns (k: int)
    requires n >= 1 && |faulty| <= Faults(n)
    requires a <= Replicas(n) && b <= Replicas(n)
    requires |a| >= QuorumSize(n) + 1 && |b| >= QuorumSize(n) + 1
    ensures k in a && k in b && k !in faulty
  {
    QuorumsIntersect(n, a, b);
    if a * b <= faulty {
      SubsetSize(a * b, faulty);
    }
    k :| k in a * b && k !in faulty;
  }

  /** One commit quorum contains a correct replica, and the correct replicas
      alone are enough to form one. */
  lemma QuorumHasCorrect(n: nat, faulty: set<int>, a: set<int>) returns (k: int)
    requires n >= 1 && |faulty| <= Faults(n) && faulty <= Replicas(n)
    requires a <= Replicas(n) && |a| >= QuorumSize(n) + 1
    ensures k in a && k !in faulty
    ensures |Replicas(n) - faulty| >= QuorumSize(n) + 1
  {
    k := CommonCorrect(n, faulty, a, a);
    assert Replicas(n) == (Replicas(n) - faulty) + faulty;
  }

  /** The ids lo .. hi-1. */
  function Ids(lo: nat, hi: nat): (s: set<int>)
    requires lo <= hi
    ensures |s| == hi - lo
    ensures forall i :: i in s <==> lo <= i < hi
  {
    if lo == hi then {} else Ids(lo, hi - 1) + {hi - 1}
  }

  /** No smaller quorum will do: of any fewer replicas there are two sets whose common members may
      all be faulty. */
  lemma QuorumIsLeast(n: nat, q: nat) returns (a: set<int>, b: set<int>)
    requires n >= 1 && q < QuorumSize(n)
    ensures a <= Replicas(n) && b <= Replicas(n) && |a| == q + 1 && |b| == q + 1
    ensures |a * b| <= Faults(n)
  {
    assert 2 * QuorumSize(n) <= n + Faults(n) && QuorumSize(n) < n;
    hide QuorumSize, Faults;
    var k := q + 1;
    a, b := Ids(0, k), Ids(n - k, n);
    assert a * b == if n - k <= k then Ids(n - k, k) else {};
  }
}
