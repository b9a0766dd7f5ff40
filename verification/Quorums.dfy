/** Quorum sizes (hotstuff-rs/src/safety/machine.rs, hss/src/lib.rs). */
module Quorums {
  import opened HsData
  import opened Voting

  /** The number of faulty replicas that `n` replicas tolerate. */
  function MaxFaulty(n: nat): nat
    requires n >= 1
  {
    (n - 1) / 3
  }

  function Ids(n: nat): (ids: set<ReplicaId>)
    ensures forall i :: i in ids <==> 0 <= i < n
  {
    if n == 0 then {} else Ids(n - 1) + {n - 1}
  }

  lemma {:induction false} IdsSize(n: nat)
    ensures |Ids(n)| == n
  {
    if n > 0 {
      IdsSize(n - 1);
      assert n - 1 !in Ids(n - 1);
      assert Ids(n) == Ids(n - 1) + {n - 1};
    }
  }

  lemma {:induction false} SubsetSize<T>(a: set<T>, b: set<T>)
    requires a <= b
    ensures |a| <= |b|
    decreases |a|
  {
    if x :| x in a {
      SubsetSize(a - {x}, b - {x});
    }
  }

  /** More than the threshold means at least n - f. */
  lemma ThresholdIsNMinusF(n: nat)
    requires n >= 1
    ensures QuorumThreshold(n) + 1 == n - MaxFaulty(n)
    ensures 2 * MaxFaulty(n) < n - MaxFaulty(n)
  {
  }

  lemma QuorumsShare(n: nat, a: set<ReplicaId>, b: set<ReplicaId>)
    requires n >= 1 && a <= Ids(n) && b <= Ids(n)
    requires |a| > QuorumThreshold(n) && |b| > QuorumThreshold(n)
    ensures |a * b| >= MaxFaulty(n) + 1
  {
    IdsSize(n);
    SubsetSize(a + b, Ids(n));
    assert |a + b| == |a| + |b| - |a * b|;
  }

  /** Two quorums have a correct replica in common. */
  lemma CorrectReplicaInBoth(n: nat, faulty: set<ReplicaId>, a: set<ReplicaId>, b: set<ReplicaId>) returns (i: ReplicaId)
    requires n >= 1 && |faulty| <= MaxFaulty(n)
    requires a <= Ids(n) && b <= Ids(n)
    requires |a| > QuorumThreshold(n) && |b| > QuorumThreshold(n)
    ensures i in a && i in b && i !in faulty
  {
    QuorumsShare(n, a, b);
    if a * b <= faulty {
      SubsetSize(a * b, faulty);
      assert false;
    }
    i :| i in a * b && i !in faulty;
  }
}
