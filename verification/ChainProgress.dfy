/** Two scripts: the chain on which everything goes well, and two interleaved branches on
    which the commit rule goes wrong. */
module ChainProgress {
  import opened HsData
  import opened SafetyMachine
  import opened ReplicaScripts

  /** Every proposal is on the one before it. */
  function Chain(n: nat): Script {
    seq(n, k => k - 1)
  }

  lemma {:induction false} ChainStatus(n: nat, k: nat)
    requires k <= n
    ensures StatusAfter(Chain(n), k)
            == Status(if k < 2 then k - 1 else k - 2, Max(k - 2, -1), Max(k - 4, -1), Max(k - 3, -1))
    decreases k
  {
    if k > 0 {
      ChainStatus(n, k - 1);
    }
  }

  lemma ChainIsUnlocked(n: nat)
    ensures Unlocked(Chain(n))
  {
    forall k | 0 <= k < n ensures UnlockedAt(Chain(n), k) {
      ChainStatus(n, k);
    }
  }

  /** A fresh replica that is fed any chain a(0) <- ... <- a(k-1) of rising heights, four or
      more, signs every proposal and ends with its certificate on the last but one, its lock
      on the one before and that one's parent committed. */
  lemma ChainMakesProgress(a: seq<TreeNode>)
    requires |a| >= 4 && Follows(a, Chain(|a|))
    ensures forall k :: 0 <= k < |a| ==> Signs(After(a, k), a[k])
    ensures var k := |a|; var st := After(a, k).state;
            && st.qcHigh.node == Hash(a[k - 2]) && st.leaf == a[k - 2]
            && st.locked == a[k - 3]
            && st.lastCommit == a[k - 4] && st.committedHeight == a[k - 4].height
  {
    hide After, Signs;
    var l, k := Chain(|a|), |a|;
    ChainIsUnlocked(k);
    forall j | 0 <= j < k ensures Signs(After(a, j), a[j]) {
      ScriptRuns(a, l, j);
    }
    ScriptRuns(a, l, k);
    ChainStatus(k, k);
  }

  /** Two branches from the initial node, 0 <- 1 <- 3 <- 4 and 2 <- 5 <- 6 <- 7, proposed in
      turn with rising heights. */
  const TWO_BRANCHES: Script := [-1, 0, -1, 1, 3, 2, 5, 6]

  lemma TwoBranchesStatus()
    ensures Unlocked(TWO_BRANCHES)
    ensures StatusAfter(TWO_BRANCHES, 5).committed == 0 && StatusAfter(TWO_BRANCHES, 8).committed == 2
  {
    var l := TWO_BRANCHES;
    assert StatusAfter(l, 1) == Status(0, -1, -1, -1);
    assert StatusAfter(l, 2) == Status(0, 0, -1, -1);
    assert StatusAfter(l, 3) == Status(2, 0, -1, -1);
    assert StatusAfter(l, 4) == Status(1, 1, -1, 0);
    assert StatusAfter(l, 5) == Status(3, 3, 0, 1);
    assert StatusAfter(l, 6) == Status(5, 3, 0, 1);
    assert StatusAfter(l, 7) == Status(5, 5, 0, 2);
    assert StatusAfter(l, 8) == Status(6, 6, 2, 5);
  }

  /** The commit rule looks at parent links only.  Where heights are not consecutive it is not
      safe: every proposal is well formed and validly certified, every vote is higher than
      the one before, and yet one replica commits node 0 and then the conflicting node 2. */
  lemma GappedCommitsConflict(p: seq<TreeNode>)
    requires Follows(p, TWO_BRANCHES)
    ensures forall k :: 0 <= k < 8 ==> Signs(After(p, k), p[k])
    ensures After(p, 5).state.lastCommit == p[0] && After(p, 8).state.lastCommit == p[2]
    ensures Conflicting(Hash(p[0]), Hash(p[2]))
  {
    hide After, Signs;
    TwoBranchesStatus();
    forall k | 0 <= k < 8 ensures Signs(After(p, k), p[k]) {
      ScriptRuns(p, TWO_BRANCHES, k);
    }
    ScriptRuns(p, TWO_BRANCHES, 5);
    ScriptRuns(p, TWO_BRANCHES, 8);
    assert OnLink(p, TWO_BRANCHES, 0) && OnLink(p, TWO_BRANCHES, 2);
    CompareHeights(p, TWO_BRANCHES, 0, 2);
    CompareHeights(p, TWO_BRANCHES, -1, 0);
    SiblingsConflict(p[0], p[2]);
  }
}
