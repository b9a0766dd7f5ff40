/** A run of four replicas, one of them faulty, in which everything module Protocol asks for
    holds except that a leader signs, with a lock that lags, what a lock that does not lag would
    forbid, and in which that leader executes two conflicting nodes, both under chains of
    consecutive heights.

    Replica 0 is the leader, replica 1 follows its branch, replica 2 follows the other one and
    replica 3 is faulty and backs both. */
module LaggingRun {
  import opened HsData
  import opened StorageModel
  import opened SafetyMachine
  import opened Quorums
  import opened Protocol
  import opened Preservation
  import opened Agreement
  import opened ChainProgress
  import opened ReplicaScripts
  import opened Fetching
  import opened PacedRuns
  import opened Gaps
  import opened Leading
  import opened LaggingLock

  // ---------------------------------------------------------------- scenes

  /** The leader has signed the first `k` proposals, and replica `i` the first `j` of `a`. */
  ghost predicate Scene(w: World, s: Storage, p: seq<TreeNode>, k: nat, i: ReplicaId, a: seq<TreeNode>, j: nat)
    requires k <= |p| && j <= |a|
  {
    && |w| == 4 && 1 <= i < 3 && w[0].machine.storage == s && w[0].signed.Keys == Prefix(p, k) && Paced(w[i], a, j)
  }

  lemma BothSignedIsCertified(w: World, i: ReplicaId, node: TreeNode)
    requires |w| == 4 && 1 <= i < 3 && node in w[0].signed && node in w[i].signed
    ensures Certified(FOUR, w, node)
  {
    FourIsValid();
    forall id | id in {0, i, 3} ensures id in Ids(4) && Backs(FOUR, w, id, node) {
    }
    SubsetSize({0, i, 3}, Backers(FOUR, w, node));
  }

  lemma QcIsGenuine(w: World, i: ReplicaId, node: TreeNode, below: TreeNode)
    requires |w| == 4 && 1 <= i < 3 && On(node, below)
    requires below == INIT_NODE || (below in w[0].signed && below in w[i].signed)
    ensures GenuineQc(FOUR, w, node.justify)
  {
    if below != INIT_NODE {
      BothSignedIsCertified(w, i, below);
    }
  }

  /** Replica 0 and replica `i` have signed what is below the next node of `a`. */
  lemma NextIsGenuine(w: World, i: ReplicaId, a: seq<TreeNode>, j: nat)
    requires |w| == 4 && 1 <= i < 3 && j < |a| && Follows(a, Chain(|a|))
    requires j > 0 ==> a[j - 1] in w[0].signed && a[j - 1] in w[i].signed
    ensures GenuineQc(FOUR, w, a[j].justify)
  {
    assert OnLink(a, Chain(|a|), j);
    QcIsGenuine(w, i, a[j], Node(a, j - 1));
  }

  // ---------------------------------------------------------------- two branches

  lemma BranchesAreChains(p: seq<TreeNode>, late: TreeNode)
    requires Astray(p, late)
    ensures Follows(p[..3], Chain(3)) && Follows(p[3..], Chain(4)) && Unlocked(Chain(3)) && Unlocked(Chain(4))
    ensures Dated(p[..3], Chain(3)) && Dated(p[3..], Chain(4))
  {
    var l, a, b := LED_ASTRAY, p[..3], p[3..];
    ChainIsUnlocked(3);
    ChainIsUnlocked(4);
    forall k | 0 <= k < 3 ensures OnLink(a, Chain(3), k) && Rises(a, k) && a[k].justify.view == Node(a, k - 1).height {
      assert OnLink(p, l, k) && Rises(p, k) && p[k].justify.view == Node(p, l[k]).height;
    }
    forall k | 0 <= k < 4 ensures OnLink(b, Chain(4), k) && Rises(b, k) && b[k].justify.view == Node(b, k - 1).height {
      assert OnLink(p, l, 3 + k) && p[3 + k].justify.view == Node(p, l[3 + k]).height;
    }
  }

  /** Replica `i` follows the chain `a`. */
  lemma Follow(worlds: Worlds, i: ReplicaId, a: seq<TreeNode>, j: nat) returns (longer: Worlds)
    requires Run(AnyLock, FOUR, worlds) && |Last(worlds)| == 4 && 1 <= i < 3
    requires j < |a| && Follows(a, Chain(|a|)) && Dated(a, Chain(|a|)) && Unlocked(Chain(|a|)) && Paced(Last(worlds)[i], a, j)
    requires j > 0 ==> a[j - 1] in Last(worlds)[0].signed
    ensures Run(AnyLock, FOUR, longer) && OnlyMoves(Last(worlds), Last(longer), i) && Paced(Last(longer)[i], a, j + 1)
  {
    hide Run, Follows, Dated, Unlocked, Paced, GenuineQc, CanTake, Higher, Taken, Fetched, SafeForSigned, ExecutedBy;
    var r := Last(worlds)[i];
    PacedHasSigned(r, a, j);
    NextOfPaced(r, a, Chain(|a|), j);
    NextIsGenuine(Last(worlds), i, a, j);
    longer := TakeNext(AnyLock, FOUR, worlds, i, a[j]);
    PacedMovesOn(r, Last(longer)[i], a, j);
  }

  lemma LedOnce(p: seq<TreeNode>, k: nat)
    requires k < |p|
    ensures Led(p, k + 1) == Leads(Led(p, k), p[k])
  {
  }

  /** The leader is told a certificate, enters the view and proposes. */
  lemma Lead(worlds: Worlds, p: seq<TreeNode>, late: TreeNode, k: nat) returns (longer: Worlds)
    requires Astray(p, late) && k < 3 && Run(AnyLock, FOUR, worlds)
    requires Scene(Last(worlds), Led(p, k), p, k, 1, p[..3], k)
    ensures Run(AnyLock, FOUR, longer) && OnlyMoves(Last(worlds), Last(longer), 0)
    ensures Last(longer)[0].machine.storage == Led(p, k + 1) && Last(longer)[0].signed.Keys == Prefix(p, k + 1)
  {
    hide Led, GenuineQc, On, Run, CanLead, Leads, At, Follows, Paced, Prefix, Higher, Dated, Unlocked, Proposes;
    LeaderStaysUnlocked(p, late, k);
    LeaderCanGoOn(p, late, k);
    BranchesAreChains(p, late);
    PacedHasSigned(Last(worlds)[1], p[..3], k);
    PrefixIs(p, k);
    NextIsGenuine(Last(worlds), 1, p[..3], k);
    PacedRuns.NextIsHigher(p, LED_ASTRAY, k);
    longer := LeaderProposes(AnyLock, FOUR, worlds, 0, p, LED_ASTRAY, k, LedStatus(k));
    LedOnce(p, k);
  }

  /** Three times: the leader proposes and replica 1 signs. */
  lemma {:induction false} FirstBranch(p: seq<TreeNode>, late: TreeNode, k: nat) returns (worlds: Worlds)
    requires Astray(p, late) && k <= 3
    ensures Run(AnyLock, FOUR, worlds) && Scene(Last(worlds), Led(p, k), p, k, 1, p[..3], k) && Paced(Last(worlds)[2], p[3..], 0)
    decreases k
  {
    hide Led, Run, Follows, Unlocked, On, Dated, Paced, Prefix;
    if k == 0 {
      worlds := [InitWorld(FOUR)];
      FreshScene(p);
    } else {
      BranchesAreChains(p, late);
      var before := FirstBranch(p, late, k - 1);
      var led := Lead(before, p, late, k - 1);
      PrefixIs(p, k - 1);
      PrefixIs(p, k);
      worlds := Follow(led, 1, p[..3], k - 1);
    }
  }

  lemma FreshScene(p: seq<TreeNode>)
    requires |p| >= 3
    ensures Run(AnyLock, FOUR, [InitWorld(FOUR)])
    ensures Scene(InitWorld(FOUR), Led(p, 0), p, 0, 1, p[..3], 0) && Paced(InitWorld(FOUR)[2], p[3..], 0)
  {
  }

  /** The leader takes the next proposal of the other branch, and then replica 2 does. */
  lemma OtherBranch(worlds: Worlds, p: seq<TreeNode>, late: TreeNode, k: nat, s: Storage, st: Status) returns (longer: Worlds)
    requires Astray(p, late) && 3 <= k < 7 && Run(AnyLock, FOUR, worlds)
    requires Scene(Last(worlds), s, p, k, 2, p[3..], k - 3) && Ready(s, p, LED_ASTRAY, k, st)
    ensures Run(AnyLock, FOUR, longer) && Scene(Last(longer), Taken(s, p[k]), p, k + 1, 2, p[3..], k - 2)
    ensures Last(worlds)[0].executed <= Last(longer)[0].executed && ExecutedBy(s, p[k]) <= Last(longer)[0].executed
    ensures Last(longer)[1] == Last(worlds)[1]
  {
    hide Run, ExecutedBy, Follows, Unlocked, Dated, Paced, Prefix, Taken, Ready, CanTake, Higher, GenuineQc, On, Fetched, SafeForSigned;
    BranchesAreChains(p, late);
    PacedHasSigned(Last(worlds)[2], p[3..], k - 3);
    PrefixIs(p, k);
    PrefixIs(p, k + 1);
    NextCanBeTaken(s, p, LED_ASTRAY, k, st);
    PacedRuns.NextIsHigher(p, LED_ASTRAY, k);
    NextIsGenuine(Last(worlds), 2, p[3..], k - 3);
    var taken := TakeNext(AnyLock, FOUR, worlds, 0, p[k]);
    longer := Follow(taken, 2, p[3..], k - 3);
  }

  /** The leader is shown the certificate of 2. */
  lemma ShowLate(worlds: Worlds, p: seq<TreeNode>, late: TreeNode, s: Storage) returns (longer: Worlds)
    requires Astray(p, late) && Run(AnyLock, FOUR, worlds) && Scene(Last(worlds), s, p, 4, 2, p[3..], 1)
    requires Paced(Last(worlds)[1], p[..3], 3) && s.state.leaf == p[2] && !Signs(s, late)
    ensures Run(AnyLock, FOUR, longer) && Scene(Last(longer), OnRecvProposal(s, late), p, 4, 2, p[3..], 1)
    ensures ExecutedBy(s, late) <= Last(longer)[0].executed
  {
    hide Run, ExecutedBy, Follows, Dated, Paced, Prefix, GenuineQc, On, Signs, OnRecvProposal;
    PacedHasSigned(Last(worlds)[1], p[..3], 3);
    PrefixIs(p, 4);
    assert p[..3][2] == p[2];
    QcIsGenuine(Last(worlds), 1, late, p[2]);
    longer := OneStep(AnyLock, FOUR, worlds, 0, RecvProposal(late));
  }

  // ---------------------------------------------------------------- the run

  lemma LateExecutes(p: seq<TreeNode>, late: TreeNode, s: Storage)
    requires Astray(p, late) && At(s, p, 4, Status(3, 1, -1, -1)) && !Signs(s, late)
    ensures Execution(p[2], p[1], p[0]) in ExecutedBy(s, late)
  {
    assert Has(s.nodes, Node(p, 2));
    assert Accepted(s, late) == s;
    Executes(s, p, LED_ASTRAY, 4, late, 2, Status(3, 1, -1, -1));
  }

  /** The leader proposes 0 <- 1 <- 2 and signs 3; shown the certificate of 2 it executes 0; then
      it signs 4, 5 and 6 and executes 3. */
  lemma AstrayRun(p: seq<TreeNode>, late: TreeNode) returns (worlds: Worlds)
    requires Astray(p, late)
    ensures Run(AnyLock, FOUR, worlds) && |Last(worlds)| == 4
    ensures Execution(p[2], p[1], p[0]) in Last(worlds)[0].executed
    ensures Execution(p[5], p[4], p[3]) in Last(worlds)[0].executed
  {
    hide Led, Signs, OnRecvProposal, At, Follows, Run, ExecutedBy, On, Dated, Paced, Prefix, Taken, Ready, SafeForSigned;
    var d := LeaderGoesAstray(p, late);
    LateExecutes(p, late, d.s4);
    NextExecutes(d.s7, p, LED_ASTRAY, 6, Status(5, 4, 0, 3), 5, 4, 3);
    worlds := FirstBranch(p, late, 3);
    worlds := OtherBranch(worlds, p, late, 3, d.s3, Status(2, 1, -1, -1));
    worlds := ShowLate(worlds, p, late, d.s4);
    worlds := OtherBranch(worlds, p, late, 4, d.s5, Status(2, 2, 0, 1));
    worlds := OtherBranch(worlds, p, late, 5, d.s6, Status(4, 3, 0, 1));
    worlds := OtherBranch(worlds, p, late, 6, d.s7, Status(5, 4, 0, 3));
  }

  /** Agreement fails where only the demand for safe votes is dropped; `WhatIsLeftOut` says that
      these runs differ from lawful ones in nothing else. */
  lemma LaggingLockBreaksAgreement() returns (worlds: Worlds, e: Execution, f: Execution)
    ensures FOUR.Valid() && Run(AnyLock, FOUR, worlds) && |Last(worlds)| == 4 && 0 !in FOUR.faulty
    ensures e in Last(worlds)[0].executed && HeightConsecutive(e)
    ensures f in Last(worlds)[0].executed && HeightConsecutive(f)
    ensures Conflicting(Hash(e.bottom), Hash(f.bottom))
  {
    hide Run, Conflicting;
    FourIsValid();
    var p, late := AstrayExists();
    worlds := AstrayRun(p, late);
    e, f := Execution(p[2], p[1], p[0]), Execution(p[5], p[4], p[3]);
    SideBranches(p, LED_ASTRAY, 0, 3);
  }
}
