/** The commit rule compares parents only.  Agreement therefore needs consecutive heights of the
    lower chain, and exactly those: for all other heights there is a lawful run, with proposals
    handed over in time, in which a replica executes a node under a chain of those heights and a
    conflicting node as well. */
module Gaps {
  import opened HsData
  import opened StorageModel
  import opened SafetyMachine
  import opened Quorums
  import opened Protocol
  import opened Preservation
  import opened Agreement
  import opened ReplicaScripts
  import opened ChainProgress
  import opened Fetching
  import opened PacedRuns

  // ---------------------------------------------------------------- what a script executes

  /** Handling a proposal two links above a node that is not committed yet executes it. */
  lemma Executes(s: Storage, p: seq<TreeNode>, l: Script, k: nat, node: TreeNode, b3: nat, st: Status)
    requires Follows(p, l) && b3 < k <= |p| && On(node, p[b3]) && At(s, p, k, st)
    requires Link(l, b3) >= 0 && st.committed < Link(l, Link(l, b3))
    requires forall i :: -1 <= i < k ==> Has(Accepted(s, node).nodes, Node(p, i))
    ensures Execution(p[b3], Node(p, Link(l, b3)), Node(p, Link(l, Link(l, b3)))) in ExecutedBy(s, node)
  {
    var b2 := Link(l, b3);
    var b1 := Link(l, b2);
    ChainIs(Accepted(s, node), p, l, k, node, b3);
    assert Has(s.nodes, Node(p, b3)) && OnLink(p, l, b3) && OnLink(p, l, b2);
    CompareHeights(p, l, st.committed, b1);
  }

  /** Proposal `k`, on `b3`, executes the node two links below that. */
  lemma ScriptExecutes(r: Replica, p: seq<TreeNode>, l: Script, n: nat, k: nat, b3: nat, b2: nat, b1: nat)
    requires |p| == |l| && Follows(p, l) && Dated(p, l) && Unlocked(l) && k < n <= |p| && Paced(r, p, n)
    requires b1 < b2 < b3 < k && l[k] == b3 && l[b3] == b2 && l[b2] == b1 && StatusAfter(l, k).committed < b1
    ensures Execution(p[b3], p[b2], p[b1]) in r.executed
  {
    hide PacedAfter, Prefix, StatusAfter, ExecutedBy, Follows, OnPace, Dated, Unlocked;
    ScriptPaces(p, l, k);
    ExecutesOnPace(p, l, k, b3, b2, b1);
    assert ExecutedBy(PacedAfter(p, k), p[k]) <= r.executed;
  }

  lemma ExecutesOnPace(p: seq<TreeNode>, l: Script, k: nat, b3: nat, b2: nat, b1: nat)
    requires |p| == |l| && Follows(p, l) && Dated(p, l) && Unlocked(l) && k < |p| && OnPace(p, l, k)
    requires b1 < b2 < b3 < k && l[k] == b3 && l[b3] == b2 && l[b2] == b1 && StatusAfter(l, k).committed < b1
    ensures Execution(p[b3], p[b2], p[b1]) in ExecutedBy(PacedAfter(p, k), p[k])
  {
    hide PacedAfter, At, StatusAfter, ExecutedBy, Unlocked, Follows, OnPace, Ready;
    ScriptIsReady(p, l, k);
    NextExecutes(PacedAfter(p, k), p, l, k, PacedStatus(l, k), b3, b2, b1);
  }

  lemma NextExecutes(s: Storage, p: seq<TreeNode>, l: Script, k: nat, st: Status, b3: nat, b2: nat, b1: nat)
    requires |p| == |l| && Ready(s, p, l, k, st) && k < |p|
    requires b1 < b2 < b3 < k && l[k] == b3 && l[b3] == b2 && l[b2] == b1 && st.committed < b1
    ensures Execution(p[b3], p[b2], p[b1]) in ExecutedBy(s, p[k])
  {
    hide At, ExecutedBy, Accepts, UpdateNodes, OnRecvProposal, Signs, On, Follows;
    NextIsSigned(s, p, l, k, st);
    HasAll(Accept(s, p[k]), p, k + 1, st.(voted := k));
    SignedIsAccepted(s, p[k]);
    OnIts(p, l, k);
    Executes(s, p, l, k, p[k], b3, st);
  }

  lemma SignedIsAccepted(s: Storage, node: TreeNode)
    requires Signs(s, node)
    ensures Accepted(s, node) == Accept(s, node)
  {
  }

  lemma OnIts(p: seq<TreeNode>, l: Script, k: nat)
    requires |p| == |l| && Follows(p, l) && k < |p|
    ensures On(p[k], Node(p, l[k]))
  {
    assert OnLink(p, l, k);
  }

  lemma HasAll(s: Storage, p: seq<TreeNode>, k: nat, st: Status)
    requires At(s, p, k, st)
    ensures forall i :: -1 <= i < k ==> Has(s.nodes, Node(p, i))
  {
  }

  // ---------------------------------------------------------------- two scripts

  /** 0 <- 2 <- 3 with 1 between 0 and 2: 6 executes 0 on the one branch, 7 executes 1 on 1 <- 4 <- 5. */
  const EARLY_GAP: Script := [-1, -1, 0, 2, 1, 4, 3, 5]

  lemma EarlyGapStatus()
    ensures Unlocked(EARLY_GAP)
    ensures StatusAfter(EARLY_GAP, 6).committed == -1 && StatusAfter(EARLY_GAP, 7).committed == 0
  {
    var l := EARLY_GAP;
    assert StatusAfter(l, 1) == Status(0, -1, -1, -1);
    assert StatusAfter(l, 2) == Status(1, -1, -1, -1);
    assert StatusAfter(l, 3) == Status(0, 0, -1, -1);
    assert StatusAfter(l, 4) == Status(2, 2, -1, 0);
    assert StatusAfter(l, 5) == Status(4, 2, -1, 0);
    assert StatusAfter(l, 6) == Status(4, 4, -1, 1);
    assert StatusAfter(l, 7) == Status(6, 4, 0, 2);
  }

  lemma LateGapStatus()
    ensures Unlocked(TWO_BRANCHES)
    ensures StatusAfter(TWO_BRANCHES, 4).committed == -1 && StatusAfter(TWO_BRANCHES, 7).committed == 0
  {
    var l := TWO_BRANCHES;
    TwoBranchesStatus();
    assert StatusAfter(l, 1) == Status(0, -1, -1, -1);
    assert StatusAfter(l, 2) == Status(0, 0, -1, -1);
    assert StatusAfter(l, 3) == Status(2, 0, -1, -1);
    assert StatusAfter(l, 4) == Status(1, 1, -1, 0);
    assert StatusAfter(l, 5) == Status(3, 3, 0, 1);
    assert StatusAfter(l, 6) == Status(5, 3, 0, 1);
    assert StatusAfter(l, 7) == Status(5, 5, 0, 2);
  }

  // ---------------------------------------------------------------- every gap breaks agreement

  ghost predicate HasHeights(e: Execution, bottom: ViewNumber, mid: ViewNumber, top: ViewNumber) {
    e.bottom.height == bottom && e.mid.height == mid && e.top.height == top
  }

  /** All correct replicas are taken through the proposals of a script. */
  lemma PacedRunAt(cfg: Config, l: Script, heights: seq<ViewNumber>) returns (worlds: Worlds, p: seq<TreeNode>)
    requires cfg.Valid() && Unlocked(l) && |l| == |heights| > 0 && heights[0] > 0
    requires forall i, j :: 0 <= i < j < |heights| ==> heights[i] < heights[j]
    ensures |p| == |l| && Follows(p, l) && Dated(p, l) && Run(HandedInTime, cfg, worlds) && AllPaced(cfg, Last(worlds), p, |p|)
    ensures forall k :: 0 <= k < |p| ==> p[k].height == heights[k]
  {
    hide Run, Unlocked, AllPaced;
    p := Proposals(l, heights);
    ProposalsFollow(l, heights);
    ProposalsAreDated(l, heights);
    worlds := ScriptIsPacedRun(cfg, p, l, |p|);
  }

  /** For all heights of a chain that are not consecutive. */
  lemma GapsBreakAgreement(cfg: Config, i: ReplicaId, bottom: ViewNumber, mid: ViewNumber, top: ViewNumber)
    returns (worlds: Worlds, e: Execution, f: Execution)
    requires cfg.Valid() && Correct(cfg, i) && 0 < bottom < mid < top && !(mid == bottom + 1 && top == mid + 1)
    ensures Run(HandedInTime, cfg, worlds) && i < |Last(worlds)|
    ensures e in Last(worlds)[i].executed && f in Last(worlds)[i].executed
    ensures HasHeights(e, bottom, mid, top) && bottom < f.bottom.height && Conflicting(Hash(e.bottom), Hash(f.bottom))
  {
    if top > mid + 1 {
      worlds, e, f := LateGap(cfg, i, bottom, mid, top);
    } else {
      worlds, e, f := EarlyGap(cfg, i, bottom, mid, top);
    }
  }

  lemma LateGap(cfg: Config, i: ReplicaId, bottom: ViewNumber, mid: ViewNumber, top: ViewNumber)
    returns (worlds: Worlds, e: Execution, f: Execution)
    requires cfg.Valid() && Correct(cfg, i) && 0 < bottom < mid && mid + 1 < top
    ensures Run(HandedInTime, cfg, worlds) && i < |Last(worlds)|
    ensures e in Last(worlds)[i].executed && f in Last(worlds)[i].executed
    ensures HasHeights(e, bottom, mid, top) && bottom < f.bottom.height && Conflicting(Hash(e.bottom), Hash(f.bottom))
  {
    hide Run, Unlocked, StatusAfter, Conflicting, Paced, Follows, Dated;
    var l := TWO_BRANCHES;
    LateGapStatus();
    var p;
    worlds, p := PacedRunAt(cfg, l, [bottom, mid, mid + 1, top, top + 1, top + 2, top + 3, top + 4]);
    SideBranches(p, l, 0, 2);
    var r := Last(worlds)[i];
    assert Paced(r, p, |p|);
    ScriptExecutes(r, p, l, |p|, 4, 3, 1, 0);
    ScriptExecutes(r, p, l, |p|, 7, 6, 5, 2);
    e, f := Execution(p[3], p[1], p[0]), Execution(p[6], p[5], p[2]);
  }

  lemma EarlyGap(cfg: Config, i: ReplicaId, bottom: ViewNumber, mid: ViewNumber, top: ViewNumber)
    returns (worlds: Worlds, e: Execution, f: Execution)
    requires cfg.Valid() && Correct(cfg, i) && 0 < bottom && bottom + 1 < mid < top
    ensures Run(HandedInTime, cfg, worlds) && i < |Last(worlds)|
    ensures e in Last(worlds)[i].executed && f in Last(worlds)[i].executed
    ensures HasHeights(e, bottom, mid, top) && bottom < f.bottom.height && Conflicting(Hash(e.bottom), Hash(f.bottom))
  {
    hide Run, Unlocked, StatusAfter, Conflicting, Paced, Follows, Dated;
    var l := EARLY_GAP;
    EarlyGapStatus();
    var p;
    worlds, p := PacedRunAt(cfg, l, [bottom, bottom + 1, mid, top, top + 1, top + 2, top + 3, top + 4]);
    SideBranches(p, l, 0, 1);
    var r := Last(worlds)[i];
    assert Paced(r, p, |p|);
    ScriptExecutes(r, p, l, |p|, 6, 3, 2, 0);
    ScriptExecutes(r, p, l, |p|, 7, 5, 4, 1);
    e, f := Execution(p[3], p[2], p[0]), Execution(p[5], p[4], p[1]);
  }

  /** Two proposals on the initial node. */
  lemma SideBranches(p: seq<TreeNode>, l: Script, j: nat, k: nat)
    requires Follows(p, l) && j < k < |p| == |l| && l[j] == -1 && l[k] == -1
    ensures |p| == |l| && Conflicting(Hash(p[j]), Hash(p[k]))
  {
    assert OnLink(p, l, j) && OnLink(p, l, k);
    CompareHeights(p, l, j, k);
    SiblingsConflict(p[j], p[k]);
  }

  // ---------------------------------------------------------------- so the demand is exact

  /** Both nodes were executed by correct replicas of a lawful run. */
  ghost predicate ExecutedTogether(cfg: Config, worlds: Worlds, i: ReplicaId, j: ReplicaId, e: Execution, f: Execution) {
    && Run(SafeVotes, cfg, worlds) && Correct(cfg, i) && Correct(cfg, j)
    && i < |Last(worlds)| && j < |Last(worlds)| && e in Last(worlds)[i].executed && f in Last(worlds)[j].executed
  }

  /** No lawful run executes a conflicting node that is not below. */
  ghost predicate SafeHeights(cfg: Config, bottom: ViewNumber, mid: ViewNumber, top: ViewNumber) {
    forall worlds: Worlds, i: ReplicaId, j: ReplicaId, e, f ::
      ExecutedTogether(cfg, worlds, i, j, e, f) && HasHeights(e, bottom, mid, top) && bottom <= f.bottom.height
      ==> Extends(Hash(f.bottom), Hash(e.bottom))
  }

  lemma SafeHeightsAreConsecutive(cfg: Config, bottom: ViewNumber, mid: ViewNumber, top: ViewNumber)
    requires cfg.Valid() && 0 < bottom < mid < top
    ensures SafeHeights(cfg, bottom, mid, top) <==> mid == bottom + 1 && top == mid + 1
  {
    hide Run, Extends;
    if mid == bottom + 1 && top == mid + 1 {
      forall worlds: Worlds, i: ReplicaId, j: ReplicaId, e, f
        | ExecutedTogether(cfg, worlds, i, j, e, f) && HasHeights(e, bottom, mid, top) && bottom <= f.bottom.height
        ensures Extends(Hash(f.bottom), Hash(e.bottom))
      {
        ExecutionsAgree(cfg, worlds, |worlds| - 1, |worlds| - 1, i, j, e, f);
      }
    } else {
      var i := SomeCorrect(cfg);
      var worlds, e, f := GapsBreakAgreement(cfg, i, bottom, mid, top);
      RunIsWeakerRun(SafeVotes, HandedInTime, cfg, worlds);
      assert ExecutedTogether(cfg, worlds, i, i, e, f);
    }
  }

  lemma SomeCorrect(cfg: Config) returns (i: ReplicaId)
    requires cfg.Valid()
    ensures Correct(cfg, i)
  {
    IdsSize(cfg.n);
    if Ids(cfg.n) <= cfg.faulty {
      SubsetSize(Ids(cfg.n), cfg.faulty);
      assert false;
    }
    i :| i in Ids(cfg.n) && i !in cfg.faulty;
  }
}
