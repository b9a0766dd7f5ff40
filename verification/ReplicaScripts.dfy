/** What a fresh replica does when it is fed proposals of rising heights: a script says for
    each proposal on which earlier one it is made, and the replica's certificate, lock and
    last commit are then functions of the script alone. */
module ReplicaScripts {
  import opened HsData
  import opened StorageModel
  import opened SafetyMachine

  /** For every proposal the index of the proposal it is on, -1 for the initial node. */
  type Script = l: seq<int> | forall k :: 0 <= k < |l| ==> -1 <= l[k] < k

  function Link(l: Script, j: int): (below: int)
    ensures below >= -1 && (j >= 0 ==> below < j)
  {
    if 0 <= j < |l| then l[j] else -1
  }

  function Node(p: seq<TreeNode>, j: int): TreeNode {
    if 0 <= j < |p| then p[j] else INIT_NODE
  }

  /** The first `k` proposals. */
  function Prefix(p: seq<TreeNode>, k: nat): set<TreeNode>
    requires k <= |p|
  {
    set node | node in p[..k]
  }

  lemma PrefixIs(p: seq<TreeNode>, k: nat)
    requires k <= |p|
    ensures forall j :: 0 <= j < k ==> p[j] in Prefix(p, k)
    ensures k < |p| ==> Prefix(p, k + 1) == Prefix(p, k) + {p[k]}
  {
    assert k < |p| ==> p[..k + 1] == p[..k] + [p[k]];
  }

  /** The proposal has `below` as parent and justify node, with a valid certificate. */
  predicate On(node: TreeNode, below: TreeNode) {
    && node.parent == Hash(below) && node.justify.node == Hash(below)
    && (node.justify.sign == Threshold(below) || (below == INIT_NODE && node.justify.sign == ZeroSign))
  }

  ghost predicate Follows(p: seq<TreeNode>, l: Script) {
    && |p| == |l|
    && (forall k {:trigger OnLink(p, l, k)} :: 0 <= k < |p| ==> OnLink(p, l, k))
    && (forall k {:trigger Rises(p, k)} :: 0 <= k < |p| ==> Rises(p, k))
  }

  predicate OnLink(p: seq<TreeNode>, l: Script, k: nat)
    requires k < |p| && k < |l|
  {
    On(p[k], Node(p, l[k]))
  }

  predicate Rises(p: seq<TreeNode>, k: nat)
    requires k < |p|
  {
    p[k].height > Node(p, k - 1).height
  }

  function After(p: seq<TreeNode>, k: nat): Storage
    requires k <= |p|
  {
    if k == 0 then InitStorage() else OnRecvProposal(After(p, k - 1), p[k - 1])
  }

  /** Indices of the nodes that the replica's height of votes, certificate, last commit and
      lock are at. */
  datatype Status = Status(voted: int, qc: int, committed: int, locked: int)

  /** Handling a proposal on `b3`. */
  function Settled(l: Script, st: Status, b3: int): Status {
    Status(if b3 > st.qc then b3 else st.voted,
           Max(b3, st.qc), Max(Link(l, Link(l, b3)), st.committed), Max(Link(l, b3), st.locked))
  }

  function StatusAfter(l: Script, k: nat): Status
    requires k <= |l|
  {
    if k == 0 then Status(-1, -1, -1, -1)
    else Settled(l, StatusAfter(l, k - 1).(voted := k - 1), l[k - 1])
  }

  /** Every proposal is on the lock or on a node above it. */
  predicate Unlocked(l: Script) {
    forall k {:trigger UnlockedAt(l, k)} :: 0 <= k < |l| ==> UnlockedAt(l, k)
  }

  predicate UnlockedAt(l: Script, k: nat)
    requires k < |l|
  {
    l[k] >= StatusAfter(l, k).locked
  }

  /** The replica is where the status says, and has stored exactly the proposals so far. */
  ghost predicate At(s: Storage, p: seq<TreeNode>, k: nat, st: Status) {
    && -1 <= st.voted < k && -1 <= st.qc < k && -1 <= st.committed < k && -1 <= st.locked < k
    && (forall j :: -1 <= j < k ==> Has(s.nodes, Node(p, j)))
    && (forall h :: h in s.nodes ==> s.nodes[h].height <= Node(p, k - 1).height)
    && s.state.vheight == Node(p, st.voted).height
    && s.state.qcHigh.node == Hash(Node(p, st.qc))
    && s.state.lastCommit == Node(p, st.committed) && s.state.committedHeight == Node(p, st.committed).height
    && s.state.locked == Node(p, st.locked)
  }

  lemma {:induction false} HeightsFollowIndices(p: seq<TreeNode>, l: Script, i: int, j: int)
    requires Follows(p, l) && -1 <= i < j < |p|
    ensures Node(p, i).height < Node(p, j).height
    decreases j - i
  {
    assert Rises(p, j);
    if i < j - 1 {
      HeightsFollowIndices(p, l, i, j - 1);
    }
  }

  lemma CompareHeights(p: seq<TreeNode>, l: Script, i: int, j: int)
    requires Follows(p, l) && -1 <= i < |p| && -1 <= j < |p|
    ensures Node(p, i).height < Node(p, j).height <==> i < j
    ensures Node(p, i) == Node(p, j) <==> i == j
  {
    if i < j {
      HeightsFollowIndices(p, l, i, j);
    } else if j < i {
      HeightsFollowIndices(p, l, j, i);
    }
  }

  /** The next proposal is signed and stored. */
  lemma NextIsSigned(s: Storage, p: seq<TreeNode>, l: Script, k: nat, st: Status)
    requires Follows(p, l) && k < |p| && At(s, p, k, st) && l[k] >= st.locked
    ensures Signs(s, p[k]) && OnRecvProposal(s, p[k]) == UpdateNodes(Accept(s, p[k]), p[k])
    ensures At(Accept(s, p[k]), p, k + 1, st.(voted := k))
  {
    var node, b3 := p[k], Node(p, l[k]);
    assert Has(s.nodes, b3);
    assert OnLink(p, l, k);
    CompareHeights(p, l, st.voted, k);
    CompareHeights(p, l, st.locked, l[k]);
    CompareHeights(p, l, k - 1, k);
    if l[k] == st.locked {
      CompareHeights(p, l, st.locked, k);
      assert StoredPath(s.nodes, Hash(node), Hash(b3));
      WalkReachesRoot(s.nodes, node, Hash(b3));
    }
    assert Hash(node) !in s.nodes;
    var a := Accept(s, node);
    forall j | -1 <= j < k + 1 ensures Has(a.nodes, Node(p, j)) {
      assert j < k ==> Has(s.nodes, Node(p, j));
    }
  }

  /** The three-chain below a proposal on node `b3`. */
  function ChainOn(p: seq<TreeNode>, l: Script, b3: int): seq<TreeNode> {
    var b2 := Link(l, b3);
    if b3 < 0 then [INIT_NODE]
    else if b2 < 0 then [Node(p, b3), INIT_NODE]
    else [Node(p, b3), Node(p, b2), Node(p, Link(l, b2))]
  }

  lemma ChainIs(s: Storage, p: seq<TreeNode>, l: Script, k: nat, node: TreeNode, b3: int)
    requires Follows(p, l) && -1 <= b3 < k <= |p| && On(node, Node(p, b3))
    requires forall i :: -1 <= i < k ==> Has(s.nodes, Node(p, i))
    ensures ThreeChain(s.nodes, node) == ChainOn(p, l, b3)
  {
    var b2 := Link(l, b3);
    assert Has(s.nodes, Node(p, b3)) && Has(s.nodes, Node(p, b2)) && Has(s.nodes, Node(p, Link(l, b2)));
    assert Zeroed !in s.nodes;
    if b3 >= 0 {
      assert OnLink(p, l, b3);
      if b2 >= 0 {
        assert OnLink(p, l, b2);
      }
    }
  }

  lemma CertificateIs(s: Storage, p: seq<TreeNode>, l: Script, k: nat, node: TreeNode, b3: int, st: Status)
    requires Follows(p, l) && -1 <= b3 < k <= |p| && On(node, Node(p, b3)) && At(s, p, k, st)
    ensures var s1 := UpdateQcHigh(s, Node(p, b3), node.justify); var st' := Settled(l, st, b3);
            && s1.nodes == s.nodes && s1.state.locked == s.state.locked
            && s1.state.lastCommit == s.state.lastCommit && s1.state.committedHeight == s.state.committedHeight
            && s1.state.qcHigh.node == Hash(Node(p, st'.qc)) && s1.state.vheight == Node(p, st'.voted).height
            && (b3 > st.qc ==> s1.state.leaf == Node(p, b3) && s1.state.qcHigh == node.justify)
            && (b3 <= st.qc ==> s1.state.leaf == s.state.leaf && s1.state.qcHigh == s.state.qcHigh)
  {
    assert Has(s.nodes, Node(p, b3)) && Has(s.nodes, Node(p, st.qc));
    CompareHeights(p, l, st.qc, b3);
  }

  lemma LockAndCommitAre(s1: Storage, p: seq<TreeNode>, l: Script, b3: int, st: Status)
    requires Follows(p, l) && -1 <= b3 < |p| && -1 <= st.locked < |p| && -1 <= st.committed < |p|
    requires s1.state.locked == Node(p, st.locked) && s1.state.lastCommit == Node(p, st.committed)
    requires s1.state.committedHeight == Node(p, st.committed).height
    ensures var chain := ChainOn(p, l, b3);
            var s2 := RaiseLock(s1, chain); var t := if ConsecutiveThreeChain(chain) then Commit(s2, chain[2]) else s2;
            && t.nodes == s1.nodes && t.state.qcHigh == s1.state.qcHigh && t.state.leaf == s1.state.leaf
            && t.state.vheight == s1.state.vheight
            && t.state.locked == Node(p, Settled(l, st, b3).locked)
            && t.state.lastCommit == Node(p, Settled(l, st, b3).committed)
            && t.state.committedHeight == t.state.lastCommit.height
  {
    var b2 := Link(l, b3);
    CompareHeights(p, l, st.locked, b2);
    CompareHeights(p, l, st.committed, Link(l, b2));
    if b2 >= 0 {
      assert OnLink(p, l, b3) && OnLink(p, l, b2);
    }
  }

  /** Handling a proposal on node `b3`, whether it was accepted or not. */
  lemma ProposalIsHandled(s: Storage, p: seq<TreeNode>, l: Script, k: nat, node: TreeNode, b3: int, st: Status)
    requires Follows(p, l) && -1 <= b3 < k <= |p| && On(node, Node(p, b3)) && At(s, p, k, st)
    ensures At(UpdateNodes(s, node), p, k, Settled(l, st, b3)) && UpdateNodes(s, node).nodes == s.nodes
    ensures UpdateNodes(s, node).state.leaf == if b3 > st.qc then Node(p, b3) else s.state.leaf
  {
    ChainIs(s, p, l, k, node, b3);
    CertificateIs(s, p, l, k, node, b3, st);
    LockAndCommitAre(UpdateQcHigh(s, Node(p, b3), node.justify), p, l, b3, st);
  }

  /** The next proposal is signed and handled. */
  lemma NextIsHandled(s: Storage, p: seq<TreeNode>, l: Script, k: nat, st: Status)
    requires Follows(p, l) && k < |p| && At(s, p, k, st) && l[k] >= st.locked
    ensures Signs(s, p[k]) && At(OnRecvProposal(s, p[k]), p, k + 1, Settled(l, st.(voted := k), l[k]))
    ensures OnRecvProposal(s, p[k]).nodes == s.nodes[Hash(p[k]) := p[k]]
    ensures OnRecvProposal(s, p[k]).state.leaf == if l[k] > st.qc then Node(p, l[k]) else s.state.leaf
  {
    NextIsSigned(s, p, l, k, st);
    hide UpdateNodes, At;
    assert OnLink(p, l, k);
    ProposalIsHandled(Accept(s, p[k]), p, l, k + 1, p[k], l[k], st.(voted := k));
  }

  /** A fresh replica signs every proposal of an unlocked script, and its state is what the
      script says, after every one of them. */
  lemma {:induction false} ScriptRuns(p: seq<TreeNode>, l: Script, k: nat)
    requires Follows(p, l) && Unlocked(l) && k <= |p|
    ensures At(After(p, k), p, k, StatusAfter(l, k)) && After(p, k).state.leaf == Node(p, StatusAfter(l, k).qc)
    ensures k < |p| ==> Signs(After(p, k), p[k])
    decreases k
  {
    if k > 0 {
      ScriptRuns(p, l, k - 1);
      assert |p| == |l|;
      hide OnRecvProposal, At, Signs, Follows, After, StatusAfter;
      ScriptStep(p, l, k);
    }
    if k < |p| {
      SignedNext(p, l, k);
    }
  }

  lemma ScriptStep(p: seq<TreeNode>, l: Script, k: nat)
    requires Follows(p, l) && Unlocked(l) && 0 < k <= |p| == |l|
    requires At(After(p, k - 1), p, k - 1, StatusAfter(l, k - 1))
    requires After(p, k - 1).state.leaf == Node(p, StatusAfter(l, k - 1).qc)
    ensures At(After(p, k), p, k, StatusAfter(l, k)) && After(p, k).state.leaf == Node(p, StatusAfter(l, k).qc)
  {
    hide OnRecvProposal, At, Signs, Follows;
    var s, st := After(p, k - 1), StatusAfter(l, k - 1);
    assert UnlockedAt(l, k - 1);
    NextIsHandled(s, p, l, k - 1, st);
  }

  lemma SignedNext(p: seq<TreeNode>, l: Script, k: nat)
    requires Follows(p, l) && Unlocked(l) && k < |p| && At(After(p, k), p, k, StatusAfter(l, k))
    ensures Signs(After(p, k), p[k])
  {
    assert UnlockedAt(l, k);
    hide OnRecvProposal, At, Signs, After;
    NextIsHandled(After(p, k), p, l, k, StatusAfter(l, k));
  }

  /** Proposals for a script exist at all rising heights. */
  function Proposal(below: TreeNode, height: ViewNumber): TreeNode {
    TreeNode([], height, Hash(below), if below == INIT_NODE then INIT_QC else GenericQC(below.height, Hash(below), Threshold(below)))
  }

  function Proposals(l: Script, heights: seq<ViewNumber>): (p: seq<TreeNode>)
    requires |l| == |heights|
    ensures |p| == |l|
    decreases |l|
  {
    if l == [] then [] else
    var k := |l| - 1;
    var p := Proposals(l[..k], heights[..k]);
    p + [Proposal(Node(p, l[k]), heights[k])]
  }

  lemma {:induction false} ProposalIs(l: Script, heights: seq<ViewNumber>, k: nat)
    requires |l| == |heights| && k < |l|
    ensures var p := Proposals(l, heights); p[k] == Proposal(Node(p, l[k]), heights[k])
    decreases |l|
  {
    hide Proposal;
    var j := |l| - 1;
    var q := Proposals(l[..j], heights[..j]);
    var p := Proposals(l, heights);
    assert p[..j] == q;
    if k < j {
      ProposalIs(l[..j], heights[..j], k);
    }
  }

  lemma {:induction false} ProposalsFollow(l: Script, heights: seq<ViewNumber>)
    requires |l| == |heights|
    requires forall i, j :: 0 <= i < j < |heights| ==> heights[i] < heights[j]
    requires |heights| > 0 ==> heights[0] > 0
    ensures Follows(Proposals(l, heights), l)
    ensures forall k :: 0 <= k < |l| ==> Proposals(l, heights)[k].height == heights[k]
    decreases |l|
  {
    if l != [] {
      var k := |l| - 1;
      ProposalsFollow(l[..k], heights[..k]);
      var q := Proposals(l[..k], heights[..k]);
      var p := Proposals(l, heights);
      assert p == q + [Proposal(Node(q, l[k]), heights[k])];
      forall j | 0 <= j < |p| ensures OnLink(p, l, j) && Rises(p, j) {
        if j < k {
          assert OnLink(q, l[..k], j) && Rises(q, j);
        }
      }
    }
  }
}
