/** How a proposal reaches the machine.  The pacemaker hands it over once the leaf has reached the
    view of its certificate (pacemaker/src/pacemaker.rs:429-434).  Until then it fetches the
    branch, which stores the proposal and makes its justify node the leaf; the proposal is then
    handed over although it is stored, and signed. */
module Fetching {
  import opened HsData
  import opened StorageModel
  import opened SafetyMachine
  import opened Protocol
  import opened ReplicaScripts
  import opened LawfulRuns

  /** The storage when the proposal is handed over. */
  function Fetched(s: Storage, node: TreeNode): Storage {
    if node.justify.view <= s.state.leaf.height then s else SyncProposal(s, node)
  }

  function Taken(s: Storage, node: TreeNode): Storage {
    OnRecvProposal(Fetched(s, node), node)
  }

  /** Certificates have the heights of their nodes for views, as documented. */
  ghost predicate Dated(p: seq<TreeNode>, l: Script) {
    |p| == |l| && forall k :: 0 <= k < |p| ==> p[k].justify.view == Node(p, l[k]).height
  }

  lemma ProposalsAreDated(l: Script, heights: seq<ViewNumber>)
    requires |l| == |heights|
    ensures Dated(Proposals(l, heights), l)
  {
    hide Proposals;
    forall k | 0 <= k < |l| ensures Proposals(l, heights)[k].justify.view == Node(Proposals(l, heights), l[k]).height {
      ProposalIs(l, heights, k);
    }
  }

  // ---------------------------------------------------------------- one replica

  /** The last proposal is stored and not voted for. */
  lemma StoredIsSigned(s: Storage, p: seq<TreeNode>, l: Script, k: nat, st: Status)
    requires Follows(p, l) && k < |p| && At(s, p, k + 1, st) && st.voted < k && st.locked <= l[k]
    ensures Signs(s, p[k]) && OnRecvProposal(s, p[k]) == UpdateNodes(Accept(s, p[k]), p[k])
    ensures At(Accept(s, p[k]), p, k + 1, st.(voted := k)) && Accept(s, p[k]).nodes == s.nodes
  {
    var node, b3 := p[k], Node(p, l[k]);
    assert Has(s.nodes, b3) && Has(s.nodes, Node(p, k));
    assert OnLink(p, l, k);
    CompareHeights(p, l, st.voted, k);
    CompareHeights(p, l, st.locked, l[k]);
    if l[k] == st.locked {
      CompareHeights(p, l, st.locked, k);
      assert StoredPath(s.nodes, Hash(node), Hash(b3));
      WalkReachesRoot(s.nodes, node, Hash(b3));
    }
    assert Accept(s, node).nodes == s.nodes;
  }

  lemma StoredIsHandled(s: Storage, p: seq<TreeNode>, l: Script, k: nat, st: Status)
    requires Follows(p, l) && k < |p| && At(s, p, k + 1, st) && st.voted < k && st.locked <= l[k] <= st.qc
    ensures Signs(s, p[k]) && At(OnRecvProposal(s, p[k]), p, k + 1, Settled(l, st.(voted := k), l[k]))
    ensures OnRecvProposal(s, p[k]).nodes == s.nodes && OnRecvProposal(s, p[k]).state.leaf == s.state.leaf
  {
    hide UpdateNodes, At, Signs, OnRecvProposal;
    StoredIsSigned(s, p, l, k, st);
    assert OnLink(p, l, k);
    ProposalIsHandled(Accept(s, p[k]), p, l, k + 1, p[k], l[k], st.(voted := k));
  }

  /** The replica can take the next proposal: the leaf is the certified node or above it. */
  ghost predicate Ready(s: Storage, p: seq<TreeNode>, l: Script, k: nat, st: Status) {
    && Follows(p, l) && Dated(p, l) && k < |p| && At(s, p, k, st) && st.locked <= l[k]
    && s.state.leaf.height >= Node(p, st.qc).height
  }

  /** It is fetched if need be, handed over in time and signed. */
  lemma NextIsTaken(s: Storage, p: seq<TreeNode>, l: Script, k: nat, st: Status) returns (st': Status)
    requires Ready(s, p, l, k, st)
    ensures var s1, t, node := Fetched(s, p[k]), Taken(s, p[k]), p[k];
            && node.justify.view <= s1.state.leaf.height && Signs(s1, node) && Signs(s, node)
            && t.nodes == s.nodes[Hash(node) := node] && (s1 == s || s1.nodes == t.nodes)
            && t.state.leaf == (if l[k] > st.qc then Node(p, l[k]) else s.state.leaf)
            && t.state.view == s.state.view
            && (s1 == s || s1.state.locked == t.state.locked)
    ensures At(Taken(s, p[k]), p, k + 1, st')
    ensures st' == Settled(l, st.(voted := k), l[k]).(voted := st'.voted)
    ensures l[k] <= st.qc || s.state.leaf == Node(p, st.qc) ==> st'.voted == k
  {
    hide At, Signs, OnRecvProposal, SyncProposal, Follows;
    var node, settled := p[k], Settled(l, st.(voted := k), l[k]);
    NextIsHandled(s, p, l, k, st);
    ProposalKeepsView(s, node);
    if node.justify.view <= s.state.leaf.height {
      st' := settled;
      if s.state.leaf == Node(p, st.qc) {
        InTimeMeansNotHigher(s, p, l, k, st);
      }
    } else {
      NextIsFetched(s, p, l, k, st);
      var s1 := SyncProposal(s, node);
      ProposalKeepsView(s1, node);
      StoredIsHandled(s1, p, l, k, settled);
      HandledLocks(s1, OnRecvProposal(s1, node), p, l, k, settled);
      st' := Settled(l, settled.(voted := k), l[k]);
    }
  }

  lemma InTimeMeansNotHigher(s: Storage, p: seq<TreeNode>, l: Script, k: nat, st: Status)
    requires Ready(s, p, l, k, st) && s.state.leaf == Node(p, st.qc) && p[k].justify.view <= s.state.leaf.height
    ensures l[k] <= st.qc
  {
    CompareHeights(p, l, st.qc, l[k]);
  }

  lemma NextIsFetched(s: Storage, p: seq<TreeNode>, l: Script, k: nat, st: Status)
    requires Ready(s, p, l, k, st) && p[k].justify.view > s.state.leaf.height && Signs(s, p[k])
    ensures SyncProposal(s, p[k]) == OnRecvProposal(s, p[k]) && l[k] > st.qc
  {
    CompareHeights(p, l, st.qc, l[k]);
    SyncIsReceipt(s, p[k]);
  }

  lemma HandledLocks(s: Storage, t: Storage, p: seq<TreeNode>, l: Script, k: nat, st: Status)
    requires k < |l| && st.locked >= Link(l, l[k]) && At(s, p, k + 1, st) && At(t, p, k + 1, Settled(l, st.(voted := k), l[k]))
    ensures t.state.locked == s.state.locked
  {
  }

  // ---------------------------------------------------------------- in a run

  /** All that the laws ask for, but for safety, when `node` is fetched if need be and handed over. */
  ghost predicate CanTake(s: Storage, node: TreeNode) {
    var s1 := Fetched(s, node);
    && (s1 != s ==> Orderly(s, Sync(node))) && VerifyProposal(s, node.justify)
    && Orderly(s1, RecvProposal(node)) && Signs(s1, node) && node.justify.view <= s1.state.leaf.height
  }

  lemma NextCanBeTaken(s: Storage, p: seq<TreeNode>, l: Script, k: nat, st: Status)
    requires Ready(s, p, l, k, st)
    ensures CanTake(s, p[k])
  {
    hide At, Above, WellFormed, Taken, Fetched, Follows, Accepts;
    var _ := NextIsTaken(s, p, l, k, st);
    NextIsAbove(s, p, l, k, st);
    NextIsWellFormed(p, l, k);
    var s1 := Fetched(s, p[k]);
    assert s1 != s ==> Has(s1.nodes, p[k]);
  }

  /** The replica fetches the proposal if need be and is then handed it. */
  lemma TakeNext(law: Law, cfg: Config, worlds: Worlds, i: ReplicaId, node: TreeNode) returns (longer: Worlds)
    requires law == HandedInTime || law == AnyLock
    requires Run(law, cfg, worlds) && Correct(cfg, i) && |Last(worlds)| == cfg.n && GenuineQc(cfg, Last(worlds), node.justify)
    requires CanTake(Last(worlds)[i].machine.storage, node) && Higher(Last(worlds)[i].signed.Keys, node)
    requires law == HandedInTime ==>
               SafeForSigned(Fetched(Last(worlds)[i].machine.storage, node), Last(worlds)[i].signed.Keys, node)
    ensures Run(law, cfg, longer) && worlds <= longer && OnlyMoves(Last(worlds), Last(longer), i)
    ensures var r, r' := Last(worlds)[i], Last(longer)[i];
            && r'.machine == r.machine.(storage := Taken(r.machine.storage, node))
            && r'.signed.Keys == r.signed.Keys + {node} && ExecutedBy(r.machine.storage, node) <= r'.executed
  {
    hide Run, GenuineQc, Taken, ExecutedBy, OnRecvProposal, OnlyMoves;
    var fetched := Fetch(law, cfg, worlds, i, node);
    MovesKeepSize(Last(worlds), Last(fetched), i);
    longer := HandOver(law, cfg, fetched, i, node);
    OnlyMovesOn(Last(worlds), Last(fetched), Last(longer), i);
    ExecutedLater(Last(fetched), Last(longer), i);
    TakenIs(Last(worlds)[i].machine.storage, node);
  }

  lemma TakenIs(s: Storage, node: TreeNode)
    ensures Taken(s, node) == OnRecvProposal(Fetched(s, node), node)
  {
  }

  lemma ExecutedLater(w: World, w': World, i: ReplicaId)
    requires OnlyMoves(w, w', i)
    ensures w[i].executed <= w'[i].executed
  {
  }

  /** The branch is fetched, unless the proposal is in time as it is. */
  lemma Fetch(law: Law, cfg: Config, worlds: Worlds, i: ReplicaId, node: TreeNode) returns (longer: Worlds)
    requires law == HandedInTime || law == AnyLock
    requires Run(law, cfg, worlds) && Correct(cfg, i) && |Last(worlds)| == cfg.n && GenuineQc(cfg, Last(worlds), node.justify)
    requires CanTake(Last(worlds)[i].machine.storage, node)
    ensures Run(law, cfg, longer) && worlds <= longer && OnlyMoves(Last(worlds), Last(longer), i)
    ensures GenuineQc(cfg, Last(longer), node.justify)
    ensures var r, r' := Last(worlds)[i], Last(longer)[i];
            && r'.machine == r.machine.(storage := Fetched(r.machine.storage, node)) && r'.signed == r.signed
            && (Fetched(r.machine.storage, node) != r.machine.storage ==> ExecutedBy(r.machine.storage, node) <= r'.executed)
  {
    hide Run, ExecutedBy, SyncProposal, OnRecvProposal;
    longer := worlds;
    if Fetched(Last(worlds)[i].machine.storage, node) != Last(worlds)[i].machine.storage {
      longer := OneStep(law, cfg, worlds, i, Sync(node));
      SameSignaturesSameGenuine(cfg, Last(worlds), Last(longer), i, node.justify);
    }
  }

  lemma SameSignaturesSameGenuine(cfg: Config, w: World, w': World, i: ReplicaId, qc: GenericQC)
    requires OnlyMoves(w, w', i) && w'[i].signed == w[i].signed && GenuineQc(cfg, w, qc)
    ensures GenuineQc(cfg, w', qc)
  {
    if qc.sign.Threshold? {
      assert Backers(cfg, w', qc.sign.signed) == Backers(cfg, w, qc.sign.signed);
    }
  }

  lemma HandOver(law: Law, cfg: Config, worlds: Worlds, i: ReplicaId, node: TreeNode) returns (longer: Worlds)
    requires law == HandedInTime || law == AnyLock
    requires Run(law, cfg, worlds) && Correct(cfg, i) && |Last(worlds)| == cfg.n && GenuineQc(cfg, Last(worlds), node.justify)
    requires var r := Last(worlds)[i]; var s := r.machine.storage;
             && Orderly(s, RecvProposal(node)) && Signs(s, node) && node.justify.view <= s.state.leaf.height
             && Higher(r.signed.Keys, node) && (law == HandedInTime ==> SafeForSigned(s, r.signed.Keys, node))
    ensures Run(law, cfg, longer) && worlds <= longer && OnlyMoves(Last(worlds), Last(longer), i)
    ensures var r, r' := Last(worlds)[i], Last(longer)[i];
            && r'.machine == r.machine.(storage := OnRecvProposal(r.machine.storage, node))
            && r'.signed.Keys == r.signed.Keys + {node} && ExecutedBy(r.machine.storage, node) <= r'.executed
  {
    hide Run, ExecutedBy, OnRecvProposal, Signs, GenuineQc, SafeForSigned;
    longer := OneStep(law, cfg, worlds, i, RecvProposal(node));
  }
}
