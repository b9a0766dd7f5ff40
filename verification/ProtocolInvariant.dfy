/** The invariant of every run with orderly messages. */
module ProtocolInvariant {
  import opened HsData
  import opened StorageModel
  import opened Voting
  import opened SafetyMachine
  import opened Quorums
  import opened Protocol
  import RI = ReplicaInvariants

  /** The justify node of every stored node is stored, certified and on its branch. */
  ghost predicate JustifiedNodes(cfg: Config, w: World, nodes: NodeMap) {
    forall h {:trigger Justified(cfg, w, nodes, nodes[h])} :: h in nodes && nodes[h] != INIT_NODE ==> Justified(cfg, w, nodes, nodes[h])
  }

  ghost predicate Justified(cfg: Config, w: World, nodes: NodeMap, node: TreeNode) {
    && node.justify.node in nodes
    && Certified(cfg, w, nodes[node.justify.node])
    && WellFormed(node)
  }

  /** The replica signed `node` while it was locked on `lock`.  The node need not be stored any
      more: another one with the same hash and another certificate may have taken its place. */
  ghost predicate SafelySigned(cfg: Config, w: World, s: Storage, node: TreeNode, lock: TreeNode) {
    && Hash(node) in s.nodes && node != INIT_NODE
    && Justified(cfg, w, s.nodes, node) && HeightOf(node.justify.node) <= HeightOf(s.state.qcHigh.node)
    && Certified(cfg, w, lock) && lock.height < node.height && SafeFor(node, Hash(lock))
  }

  ghost predicate SignedNodes(cfg: Config, w: World, s: Storage, signed: map<TreeNode, TreeNode>) {
    forall node :: node in signed ==> SafelySigned(cfg, w, s, node, signed[node])
  }

  ghost predicate CollectedVotes(cfg: Config, w: World, votes: VotingSet) {
    forall view, from :: view in votes && from in votes[view] ==> CollectedVote(cfg, w, view, votes[view][from])
  }

  ghost predicate CollectedVote(cfg: Config, w: World, view: ViewNumber, kit: SignKit) {
    && kit.share.ShareOf? && ValidVote(kit.share.node, kit)
    && kit.share.node.height == view && Backs(cfg, w, kit.signId, kit.share.node)
  }

  ghost predicate CertifiedState(cfg: Config, w: World, s: Storage) {
    && Has(s.nodes, s.state.locked) && Certified(cfg, w, s.state.locked)
    && VerifyProposal(s, s.state.qcHigh) && Certified(cfg, w, s.nodes[s.state.qcHigh.node])
    && Certified(cfg, w, s.state.lastCommit)
  }

  ghost predicate CertifiedChain(cfg: Config, w: World, e: Execution) {
    && Certified(cfg, w, e.top) && Certified(cfg, w, e.mid) && Certified(cfg, w, e.bottom)
    && e.top.justify.node == Hash(e.mid) && e.mid.justify.node == Hash(e.bottom)
    && e.top != INIT_NODE && e.mid != INIT_NODE
  }

  ghost predicate Executions(cfg: Config, w: World, s: Storage, executed: set<Execution>) {
    && (forall e :: e in executed ==> CertifiedChain(cfg, w, e))
    && (s.state.lastCommit == INIT_NODE || exists e :: e in executed && e.bottom == s.state.lastCommit)
  }

  ghost predicate ReplicaInv(cfg: Config, w: World, r: Replica) {
    var s := r.machine.storage;
    && RI.Inv(s) && RI.Covered(s)
    && JustifiedNodes(cfg, w, s.nodes)
    && CertifiedState(cfg, w, s)
    && SignedNodes(cfg, w, s, r.signed)
    && CollectedVotes(cfg, w, r.machine.votes)
    && Executions(cfg, w, s, r.executed)
  }

  ghost predicate WorldInv(cfg: Config, w: World) {
    && cfg.Valid() && |w| == cfg.n
    && forall i :: 0 <= i < cfg.n && i !in cfg.faulty ==> ReplicaInv(cfg, w, w[i])
  }

  // ---------------------------------------------------------------- certificates only accumulate

  ghost predicate Grows(cfg: Config, w: World, w': World) {
    |w| == |w'| && forall i, node :: Backs(cfg, w, i, node) ==> Backs(cfg, w', i, node)
  }

  lemma CertifiedGrows(cfg: Config, w: World, w': World, node: TreeNode)
    requires Grows(cfg, w, w') && Certified(cfg, w, node)
    ensures Certified(cfg, w', node)
  {
    SubsetSize(Backers(cfg, w, node), Backers(cfg, w', node));
  }

  lemma ReplicaInvGrows(cfg: Config, w: World, w': World, r: Replica)
    requires Grows(cfg, w, w') && ReplicaInv(cfg, w, r)
    ensures ReplicaInv(cfg, w', r)
  {
    forall node | Certified(cfg, w, node) ensures Certified(cfg, w', node) {
      CertifiedGrows(cfg, w, w', node);
    }
    var s := r.machine.storage;
    assert JustifiedNodes(cfg, w', s.nodes) by {
      forall h | h in s.nodes && s.nodes[h] != INIT_NODE ensures Justified(cfg, w', s.nodes, s.nodes[h]) {
        assert Justified(cfg, w, s.nodes, s.nodes[h]);
      }
    }
    assert SignedNodes(cfg, w', s, r.signed) by {
      forall node | node in r.signed ensures SafelySigned(cfg, w', s, node, r.signed[node]) {
        assert SafelySigned(cfg, w, s, node, r.signed[node]);
      }
    }
    assert CollectedVotes(cfg, w', r.machine.votes) by {
      forall view, from | view in r.machine.votes && from in r.machine.votes[view]
        ensures CollectedVote(cfg, w', view, r.machine.votes[view][from])
      {
        assert CollectedVote(cfg, w, view, r.machine.votes[view][from]);
      }
    }
    assert Executions(cfg, w', s, r.executed) by {
      forall e | e in r.executed ensures CertifiedChain(cfg, w', e) {
        assert CertifiedChain(cfg, w, e);
      }
    }
  }

  // ---------------------------------------------------------------- storage steps

  /** What ReplicaInv says of the storage, but for the covering certificate. */
  ghost predicate Core(cfg: Config, w: World, s: Storage) {
    RI.Inv(s) && JustifiedNodes(cfg, w, s.nodes) && CertifiedState(cfg, w, s)
  }

  lemma CoreOfReplica(cfg: Config, w: World, r: Replica)
    requires ReplicaInv(cfg, w, r)
    ensures Core(cfg, w, r.machine.storage) && RI.Inv(r.machine.storage) && RI.Covered(r.machine.storage)
  {
  }

  /** The tree keeps what is not above the certified node; above it a node may give way to another
      one with the same hash. */
  ghost predicate NodesGrow(s: Storage, t: Storage) {
    && HeightOf(s.state.qcHigh.node) <= HeightOf(t.state.qcHigh.node)
    && forall h :: h in s.nodes ==> h in t.nodes && (HeightOf(h) <= HeightOf(s.state.qcHigh.node) ==> t.nodes[h] == s.nodes[h])
  }

  lemma JustifiedGrows(cfg: Config, w: World, s: Storage, t: Storage, node: TreeNode)
    requires NodesGrow(s, t) && Justified(cfg, w, s.nodes, node) && HeightOf(node.justify.node) <= HeightOf(s.state.qcHigh.node)
    ensures Justified(cfg, w, t.nodes, node)
  {
  }

  lemma RecordsSurvive(cfg: Config, w: World, r: Replica, t: Storage)
    requires ReplicaInv(cfg, w, r) && NodesGrow(r.machine.storage, t)
    ensures SignedNodes(cfg, w, t, r.signed)
  {
    var s := r.machine.storage;
    forall node | node in r.signed ensures SafelySigned(cfg, w, t, node, r.signed[node]) {
      assert SafelySigned(cfg, w, s, node, r.signed[node]);
      JustifiedGrows(cfg, w, s, t, node);
    }
  }

  /** A well-formed node that is accepted: nothing that is certified or justified with is lost. */
  lemma AcceptKeepsCore(cfg: Config, w: World, s: Storage, prop: TreeNode)
    requires Core(cfg, w, s) && RI.Covered(s) && Accepts(s, prop) && WellFormed(prop)
    requires Certified(cfg, w, s.nodes[prop.justify.node])
    ensures Core(cfg, w, Accept(s, prop)) && NodesGrow(s, Accept(s, prop))
  {
    var t := Accept(s, prop);
    RI.AcceptKeepsInv(s, prop);
    RI.LockedBelowVoted(s);
    NewNodeKeepsNodes(cfg, w, s, prop);
    hide RI.Inv, JustifiedNodes, RI.Covered, WellFormed;
  }

  /** A new node above the certified one. */
  lemma NewNodeKeepsNodes(cfg: Config, w: World, s: Storage, prop: TreeNode)
    requires JustifiedNodes(cfg, w, s.nodes) && RI.Covered(s) && prop.height > HeightOf(s.state.qcHigh.node)
    requires WellFormed(prop) && prop.justify.node in s.nodes && Certified(cfg, w, s.nodes[prop.justify.node])
    ensures JustifiedNodes(cfg, w, s.nodes[Hash(prop) := prop])
  {
    var more := s.nodes[Hash(prop) := prop];
    forall h | h in more && more[h] != INIT_NODE ensures Justified(cfg, w, more, more[h]) {
      if h != Hash(prop) {
        assert Justified(cfg, w, s.nodes, s.nodes[h]);
      }
    }
  }

  lemma ChainIsCertified(cfg: Config, w: World, s: Storage, prop: TreeNode)
    requires Core(cfg, w, s) && prop.justify.node in s.nodes && Certified(cfg, w, s.nodes[prop.justify.node])
    ensures var chain := ThreeChain(s.nodes, prop);
            && (forall k :: 0 <= k < |chain| ==> Has(s.nodes, chain[k]) && Certified(cfg, w, chain[k]))
            && (|chain| == 3 ==> CertifiedChain(cfg, w, Execution(chain[0], chain[1], chain[2])))
            && (|chain| == 1 ==> chain[0] == INIT_NODE)
  {
    var chain := ThreeChain(s.nodes, prop);
    assert Zeroed !in s.nodes;
    var b3 := s.nodes[prop.justify.node];
    assert Hash(b3) == prop.justify.node;
    if b3 != INIT_NODE {
      assert Justified(cfg, w, s.nodes, s.nodes[prop.justify.node]);
      var b2 := s.nodes[b3.justify.node];
      assert Hash(b2) == b3.justify.node;
      if b2 != INIT_NODE {
        assert Justified(cfg, w, s.nodes, s.nodes[b3.justify.node]);
        assert Hash(s.nodes[b2.justify.node]) == b2.justify.node;
      }
    }
  }

  lemma UpdateNodesKeepsCore(cfg: Config, w: World, s: Storage, prop: TreeNode)
    requires Core(cfg, w, s) && VerifyProposal(s, prop.justify) && Certified(cfg, w, s.nodes[prop.justify.node])
    ensures Core(cfg, w, UpdateNodes(s, prop)) && UpdateNodes(s, prop).nodes == s.nodes
  {
    RI.UpdateNodesKeepsInv(s, prop);
    RI.UpdateNodesEffect(s, prop);
    ChainIsCertified(cfg, w, s, prop);
    var t := UpdateNodes(s, prop);
    assert CertifiedState(cfg, w, t);
  }

  lemma GenuineQcCertifies(cfg: Config, w: World, s: Storage, qc: GenericQC)
    requires RI.Inv(s) && VerifyProposal(s, qc) && GenuineQc(cfg, w, qc)
    ensures Certified(cfg, w, s.nodes[qc.node])
  {
  }
}
