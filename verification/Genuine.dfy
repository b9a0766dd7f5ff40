/** Signatures that can exist.  What a correct replica keeps and sends contains no certificate and
    no share that could not have been made, if what it was sent did not. */
module Genuine {
  import opened HsData
  import opened StorageModel
  import opened Voting
  import opened SafetyMachine
  import opened Quorums
  import opened Protocol
  import opened ProtocolInvariant
  import opened Preservation

  ghost predicate GenuineNode(cfg: Config, w: World, node: TreeNode) {
    node == INIT_NODE || GenuineQc(cfg, w, node.justify)
  }

  ghost predicate GenuineStorage(cfg: Config, w: World, s: Storage) {
    && (forall h :: h in s.nodes ==> GenuineNode(cfg, w, s.nodes[h]))
    && GenuineNode(cfg, w, s.state.leaf) && GenuineQc(cfg, w, s.state.qcHigh)
  }

  ghost predicate GenuineVotes(cfg: Config, w: World, votes: VotingSet) {
    forall view, from :: view in votes && from in votes[view] ==> GenuineKit(cfg, w, votes[view][from])
  }

  ghost predicate GenuineMachine(cfg: Config, w: World, m: MachineState) {
    GenuineStorage(cfg, w, m.storage) && GenuineVotes(cfg, w, m.votes)
  }

  // ---------------------------------------------------------------- what exists goes on existing

  lemma GenuineQcGrows(cfg: Config, w: World, w': World, qc: GenericQC)
    requires Grows(cfg, w, w') && GenuineQc(cfg, w, qc)
    ensures GenuineQc(cfg, w', qc)
  {
    if qc.sign.Threshold? {
      CertifiedGrows(cfg, w, w', qc.sign.signed);
    }
  }

  lemma DeliverableGrows(cfg: Config, w: World, w': World, event: Event)
    requires Grows(cfg, w, w') && Deliverable(cfg, w, event)
    ensures Deliverable(cfg, w', event)
  {
    forall qc | GenuineQc(cfg, w, qc) ensures GenuineQc(cfg, w', qc) {
      GenuineQcGrows(cfg, w, w', qc);
    }
  }

  lemma GenuineMachineGrows(cfg: Config, w: World, w': World, m: MachineState)
    requires Grows(cfg, w, w') && GenuineMachine(cfg, w, m)
    ensures GenuineMachine(cfg, w', m)
  {
    forall qc | GenuineQc(cfg, w, qc) ensures GenuineQc(cfg, w', qc) {
      GenuineQcGrows(cfg, w, w', qc);
    }
    hide GenuineQc;
  }

  // ---------------------------------------------------------------- storage

  lemma InsertKeepsGenuine(cfg: Config, w: World, s: Storage, node: TreeNode)
    requires GenuineStorage(cfg, w, s) && GenuineNode(cfg, w, node)
    ensures GenuineStorage(cfg, w, Insert(s, node)) && GenuineStorage(cfg, w, UpdateLeaf(s, node))
  {
    hide GenuineNode, GenuineQc;
  }

  lemma UpdateQcHighKeepsGenuine(cfg: Config, w: World, s: Storage, node: TreeNode, qc: GenericQC)
    requires GenuineStorage(cfg, w, s) && GenuineNode(cfg, w, node) && GenuineQc(cfg, w, qc)
    ensures GenuineStorage(cfg, w, UpdateQcHigh(s, node, qc))
  {
    hide GenuineNode, GenuineQc, Adopts;
    InsertKeepsGenuine(cfg, w, s.(state := s.state.(qcHigh := qc)), node);
  }

  lemma UpdateNodesKeepsGenuine(cfg: Config, w: World, s: Storage, prop: TreeNode)
    requires GenuineStorage(cfg, w, s) && GenuineQc(cfg, w, prop.justify)
    ensures GenuineStorage(cfg, w, UpdateNodes(s, prop))
  {
    hide GenuineNode, GenuineQc, UpdateQcHigh, ConsecutiveThreeChain;
    if prop.justify.node in s.nodes {
      UpdateQcHighKeepsGenuine(cfg, w, s, s.nodes[prop.justify.node], prop.justify);
    }
  }

  lemma ProposalKeepsGenuine(cfg: Config, w: World, s: Storage, prop: TreeNode)
    requires GenuineStorage(cfg, w, s) && GenuineQc(cfg, w, prop.justify)
    ensures GenuineStorage(cfg, w, OnRecvProposal(s, prop)) && GenuineStorage(cfg, w, SyncProposal(s, prop))
  {
    hide GenuineQc, UpdateNodes, Accepts, VerifyProposal;
    InsertKeepsGenuine(cfg, w, s, prop);
    var t := if Accepts(s, prop) then Accept(s, prop) else s;
    assert GenuineStorage(cfg, w, t);
    UpdateNodesKeepsGenuine(cfg, w, t, prop);
    UpdateNodesKeepsGenuine(cfg, w, AppendNewQc(s, prop.justify), prop);
  }

  lemma {:induction false} SyncKeepsGenuine(cfg: Config, w: World, s: Storage, branch: seq<TreeNode>)
    requires GenuineStorage(cfg, w, s) && forall node :: node in branch ==> GenuineQc(cfg, w, node.justify)
    ensures GenuineStorage(cfg, w, OnBranchSync(s, branch))
    decreases |branch|
  {
    hide GenuineStorage, GenuineQc, SyncProposal, VerifyProposal;
    if branch != [] && VerifyProposal(s, branch[0].justify) {
      ProposalKeepsGenuine(cfg, w, s, branch[0]);
      SyncKeepsGenuine(cfg, w, SyncProposal(s, branch[0]), branch[1..]);
    }
  }

  // ---------------------------------------------------------------- votes

  /** A signature that is combined from shares that exist exists. */
  lemma CombinedIsGenuine(cfg: Config, w: World, ballots: Ballots, node: TreeNode)
    requires |ballots| > QuorumThreshold(cfg.n) && DistinctSigners(ballots) && AllSign(ballots, node)
    requires forall from :: from in ballots ==> GenuineKit(cfg, w, ballots[from])
    ensures Certified(cfg, w, node)
  {
    forall from | from in ballots ensures ballots[from].signId in Backers(cfg, w, node) {
      assert ValidVote(node, ballots[from]);
    }
    SignIdsSize(ballots);
    SubsetSize(SignIds(ballots), Backers(cfg, w, node));
  }

  lemma CombinationIsGenuine(cfg: Config, w: World, ballots: Ballots)
    requires forall from :: from in ballots ==> GenuineKit(cfg, w, ballots[from])
    ensures var combined := Combine(QuorumThreshold(cfg.n), ballots);
            combined.Ok? ==> combined.sign != ZeroSign && (combined.sign.Threshold? ==> Certified(cfg, w, combined.sign.signed))
  {
    hide Certified, GenuineKit;
    var combined := Combine(QuorumThreshold(cfg.n), ballots);
    if combined.Ok? && combined.sign.Threshold? {
      CombinedIsGenuine(cfg, w, ballots, combined.sign.signed);
    }
  }

  lemma AddedVoteIsGenuine(cfg: Config, w: World, votes: VotingSet, view: ViewNumber, from: ReplicaId, kit: SignKit)
    requires GenuineVotes(cfg, w, votes) && GenuineKit(cfg, w, kit)
    ensures GenuineVotes(cfg, w, AddVote(votes, view, from, kit))
  {
    hide GenuineKit;
  }

  lemma VoteKeepsGenuine(cfg: Config, w: World, m: MachineState, from: ReplicaId, prop: TreeNode, kit: SignKit)
    requires GenuineMachine(cfg, w, m) && GenuineKit(cfg, w, kit) && GenuineQc(cfg, w, prop.justify)
    ensures GenuineMachine(cfg, w, OnRecvVote(m, cfg.n, from, prop, kit))
  {
    hide UpdateQcHigh, Combine, QuorumThreshold, GenuineStorage, GenuineKit, Certified;
    var votes := AddVote(m.votes, prop.height, from, kit);
    var combined := Combine(QuorumThreshold(cfg.n), votes[prop.height]);
    AddedVoteIsGenuine(cfg, w, m.votes, prop.height, from, kit);
    CombinationIsGenuine(cfg, w, votes[prop.height]);
    if combined.Ok? {
      UpdateQcHighKeepsGenuine(cfg, w, m.storage, prop, LeafQc(m.storage, combined.sign));
    }
  }

  lemma BeatKeepsGenuine(cfg: Config, w: World, m: MachineState, self: ReplicaId, payload: seq<Byte>)
    requires GenuineMachine(cfg, w, m) && Backs(cfg, w, self, MakeLeaf(m.storage, payload))
    ensures GenuineMachine(cfg, w, OnBeat(m, self, payload))
  {
    hide GenuineQc, UpdateLeaf;
    var prop := MakeLeaf(m.storage, payload);
    InsertKeepsGenuine(cfg, w, m.storage, prop);
    AddedVoteIsGenuine(cfg, w, m.votes, prop.height, self, Sign(self, prop));
  }

  lemma NewViewKeepsGenuine(cfg: Config, w: World, s: Storage, qc: GenericQC)
    requires GenuineStorage(cfg, w, s) && GenuineQc(cfg, w, qc)
    ensures GenuineStorage(cfg, w, OnNewView(s, qc))
  {
    hide GenuineNode, GenuineQc, UpdateQcHigh;
    if qc.node in s.nodes {
      UpdateQcHighKeepsGenuine(cfg, w, s, s.nodes[qc.node], qc);
    }
  }

  /** The initial node is never adopted, so that its own certificate does not matter. */
  lemma HandingBackKeepsGenuine(cfg: Config, w: World, s: Storage, node: TreeNode)
    requires GenuineStorage(cfg, w, s) && GenuineNode(cfg, w, node)
    ensures GenuineStorage(cfg, w, OnUpdateQcHighReady(s, node))
  {
    hide GenuineQc;
    if node != INIT_NODE {
      UpdateQcHighKeepsGenuine(cfg, w, s, node, node.justify);
    }
  }
}
