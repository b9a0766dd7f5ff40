/** Every orderly step keeps the invariant of module ProtocolInvariant. */
module Preservation {
  import opened HsData
  import opened StorageModel
  import opened Voting
  import opened SafetyMachine
  import opened Quorums
  import opened Protocol
  import opened ProtocolInvariant
  import RI = ReplicaInvariants

  // ---------------------------------------------------------------- signing

  /** A safe signature on a justified node above the lock. */
  lemma NewSignature(cfg: Config, w: World, s: Storage, t: Storage, signed: map<TreeNode, TreeNode>, prop: TreeNode)
    requires Core(cfg, w, s) && Core(cfg, w, t) && SignedNodes(cfg, w, t, signed)
    requires Has(t.nodes, prop) && HeightOf(prop.justify.node) <= HeightOf(t.state.qcHigh.node)
    requires prop.height > s.state.locked.height && SafeFor(prop, Hash(s.state.locked))
    ensures SignedNodes(cfg, w, t, signed[prop := s.state.locked])
  {
    assert Justified(cfg, w, t.nodes, t.nodes[Hash(prop)]);
    assert SafelySigned(cfg, w, t, prop, s.state.locked);
    hide Core, SafelySigned;
  }

  lemma SafeNodeMeansSafeVote(s: Storage, prop: TreeNode)
    requires Accepts(s, prop) && prop.height > s.state.locked.height
    ensures SafeFor(prop, Hash(s.state.locked))
  {
    assert Hash(s.nodes[prop.justify.node]) == prop.justify.node;
    if !IsConflicting(s.nodes, prop, s.state.locked) {
      NotConflictingIsAncestry(s.nodes, prop, s.state.locked);
    }
  }

  // ---------------------------------------------------------------- proposals

  ghost predicate IsProposal(event: Event) {
    event.RecvProposal? || event.Sync?
  }

  ghost function Accepted(s: Storage, prop: TreeNode): Storage {
    if Accepts(s, prop) then Accept(s, prop) else s
  }

  lemma ProposalKeepsCore(cfg: Config, w: World, s: Storage, event: Event)
    requires Core(cfg, w, s) && RI.Covered(s) && IsProposal(event) && VerifyProposal(s, event.prop.justify)
    requires Deliverable(cfg, w, event) && Orderly(s, event)
    ensures var t0 := Accepted(s, event.prop); var t := UpdateNodes(t0, event.prop);
            && Core(cfg, w, t0) && Core(cfg, w, t) && RI.Covered(t) && NodesGrow(s, t) && t.nodes == t0.nodes
            && HeightOf(event.prop.justify.node) <= HeightOf(t.state.qcHigh.node)
            && VerifyProposal(t0, event.prop.justify) && Certified(cfg, w, t0.nodes[event.prop.justify.node])
  {
    var prop := event.prop;
    GenuineQcCertifies(cfg, w, s, prop.justify);
    if Accepts(s, prop) {
      AcceptKeepsCore(cfg, w, s, prop);
    }
    var t0 := Accepted(s, prop);
    UpdateNodesKeepsCore(cfg, w, t0, prop);
    RI.CertificateIsTakenOver(t0, prop);
    RI.ProposalKeepsCovered(s, prop);
    hide UpdateNodes, Core, RI.Covered;
  }

  lemma ProposalKeepsExecutions(cfg: Config, w: World, s: Storage, executed: set<Execution>, prop: TreeNode)
    requires VerifyProposal(s, prop.justify) && Executions(cfg, w, s, executed)
    requires var t0 := Accepted(s, prop);
             Core(cfg, w, t0) && prop.justify.node in t0.nodes && Certified(cfg, w, t0.nodes[prop.justify.node])
    ensures Executions(cfg, w, UpdateNodes(Accepted(s, prop), prop), executed + ExecutedBy(s, prop))
  {
    hide UpdateNodes, Core, RI.Inv, ThreeChain, Accepts, VerifyProposal;
    var t0 := Accepted(s, prop);
    var t := UpdateNodes(t0, prop);
    var chain := ThreeChain(t0.nodes, prop);
    ChainIsCertified(cfg, w, t0, prop);
    CoreHasInv(cfg, w, t0);
    RI.UpdateNodesEffect(t0, prop);
    var executed' := executed + ExecutedBy(s, prop);
    forall e | e in executed' ensures CertifiedChain(cfg, w, e) {
    }
    if t.state.lastCommit != s.state.lastCommit {
      assert Execution(chain[0], chain[1], chain[2]) in executed';
    } else if s.state.lastCommit != INIT_NODE {
      var e :| e in executed && e.bottom == s.state.lastCommit;
      assert e in executed';
    }
  }

  lemma CoreHasInv(cfg: Config, w: World, s: Storage)
    requires Core(cfg, w, s)
    ensures RI.Inv(s)
  {
  }

  lemma ProposalKeepsSigned(cfg: Config, w: World, r: Replica, prop: TreeNode, t: Storage)
    requires ReplicaInv(cfg, w, r) && Signs(r.machine.storage, prop)
    requires Core(cfg, w, t) && NodesGrow(r.machine.storage, t) && Has(t.nodes, prop)
    requires HeightOf(prop.justify.node) <= HeightOf(t.state.qcHigh.node)
    ensures SignedNodes(cfg, w, t, r.signed[prop := r.machine.storage.state.locked])
  {
    var s := r.machine.storage;
    RecordsSurvive(cfg, w, r, t);
    RI.LockedBelowVoted(s);
    SafeNodeMeansSafeVote(s, prop);
    NewSignature(cfg, w, s, t, r.signed, prop);
  }

  lemma ProposalKeepsReplicaInv(cfg: Config, w: World, i: ReplicaId, r: Replica, event: Event)
    requires ReplicaInv(cfg, w, r) && IsProposal(event)
    requires Deliverable(cfg, w, event) && Orderly(r.machine.storage, event)
    ensures ReplicaInv(cfg, w, ReplicaStep(cfg, i, r, event))
  {
    var s, prop, r' := r.machine.storage, event.prop, ReplicaStep(cfg, i, r, event);
    if !VerifyProposal(s, prop.justify) {
      assert r' == r;
    } else {
      var t := r'.machine.storage;
      assert t == UpdateNodes(Accepted(s, prop), prop);
      ProposalKeepsCore(cfg, w, s, event);
      ProposalKeepsExecutions(cfg, w, s, r.executed, prop);
      RecordsSurvive(cfg, w, r, t);
      if event.RecvProposal? && Signs(s, prop) {
        ProposalKeepsSigned(cfg, w, r, prop, t);
      }
    }
  }

  // ---------------------------------------------------------------- the leader

  lemma BeatKeepsCore(cfg: Config, w: World, m: MachineState, i: ReplicaId, payload: seq<Byte>)
    requires Core(cfg, w, m.storage) && RI.Covered(m.storage) && m.storage.state.view > m.storage.state.leaf.height
    ensures var t := OnBeat(m, i, payload).storage;
            && Core(cfg, w, t) && RI.Covered(t) && NodesGrow(m.storage, t) && Has(t.nodes, MakeLeaf(m.storage, payload))
            && WellFormed(MakeLeaf(m.storage, payload))
  {
    var s, prop := m.storage, MakeLeaf(m.storage, payload);
    RI.LockedBelowVoted(s);
    RI.BeatKeepsInv(m, i, payload);
    RI.BeatKeepsCovered(m, i, payload);
    RI.ProposalExtendsItsJustify(s, payload);
    NewNodeKeepsNodes(cfg, w, s, prop);
    hide RI.Inv, JustifiedNodes, RI.Covered, WellFormed;
  }

  lemma AddedVote(cfg: Config, w: World, votes: VotingSet, from: ReplicaId, node: TreeNode, kit: SignKit)
    requires CollectedVotes(cfg, w, votes) && ValidVote(node, kit) && Backs(cfg, w, kit.signId, node)
    ensures CollectedVotes(cfg, w, AddVote(votes, node.height, from, kit))
  {
    assert CollectedVote(cfg, w, node.height, kit);
  }

  lemma BeatKeepsReplicaInv(cfg: Config, w: World, i: ReplicaId, r: Replica, payload: seq<Byte>)
    requires ReplicaInv(cfg, w, r) && Orderly(r.machine.storage, NewTx(payload))
    requires Backs(cfg, w, i, MakeLeaf(r.machine.storage, payload))
    ensures ReplicaInv(cfg, w, ReplicaStep(cfg, i, r, NewTx(payload)))
  {
    var s, prop, r' := r.machine.storage, MakeLeaf(r.machine.storage, payload), ReplicaStep(cfg, i, r, NewTx(payload));
    var t := r'.machine.storage;
    BeatKeepsCore(cfg, w, r.machine, i, payload);
    RecordsSurvive(cfg, w, r, t);
    RI.LockedBelowVoted(s);
    NewSignature(cfg, w, s, t, r.signed, prop);
    AddedVote(cfg, w, r.machine.votes, i, prop, Sign(i, prop));
  }

  lemma {:induction false} SignIdsSize(ballots: Ballots)
    requires DistinctSigners(ballots)
    ensures |SignIds(ballots)| == |ballots|
    decreases |ballots|
  {
    if from :| from in ballots {
      var rest := ballots - {from};
      SignIdsSize(rest);
      forall id | id in SignIds(ballots) ensures id in SignIds(rest) + {ballots[from].signId} {
        var other :| other in ballots && ballots[other].signId == id;
        if other != from {
          assert other in rest && rest[other].signId == id;
        }
      }
      assert SignIds(ballots) == SignIds(rest) + {ballots[from].signId};
    }
  }

  /** A complete set of collected votes for a node certifies it. */
  lemma CollectedQuorumCertifies(cfg: Config, w: World, votes: VotingSet, node: TreeNode)
    requires |w| == cfg.n && CollectedVotes(cfg, w, votes)
    requires node.height in votes && |votes[node.height]| > QuorumThreshold(cfg.n)
    requires DistinctSigners(votes[node.height]) && AllSign(votes[node.height], node)
    ensures Certified(cfg, w, node) && Combine(QuorumThreshold(cfg.n), votes[node.height]) == Ok(Threshold(node))
  {
    var ballots := votes[node.height];
    forall from | from in ballots ensures ballots[from].signId in Backers(cfg, w, node) {
      assert CollectedVote(cfg, w, node.height, ballots[from]) && ValidVote(node, ballots[from]);
    }
    var from :| from in ballots;
    SignIdsSize(ballots);
    SubsetSize(SignIds(ballots), Backers(cfg, w, node));
  }

  /** A certificate for a stored and certified node. */
  lemma CertificateKeepsCore(cfg: Config, w: World, s: Storage, qc: GenericQC)
    requires Core(cfg, w, s) && VerifyProposal(s, qc) && Certified(cfg, w, s.nodes[qc.node])
    ensures var t := UpdateQcHigh(s, s.nodes[qc.node], qc);
            && Core(cfg, w, t) && t.nodes == s.nodes && t.state.lastCommit == s.state.lastCommit
            && HeightOf(s.state.qcHigh.node) <= HeightOf(t.state.qcHigh.node)
  {
    RI.UpdateQcHighKeepsInv(s, qc);
  }

  lemma StorageStepKeepsReplicaInv(cfg: Config, w: World, r: Replica, t: Storage, votes: VotingSet)
    requires ReplicaInv(cfg, w, r) && Core(cfg, w, t) && t.nodes == r.machine.storage.nodes
    requires t.state.lastCommit == r.machine.storage.state.lastCommit
    requires HeightOf(r.machine.storage.state.qcHigh.node) <= HeightOf(t.state.qcHigh.node)
    requires CollectedVotes(cfg, w, votes)
    ensures ReplicaInv(cfg, w, r.(machine := MachineState(t, votes)))
  {
    var r1 := r.(machine := r.machine.(votes := votes));
    RecordsSurvive(cfg, w, r1, t);
  }

  lemma VoteKeepsReplicaInv(cfg: Config, w: World, i: ReplicaId, r: Replica, event: Event)
    requires |w| == cfg.n && ReplicaInv(cfg, w, r) && event.RecvSign? && InOrder(cfg, w, r, event)
    ensures ReplicaInv(cfg, w, r.(machine := OnRecvVote(r.machine, cfg.n, event.from, event.prop, event.kit)))
  {
    var s, prop, m' := r.machine.storage, event.prop, OnRecvVote(r.machine, cfg.n, event.from, event.prop, event.kit);
    if ValidVote(prop, event.kit) {
      var _ := LeafVoteMoves(r.machine, cfg.n, event);
      var votes := AddVote(r.machine.votes, prop.height, event.from, event.kit);
      AddedVote(cfg, w, r.machine.votes, event.from, prop, event.kit);
      if m'.storage != s {
        CollectedQuorumCertifies(cfg, w, votes, prop);
        CertificateKeepsCore(cfg, w, s, LeafQc(s, Combine(QuorumThreshold(cfg.n), votes[prop.height]).sign));
      }
      StorageStepKeepsReplicaInv(cfg, w, r, m'.storage, m'.votes);
    }
  }

  lemma NewViewKeepsReplicaInv(cfg: Config, w: World, r: Replica, qc: GenericQC)
    requires ReplicaInv(cfg, w, r) && GenuineQc(cfg, w, qc) && Orderly(r.machine.storage, RecvNewView(qc))
    ensures ReplicaInv(cfg, w, r.(machine := r.machine.(storage := OnNewView(r.machine.storage, qc))))
  {
    var s := r.machine.storage;
    if qc.node in s.nodes && Adopts(s, s.nodes[qc.node]) {
      GenuineQcCertifies(cfg, w, s, qc);
      CertificateKeepsCore(cfg, w, s, qc);
      StorageStepKeepsReplicaInv(cfg, w, r, OnNewView(s, qc), r.machine.votes);
    }
  }

  lemma HandingBackLeafKeepsReplicaInv(cfg: Config, w: World, r: Replica, node: TreeNode)
    requires ReplicaInv(cfg, w, r) && Orderly(r.machine.storage, UpdateQcHighReady(node))
    ensures var s := r.machine.storage;
            ReplicaInv(cfg, w, r.(machine := r.machine.(storage := OnUpdateQcHighReady(s, node))))
  {
    var s := r.machine.storage;
    RI.HandingBackLeafKeepsQcHigh(s, node);
    hide OnUpdateQcHighReady;
    StorageStepKeepsReplicaInv(cfg, w, r, OnUpdateQcHighReady(s, node), r.machine.votes);
  }

  lemma ViewKeepsReplicaInv(cfg: Config, w: World, r: Replica, view: ViewNumber, votes: VotingSet)
    requires ReplicaInv(cfg, w, r) && (votes == map[] || votes == r.machine.votes)
    ensures ReplicaInv(cfg, w, r.(machine := MachineState(IncreaseView(r.machine.storage, view), votes)))
  {
    StorageStepKeepsReplicaInv(cfg, w, r, IncreaseView(r.machine.storage, view), votes);
  }

  // ---------------------------------------------------------------- all events

  /** Events that are no proposal and no beat change nothing but the machine. */
  lemma OtherEventsOnlyMoveMachine(cfg: Config, i: ReplicaId, r: Replica, event: Event)
    requires !IsProposal(event) && !event.NewTx?
    ensures ReplicaStep(cfg, i, r, event) == r.(machine := Step(r.machine, cfg.n, i, event))
  {
  }

  lemma EventKeepsReplicaInv(cfg: Config, w: World, i: ReplicaId, r: Replica, event: Event)
    requires |w| == cfg.n && ReplicaInv(cfg, w, r) && InOrder(cfg, w, r, event)
    requires SignedBy(r.machine.storage, event).Some? ==> Backs(cfg, w, i, SignedBy(r.machine.storage, event).value)
    ensures ReplicaInv(cfg, w, ReplicaStep(cfg, i, r, event))
  {
    if IsProposal(event) {
      ProposalKeepsReplicaInv(cfg, w, i, r, event);
    } else if event.NewTx? {
      BeatKeepsReplicaInv(cfg, w, i, r, event.payload);
    } else {
      OtherEventsOnlyMoveMachine(cfg, i, r, event);
      match event
      case RecvSign(_, _, _) => VoteKeepsReplicaInv(cfg, w, i, r, event);
      case RecvNewView(qc) => NewViewKeepsReplicaInv(cfg, w, r, qc);
      case UpdateQcHighReady(node) => HandingBackLeafKeepsReplicaInv(cfg, w, r, node);
      case ViewChange(view) => ViewKeepsReplicaInv(cfg, w, r, view, map[]);
      case RaiseView(view) => ViewKeepsReplicaInv(cfg, w, r, view, r.machine.votes);
      case RecordTimeout(tc) => StorageStepKeepsReplicaInv(cfg, w, r, AppendTc(r.machine.storage, tc), r.machine.votes);
    }
  }
}
