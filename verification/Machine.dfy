/** The voter and the safety machine as objects (hotstuff-rs/src/safety/voter.rs and
    machine.rs).  Every handler changes storage and voting sets in place and is proved to do
    what its function in module SafetyMachine says. */
module MachineClass {
  import opened HsData
  import opened StorageModel
  import opened Voting
  import opened HotstuffStorageClass
  import SM = SafetyMachine

  class Voter {
    const signId: ReplicaId
    const threshold: nat

    var view: ViewNumber
    var votingSet: VotingSet
    var voteDecided: bool

    constructor (threshold: nat, signId: ReplicaId)
      ensures this.threshold == threshold && this.signId == signId
      ensures view == 0 && votingSet == map[] && !voteDecided
    {
      this.threshold, this.signId := threshold, signId;
      view, votingSet, voteDecided := 0, map[], false;
    }

    method VoteSetSize(view: ViewNumber) returns (size: nat)
      ensures size == |VotesFor(votingSet, view)|
    {
      size := if view in votingSet then |votingSet[view]| else 0;
    }

    method AddVote(from: ReplicaId, view: ViewNumber, kit: SignKit) returns (error: Option<VoteErr>)
      modifies `votingSet
      ensures votingSet == Voting.AddVote(old(votingSet), view, from, kit)
      ensures error == if from in VotesFor(old(votingSet), view) then Some(DuplicateVote(from)) else None
    {
      var ballots := if view in votingSet then votingSet[view] else map[];
      error := if from in ballots then Some(DuplicateVote(from)) else None;
      votingSet := votingSet[view := ballots[from := kit]];
    }

    /** The set is gone afterwards, whatever the combination yields. */
    method CombinePartialSign(view: ViewNumber) returns (combined: Combination)
      modifies `votingSet, `voteDecided
      ensures |VotesFor(old(votingSet), view)| <= threshold ==>
                && combined == Err(InsufficientSigns(threshold + 1, |VotesFor(old(votingSet), view)|))
                && votingSet == old(votingSet) && voteDecided == old(voteDecided)
      ensures |VotesFor(old(votingSet), view)| > threshold ==>
                && combined == Combine(threshold, VotesFor(old(votingSet), view))
                && votingSet == old(votingSet) - {view} && voteDecided
    {
      var size := VoteSetSize(view);
      if size <= threshold {
        return Err(InsufficientSigns(threshold + 1, size));
      }
      voteDecided := true;
      combined := CombineShares(threshold, votingSet[view]);
      votingSet := votingSet - {view};
    }

    method Reset(newView: ViewNumber)
      modifies this
      ensures view == newView && votingSet == map[] && !voteDecided
    {
      view, votingSet, voteDecided := newView, map[], false;
    }
  }

  /** The signature library: all shares are on the node of any one of them, or they are mixed. */
  method CombineShares(threshold: nat, ballots: Ballots) returns (combined: Combination)
    ensures combined == Combine(threshold, ballots)
  {
    if |ballots| <= threshold || !DistinctSigners(ballots) {
      return Err(InsufficientSigns(threshold, |ballots|));
    }
    assert ballots != map[];
    var from :| from in ballots;
    if ballots[from].share.ShareOf? && AllSign(ballots, ballots[from].share.node) {
      combined := Ok(Threshold(ballots[from].share.node));
    } else {
      combined := Ok(Garbage);
      assert forall node :: AllSign(ballots, node) ==> ValidVote(node, ballots[from]);
    }
  }

  datatype SafetyErr = CorruptedVote | CorruptedQC | VoterError(error: VoteErr)

  datatype Snapshot = Snapshot(
    view: ViewNumber,
    leader: Option<ReplicaId>,
    qcHigh: GenericQC,
    leaf: TreeNode,
    locked: TreeNode,
    lastCommitted: ViewNumber)

  function SnapshotOf(s: Storage, leader: Option<ReplicaId>): Snapshot {
    Snapshot(s.state.view, leader, s.state.qcHigh, s.state.leaf, s.state.locked, s.state.committedHeight)
  }

  datatype Ready =
    | Nil
    | InternalState(snapshot: Snapshot)
    | NewProposal(prop: TreeNode)
    | UpdateQCHigh(node: TreeNode)
    | Signature(to: ReplicaId, node: TreeNode, kit: SignKit)
    | CommitState(node: TreeNode)
    | BranchSyncDone(leaf: TreeNode)
    | ProposalReachConsensus(view: ViewNumber)

  datatype Outcome = Fine(ready: Ready) | Failed(error: SafetyErr)

  /** What the leader learns from a vote. */
  ghost function VoteOutcome(m: SM.MachineState, total: nat, from: ReplicaId, prop: TreeNode, kit: SignKit): Outcome {
    if !ValidVote(prop, kit) then Failed(CorruptedVote) else
    var ballots := VotesFor(m.votes, prop.height);
    if from in ballots || |ballots[from := kit]| <= QuorumThreshold(total) then Fine(Nil) else
    match Combine(QuorumThreshold(total), ballots[from := kit])
    case Ok(_) => Fine(ProposalReachConsensus(m.storage.state.view))
    case Err(e) => Failed(VoterError(e))
  }

  datatype SafetyEvent =
    | RequestSnapshot
    | RecvProposal(from: ReplicaId, prop: TreeNode)
    | RecvSign(from: ReplicaId, prop: TreeNode, kit: SignKit)
    | NewTx(payload: seq<Byte>)
    | RecvNewViewMsg(qc: GenericQC)
    | NewLeader(view: ViewNumber, leader: ReplicaId)
    | BranchSync(branch: seq<TreeNode>)
    | Unexpected

  ghost function Handled(m: SM.MachineState, total: nat, self: ReplicaId, event: SafetyEvent): SM.MachineState {
    match event
    case RequestSnapshot => m
    case RecvProposal(_, prop) => m.(storage := SM.OnRecvProposal(m.storage, prop))
    case RecvSign(from, prop, kit) => SM.OnRecvVote(m, total, from, prop, kit)
    case NewTx(payload) => SM.OnBeat(m, self, payload)
    case RecvNewViewMsg(qc) => m.(storage := SM.OnNewView(m.storage, qc))
    case BranchSync(branch) => m.(storage := SM.OnBranchSync(m.storage, branch))
    case NewLeader(_, _) => m
    case Unexpected => m
  }

  /** The leader is taken over once, and only in a view that is not over. */
  function LeaderAfter(s: Storage, leader: Option<ReplicaId>, event: SafetyEvent): Option<ReplicaId> {
    if event.NewLeader? && event.view >= s.state.view && leader.None? then Some(event.leader) else leader
  }

  ghost function OutcomeOf(m: SM.MachineState, leader: Option<ReplicaId>, total: nat, self: ReplicaId, event: SafetyEvent): Outcome {
    var leaf := Handled(m, total, self, event).storage.state.leaf;
    match event
    case RequestSnapshot => Fine(InternalState(SnapshotOf(m.storage, leader)))
    case RecvProposal(from, prop) => ProposalOutcome(m.storage, self, from, prop)
    case RecvSign(from, prop, kit) => VoteOutcome(m, total, from, prop, kit)
    case NewTx(_) => Fine(NewProposal(leaf))
    case RecvNewViewMsg(_) => Fine(UpdateQCHigh(leaf))
    case BranchSync(_) => Fine(BranchSyncDone(leaf))
    case NewLeader(_, _) => Fine(Nil)
    case Unexpected => Fine(Nil)
  }

  /** The single steps that an event can be made of. */
  ghost predicate MadeOf(event: SafetyEvent, steps: seq<SM.Event>) {
    match event
    case RequestSnapshot => steps == []
    case RecvProposal(_, prop) => steps == [SM.RecvProposal(prop)]
    case RecvSign(from, prop, kit) => steps == [SM.RecvSign(from, prop, kit)]
    case NewTx(payload) => steps == [SM.NewTx(payload)]
    case RecvNewViewMsg(qc) => steps == [SM.RecvNewView(qc)]
    case BranchSync(branch) => exists k :: 0 <= k <= |branch| && steps == SM.Syncs(branch[..k])
    case NewLeader(_, _) => steps == []
    case Unexpected => steps == []
  }

  /** So what module ReplicaInvariants says of every sequence of steps holds of the object. */
  lemma HandlingIsSteps(m: SM.MachineState, total: nat, self: ReplicaId, event: SafetyEvent) returns (steps: seq<SM.Event>)
    ensures MadeOf(event, steps) && Handled(m, total, self, event) == SM.Steps(m, total, self, steps)
  {
    match event
    case RequestSnapshot => steps := [];
    case RecvProposal(_, prop) => steps := [SM.RecvProposal(prop)];
    case RecvSign(from, prop, kit) => steps := [SM.RecvSign(from, prop, kit)];
    case NewTx(payload) => steps := [SM.NewTx(payload)];
    case RecvNewViewMsg(qc) => steps := [SM.RecvNewView(qc)];
    case BranchSync(branch) =>
      var k := SM.BranchSyncIsSteps(m, total, self, branch);
      steps := SM.Syncs(branch[..k]);
    case NewLeader(_, _) => steps := [];
    case Unexpected => steps := [];
  }

  /** What a replica answers to a proposal. */
  function ProposalOutcome(s: Storage, signId: ReplicaId, from: ReplicaId, prop: TreeNode): Outcome {
    if !SM.VerifyProposal(s, prop.justify) then Failed(CorruptedQC)
    else if SM.Signs(s, prop) then Fine(Signature(from, prop, Sign(signId, prop)))
    else Fine(Nil)
  }

  class Machine {
    const storage: HotstuffStorage
    const voter: Voter
    const total: nat
    const selfId: ReplicaId
    var leaderId: Option<ReplicaId>

    constructor (voter: Voter, selfId: ReplicaId, total: nat, storage: HotstuffStorage)
      requires voter.threshold == QuorumThreshold(total) && voter.signId == selfId
      ensures this.voter == voter && this.storage == storage && this.total == total && this.selfId == selfId
      ensures Configured() && leaderId == None
    {
      this.voter, this.storage, this.total, this.selfId := voter, storage, total, selfId;
      leaderId := None;
    }

    predicate Configured() {
      voter.threshold == QuorumThreshold(total) && voter.signId == selfId
    }

    ghost function Value(): SM.MachineState
      reads storage, voter
    {
      SM.MachineState(storage.Value(), voter.votingSet)
    }

    method VerifyProposal(justify: GenericQC) returns (ok: bool)
      ensures ok == SM.VerifyProposal(storage.Value(), justify)
    {
      if justify.node in storage.nodes {
        var qcNode := storage.nodes[justify.node];
        if justify.sign != ZeroSign {
          var valid := ValidQc(qcNode, justify.sign);
          if !valid {
            return false;
          }
        }
        return true;
      }
      return false;
    }

    method SafeNode(node: TreeNode, justifyNode: TreeNode) returns (safe: bool)
      ensures safe == SM.SafeNode(storage.Value(), node, justifyNode)
    {
      var locked := storage.state.locked;
      var conflicting := storage.IsConflicting(node, locked);
      safe := !conflicting || justifyNode.height > locked.height;
    }

    method OnCommit(toCommit: TreeNode) returns (ready: Ready)
      modifies storage`state, storage`dirty
      ensures storage.Value() == Commit(old(storage.Value()), toCommit)
      ensures ready == CommitState(storage.state.lastCommit)
    {
      storage.Commit(toCommit);
      ready := CommitState(storage.state.lastCommit);
    }

    method UpdateNodes(node: TreeNode) returns (ready: Ready)
      modifies storage`state, storage`nodes, storage`queues, storage`dirty
      ensures storage.Value() == SM.UpdateNodes(old(storage.Value()), node)
      ensures ready == if ConsecutiveThreeChain(ThreeChain(old(storage.nodes), node)) then CommitState(storage.state.lastCommit)
                       else Nil
    {
      hide UpdateQcHigh, ThreeChain, Commit;
      var chain := storage.FindThreeChain(node);
      ready := Nil;
      if |chain| > 0 {
        storage.UpdateQcHigh(chain[0], node.justify);
      }
      if |chain| > 1 {
        var locked := storage.state.locked;
        if chain[1].height > locked.height {
          storage.UpdateLockedNode(chain[1]);
        }
      }
      var consecutive := storage.IsConsecutiveThreeChain(chain);
      if consecutive {
        ready := OnCommit(chain[2]);
      }
    }

    /** Appends the node and raises the voted height if the voting rule allows it. */
    method TryAccept(prop: TreeNode, prevNode: TreeNode) returns (accepted: bool)
      requires prop.justify.node in storage.nodes && storage.nodes[prop.justify.node] == prevNode
      modifies storage`state, storage`nodes, storage`queues, storage`dirty
      ensures accepted == SM.Accepts(old(storage.Value()), prop)
      ensures storage.Value() == if accepted then SM.Accept(old(storage.Value()), prop) else old(storage.Value())
    {
      accepted := false;
      if prop.height > storage.state.vheight {
        var safe := SafeNode(prop, prevNode);
        if safe {
          storage.AppendNewNode(prop);
          var _ := storage.UpdateVheight(prop.height);
          accepted := true;
        }
      }
    }

    method OnRecvProposal(from: ReplicaId, prop: TreeNode) returns (outcome: Outcome)
      modifies storage`state, storage`nodes, storage`queues, storage`dirty
      ensures storage.Value() == SM.OnRecvProposal(old(storage.Value()), prop)
      ensures outcome == ProposalOutcome(old(storage.Value()), voter.signId, from, prop)
    {
      var ok := VerifyProposal(prop.justify);
      if !ok {
        return Failed(CorruptedQC);
      }
      var ready := Nil;
      if prop.justify.node in storage.nodes {
        var accepted := TryAccept(prop, storage.nodes[prop.justify.node]);
        if accepted {
          ready := Signature(from, prop, Sign(voter.signId, prop));
        }
      } else {
        // The source queues the certificate here; verification has found its node already.
        assert false;
      }
      var _ := UpdateNodes(prop);
      outcome := Fine(ready);
    }

    method OnBranchSync(branch: seq<TreeNode>) returns (ready: Ready)
      modifies storage`state, storage`nodes, storage`queues, storage`dirty
      ensures storage.Value() == SM.OnBranchSync(old(storage.Value()), branch)
      ensures ready == BranchSyncDone(storage.state.leaf)
    {
      var i := 0;
      assert branch[0..] == branch;
      while i < |branch|
        invariant 0 <= i <= |branch|
        invariant SM.OnBranchSync(storage.Value(), branch[i..]) == SM.OnBranchSync(old(storage.Value()), branch)
      {
        var prop := branch[i];
        assert branch[i..][0] == prop && branch[i..][1..] == branch[i + 1..];
        var ok := VerifyProposal(prop.justify);
        if !ok {
          break;
        }
        if prop.justify.node in storage.nodes {
          var _ := TryAccept(prop, storage.nodes[prop.justify.node]);
        }
        var _ := UpdateNodes(prop);
        i := i + 1;
      }
      ready := BranchSyncDone(storage.state.leaf);
    }

    method MakeLeaf(payload: seq<Byte>) returns (node: TreeNode)
      ensures node == SM.MakeLeaf(storage.Value(), payload)
    {
      var prevLeaf := storage.state.leaf;
      var parent := Hash(prevLeaf);
      var justify := storage.state.qcHigh;
      node := TreeNode(payload, storage.state.view, parent, justify);
    }

    /** The leader signs its proposal first, without asking for safety. */
    method OnBeat(payload: seq<Byte>) returns (ready: Ready)
      requires Configured()
      modifies storage`state, storage`nodes, storage`queues, storage`dirty, voter`votingSet
      ensures Value() == SM.OnBeat(old(Value()), selfId, payload)
      ensures ready == NewProposal(storage.state.leaf)
    {
      var prop := MakeLeaf(payload);
      storage.UpdateLeaf(prop);
      var kit := Sign(voter.signId, prop);
      var _ := voter.AddVote(selfId, prop.height, kit);
      ready := NewProposal(prop);
    }

    method OnRecvVote(from: ReplicaId, prop: TreeNode, kit: SignKit) returns (outcome: Outcome)
      requires Configured()
      modifies storage`state, storage`nodes, storage`queues, storage`dirty, voter`votingSet, voter`voteDecided
      ensures Value() == SM.OnRecvVote(old(Value()), total, from, prop, kit)
      ensures outcome == VoteOutcome(old(Value()), total, from, prop, kit)
    {
      if !ValidVote(prop, kit) {
        return Failed(CorruptedVote);
      }
      var error := voter.AddVote(from, prop.height, kit);
      if error.Some? {
        return Fine(Nil);
      }
      var size := voter.VoteSetSize(prop.height);
      if size > QuorumThreshold(total) {
        var combined := voter.CombinePartialSign(prop.height);
        match combined
        case Ok(sign) =>
          var qc := GenericQC(storage.state.view, Hash(storage.state.leaf), sign);
          storage.UpdateQcHigh(prop, qc);
          outcome := Fine(ProposalReachConsensus(qc.view));
        case Err(e) =>
          outcome := Failed(VoterError(e));
      } else {
        outcome := Fine(Nil);
      }
    }

    method OnNewView(qc: GenericQC) returns (ready: Ready)
      modifies storage`state, storage`nodes, storage`queues, storage`dirty
      ensures storage.Value() == SM.OnNewView(old(storage.Value()), qc)
      ensures ready == UpdateQCHigh(storage.state.leaf)
    {
      if qc.node in storage.nodes {
        storage.UpdateQcHigh(storage.nodes[qc.node], qc);
      }
      ready := UpdateQCHigh(storage.state.leaf);
    }

    method TakeSnapshot() returns (snapshot: Snapshot)
      ensures snapshot == SnapshotOf(storage.Value(), leaderId)
    {
      var state := storage.state;
      snapshot := Snapshot(state.view, None, state.qcHigh, state.leaf, state.locked, state.committedHeight);
      snapshot := snapshot.(leader := leaderId);
    }

    /** All events but view changes, which the pacemaker reports directly. */
    method ProcessSafetyEvent(event: SafetyEvent) returns (outcome: Outcome)
      requires Configured()
      modifies `leaderId
      modifies storage`state, storage`nodes, storage`queues, storage`dirty, voter`votingSet, voter`voteDecided
      ensures Value() == Handled(old(Value()), total, selfId, event)
      ensures outcome == OutcomeOf(old(Value()), old(leaderId), total, selfId, event)
      ensures leaderId == LeaderAfter(old(storage.Value()), old(leaderId), event)
    {
      hide SM.OnRecvProposal, SM.OnRecvVote, SM.OnBeat, SM.OnNewView, SM.OnBranchSync, ProposalOutcome, VoteOutcome;
      match event
      case RequestSnapshot =>
        var snapshot := TakeSnapshot();
        outcome := Fine(InternalState(snapshot));
      case RecvProposal(from, prop) =>
        outcome := OnRecvProposal(from, prop);
      case RecvSign(from, prop, kit) =>
        outcome := OnRecvVote(from, prop, kit);
      case NewTx(payload) =>
        var ready := OnBeat(payload);
        outcome := Fine(ready);
      case RecvNewViewMsg(qc) =>
        var ready := OnNewView(qc);
        outcome := Fine(ready);
      case NewLeader(view, leader) =>
        if view >= storage.state.view && leaderId.None? {
          leaderId := Some(leader);
        }
        outcome := Fine(Nil);
      case BranchSync(branch) =>
        var ready := OnBranchSync(branch);
        outcome := Fine(ready);
      case Unexpected =>
        outcome := Fine(Nil);
    }

    method OnViewChange(leader: ReplicaId, view: ViewNumber) returns (ready: Ready)
      modifies this, voter, storage`state, storage`dirty
      ensures Value() == SM.OnViewChange(old(Value()), view)
      ensures leaderId == if view > old(storage.state).view then Some(leader) else old(leaderId)
      ensures ready == if view > old(storage.state).view then UpdateQCHigh(storage.state.leaf) else Nil
    {
      if view > storage.state.view {
        leaderId := Some(leader);
        voter.Reset(view);
        storage.IncreaseView(view);
        ready := UpdateQCHigh(storage.state.leaf);
      } else {
        ready := Nil;
      }
    }
  }
}
