/** What every event sequence keeps on one replica, with the handlers exactly as they are
    written: order of heights, coupling of leaf and highest certificate, safety of the
    leader's own vote. */
module ReplicaInvariants {
  import opened HsData
  import opened StorageModel
  import opened Voting
  import opened SafetyMachine

  /** The initial node is stored and every other stored node is above its justify node. */
  ghost predicate NodesOrdered(nodes: NodeMap) {
    && Hash(INIT_NODE) in nodes && nodes[Hash(INIT_NODE)] == INIT_NODE
    && (forall h :: h in nodes ==> nodes[h] == INIT_NODE || nodes[h].height > HeightOf(nodes[h].justify.node))
  }

  /** committed <= locked <= highest certified node; the last step is strict except where a
      replica has not moved at all. */
  ghost predicate HeightsOrdered(st: InMemoryState) {
    && st.committedHeight == st.lastCommit.height <= st.locked.height
    && (st.locked.height < HeightOf(st.qcHigh.node)
        || (st.locked == INIT_NODE && st.qcHigh.node == Hash(INIT_NODE)))
    && st.leaf.height <= st.vheight
  }

  /** The leaf is stored, it is on the branch of the highest certified node, and it is that
      node or a proposal made on top of that certificate. */
  ghost predicate Coupled(s: Storage) {
    && Hash(s.state.leaf) in s.nodes && s.nodes[Hash(s.state.leaf)] == s.state.leaf
    && s.state.qcHigh.node in s.nodes
    && Extends(Hash(s.state.leaf), s.state.qcHigh.node)
    && (Hash(s.state.leaf) == s.state.qcHigh.node || s.state.leaf.justify == s.state.qcHigh)
    && (s.state.qcHigh.node == Hash(INIT_NODE) ==> StoredPath(s.nodes, Hash(s.state.leaf), Hash(INIT_NODE)))
  }

  ghost predicate Inv(s: Storage) {
    NodesOrdered(s.nodes) && HeightsOrdered(s.state) && Coupled(s)
  }

  /** Heights never move down. */
  ghost predicate Advances(a: InMemoryState, b: InMemoryState) {
    && a.committedHeight <= b.committedHeight
    && a.locked.height <= b.locked.height
    && HeightOf(a.qcHigh.node) <= HeightOf(b.qcHigh.node)
    && a.view <= b.view
  }

  /** What the handlers rely on and do not check: an accepted proposal is above its justify
      node, a vote that completes an adopted certificate is for the leaf, the leader proposes
      above its leaf, and a node that is handed back and adopted is the current leaf. */
  ghost predicate Tame(total: nat, m: MachineState, event: Event) {
    var s := m.storage;
    match event
    case RecvProposal(prop) => Signs(s, prop) ==> prop.height > HeightOf(prop.justify.node)
    case Sync(prop) => Signs(s, prop) ==> prop.height > HeightOf(prop.justify.node)
    case RecvSign(_, _, _) => LeafVote(total, m, event)
    case NewTx(_) => s.state.view > s.state.leaf.height
    case UpdateQcHighReady(node) => Adopts(s, node) ==> node == s.state.leaf
    case _ => true
  }

  lemma {:induction false} StoredPathGrows(nodes: NodeMap, more: NodeMap, h: NodeHash, root: NodeHash)
    requires StoredPath(nodes, h, root) && nodes.Keys <= more.Keys
    ensures StoredPath(more, h, root)
  {
    if h != root {
      StoredPathGrows(nodes, more, h.parent, root);
    }
  }

  lemma AcceptKeepsInv(s: Storage, prop: TreeNode)
    requires Inv(s) && Accepts(s, prop) && prop.height > HeightOf(prop.justify.node)
    ensures Inv(Accept(s, prop)) && Advances(s.state, Accept(s, prop).state)
  {
    var t := Accept(s, prop);
    if s.state.qcHigh.node == Hash(INIT_NODE) {
      StoredPathGrows(s.nodes, t.nodes, Hash(s.state.leaf), Hash(INIT_NODE));
    }
  }

  /** A certificate for a stored node, adopted or not. */
  lemma UpdateQcHighKeepsInv(s: Storage, qc: GenericQC)
    requires Inv(s) && qc.node in s.nodes
    ensures var t := UpdateQcHigh(s, s.nodes[qc.node], qc);
            && Inv(t) && Advances(s.state, t.state) && t.nodes == s.nodes
            && t.state.locked == s.state.locked && t.state.committedHeight == s.state.committedHeight
            && t.state.lastCommit == s.state.lastCommit
            && HeightOf(t.state.qcHigh.node) >= HeightOf(qc.node)
  {
    var node := s.nodes[qc.node];
    assert Hash(node) == qc.node && Hash(s.nodes[s.state.qcHigh.node]) == s.state.qcHigh.node;
    if Adopts(s, node) {
      assert s.nodes[Hash(node) := node] == s.nodes;
      hide NodesOrdered, Extends;
    }
  }

  lemma LowerLinksOfChain(nodes: NodeMap, prop: TreeNode)
    requires NodesOrdered(nodes) && prop.justify.node in nodes
    ensures var chain := ThreeChain(nodes, prop);
            && |chain| >= 1 && chain[0] == nodes[prop.justify.node]
            && (|chain| >= 2 ==> chain[1].height < chain[0].height)
            && (|chain| >= 3 ==> chain[2].height < chain[1].height)
  {
    var chain := ThreeChain(nodes, prop);
    assert Zeroed !in nodes;
    if |chain| >= 2 {
      assert nodes[prop.justify.node] != INIT_NODE;
      assert Hash(nodes[chain[0].justify.node]) == chain[0].justify.node;
    }
    if |chain| >= 3 {
      assert nodes[chain[0].justify.node] != INIT_NODE;
      assert Hash(nodes[chain[1].justify.node]) == chain[1].justify.node;
    }
  }

  lemma RaiseLockKeepsInv(s: Storage, chain: seq<TreeNode>)
    requires Inv(s) && (|chain| >= 2 ==> chain[1].height < HeightOf(s.state.qcHigh.node))
    ensures var t := RaiseLock(s, chain);
            && Inv(t) && Advances(s.state, t.state) && (|chain| >= 2 ==> t.state.locked.height >= chain[1].height)
  {
    hide NodesOrdered;
  }

  lemma CommitKeepsInv(s: Storage, node: TreeNode)
    requires Inv(s) && node.height <= s.state.locked.height
    ensures Inv(Commit(s, node)) && Advances(s.state, Commit(s, node).state)
  {
    hide NodesOrdered;
  }

  lemma UpdateNodesKeepsInv(s: Storage, prop: TreeNode)
    requires Inv(s) && prop.justify.node in s.nodes
    ensures Inv(UpdateNodes(s, prop)) && Advances(s.state, UpdateNodes(s, prop).state)
  {
    var chain := ThreeChain(s.nodes, prop);
    LowerLinksOfChain(s.nodes, prop);
    UpdateQcHighKeepsInv(s, prop.justify);
    hide ThreeChain, UpdateQcHigh, RaiseLock, Commit, Coupled, NodesOrdered, HeightsOrdered;
    assert Hash(s.nodes[prop.justify.node]) == prop.justify.node;
    var s1 := UpdateQcHigh(s, chain[0], prop.justify);
    RaiseLockKeepsInv(s1, chain);
    if ConsecutiveThreeChain(chain) {
      CommitKeepsInv(RaiseLock(s1, chain), chain[2]);
    }
  }

  /** Handling a proposal moves the certificate, the lock and the last commit only to the
      proposal's own certificate and to nodes of its three-chain. */
  lemma UpdateNodesEffect(s: Storage, prop: TreeNode)
    requires Inv(s) && prop.justify.node in s.nodes
    ensures var t := UpdateNodes(s, prop); var chain := ThreeChain(s.nodes, prop);
            && t.nodes == s.nodes
            && (t.state.qcHigh == s.state.qcHigh || t.state.qcHigh == prop.justify)
            && (t.state.locked == s.state.locked || (|chain| >= 2 && t.state.locked == chain[1]))
            && (|chain| >= 2 ==> t.state.locked.height >= chain[1].height)
            && (t.state.lastCommit == s.state.lastCommit
                || (ConsecutiveThreeChain(chain) && chain[2].height > s.state.committedHeight && t.state.lastCommit == chain[2]))
  {
    UpdateQcHighKeepsInv(s, prop.justify);
  }

  lemma BeatKeepsInv(m: MachineState, self: ReplicaId, payload: seq<Byte>)
    requires Inv(m.storage) && m.storage.state.view > m.storage.state.leaf.height
    ensures Inv(OnBeat(m, self, payload).storage)
    ensures Advances(m.storage.state, OnBeat(m, self, payload).storage.state)
  {
    var s := m.storage;
    var prop := MakeLeaf(s, payload);
    var t := UpdateLeaf(s, prop);
    if s.state.qcHigh.node == Hash(INIT_NODE) {
      StoredPathGrows(s.nodes, t.nodes, Hash(s.state.leaf), Hash(INIT_NODE));
    }
    assert HeightOf(s.state.qcHigh.node) <= s.state.leaf.height;
    assert Hash(INIT_NODE) != Hash(prop);
  }

  lemma VoteKeepsInv(m: MachineState, total: nat, event: Event)
    requires Inv(m.storage) && event.RecvSign? && LeafVote(total, m, event)
    ensures var s := m.storage; var t := OnRecvVote(m, total, event.from, event.prop, event.kit).storage;
            && Inv(t) && Advances(s.state, t.state)
            && t.nodes == s.nodes && t.state.locked == s.state.locked && t.state.lastCommit == s.state.lastCommit
  {
    hide OnRecvVote, LeafVote;
    var sign := LeafVoteMoves(m, total, event);
    UpdateQcHighKeepsInv(m.storage, LeafQc(m.storage, sign));
  }

  /** Handing back the current leaf, or a node that is not adopted, leaves certificate and leaf as
      they are. */
  lemma HandingBackLeafKeepsQcHigh(s: Storage, node: TreeNode)
    requires Inv(s) && (Adopts(s, node) ==> node == s.state.leaf)
    ensures var t := OnUpdateQcHighReady(s, node);
            && t.state.qcHigh == s.state.qcHigh && t.state.leaf == s.state.leaf && t.nodes == s.nodes
            && t.state.locked == s.state.locked && t.state.lastCommit == s.state.lastCommit && Inv(t)
  {
  }

  lemma StepKeepsInv(m: MachineState, total: nat, self: ReplicaId, event: Event)
    requires Inv(m.storage) && Tame(total, m, event)
    ensures var t := Step(m, total, self, event).storage; Inv(t) && Advances(m.storage.state, t.state)
  {
    var s := m.storage;
    match event
    case RecvProposal(prop) =>
      if VerifyProposal(s, prop.justify) {
        if Accepts(s, prop) {
          AcceptKeepsInv(s, prop);
        }
        UpdateNodesKeepsInv(if Accepts(s, prop) then Accept(s, prop) else s, prop);
      }
    case Sync(prop) =>
      if VerifyProposal(s, prop.justify) {
        if Accepts(s, prop) {
          AcceptKeepsInv(s, prop);
        }
        UpdateNodesKeepsInv(if Accepts(s, prop) then Accept(s, prop) else s, prop);
      }
    case RecvSign(from, prop, kit) => VoteKeepsInv(m, total, event);
    case NewTx(payload) => BeatKeepsInv(m, self, payload);
    case RecvNewView(qc) =>
      if qc.node in s.nodes {
        UpdateQcHighKeepsInv(s, qc);
      }
    case UpdateQcHighReady(node) => HandingBackLeafKeepsQcHigh(s, node);
    case ViewChange(_) =>
    case RaiseView(_) =>
    case RecordTimeout(_) =>
  }

  /** Votes are above the lock and the certified node. */
  lemma LockedBelowVoted(s: Storage)
    requires Inv(s)
    ensures s.state.locked.height <= HeightOf(s.state.qcHigh.node) <= s.state.leaf.height <= s.state.vheight
  {
    assert Hash(s.nodes[s.state.qcHigh.node]) == s.state.qcHigh.node;
  }

  // ---------------------------------------------------------------- the highest certificate covers the tree

  /** No stored node was made with a certificate for a higher node than the one that is held. */
  ghost predicate Covered(s: Storage) {
    forall h :: h in s.nodes ==> HeightOf(s.nodes[h].justify.node) <= HeightOf(s.state.qcHigh.node)
  }

  /** Handling a proposal takes over its certificate if that is higher. */
  lemma CertificateIsTakenOver(s: Storage, prop: TreeNode)
    requires Inv(s) && prop.justify.node in s.nodes
    ensures var t := UpdateNodes(s, prop);
            && t.nodes == s.nodes
            && HeightOf(t.state.qcHigh.node) >= HeightOf(prop.justify.node)
            && HeightOf(t.state.qcHigh.node) >= HeightOf(s.state.qcHigh.node)
  {
    UpdateQcHighKeepsInv(s, prop.justify);
  }

  lemma ProposalKeepsCovered(s: Storage, prop: TreeNode)
    requires Inv(s) && Covered(s) && prop.justify.node in s.nodes
    requires Accepts(s, prop) ==> prop.height > HeightOf(prop.justify.node)
    ensures Covered(UpdateNodes(if Accepts(s, prop) then Accept(s, prop) else s, prop))
  {
    var t0 := if Accepts(s, prop) then Accept(s, prop) else s;
    if Accepts(s, prop) {
      AcceptKeepsInv(s, prop);
    }
    CertificateIsTakenOver(t0, prop);
    hide UpdateNodes, Accepts, Inv;
    assert forall h :: h in t0.nodes ==> t0.nodes[h] == prop || (h in s.nodes && t0.nodes[h] == s.nodes[h]);
  }

  lemma CertificateKeepsCovered(s: Storage, qc: GenericQC)
    requires Inv(s) && Covered(s) && qc.node in s.nodes
    ensures Covered(UpdateQcHigh(s, s.nodes[qc.node], qc))
  {
    UpdateQcHighKeepsInv(s, qc);
    hide UpdateQcHigh, Inv;
  }

  lemma StepKeepsCovered(m: MachineState, total: nat, self: ReplicaId, event: Event)
    requires Inv(m.storage) && Covered(m.storage) && Tame(total, m, event)
    ensures Covered(Step(m, total, self, event).storage)
  {
    var s := m.storage;
    hide UpdateNodes, UpdateQcHigh, Inv, OnRecvVote, Covered;
    match event
    case RecvProposal(prop) =>
      if VerifyProposal(s, prop.justify) {
        ProposalKeepsCovered(s, prop);
      }
    case Sync(prop) =>
      if VerifyProposal(s, prop.justify) {
        ProposalKeepsCovered(s, prop);
      }
    case RecvSign(from, prop, kit) => VoteKeepsCovered(m, total, event);
    case NewTx(payload) => BeatKeepsCovered(m, self, payload);
    case RecvNewView(qc) =>
      if qc.node in s.nodes {
        CertificateKeepsCovered(s, qc);
      }
    case UpdateQcHighReady(node) => HandingBackKeepsCovered(s, node);
    case ViewChange(view) => ViewKeepsCovered(s, view);
    case RaiseView(view) => ViewKeepsCovered(s, view);
    case RecordTimeout(tc) => TimeoutKeepsCovered(s, tc);
  }

  lemma VoteKeepsCovered(m: MachineState, total: nat, event: Event)
    requires Inv(m.storage) && Covered(m.storage) && event.RecvSign? && LeafVote(total, m, event)
    ensures Covered(OnRecvVote(m, total, event.from, event.prop, event.kit).storage)
  {
    hide OnRecvVote, UpdateQcHigh, LeafVote;
    var sign := LeafVoteMoves(m, total, event);
    CertificateKeepsCovered(m.storage, LeafQc(m.storage, sign));
  }

  lemma BeatKeepsCovered(m: MachineState, self: ReplicaId, payload: seq<Byte>)
    requires Covered(m.storage)
    ensures Covered(OnBeat(m, self, payload).storage)
  {
  }

  lemma HandingBackKeepsCovered(s: Storage, node: TreeNode)
    requires Inv(s) && Covered(s) && (Adopts(s, node) ==> node == s.state.leaf)
    ensures Covered(OnUpdateQcHighReady(s, node))
  {
    HandingBackLeafKeepsQcHigh(s, node);
    hide OnUpdateQcHighReady;
  }

  lemma TimeoutKeepsCovered(s: Storage, tc: TimeoutCertificate)
    requires Covered(s)
    ensures Covered(AppendTc(s, tc))
  {
  }

  lemma ViewKeepsCovered(s: Storage, view: ViewNumber)
    requires Covered(s)
    ensures Covered(IncreaseView(s, view))
  {
  }

  // ---------------------------------------------------------------- runs

  ghost function Run(total: nat, self: ReplicaId, events: seq<Event>): MachineState
    decreases |events|
  {
    if events == [] then InitMachine()
    else Step(Run(total, self, events[..|events| - 1]), total, self, events[|events| - 1])
  }

  ghost predicate TameRun(total: nat, self: ReplicaId, events: seq<Event>) {
    forall k :: 0 <= k < |events| ==> Tame(total, Run(total, self, events[..k]), events[k])
  }

  lemma TamePrefix(total: nat, self: ReplicaId, events: seq<Event>, k: nat)
    requires TameRun(total, self, events) && k <= |events|
    ensures TameRun(total, self, events[..k])
  {
    hide Tame;
    forall j | 0 <= j < k ensures Tame(total, Run(total, self, events[..k][..j]), events[..k][j]) {
      assert events[..k][..j] == events[..j];
    }
  }

  lemma {:induction false} RunKeepsInv(total: nat, self: ReplicaId, events: seq<Event>)
    requires TameRun(total, self, events)
    ensures Inv(Run(total, self, events).storage)
    decreases |events|
  {
    if events != [] {
      var k := |events| - 1;
      hide Step, Inv, Tame;
      TamePrefix(total, self, events, k);
      RunKeepsInv(total, self, events[..k]);
      StepKeepsInv(Run(total, self, events[..k]), total, self, events[k]);
    }
  }

  lemma {:induction false} RunKeepsCovered(total: nat, self: ReplicaId, events: seq<Event>)
    requires TameRun(total, self, events)
    ensures Covered(Run(total, self, events).storage)
    decreases |events|
  {
    if events != [] {
      var k := |events| - 1;
      hide Step, Inv, Tame, Covered;
      TamePrefix(total, self, events, k);
      RunKeepsCovered(total, self, events[..k]);
      RunKeepsInv(total, self, events[..k]);
      StepKeepsCovered(Run(total, self, events[..k]), total, self, events[k]);
    }
  }

  lemma {:induction false} RunNeverFallsBack(total: nat, self: ReplicaId, events: seq<Event>, j: nat)
    requires TameRun(total, self, events) && j <= |events|
    ensures Advances(Run(total, self, events[..j]).storage.state, Run(total, self, events).storage.state)
    decreases |events|
  {
    hide Step, Inv, Tame, Run, Advances;
    if j == |events| {
      assert events[..j] == events;
      StandingStill(Run(total, self, events).storage.state);
    } else {
      var k := |events| - 1;
      var before := events[..k];
      TamePrefix(total, self, events, k);
      assert before[..j] == events[..j];
      RunNeverFallsBack(total, self, before, j);
      LastStepAdvances(total, self, events, k);
      MovingOn(Run(total, self, events[..j]).storage.state, Run(total, self, before).storage.state, Run(total, self, events).storage.state);
    }
  }

  lemma LastStepAdvances(total: nat, self: ReplicaId, events: seq<Event>, k: nat)
    requires TameRun(total, self, events) && k == |events| - 1
    ensures Advances(Run(total, self, events[..k]).storage.state, Run(total, self, events).storage.state)
  {
    hide Step, Inv, Tame, Advances, Run;
    TamePrefix(total, self, events, k);
    RunKeepsInv(total, self, events[..k]);
    RunOneMore(total, self, events, k);
    assert events[..k + 1] == events;
    StepKeepsInv(Run(total, self, events[..k]), total, self, events[k]);
  }

  lemma StandingStill(a: InMemoryState)
    ensures Advances(a, a)
  {
  }

  lemma MovingOn(a: InMemoryState, b: InMemoryState, c: InMemoryState)
    requires Advances(a, b) && Advances(b, c)
    ensures Advances(a, c)
  {
  }

  // ---------------------------------------------------------------- the leader's own vote

  /** A leader signs its proposal without asking safe_node; it would have been told yes. */
  lemma SelfVoteIsSafe(s: Storage, payload: seq<Byte>)
    requires Inv(s) && s.state.view > s.state.leaf.height
    ensures SafeNode(s, MakeLeaf(s, payload), s.nodes[s.state.qcHigh.node])
  {
    var prop := MakeLeaf(s, payload);
    assert Hash(s.nodes[s.state.qcHigh.node]) == s.state.qcHigh.node;
    if s.state.locked == INIT_NODE && s.state.qcHigh.node == Hash(INIT_NODE) {
      WalkReachesRoot(s.nodes, prop, Hash(INIT_NODE));
    }
  }

  /** What a leader proposes extends its own justify node and is above it. */
  lemma ProposalExtendsItsJustify(s: Storage, payload: seq<Byte>)
    requires Inv(s) && s.state.view > s.state.leaf.height
    ensures var prop := MakeLeaf(s, payload);
            && Extends(Hash(prop), prop.justify.node)
            && prop.height > HeightOf(prop.justify.node)
  {
  }

  /** So it is after every tame run: the leader's own vote needs no check, and what it proposes
      is well placed. */
  lemma EveryBeatIsSafe(total: nat, self: ReplicaId, events: seq<Event>, payload: seq<Byte>)
    requires TameRun(total, self, events)
    requires Run(total, self, events).storage.state.view > Run(total, self, events).storage.state.leaf.height
    ensures var s := Run(total, self, events).storage; var prop := MakeLeaf(s, payload);
            && s.state.qcHigh.node in s.nodes && SafeNode(s, prop, s.nodes[s.state.qcHigh.node])
            && Extends(Hash(prop), prop.justify.node) && prop.height > HeightOf(prop.justify.node)
  {
    var s := Run(total, self, events).storage;
    RunKeepsInv(total, self, events);
    hide Run, Tame, TameRun;
    SelfVoteIsSafe(s, payload);
    ProposalExtendsItsJustify(s, payload);
  }

  // ---------------------------------------------------------------- where handlers are not tame

  /** A node that is handed back, the leaf of an earlier time for one, makes the replica forget
      a higher certificate exactly where that certificate is for a node between the one handed
      back and its justify node. */
  lemma HandingBackLowersQcHighIff(s: Storage, node: TreeNode)
    requires Inv(s)
    ensures HeightOf(OnUpdateQcHighReady(s, node).state.qcHigh.node) < HeightOf(s.state.qcHigh.node)
            <==> node.height > HeightOf(s.state.qcHigh.node) > HeightOf(node.justify.node)
  {
    assert Hash(s.nodes[s.state.qcHigh.node]) == s.state.qcHigh.node;
  }

  lemma RunOneMore(total: nat, self: ReplicaId, events: seq<Event>, k: nat)
    requires k < |events|
    ensures Run(total, self, events[..k + 1]) == Step(Run(total, self, events[..k]), total, self, events[k])
  {
    hide Step;
    assert events[..k + 1][..k] == events[..k];
  }

  lemma FreshRun(total: nat, self: ReplicaId, events: seq<Event>)
    ensures Run(total, self, events[..0]) == InitMachine()
  {
  }

  /** A certificate is documented to have its node's height for a view.  One that is formed from
      votes for the leaf has it exactly where the leader is still in the view it proposed in. */
  lemma FormedQcHasItsHeightIff(m: MachineState, total: nat, from: ReplicaId, kit: SignKit)
    requires OnRecvVote(m, total, from, m.storage.state.leaf, kit).storage != m.storage
    ensures var qc := OnRecvVote(m, total, from, m.storage.state.leaf, kit).storage.state.qcHigh;
            && qc.node == Hash(m.storage.state.leaf)
            && (qc.view == HeightOf(qc.node) <==> m.storage.state.view == m.storage.state.leaf.height)
  {
    hide OnRecvVote;
    var sign := VoteMovesStorage(m, total, from, m.storage.state.leaf, kit);
  }

  /** A vote keeps leaf and certificate together exactly where it does not complete a certificate
      that is adopted, or is for the leaf: the certificate names the leaf, whatever was signed. */
  lemma VoteKeepsCoupledIff(m: MachineState, total: nat, event: Event)
    requires Inv(m.storage) && event.RecvSign? && event.prop.justify.sign != Garbage
    ensures Coupled(OnRecvVote(m, total, event.from, event.prop, event.kit).storage)
            <==> (FormsQc(m, total, event) && Adopts(m.storage, event.prop) ==> Hash(event.prop) == Hash(m.storage.state.leaf))
  {
    hide OnRecvVote, FormsQc;
    var sign := VoteFormsQc(m, total, event);
    if FormsQc(m, total, event) {
      NoCertificateOfItself(event.prop);
    }
  }

  /** A node is signed after its justify certificate was made. */
  lemma NoCertificateOfItself(node: TreeNode)
    ensures node.justify.sign != Threshold(node)
  {
  }
}
