/** Event handlers of the safety machine as functions of its whole state
    (hotstuff-rs/src/safety/machine.rs). */
module SafetyMachine {
  import opened HsData
  import opened StorageModel
  import opened Voting

  datatype MachineState = MachineState(storage: Storage, votes: VotingSet)

  function InitMachine(): MachineState {
    MachineState(InitStorage(), map[])
  }

  /** The certificate names a stored node and is signed for that very node.  The initial
      certificate is recognised by its signature alone. */
  predicate VerifyProposal(s: Storage, justify: GenericQC) {
    justify.node in s.nodes
    && (justify.sign == ZeroSign || ValidQc(s.nodes[justify.node], justify.sign))
  }

  predicate SafeNode(s: Storage, prop: TreeNode, justifyNode: TreeNode) {
    !IsConflicting(s.nodes, prop, s.state.locked) || justifyNode.height > s.state.locked.height
  }

  /** The voting rule, where the justify node is stored. */
  predicate Accepts(s: Storage, prop: TreeNode) {
    prop.justify.node in s.nodes
    && prop.height > s.state.vheight
    && SafeNode(s, prop, s.nodes[prop.justify.node])
  }

  function Accept(s: Storage, prop: TreeNode): Storage {
    UpdateVheight(AppendNewNode(s, prop), prop.height)
  }

  function RaiseLock(s: Storage, chain: seq<TreeNode>): Storage {
    if |chain| >= 2 && chain[1].height > s.state.locked.height then UpdateLocked(s, chain[1]) else s
  }

  function UpdateNodes(s: Storage, prop: TreeNode): Storage {
    var chain := ThreeChain(s.nodes, prop);
    var s1 := if |chain| >= 1 then UpdateQcHigh(s, chain[0], prop.justify) else s;
    var s2 := RaiseLock(s1, chain);
    if ConsecutiveThreeChain(chain) then Commit(s2, chain[2]) else s2
  }

  function OnRecvProposal(s: Storage, prop: TreeNode): Storage {
    if !VerifyProposal(s, prop.justify) then s
    else UpdateNodes(if prop.justify.node !in s.nodes then AppendNewQc(s, prop.justify)
                     else if Accepts(s, prop) then Accept(s, prop)
                     else s, prop)
  }

  lemma UpdateNodesKeepsView(s: Storage, prop: TreeNode)
    ensures UpdateNodes(s, prop).state.view == s.state.view
  {
    hide ThreeChain, ConsecutiveThreeChain, Adopts;
  }

  lemma ProposalKeepsView(s: Storage, prop: TreeNode)
    ensures OnRecvProposal(s, prop).state.view == s.state.view
  {
    hide UpdateNodes, VerifyProposal, Accepts;
    UpdateNodesKeepsView(if Accepts(s, prop) then Accept(s, prop) else s, prop);
    UpdateNodesKeepsView(AppendNewQc(s, prop.justify), prop);
  }

  /** A vote leaves the replica exactly in this case. */
  predicate Signs(s: Storage, prop: TreeNode) {
    VerifyProposal(s, prop.justify) && Accepts(s, prop)
  }

  /** One round of the loop in on_branch_sync; the caller stops where the certificate does
      not verify. */
  function SyncProposal(s: Storage, prop: TreeNode): Storage {
    UpdateNodes(if Accepts(s, prop) then Accept(s, prop) else s, prop)
  }

  function OnBranchSync(s: Storage, branch: seq<TreeNode>): Storage
    decreases |branch|
  {
    if branch == [] || !VerifyProposal(s, branch[0].justify) then s
    else OnBranchSync(SyncProposal(s, branch[0]), branch[1..])
  }

  function MakeLeaf(s: Storage, payload: seq<Byte>): TreeNode {
    TreeNode(payload, s.state.view, Hash(s.state.leaf), s.state.qcHigh)
  }

  function OnBeat(m: MachineState, self: ReplicaId, payload: seq<Byte>): MachineState {
    var prop := MakeLeaf(m.storage, payload);
    MachineState(UpdateLeaf(m.storage, prop), AddVote(m.votes, prop.height, self, Sign(self, prop)))
  }

  /** The certificate names the leaf, whatever node was voted for. */
  function LeafQc(s: Storage, sign: CombinedSign): GenericQC {
    GenericQC(s.state.view, Hash(s.state.leaf), sign)
  }

  ghost function OnRecvVote(m: MachineState, total: nat, from: ReplicaId, prop: TreeNode, kit: SignKit): MachineState {
    if !ValidVote(prop, kit) then m else
    var ballots := VotesFor(m.votes, prop.height);
    var votes := AddVote(m.votes, prop.height, from, kit);
    if from in ballots || |votes[prop.height]| <= QuorumThreshold(total) then m.(votes := votes) else
    var combined := Combine(QuorumThreshold(total), votes[prop.height]);
    MachineState(if combined.Ok? then UpdateQcHigh(m.storage, prop, LeafQc(m.storage, combined.sign)) else m.storage,
                 votes - {prop.height})
  }

  /** A vote moves the storage at most by a certificate for the leaf. */
  lemma VoteMovesStorage(m: MachineState, total: nat, from: ReplicaId, prop: TreeNode, kit: SignKit) returns (sign: CombinedSign)
    ensures var t := OnRecvVote(m, total, from, prop, kit).storage;
            t == m.storage || t == UpdateQcHigh(m.storage, prop, LeafQc(m.storage, sign))
  {
    hide UpdateQcHigh, Combine;
    var combined := Combine(QuorumThreshold(total), AddVote(m.votes, prop.height, from, kit)[prop.height]);
    sign := if combined.Ok? then combined.sign else ZeroSign;
  }

  /** A new-view certificate is not checked, its node only has to be stored. */
  function OnNewView(s: Storage, qc: GenericQC): Storage {
    if qc.node in s.nodes then UpdateQcHigh(s, s.nodes[qc.node], qc) else s
  }

  function OnViewChange(m: MachineState, view: ViewNumber): MachineState {
    if view > m.storage.state.view then MachineState(IncreaseView(m.storage, view), map[]) else m
  }

  /** The pacemaker hands the node of an UpdateQCHigh output back with its own certificate. */
  function OnUpdateQcHighReady(s: Storage, node: TreeNode): Storage {
    UpdateQcHigh(s, node, node.justify).(dirty := true)
  }

  datatype Event =
    | RecvProposal(prop: TreeNode)
    | Sync(prop: TreeNode)
    | RecvSign(from: ReplicaId, prop: TreeNode, kit: SignKit)
    | NewTx(payload: seq<Byte>)
    | RecvNewView(qc: GenericQC)
    | UpdateQcHighReady(node: TreeNode)
    | ViewChange(view: ViewNumber)
    | RaiseView(view: ViewNumber)
    | RecordTimeout(tc: TimeoutCertificate)

  ghost function Step(m: MachineState, total: nat, self: ReplicaId, event: Event): MachineState {
    match event
    case RecvProposal(prop) => m.(storage := OnRecvProposal(m.storage, prop))
    case Sync(prop) =>
      if VerifyProposal(m.storage, prop.justify) then m.(storage := SyncProposal(m.storage, prop)) else m
    case RecvSign(from, prop, kit) => OnRecvVote(m, total, from, prop, kit)
    case NewTx(payload) => OnBeat(m, self, payload)
    case RecvNewView(qc) => m.(storage := OnNewView(m.storage, qc))
    case UpdateQcHighReady(node) => m.(storage := OnUpdateQcHighReady(m.storage, node))
    case ViewChange(view) => OnViewChange(m, view)
    case RaiseView(view) => m.(storage := IncreaseView(m.storage, view))
    case RecordTimeout(tc) => m.(storage := AppendTc(m.storage, tc))
  }

  /** The vote completes a set that can be combined. */
  ghost predicate FormsQc(m: MachineState, total: nat, event: Event)
    requires event.RecvSign?
  {
    var prop := event.prop;
    && ValidVote(prop, event.kit) && event.from !in VotesFor(m.votes, prop.height)
    && var ballots := AddVote(m.votes, prop.height, event.from, event.kit)[prop.height];
       |ballots| > QuorumThreshold(total) && Combine(QuorumThreshold(total), ballots).Ok?
  }

  /** The vote moves the storage exactly where it completes a set and its node is adopted. */
  lemma VoteFormsQc(m: MachineState, total: nat, event: Event) returns (sign: CombinedSign)
    requires event.RecvSign?
    ensures OnRecvVote(m, total, event.from, event.prop, event.kit).storage
            == if FormsQc(m, total, event) then UpdateQcHigh(m.storage, event.prop, LeafQc(m.storage, sign)) else m.storage
    ensures FormsQc(m, total, event) ==> sign == Threshold(event.prop) || sign == Garbage
  {
    hide UpdateQcHigh;
    var ballots := AddVote(m.votes, event.prop.height, event.from, event.kit)[event.prop.height];
    var combined := Combine(QuorumThreshold(total), ballots);
    sign := if combined.Ok? then combined.sign else ZeroSign;
    assert event.from in ballots && ballots[event.from] == event.kit;
  }

  /** A vote that completes a certificate which is adopted is for the leaf. */
  ghost predicate LeafVote(total: nat, m: MachineState, event: Event) {
    event.RecvSign? && FormsQc(m, total, event) && Adopts(m.storage, event.prop) ==> event.prop == m.storage.state.leaf
  }

  /** The votes of a set that completes a certificate which is adopted are for one node. */
  ghost predicate UnanimousVote(total: nat, m: MachineState, event: Event) {
    event.RecvSign? && FormsQc(m, total, event) && Adopts(m.storage, event.prop) ==>
      AllSign(AddVote(m.votes, event.prop.height, event.from, event.kit)[event.prop.height], event.prop)
  }

  /** A vote of the first kind does nothing to the storage or moves it by a certificate for the leaf. */
  lemma LeafVoteMoves(m: MachineState, total: nat, event: Event) returns (sign: CombinedSign)
    requires event.RecvSign? && LeafVote(total, m, event)
    ensures var s := m.storage; var t := OnRecvVote(m, total, event.from, event.prop, event.kit).storage;
            && (t == s || (event.prop == s.state.leaf && t == UpdateQcHigh(s, s.state.leaf, LeafQc(s, sign))))
            && (t != s ==> FormsQc(m, total, event) && Adopts(s, event.prop))
  {
    hide OnRecvVote, FormsQc;
    sign := VoteFormsQc(m, total, event);
  }

  // ---------------------------------------------------------------- branch synchronisation

  /** Proposals handed to on_recv_proposal one after another. */
  function Feed(s: Storage, props: seq<TreeNode>): Storage
    decreases |props|
  {
    if props == [] then s else Feed(OnRecvProposal(s, props[0]), props[1..])
  }

  /** The first `k` proposals verify when they are fed in turn, and the next one, if there is
      one, does not. */
  ghost predicate LongestVerifyingPrefix(s: Storage, props: seq<TreeNode>, k: nat) {
    k <= |props|
    && (forall i :: 0 <= i < k ==> VerifyProposal(Feed(s, props[..i]), props[i].justify))
    && (k < |props| ==> !VerifyProposal(Feed(s, props[..k]), props[k].justify))
  }

  lemma SyncIsReceipt(s: Storage, prop: TreeNode)
    requires VerifyProposal(s, prop.justify)
    ensures SyncProposal(s, prop) == OnRecvProposal(s, prop)
  {
  }

  /** Synchronising a branch leaves the same storage, queues included, as receiving its longest
      verifying prefix proposal by proposal. */
  lemma BranchSyncRefinesReceipt(s: Storage, branch: seq<TreeNode>) returns (k: nat)
    ensures LongestVerifyingPrefix(s, branch, k)
    ensures OnBranchSync(s, branch) == Feed(s, branch[..k])
    decreases |branch|
  {
    hide OnRecvProposal, SyncProposal, VerifyProposal;
    if branch == [] || !VerifyProposal(s, branch[0].justify) {
      k := 0;
    } else {
      var s1 := OnRecvProposal(s, branch[0]);
      SyncIsReceipt(s, branch[0]);
      var j := BranchSyncRefinesReceipt(s1, branch[1..]);
      k := j + 1;
      forall i | 0 <= i <= k
        ensures i > 0 ==> Feed(s, branch[..i]) == Feed(s1, branch[1..][..i - 1])
      {
        if i > 0 {
          assert branch[..i][1..] == branch[1..][..i - 1];
        }
      }
    }
  }

  /** Events handled one after another. */
  ghost function Steps(m: MachineState, total: nat, self: ReplicaId, events: seq<Event>): MachineState
    decreases |events|
  {
    if events == [] then m else Steps(Step(m, total, self, events[0]), total, self, events[1..])
  }

  function Syncs(branch: seq<TreeNode>): seq<Event> {
    seq(|branch|, i requires 0 <= i < |branch| => Sync(branch[i]))
  }

  /** So a branch synchronisation is a sequence of single steps. */
  lemma {:induction false} BranchSyncIsSteps(m: MachineState, total: nat, self: ReplicaId, branch: seq<TreeNode>) returns (k: nat)
    ensures k <= |branch|
    ensures m.(storage := OnBranchSync(m.storage, branch)) == Steps(m, total, self, Syncs(branch[..k]))
    decreases |branch|
  {
    hide SyncProposal, VerifyProposal;
    if branch == [] || !VerifyProposal(m.storage, branch[0].justify) {
      k := 0;
    } else {
      var j := BranchSyncIsSteps(m.(storage := SyncProposal(m.storage, branch[0])), total, self, branch[1..]);
      k := j + 1;
      assert Syncs(branch[..k])[1..] == Syncs(branch[1..][..j]);
    }
  }

  lemma LongestPrefixIsUnique(s: Storage, props: seq<TreeNode>, j: nat, k: nat)
    requires LongestVerifyingPrefix(s, props, j) && LongestVerifyingPrefix(s, props, k)
    ensures j == k
  {
  }

  /** So whatever prefix is the longest verifying one, that is what was received. */
  lemma LongestPrefixIsReceived(s: Storage, branch: seq<TreeNode>, k: nat)
    requires LongestVerifyingPrefix(s, branch, k)
    ensures OnBranchSync(s, branch) == Feed(s, branch[..k])
  {
    hide LongestVerifyingPrefix, OnBranchSync, Feed;
    var j := BranchSyncRefinesReceipt(s, branch);
    LongestPrefixIsUnique(s, branch, j, k);
  }
}
