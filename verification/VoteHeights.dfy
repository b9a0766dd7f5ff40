/** The voted height is meant to be the height of the last vote (hss/src/lib.rs:44).  Because
    update_leaf assigns it, handling an event can lower it again; this module says exactly when,
    for every event and over every run, and what follows. */
module VoteHeights {
  import opened HsData
  import opened StorageModel
  import opened Voting
  import opened SafetyMachine
  import opened Protocol
  import RI = ReplicaInvariants

  /** The documented meaning: nothing that was voted for, or stored at all, is higher. */
  ghost predicate VheightCovers(s: Storage) {
    forall h :: h in s.nodes ==> s.nodes[h].height <= s.state.vheight
  }

  /** The voted height is the greatest height of a stored node. */
  ghost predicate Highest(s: Storage) {
    VheightCovers(s) && exists h :: h in s.nodes && s.nodes[h].height == s.state.vheight
  }

  // ---------------------------------------------------------------- every event

  /** The node that the event makes the leaf. */
  ghost function NewLeaf(m: MachineState, total: nat, event: Event): Option<TreeNode> {
    var s := m.storage;
    match event
    case RecvProposal(prop) => AdoptedFrom(s, prop)
    case Sync(prop) => AdoptedFrom(s, prop)
    case RecvSign(_, prop, _) => if FormsQc(m, total, event) && Adopts(s, prop) then Some(prop) else None
    case NewTx(payload) => Some(MakeLeaf(s, payload))
    case RecvNewView(qc) => if qc.node in s.nodes && Adopts(s, s.nodes[qc.node]) then Some(s.nodes[qc.node]) else None
    case UpdateQcHighReady(node) => if Adopts(s, node) then Some(node) else None
    case _ => None
  }

  ghost function AdoptedFrom(s: Storage, prop: TreeNode): Option<TreeNode> {
    if VerifyProposal(s, prop.justify) && Adopts(s, s.nodes[prop.justify.node]) then Some(s.nodes[prop.justify.node]) else None
  }

  /** The height that the replica has voted for by then: that of the proposal if it accepts one. */
  function Voted(s: Storage, event: Event): ViewNumber {
    if (event.RecvProposal? || event.Sync?) && Signs(s, event.prop) then event.prop.height else s.state.vheight
  }

  /** The event makes a node the leaf that is below what the replica has voted for. */
  ghost predicate Lowers(m: MachineState, total: nat, event: Event) {
    var leaf := NewLeaf(m, total, event);
    leaf.Some? && leaf.value.height < Voted(m.storage, event)
  }

  lemma LeafKeepsHighestIff(s: Storage, leaf: TreeNode)
    requires Highest(s)
    ensures Highest(UpdateLeaf(s, leaf)) <==> leaf.height >= s.state.vheight
  {
    var t := UpdateLeaf(s, leaf);
    assert t.nodes[Hash(leaf)].height == t.state.vheight;
    var h :| h in s.nodes && s.nodes[h].height == s.state.vheight;
    assert Hash(s.nodes[h]) == h;
    assert h in t.nodes && (h != Hash(leaf) ==> t.nodes[h].height == s.state.vheight);
  }

  lemma SameHeightsSameHighest(s: Storage, t: Storage)
    requires t.nodes == s.nodes && t.state.vheight == s.state.vheight
    ensures Highest(t) <==> Highest(s)
  {
  }

  lemma AdoptionKeepsHighestIff(s: Storage, node: TreeNode, qc: GenericQC)
    requires Highest(s)
    ensures Highest(UpdateQcHigh(s, node, qc)) <==> !(Adopts(s, node) && node.height < s.state.vheight)
  {
    hide Highest, UpdateLeaf, Adopts;
    if Adopts(s, node) {
      var s1 := s.(state := s.state.(qcHigh := qc));
      SameHeightsSameHighest(s, s1);
      LeafKeepsHighestIff(s1, node);
      SameHeightsSameHighest(UpdateLeaf(s1, node), UpdateQcHigh(s, node, qc));
    }
  }

  /** The lock and the commit leave tree, certificate and voted height alone. */
  lemma UpdateNodesIsAdoption(s: Storage, prop: TreeNode)
    requires prop.justify.node in s.nodes
    ensures var t, u := UpdateNodes(s, prop), UpdateQcHigh(s, s.nodes[prop.justify.node], prop.justify);
            t.nodes == u.nodes && t.state.vheight == u.state.vheight && t.state.qcHigh == u.state.qcHigh
  {
    hide UpdateQcHigh, ConsecutiveThreeChain;
  }

  lemma AcceptKeepsHighest(s: Storage, prop: TreeNode)
    requires Highest(s) && Accepts(s, prop)
    ensures var t := Accept(s, prop);
            && Highest(t) && t.state.vheight == prop.height && Hash(prop) !in s.nodes
            && t.nodes == s.nodes[Hash(prop) := prop]
  {
    var t := Accept(s, prop);
    assert t.nodes[Hash(prop)].height == prop.height;
    hide SafeNode;
  }

  lemma ProposalKeepsHighestIff(s: Storage, prop: TreeNode)
    requires Highest(s) && VerifyProposal(s, prop.justify)
    ensures Highest(SyncProposal(s, prop))
            <==> !(Adopts(s, s.nodes[prop.justify.node]) && s.nodes[prop.justify.node].height < Voted(s, Sync(prop)))
  {
    var t0, b3 := if Accepts(s, prop) then Accept(s, prop) else s, s.nodes[prop.justify.node];
    assert b3.height <= s.state.vheight;
    if Accepts(s, prop) {
      AcceptKeepsHighest(s, prop);
      AcceptedIsNotHeld(s, prop);
    }
    hide Highest, UpdateNodes, UpdateQcHigh, Accepts, Accept, Adopts;
    UpdateNodesIsAdoption(t0, prop);
    SameHeightsSameHighest(UpdateNodes(t0, prop), UpdateQcHigh(t0, b3, prop.justify));
    AdoptionKeepsHighestIff(t0, b3, prop.justify);
  }

  /** Whether the certificate is adopted does not depend on the proposal being stored. */
  lemma AcceptedIsNotHeld(s: Storage, prop: TreeNode)
    requires VheightCovers(s) && Accepts(s, prop)
    ensures Adopts(Accept(s, prop), s.nodes[prop.justify.node]) <==> Adopts(s, s.nodes[prop.justify.node])
  {
    hide SafeNode;
  }

  lemma VoteKeepsHighestIff(m: MachineState, total: nat, event: Event)
    requires Highest(m.storage) && event.RecvSign?
    ensures Highest(OnRecvVote(m, total, event.from, event.prop, event.kit).storage)
            <==> !(FormsQc(m, total, event) && Adopts(m.storage, event.prop) && event.prop.height < m.storage.state.vheight)
  {
    hide Highest, UpdateQcHigh, Adopts, Combine, QuorumThreshold;
    var combined := Combine(QuorumThreshold(total), AddVote(m.votes, event.prop.height, event.from, event.kit)[event.prop.height]);
    if FormsQc(m, total, event) {
      AdoptionKeepsHighestIff(m.storage, event.prop, LeafQc(m.storage, combined.sign));
    }
  }

  /** Every event leaves the voted height with its meaning exactly where it does not lower it. */
  lemma StepKeepsHighestIff(m: MachineState, total: nat, self: ReplicaId, event: Event)
    requires Highest(m.storage)
    ensures Highest(Step(m, total, self, event).storage) <==> !Lowers(m, total, event)
  {
    hide Highest, UpdateQcHigh, Adopts, OnRecvVote, UpdateNodes, Accepts, Accept, UpdateLeaf, FormsQc;
    var s := m.storage;
    match event
    case RecvProposal(prop) =>
      if VerifyProposal(s, prop.justify) {
        SyncIsReceipt(s, prop);
        ProposalKeepsHighestIff(s, prop);
      }
    case Sync(prop) =>
      if VerifyProposal(s, prop.justify) {
        ProposalKeepsHighestIff(s, prop);
      }
    case RecvSign(from, prop, kit) => VoteKeepsHighestIff(m, total, event);
    case NewTx(payload) => LeafKeepsHighestIff(s, MakeLeaf(s, payload));
    case RecvNewView(qc) =>
      if qc.node in s.nodes {
        AdoptionKeepsHighestIff(s, s.nodes[qc.node], qc);
      }
    case UpdateQcHighReady(node) =>
      AdoptionKeepsHighestIff(s, node, node.justify);
      SameHeightsSameHighest(UpdateQcHigh(s, node, node.justify), OnUpdateQcHighReady(s, node));
    case ViewChange(view) => SameHeightsSameHighest(s, OnViewChange(m, view).storage);
    case RaiseView(view) => SameHeightsSameHighest(s, IncreaseView(s, view));
    case RecordTimeout(tc) => SameHeightsSameHighest(s, AppendTc(s, tc));
  }

  /** What the voted height is after every event. */
  lemma VheightAfter(m: MachineState, total: nat, self: ReplicaId, event: Event)
    requires Highest(m.storage)
    ensures var leaf := NewLeaf(m, total, event);
            Step(m, total, self, event).storage.state.vheight
            == if leaf.Some? then leaf.value.height else Voted(m.storage, event)
  {
    hide Highest, OnRecvVote, SyncProposal, OnRecvProposal, Adopts, FormsQc, VerifyProposal, Accepts;
    var s := m.storage;
    match event
    case RecvProposal(prop) =>
      if VerifyProposal(s, prop.justify) {
        SyncIsReceipt(s, prop);
        VheightAfterProposal(s, prop);
      } else {
        Unverified(s, prop);
      }
    case Sync(prop) =>
      if VerifyProposal(s, prop.justify) {
        VheightAfterProposal(s, prop);
      }
    case RecvSign(from, prop, kit) => VheightAfterVote(m, total, event);
    case NewTx(payload) =>
    case RecvNewView(qc) =>
    case UpdateQcHighReady(node) =>
    case ViewChange(view) =>
    case RaiseView(view) =>
    case RecordTimeout(tc) =>
  }

  lemma Unverified(s: Storage, prop: TreeNode)
    requires !VerifyProposal(s, prop.justify)
    ensures OnRecvProposal(s, prop) == s
  {
  }

  lemma VheightAfterProposal(s: Storage, prop: TreeNode)
    requires Highest(s) && VerifyProposal(s, prop.justify)
    ensures var leaf := AdoptedFrom(s, prop);
            SyncProposal(s, prop).state.vheight == if leaf.Some? then leaf.value.height else Voted(s, Sync(prop))
  {
    var t0 := if Accepts(s, prop) then Accept(s, prop) else s;
    if Accepts(s, prop) {
      AcceptKeepsHighest(s, prop);
      AcceptedIsNotHeld(s, prop);
    }
    hide Highest, UpdateNodes, Accepts, Accept, Adopts;
    UpdateNodesIsAdoption(t0, prop);
  }

  lemma VheightAfterVote(m: MachineState, total: nat, event: Event)
    requires event.RecvSign?
    ensures var leaf := NewLeaf(m, total, event);
            OnRecvVote(m, total, event.from, event.prop, event.kit).storage.state.vheight
            == if leaf.Some? then leaf.value.height else m.storage.state.vheight
  {
    hide Adopts, Combine, QuorumThreshold;
  }

  // ---------------------------------------------------------------- every run

  lemma {:induction false} NothingLoweredSoFar(total: nat, self: ReplicaId, events: seq<Event>, k: nat)
    requires k <= |events|
    requires forall j :: 0 <= j < k ==> !Lowers(RI.Run(total, self, events[..j]), total, events[j])
    ensures Highest(RI.Run(total, self, events[..k]).storage)
  {
    hide Lowers, Step;
    if k == 0 {
      RI.FreshRun(total, self, events);
      FreshIsHighest();
    } else {
      hide RI.Run, Highest;
      NothingLoweredSoFar(total, self, events, k - 1);
      StepKeepsHighestIff(RI.Run(total, self, events[..k - 1]), total, self, events[k - 1]);
      RI.RunOneMore(total, self, events, k - 1);
    }
  }

  lemma FreshIsHighest()
    ensures Highest(InitStorage())
  {
    assert InitStorage().nodes[Hash(INIT_NODE)].height == 0;
  }

  /** Over every sequence of events, whatever they are: the voted height has its meaning at all
      times exactly where no event lowers it. */
  lemma AlwaysHighestIff(total: nat, self: ReplicaId, events: seq<Event>)
    ensures (forall k :: 0 <= k <= |events| ==> Highest(RI.Run(total, self, events[..k]).storage))
            <==> (forall k :: 0 <= k < |events| ==> !Lowers(RI.Run(total, self, events[..k]), total, events[k]))
  {
    hide Lowers, Step, RI.Run, Highest;
    if forall k :: 0 <= k < |events| ==> !Lowers(RI.Run(total, self, events[..k]), total, events[k]) {
      forall k | 0 <= k <= |events| ensures Highest(RI.Run(total, self, events[..k]).storage) {
        NothingLoweredSoFar(total, self, events, k);
      }
    }
    if forall k :: 0 <= k <= |events| ==> Highest(RI.Run(total, self, events[..k]).storage) {
      forall k | 0 <= k < |events| ensures !Lowers(RI.Run(total, self, events[..k]), total, events[k]) {
        assert Highest(RI.Run(total, self, events[..k]).storage) && Highest(RI.Run(total, self, events[..k + 1]).storage);
        RI.RunOneMore(total, self, events, k);
        StepKeepsHighestIff(RI.Run(total, self, events[..k]), total, self, events[k]);
      }
    }
  }

  // ---------------------------------------------------------------- votes

  /** Where the voted height has its meaning, votes rise; this is what module Protocol asks of
      an accepted proposal. */
  lemma CoveredVotesRise(s: Storage, prop: TreeNode)
    requires VheightCovers(s) && Accepts(s, prop)
    ensures Above(s.nodes, prop.height)
  {
  }

  /** The proposal's certificate is for a higher node than the one that is held. */
  predicate BringsHigherQc(s: Storage, prop: TreeNode) {
    HeightOf(prop.justify.node) > HeightOf(s.state.qcHigh.node)
  }

  lemma StateAfterVote(s: Storage, prop: TreeNode)
    requires RI.Inv(s) && Signs(s, prop) && prop.height > HeightOf(prop.justify.node)
    ensures var t := OnRecvProposal(s, prop);
            && RI.Inv(t) && t.nodes == s.nodes[Hash(prop) := prop]
            && t.state.vheight == (if BringsHigherQc(s, prop) then HeightOf(prop.justify.node) else prop.height)
            && (BringsHigherQc(s, prop) ==> t.state.qcHigh == prop.justify)
  {
    var a := Accept(s, prop);
    RI.AcceptKeepsInv(s, prop);
    RI.UpdateNodesKeepsInv(a, prop);
    RI.UpdateNodesEffect(a, prop);
    CertificateAfterVote(a, prop);
    hide UpdateNodes, RI.Inv;
  }

  lemma CertificateAfterVote(a: Storage, prop: TreeNode)
    requires RI.Inv(a) && prop.justify.node in a.nodes
    ensures var t := UpdateNodes(a, prop);
            && (BringsHigherQc(a, prop) ==> t.state.qcHigh == prop.justify && t.state.vheight == HeightOf(prop.justify.node))
            && (!BringsHigherQc(a, prop) ==> t.state.qcHigh == a.state.qcHigh && t.state.vheight == a.state.vheight)
  {
    hide UpdateNodes;
    UpdateNodesIsAdoption(a, prop);
    assert Hash(a.nodes[prop.justify.node]) == prop.justify.node;
    assert Hash(a.nodes[a.state.qcHigh.node]) == a.state.qcHigh.node;
    assert Adopts(a, a.nodes[prop.justify.node]) <==> BringsHigherQc(a, prop);
  }

  /** A vote leaves the voted height with its meaning exactly where the proposal brings no
      higher certificate. */
  lemma VoteKeepsVheightIff(s: Storage, prop: TreeNode)
    requires RI.Inv(s) && VheightCovers(s) && Signs(s, prop) && prop.height > HeightOf(prop.justify.node)
    ensures VheightCovers(OnRecvProposal(s, prop)) <==> !BringsHigherQc(s, prop)
  {
    StateAfterVote(s, prop);
    var t := OnRecvProposal(s, prop);
    assert t.nodes[Hash(prop)].height == prop.height;
  }

  /** After a vote that brought a higher certificate, every other proposal on that certificate
      is signed as well, whatever its height above the certified node. */
  lemma SignsAgain(s: Storage, prop: TreeNode, other: TreeNode)
    requires RI.Inv(s) && Signs(s, prop) && prop.height > HeightOf(prop.justify.node)
    requires BringsHigherQc(s, prop)
    requires other.justify == prop.justify && other.height > HeightOf(other.justify.node)
    ensures Signs(OnRecvProposal(s, prop), other)
  {
    StateAfterVote(s, prop);
    var t := OnRecvProposal(s, prop);
    assert Hash(prop) != prop.justify.node;
    assert t.nodes[other.justify.node] == s.nodes[prop.justify.node];
    assert Hash(t.nodes[other.justify.node]) == other.justify.node;
  }
}
