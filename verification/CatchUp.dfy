/** A leader signs its own proposal without updating its lock, so its lock can lag behind
    what it signed.  This module says exactly when, that nothing else makes a lock lag, and
    that hearing its own proposal brings the leader up to date.  A lock that does not lag makes
    every vote safe in the sense of module Protocol. */
module CatchUp {
  import opened HsData
  import opened StorageModel
  import opened SafetyMachine
  import opened Protocol
  import opened ProtocolInvariant
  import opened Preservation
  import RI = ReplicaInvariants

  lemma CaughtUpIsSafe(r: Replica, event: Event)
    requires CaughtUp(r.machine.storage) && forall a :: a in r.signed ==> Has(r.machine.storage.nodes, a)
    ensures SafeVote(r, event)
  {
    hide Signs, GrandNode, SafeFor;
    var s := r.machine.storage;
    forall a | a in r.signed ensures HeightOf(GrandNode(s.nodes, a)) <= s.state.locked.height {
      assert s.nodes[Hash(a)] == a;
    }
  }

  lemma BeatKeepsCaughtUpIff(cfg: Config, w: World, m: MachineState, i: ReplicaId, payload: seq<Byte>)
    requires Core(cfg, w, m.storage) && RI.Covered(m.storage) && CaughtUp(m.storage) && m.storage.state.view > m.storage.state.leaf.height
    ensures CaughtUp(OnBeat(m, i, payload).storage)
            <==> HeightOf(m.storage.nodes[m.storage.state.qcHigh.node].justify.node) <= m.storage.state.locked.height
  {
    var s, prop, t := m.storage, MakeLeaf(m.storage, payload), OnBeat(m, i, payload).storage;
    BeatKeepsCore(cfg, w, m, i, payload);
    SameGrandNodes(cfg, w, s, t);
    assert HeightOf(GrandNode(t.nodes, t.nodes[Hash(prop)])) == HeightOf(s.nodes[s.state.qcHigh.node].justify.node);
    forall h | h in t.nodes && h != Hash(prop) ensures HeightOf(GrandNode(t.nodes, t.nodes[h])) <= t.state.locked.height {
      assert HeightOf(GrandNode(s.nodes, s.nodes[h])) <= s.state.locked.height;
    }
  }

  lemma SameGrandNodes(cfg: Config, w: World, s: Storage, t: Storage)
    requires Core(cfg, w, s) && RI.Covered(s) && NodesGrow(s, t)
    ensures forall h :: h in s.nodes ==> GrandNode(t.nodes, s.nodes[h]) == GrandNode(s.nodes, s.nodes[h])
  {
    forall h | h in s.nodes ensures GrandNode(t.nodes, s.nodes[h]) == GrandNode(s.nodes, s.nodes[h]) {
      if s.nodes[h] != INIT_NODE {
        assert Justified(cfg, w, s.nodes, s.nodes[h]);
      } else {
        assert Zeroed !in t.nodes;
      }
    }
  }

  /** Handling a proposal brings the lock up to date with that proposal. */
  lemma UpdateNodesCatchesUp(cfg: Config, w: World, s: Storage, prop: TreeNode)
    requires Core(cfg, w, s) && prop.justify.node in s.nodes && Certified(cfg, w, s.nodes[prop.justify.node])
    ensures HeightOf(GrandNode(s.nodes, prop)) <= UpdateNodes(s, prop).state.locked.height
  {
    RI.UpdateNodesEffect(s, prop);
    ChainIsCertified(cfg, w, s, prop);
    var b3 := s.nodes[prop.justify.node];
    if b3.justify.node in s.nodes {
      assert Hash(s.nodes[b3.justify.node]) == b3.justify.node;
    }
  }

  lemma ProposalKeepsCaughtUp(cfg: Config, w: World, s: Storage, event: Event)
    requires Core(cfg, w, s) && RI.Covered(s) && CaughtUp(s) && IsProposal(event) && VerifyProposal(s, event.prop.justify)
    requires Deliverable(cfg, w, event) && Orderly(s, event)
    ensures CaughtUp(UpdateNodes(Accepted(s, event.prop), event.prop))
  {
    hide UpdateNodes, GrandNode, Orderly, Deliverable, RI.Covered, NodesGrow, Accepts, GenuineQc;
    var prop := event.prop;
    var t0 := Accepted(s, prop);
    var t := UpdateNodes(t0, prop);
    ProposalKeepsCore(cfg, w, s, event);
    SameGrandNodes(cfg, w, s, t);
    UpdateNodesCatchesUp(cfg, w, t0, prop);
    RI.UpdateNodesKeepsInv(t0, prop);
    forall h | h in t.nodes ensures HeightOf(GrandNode(t.nodes, t.nodes[h])) <= t.state.locked.height {
      if t.nodes[h] != prop {
        assert h in s.nodes && t.nodes[h] == s.nodes[h];
        assert HeightOf(GrandNode(s.nodes, s.nodes[h])) <= s.state.locked.height;
      }
    }
  }

  /** Only a beat can make the lock lag. */
  lemma OnlyBeatsFallBehind(cfg: Config, w: World, i: ReplicaId, r: Replica, event: Event)
    requires |w| == cfg.n && ReplicaInv(cfg, w, r) && CaughtUp(r.machine.storage) && !event.NewTx?
    requires InOrder(cfg, w, r, event)
    ensures CaughtUp(Step(r.machine, cfg.n, i, event).storage)
  {
    hide CaughtUp, UpdateNodes, UpdateQcHigh, OnRecvVote, Orderly;
    var s := r.machine.storage;
    if IsProposal(event) {
      if VerifyProposal(s, event.prop.justify) {
        ProposalKeepsCaughtUp(cfg, w, s, event);
      }
    } else {
      OtherEventsLeaveNodesAndLock(r.machine, cfg.n, i, event);
      SameLockSameCaughtUp(s, Step(r.machine, cfg.n, i, event).storage);
    }
  }

  lemma SameLockSameCaughtUp(s: Storage, t: Storage)
    requires CaughtUp(s) && t.nodes == s.nodes && t.state.locked == s.state.locked
    ensures CaughtUp(t)
  {
  }

  lemma OtherEventsLeaveNodesAndLock(m: MachineState, total: nat, i: ReplicaId, event: Event)
    requires RI.Inv(m.storage) && Orderly(m.storage, event) && LeafVote(total, m, event) && !IsProposal(event) && !event.NewTx?
    ensures var t := Step(m, total, i, event).storage;
            t.nodes == m.storage.nodes && t.state.locked == m.storage.state.locked
  {
    hide OnRecvVote, LeafVote, OnUpdateQcHighReady;
    match event
    case RecvSign(from, prop, kit) => RI.VoteKeepsInv(m, total, event);
    case RecvNewView(qc) =>
      if qc.node in m.storage.nodes {
        RI.UpdateQcHighKeepsInv(m.storage, qc);
      }
    case UpdateQcHighReady(node) => RI.HandingBackLeafKeepsQcHigh(m.storage, node);
    case ViewChange(_) =>
    case RaiseView(_) =>
    case RecordTimeout(_) =>
  }

  /** A leader that hears its own proposal before anything else is up to date again. */
  lemma HearingOwnProposalCatchesUp(cfg: Config, w: World, m: MachineState, i: ReplicaId, payload: seq<Byte>)
    requires Core(cfg, w, m.storage) && RI.Covered(m.storage) && CaughtUp(m.storage) && m.storage.state.view > m.storage.state.leaf.height
    ensures var prop := MakeLeaf(m.storage, payload); var t := OnBeat(m, i, payload).storage;
            !Signs(t, prop) && CaughtUp(OnRecvProposal(t, prop))
  {
    var s, prop, t := m.storage, MakeLeaf(m.storage, payload), OnBeat(m, i, payload).storage;
    BeatKeepsCore(cfg, w, m, i, payload);
    SameGrandNodes(cfg, w, s, t);
    assert prop.justify == s.state.qcHigh && VerifyProposal(t, prop.justify);
    var u := UpdateNodes(t, prop);
    UpdateNodesCatchesUp(cfg, w, t, prop);
    RI.UpdateNodesEffect(t, prop);
    RI.UpdateNodesKeepsInv(t, prop);
    forall h | h in u.nodes ensures HeightOf(GrandNode(u.nodes, u.nodes[h])) <= u.state.locked.height {
      if h != Hash(prop) {
        assert HeightOf(GrandNode(s.nodes, s.nodes[h])) <= s.state.locked.height;
      }
    }
  }
}
