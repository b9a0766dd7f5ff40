/** What safe votes add to the invariant: a replica's later signatures respect what its earlier
    ones call for, although the lock of a leader lags behind what it signed. */
module SafeVoting {
  import opened HsData
  import opened StorageModel
  import opened SafetyMachine
  import opened Protocol
  import opened ProtocolInvariant
  import opened Preservation
  import RI = ReplicaInvariants

  /** A later signature was given under a lock not below the node two justify links below an
      earlier signed one, or it is safe for that node as well. */
  ghost predicate LocksFollow(nodes: NodeMap, signed: map<TreeNode, TreeNode>) {
    forall a, b :: a in signed && b in signed && a.height < b.height ==>
      HeightOf(GrandNode(nodes, a)) <= signed[b].height || SafeFor(b, GrandNode(nodes, a))
  }

  /** No signature was given under a lock above the present one. */
  ghost predicate LocksBelow(s: Storage, signed: map<TreeNode, TreeNode>) {
    forall a :: a in signed ==> signed[a].height <= s.state.locked.height
  }

  ghost predicate LockInv(r: Replica) {
    var s := r.machine.storage;
    LocksFollow(s.nodes, r.signed) && LocksBelow(s, r.signed)
  }

  ghost predicate LocksInv(cfg: Config, w: World) {
    |w| == cfg.n && forall i :: 0 <= i < cfg.n && i !in cfg.faulty ==> LockInv(w[i])
  }

  /** Orderly messages are what the invariant of a single replica asks for. */
  lemma OrderlyIsTame(total: nat, m: MachineState, event: Event)
    requires RI.Inv(m.storage) && Orderly(m.storage, event) && LeafVote(total, m, event)
    ensures RI.Tame(total, m, event)
  {
  }

  /** A proposal whose certificate is not below the one the replica holds is safe for everything
      two justify links below a signed node, however far the lock lags.  A leader's own proposal
      is one. */
  lemma FreshCertificateIsSafe(cfg: Config, w: World, s: Storage, signed: set<TreeNode>, prop: TreeNode)
    requires Core(cfg, w, s) && RI.Covered(s) && HeightOf(prop.justify.node) >= HeightOf(s.state.qcHigh.node)
    requires forall a :: a in signed ==> Justified(cfg, w, s.nodes, a) && HeightOf(a.justify.node) <= HeightOf(s.state.qcHigh.node)
    ensures SafeForSigned(s, signed, prop)
  {
    forall a | a in signed
      ensures var lock := GrandNode(s.nodes, a);
              HeightOf(lock) <= s.state.locked.height || SafeFor(prop, lock)
    {
      GrandIsBelowJustify(cfg, w, s, a);
    }
  }

  lemma GrandIsBelowJustify(cfg: Config, w: World, s: Storage, a: TreeNode)
    requires Core(cfg, w, s) && Justified(cfg, w, s.nodes, a)
    ensures var lock := GrandNode(s.nodes, a); HeightOf(lock) == 0 || HeightOf(lock) < HeightOf(a.justify.node)
  {
    var below := s.nodes[a.justify.node];
    assert Hash(below) == a.justify.node;
    if below != INIT_NODE {
      assert Justified(cfg, w, s.nodes, s.nodes[Hash(below)]);
    }
  }

  lemma SignatureIsSafeForSigned(cfg: Config, w: World, s: Storage, r: Replica, event: Event)
    requires s == r.machine.storage && Core(cfg, w, s) && RI.Covered(s) && SafeVote(r, event) && SignedBy(s, event).Some?
    requires forall a :: a in r.signed ==> Justified(cfg, w, s.nodes, a) && HeightOf(a.justify.node) <= HeightOf(s.state.qcHigh.node)
    ensures SafeForSigned(s, r.signed.Keys, SignedBy(s, event).value)
  {
    hide SafeForSigned, Core, RI.Covered, Signs, Justified;
    if event.NewTx? {
      FreshCertificateIsSafe(cfg, w, s, r.signed.Keys, MakeLeaf(s, event.payload));
    }
  }

  /** Signed nodes keep the node two justify links below them. */
  lemma GrandNodesStay(cfg: Config, w: World, r: Replica, t: Storage)
    requires ReplicaInv(cfg, w, r) && NodesGrow(r.machine.storage, t)
    ensures var s := r.machine.storage;
            forall a :: a in r.signed ==>
              && Justified(cfg, w, s.nodes, a) && HeightOf(a.justify.node) <= HeightOf(s.state.qcHigh.node)
              && GrandNode(t.nodes, a) == GrandNode(s.nodes, a)
  {
    var s := r.machine.storage;
    forall a | a in r.signed
      ensures Justified(cfg, w, s.nodes, a) && HeightOf(a.justify.node) <= HeightOf(s.state.qcHigh.node)
      ensures GrandNode(t.nodes, a) == GrandNode(s.nodes, a)
    {
      assert SafelySigned(cfg, w, s, a, r.signed[a]);
    }
  }

  lemma LocksStillFollow(s: Storage, t: Storage, signed: map<TreeNode, TreeNode>, prop: TreeNode)
    requires LocksFollow(s.nodes, signed) && LocksBelow(s, signed) && SafeForSigned(s, signed.Keys, prop)
    requires prop !in signed ==> forall a :: a in signed ==> a.height < prop.height
    requires forall a :: a in signed ==> GrandNode(t.nodes, a) == GrandNode(s.nodes, a)
    ensures LocksFollow(t.nodes, signed[prop := s.state.locked])
  {
    hide GrandNode, SafeFor;
    var more := signed[prop := s.state.locked];
    forall a, b | a in more && b in more && a.height < b.height
      ensures HeightOf(GrandNode(t.nodes, a)) <= more[b].height || SafeFor(b, GrandNode(t.nodes, a))
    {
      assert a in signed;
      if b != prop {
        assert HeightOf(GrandNode(s.nodes, a)) <= signed[b].height || SafeFor(b, GrandNode(s.nodes, a));
      }
    }
  }

  lemma StepGrowsNodes(cfg: Config, w: World, i: ReplicaId, r: Replica, event: Event)
    requires ReplicaInv(cfg, w, r) && InOrder(cfg, w, r, event)
    ensures NodesGrow(r.machine.storage, Step(r.machine, cfg.n, i, event).storage)
  {
    var s := r.machine.storage;
    hide UpdateNodes, UpdateQcHigh, OnRecvVote, NodesGrow, LeafVote, OnUpdateQcHighReady;
    match event
    case RecvProposal(prop) => ProposalGrowsNodes(cfg, w, s, event);
    case Sync(prop) => ProposalGrowsNodes(cfg, w, s, event);
    case RecvSign(from, prop, kit) =>
      RI.VoteKeepsInv(r.machine, cfg.n, event);
      SameNodesGrow(s, OnRecvVote(r.machine, cfg.n, from, prop, kit).storage);
    case NewTx(payload) => BeatKeepsCore(cfg, w, r.machine, i, payload);
    case RecvNewView(qc) =>
      if qc.node in s.nodes {
        RI.UpdateQcHighKeepsInv(s, qc);
      }
      SameNodesGrow(s, OnNewView(s, qc));
    case UpdateQcHighReady(node) =>
      RI.HandingBackLeafKeepsQcHigh(s, node);
      SameNodesGrow(s, OnUpdateQcHighReady(s, node));
    case ViewChange(view) => SameNodesGrow(s, OnViewChange(r.machine, view).storage);
    case RaiseView(view) => SameNodesGrow(s, IncreaseView(s, view));
    case RecordTimeout(tc) => SameNodesGrow(s, AppendTc(s, tc));
  }

  lemma SameNodesGrow(s: Storage, t: Storage)
    requires t.nodes == s.nodes && HeightOf(s.state.qcHigh.node) <= HeightOf(t.state.qcHigh.node)
    ensures NodesGrow(s, t)
  {
  }

  lemma ProposalGrowsNodes(cfg: Config, w: World, s: Storage, event: Event)
    requires Core(cfg, w, s) && RI.Covered(s) && IsProposal(event) && Deliverable(cfg, w, event) && Orderly(s, event)
    ensures NodesGrow(s, Step(MachineState(s, map[]), 0, 0, event).storage)
  {
    if VerifyProposal(s, event.prop.justify) {
      ProposalKeepsCore(cfg, w, s, event);
    }
  }

  /** The replica that moves keeps the invariant of its locks. */
  lemma StepKeepsLockInv(cfg: Config, w: World, i: ReplicaId, r: Replica, event: Event)
    requires ReplicaInv(cfg, w, r) && LockInv(r)
    requires InOrder(cfg, w, r, event) && SafeVote(r, event) && RisingVote(r, event)
    ensures LockInv(ReplicaStep(cfg, i, r, event))
  {
    hide ReplicaInv, Step, SignedBy, SafeForSigned, LocksFollow, LocksBelow, ExecutedBy, RI.Covered, Deliverable, Orderly, LeafVote, UnanimousVote, SafeVote, RI.Inv, Core, Justified;
    var s, t := r.machine.storage, Step(r.machine, cfg.n, i, event).storage;
    CoreOfReplica(cfg, w, r);
    OrderlyIsTame(cfg.n, r.machine, event);
    RI.StepKeepsInv(r.machine, cfg.n, i, event);
    StepGrowsNodes(cfg, w, i, r, event);
    GrandNodesStay(cfg, w, r, t);
    LocksStayBelow(s, t, r.signed);
    if SignedBy(s, event).Some? {
      SignatureIsSafeForSigned(cfg, w, s, r, event);
      LocksStillFollow(s, t, r.signed, SignedBy(s, event).value);
      NewLockIsBelow(s, t, r.signed, SignedBy(s, event).value);
    } else {
      LocksStillFollowNothingNew(s, t, r.signed);
    }
  }

  lemma LocksStayBelow(s: Storage, t: Storage, signed: map<TreeNode, TreeNode>)
    requires LocksBelow(s, signed) && RI.Advances(s.state, t.state)
    ensures LocksBelow(t, signed)
  {
  }

  lemma NewLockIsBelow(s: Storage, t: Storage, signed: map<TreeNode, TreeNode>, prop: TreeNode)
    requires LocksBelow(t, signed) && RI.Advances(s.state, t.state)
    ensures LocksBelow(t, signed[prop := s.state.locked])
  {
  }

  lemma LocksStillFollowNothingNew(s: Storage, t: Storage, signed: map<TreeNode, TreeNode>)
    requires LocksFollow(s.nodes, signed)
    requires forall a :: a in signed ==> GrandNode(t.nodes, a) == GrandNode(s.nodes, a)
    ensures LocksFollow(t.nodes, signed)
  {
  }
}
