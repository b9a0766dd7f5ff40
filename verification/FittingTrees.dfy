/** Where nothing is stored below what is stored already, no replica signs two nodes of one height,
    even if its votes fall.  Agreement does not need this. */
module FittingTrees {
  import opened HsData
  import opened StorageModel
  import opened SafetyMachine
  import opened Protocol
  import opened ProtocolInvariant
  import opened Preservation
  import opened Agreement
  import opened CatchUp

  ghost predicate OneNodePerHeight(nodes: NodeMap) {
    forall h, k :: h in nodes && k in nodes && nodes[h].height == nodes[k].height ==> h == k
  }

  /** The tree has one node of each height, and all that was signed is in it. */
  ghost predicate TreeInv(r: Replica) {
    OneNodePerHeight(r.machine.storage.nodes) && forall a :: a in r.signed ==> Has(r.machine.storage.nodes, a)
  }

  ghost predicate TreesInv(cfg: Config, w: World) {
    |w| == cfg.n && forall i :: 0 <= i < cfg.n && i !in cfg.faulty ==> TreeInv(w[i])
  }

  lemma NewNodeFits(r: Replica, nodes: NodeMap, signed: map<TreeNode, TreeNode>, node: TreeNode)
    requires TreeInv(r) && Fits(r.machine.storage.nodes, node) && nodes == r.machine.storage.nodes[Hash(node) := node]
    requires signed.Keys <= r.signed.Keys + {node}
    ensures OneNodePerHeight(nodes) && forall a :: a in signed ==> Has(nodes, a)
  {
    hide OneNodePerHeight, Above;
    var s := r.machine.storage;
    if Has(s.nodes, node) {
      assert nodes == s.nodes;
    } else {
      assert Above(s.nodes, node.height);
      OneMoreFits(s.nodes, node);
      forall a | a in signed ensures Has(nodes, a) {
        StoredStays(s.nodes, node, a);
      }
    }
  }

  lemma OneMoreFits(nodes: NodeMap, node: TreeNode)
    requires OneNodePerHeight(nodes) && Above(nodes, node.height)
    ensures OneNodePerHeight(nodes[Hash(node) := node])
  {
  }

  lemma StoredStays(nodes: NodeMap, node: TreeNode, a: TreeNode)
    requires Above(nodes, node.height) && (a == node || Has(nodes, a))
    ensures Has(nodes[Hash(node) := node], a)
  {
  }

  lemma ProposalKeepsTree(cfg: Config, w: World, i: ReplicaId, r: Replica, event: Event)
    requires ReplicaInv(cfg, w, r) && TreeInv(r) && IsProposal(event) && InOrder(cfg, w, r, event) && Fitting(r.machine.storage, event)
    ensures TreeInv(ReplicaStep(cfg, i, r, event))
  {
    hide UpdateNodes, ReplicaInv, Core, ExecutedBy, NodesGrow, OneNodePerHeight, Fits, Deliverable, Orderly, LeafVote, UnanimousVote,
         Accepts, RI.Covered;
    var s, prop := r.machine.storage, event.prop;
    CoreOfReplica(cfg, w, r);
    if VerifyProposal(s, prop.justify) {
      ProposalKeepsCore(cfg, w, s, event);
      if Accepts(s, prop) {
        NewNodeFits(r, s.nodes[Hash(prop) := prop], r.signed[prop := s.state.locked], prop);
      }
    }
  }

  lemma StepKeepsTree(cfg: Config, w: World, i: ReplicaId, r: Replica, event: Event)
    requires ReplicaInv(cfg, w, r) && TreeInv(r) && InOrder(cfg, w, r, event) && Fitting(r.machine.storage, event)
    ensures TreeInv(ReplicaStep(cfg, i, r, event))
  {
    var s := r.machine.storage;
    if IsProposal(event) {
      ProposalKeepsTree(cfg, w, i, r, event);
    } else if event.NewTx? {
      var prop := MakeLeaf(s, event.payload);
      NewNodeFits(r, s.nodes[Hash(prop) := prop], r.signed[prop := s.state.locked], prop);
    } else {
      OtherEventsLeaveNodesAndLock(r.machine, cfg.n, i, event);
      OtherEventsOnlyMoveMachine(cfg, i, r, event);
      hide Step, ReplicaStep, ReplicaInv;
    }
  }

  lemma StepKeepsTrees(cfg: Config, w: World, i: ReplicaId, event: Event)
    requires WorldInv(cfg, w) && TreesInv(cfg, w) && Allowed(FittingMessages, cfg, w, i, event)
    ensures TreesInv(cfg, WorldStep(cfg, w, i, event))
  {
    hide ReplicaInv, TreeInv, ReplicaStep, InOrder, Fitting;
    StepKeepsTree(cfg, w, i, w[i], event);
  }

  lemma {:induction false} RunKeepsTrees(cfg: Config, worlds: Worlds, k: nat)
    requires cfg.Valid() && Run(FittingMessages, cfg, worlds) && k < |worlds|
    ensures WorldInv(cfg, worlds[k]) && TreesInv(cfg, worlds[k])
  {
    hide Run, WorldInv, TreesInv, Allowed, WorldStep;
    RunIsWeakerRun(OrderlyMessages, FittingMessages, cfg, worlds);
    RunKeepsWorldInv(cfg, worlds, k);
    if k == 0 {
      RunStarts(FittingMessages, cfg, worlds);
      FreshTrees(cfg);
    } else {
      RunKeepsTrees(cfg, worlds, k - 1);
      var i, event := StepOfRun(FittingMessages, cfg, worlds, k);
      StepKeepsTrees(cfg, worlds[k - 1], i, event);
    }
  }

  lemma FreshTrees(cfg: Config)
    ensures TreesInv(cfg, InitWorld(cfg))
  {
  }

  lemma FittingVotesAreDistinct(cfg: Config, w: World, i: ReplicaId, event: Event)
    requires WorldInv(cfg, w) && TreesInv(cfg, w) && Allowed(FittingMessages, cfg, w, i, event)
    ensures Allowed(DistinctVotes, cfg, w, i, event)
  {
    var r, s := w[i], w[i].machine.storage;
    assert ReplicaInv(cfg, w, r) && TreeInv(r);
    CoreOfReplica(cfg, w, r);
    if SignedBy(s, event).Some? {
      var node := SignedBy(s, event).value;
      SignatureFits(s, event);
      hide SignedBy, ReplicaInv, InOrder, Fitting;
      forall a | a in r.signed && a != node ensures a.height != node.height {
        assert s.nodes[Hash(a)] == a;
      }
    }
  }

  lemma SignatureFits(s: Storage, event: Event)
    requires Fitting(s, event) && SignedBy(s, event).Some?
    ensures Fits(s.nodes, SignedBy(s, event).value)
    ensures Orderly(s, event) ==> SignedBy(s, event).value.height > 0
  {
  }

  /** So certificates are unique in such runs. */
  lemma FittingRunsAreDistinct(cfg: Config, worlds: Worlds)
    requires cfg.Valid() && Run(FittingMessages, cfg, worlds)
    ensures Run(DistinctVotes, cfg, worlds)
  {
    hide WorldInv, TreesInv, WorldStep, Allowed;
    forall k | 0 < k < |worlds| ensures NextWorld(DistinctVotes, cfg, worlds[k - 1], worlds[k]) {
      var i, event := StepOfRun(FittingMessages, cfg, worlds, k);
      RunKeepsTrees(cfg, worlds, k - 1);
      FittingVotesAreDistinct(cfg, worlds[k - 1], i, event);
    }
  }
}
