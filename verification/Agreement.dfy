/** Agreement and the facts about certificates that lead to it. */
module Agreement {
  import opened HsData
  import opened StorageModel
  import opened SafetyMachine
  import opened Quorums
  import opened Protocol
  import opened ProtocolInvariant
  import opened Preservation
  import opened SafeVoting

  // ---------------------------------------------------------------- records only grow

  lemma StepGrows(cfg: Config, w: World, i: ReplicaId, event: Event)
    requires i < |w|
    ensures Grows(cfg, w, WorldStep(cfg, w, i, event))
    ensures forall j :: 0 <= j < |w| ==> w[j].executed <= WorldStep(cfg, w, i, event)[j].executed
  {
    hide Step, ExecutedBy, SignedBy;
  }

  /** What is certified or executed stays so, in runs of every kind. */
  lemma {:induction false} RunGrows(law: Law, cfg: Config, worlds: Worlds, k: nat, m: nat)
    requires Run(law, cfg, worlds) && k <= m < |worlds|
    ensures |worlds[k]| == |worlds[m]| == cfg.n && Grows(cfg, worlds[k], worlds[m])
    ensures forall i :: 0 <= i < cfg.n ==> worlds[k][i].executed <= worlds[m][i].executed
    decreases m, k
  {
    hide Backs, WorldStep;
    if k < m {
      RunGrows(law, cfg, worlds, k, m - 1);
      var i, event := StepOfRun(law, cfg, worlds, m);
      StepGrows(cfg, worlds[m - 1], i, event);
    } else if k > 0 {
      RunGrows(law, cfg, worlds, k - 1, k);
    }
  }

  // ---------------------------------------------------------------- every reachable world

  lemma InitWorldInv(cfg: Config)
    requires cfg.Valid()
    ensures WorldInv(cfg, InitWorld(cfg)) && LocksInv(cfg, InitWorld(cfg)) && VotesInv(cfg, InitWorld(cfg))
  {
  }

  lemma StepKeepsWorldInv(cfg: Config, w: World, i: ReplicaId, event: Event)
    requires WorldInv(cfg, w) && Allowed(OrderlyMessages, cfg, w, i, event)
    ensures WorldInv(cfg, WorldStep(cfg, w, i, event))
  {
    var w' := WorldStep(cfg, w, i, event);
    StepGrows(cfg, w, i, event);
    MovingReplicaKeepsInv(cfg, w, i, event);
    hide ReplicaInv, ReplicaStep, Grows, Allowed;
    forall j | 0 <= j < cfg.n && j !in cfg.faulty ensures ReplicaInv(cfg, w', w'[j]) {
      if j != i {
        ReplicaInvGrows(cfg, w, w', w[j]);
      }
    }
  }

  lemma MovingReplicaKeepsInv(cfg: Config, w: World, i: ReplicaId, event: Event)
    requires WorldInv(cfg, w) && Allowed(OrderlyMessages, cfg, w, i, event)
    ensures ReplicaInv(cfg, WorldStep(cfg, w, i, event), ReplicaStep(cfg, i, w[i], event))
  {
    var w' := WorldStep(cfg, w, i, event);
    StepGrows(cfg, w, i, event);
    ReplicaInvGrows(cfg, w, w', w[i]);
    assert Deliverable(cfg, w', event) by {
      forall node | Certified(cfg, w, node) ensures Certified(cfg, w', node) {
        CertifiedGrows(cfg, w, w', node);
      }
    }
    hide ReplicaInv, Deliverable, Orderly, LeafVote, UnanimousVote;
    EventKeepsReplicaInv(cfg, w', i, w[i], event);
  }

  lemma {:induction false} RunKeepsWorldInv(cfg: Config, worlds: Worlds, k: nat)
    requires cfg.Valid() && Run(OrderlyMessages, cfg, worlds) && k < |worlds|
    ensures WorldInv(cfg, worlds[k])
  {
    if k == 0 {
      InitWorldInv(cfg);
    } else {
      hide Run, WorldInv, Allowed, WorldStep;
      RunKeepsWorldInv(cfg, worlds, k - 1);
      var i, event := StepOfRun(OrderlyMessages, cfg, worlds, k);
      StepKeepsWorldInv(cfg, worlds[k - 1], i, event);
    }
  }

  lemma StepKeepsLocksInv(cfg: Config, w: World, i: ReplicaId, event: Event)
    requires WorldInv(cfg, w) && LocksInv(cfg, w) && Allowed(SafeVotes, cfg, w, i, event)
    ensures LocksInv(cfg, WorldStep(cfg, w, i, event))
  {
    hide ReplicaInv, LockInv, ReplicaStep, InOrder, SafeVote, RisingVote;
    StepKeepsLockInv(cfg, w, i, w[i], event);
  }

  lemma {:induction false} RunKeepsLocksInv(cfg: Config, worlds: Worlds, k: nat)
    requires cfg.Valid() && Run(SafeVotes, cfg, worlds) && k < |worlds|
    ensures WorldInv(cfg, worlds[k]) && LocksInv(cfg, worlds[k]) && VotesInv(cfg, worlds[k])
  {
    hide Run, WorldInv, LocksInv, VotesInv, Allowed, WorldStep;
    RunIsWeakerRun(OrderlyMessages, SafeVotes, cfg, worlds);
    RunIsWeakerRun(DistinctVotes, SafeVotes, cfg, worlds);
    RunKeepsWorldInv(cfg, worlds, k);
    RunKeepsVotesInv(cfg, worlds, k);
    if k == 0 {
      InitWorldInv(cfg);
      RunStarts(SafeVotes, cfg, worlds);
    } else {
      RunKeepsLocksInv(cfg, worlds, k - 1);
      var i, event := StepOfRun(SafeVotes, cfg, worlds, k);
      StepKeepsLocksInv(cfg, worlds[k - 1], i, event);
    }
  }

  // ---------------------------------------------------------------- certificates are unique

  /** Nothing at the height of the initial node, and at most one node of every other height. */
  ghost predicate OneVotePerHeight(signed: map<TreeNode, TreeNode>) {
    && (forall a :: a in signed ==> a.height > 0)
    && (forall a, b :: a in signed && b in signed && a.height == b.height ==> a == b)
  }

  ghost predicate VotesInv(cfg: Config, w: World) {
    && cfg.Valid() && |w| == cfg.n
    && forall i :: 0 <= i < cfg.n && i !in cfg.faulty ==> OneVotePerHeight(w[i].signed)
  }

  /** A correct replica that signed both nodes. */
  lemma CorrectSignerOfBoth(cfg: Config, w: World, a: TreeNode, b: TreeNode) returns (i: ReplicaId)
    requires cfg.Valid() && Certified(cfg, w, a) && Certified(cfg, w, b)
    requires a != INIT_NODE && b != INIT_NODE
    ensures Correct(cfg, i) && i < |w| && a in w[i].signed && b in w[i].signed
  {
    i := CorrectReplicaInBoth(cfg.n, cfg.faulty, Backers(cfg, w, a), Backers(cfg, w, b));
  }

  lemma CertifiedHeightsAreUnique(cfg: Config, w: World, a: TreeNode, b: TreeNode)
    requires VotesInv(cfg, w) && Certified(cfg, w, a) && Certified(cfg, w, b) && a.height == b.height
    ensures a == b
  {
    var c, d := if a == INIT_NODE then b else a, if b == INIT_NODE then a else b;
    if c != INIT_NODE {
      var i := CorrectSignerOfBoth(cfg, w, c, d);
      assert OneVotePerHeight(w[i].signed);
    }
  }

  lemma StepKeepsVotesInv(cfg: Config, w: World, i: ReplicaId, event: Event)
    requires VotesInv(cfg, w) && Allowed(DistinctVotes, cfg, w, i, event)
    ensures VotesInv(cfg, WorldStep(cfg, w, i, event))
  {
    hide Step, ExecutedBy, SignedBy;
    assert OneVotePerHeight(w[i].signed);
    assert OneVotePerHeight(ReplicaStep(cfg, i, w[i], event).signed);
    hide ReplicaStep, OneVotePerHeight;
  }

  lemma {:induction false} RunKeepsVotesInv(cfg: Config, worlds: Worlds, k: nat)
    requires cfg.Valid() && Run(DistinctVotes, cfg, worlds) && k < |worlds|
    ensures VotesInv(cfg, worlds[k])
  {
    if k == 0 {
      InitWorldInv(cfg);
    } else {
      hide Run, VotesInv, Allowed, WorldStep;
      RunKeepsVotesInv(cfg, worlds, k - 1);
      var i, event := StepOfRun(DistinctVotes, cfg, worlds, k);
      StepKeepsVotesInv(cfg, worlds[k - 1], i, event);
    }
  }

  /** Where no correct replica signs two nodes of one height, whatever else happens and whatever is
      put on the network, no two nodes of one height are certified, at the same time or at two. */
  lemma CertificatesAreUnique(cfg: Config, worlds: Worlds, k: nat, m: nat, a: TreeNode, b: TreeNode)
    requires cfg.Valid() && Run(DistinctVotes, cfg, worlds) && k < |worlds| && m < |worlds|
    requires Certified(cfg, worlds[k], a) && Certified(cfg, worlds[m], b) && a.height == b.height
    ensures a == b
  {
    var last := |worlds| - 1;
    RunGrows(DistinctVotes, cfg, worlds, k, last);
    RunGrows(DistinctVotes, cfg, worlds, m, last);
    CertifiedGrows(cfg, worlds[k], worlds[last], a);
    CertifiedGrows(cfg, worlds[m], worlds[last], b);
    RunKeepsVotesInv(cfg, worlds, last);
    CertifiedHeightsAreUnique(cfg, worlds[last], a, b);
  }

  /** What a correct replica signed is in its tree, with a certified justify node below it. */
  lemma SignedIsJustified(cfg: Config, w: World, i: ReplicaId, node: TreeNode)
    requires WorldInv(cfg, w) && Correct(cfg, i) && node in w[i].signed
    ensures var s := w[i].machine.storage;
            && SafelySigned(cfg, w, s, node, w[i].signed[node])
            && Justified(cfg, w, s.nodes, node)
            && node.height > 0
  {
    var s := w[i].machine.storage;
    assert ReplicaInv(cfg, w, w[i]);
    assert SafelySigned(cfg, w, s, node, w[i].signed[node]);
  }

  // ---------------------------------------------------------------- certificates are closed

  /** Below a certified node there is a certified node on its branch. */
  lemma CertifiedNodeHasCertifiedJustify(cfg: Config, w: World, node: TreeNode) returns (below: TreeNode)
    requires WorldInv(cfg, w) && Certified(cfg, w, node) && node != INIT_NODE
    ensures Certified(cfg, w, below) && Hash(below) == node.justify.node
    ensures Extends(Hash(node), Hash(below)) && below.height < node.height
  {
    var i := CorrectSignerOfBoth(cfg, w, node, node);
    SignedIsJustified(cfg, w, i, node);
    below := w[i].machine.storage.nodes[node.justify.node];
    assert Hash(below) == node.justify.node;
  }

  /** Below every certified node a certified one on its branch, and all that correct replicas are
      locked on or have committed is certified; locks may lag. */
  lemma CertifiedClosure(cfg: Config, worlds: Worlds, k: nat)
    requires cfg.Valid() && Run(OrderlyMessages, cfg, worlds) && k < |worlds|
    ensures forall node :: Certified(cfg, worlds[k], node) && node != INIT_NODE ==>
              exists below :: Certified(cfg, worlds[k], below) && Hash(below) == node.justify.node
                              && Extends(Hash(node), Hash(below)) && below.height < node.height
    ensures |worlds[k]| == cfg.n
    ensures forall i: ReplicaId :: Correct(cfg, i) ==>
              && Certified(cfg, worlds[k], worlds[k][i].machine.storage.state.locked)
              && Certified(cfg, worlds[k], worlds[k][i].machine.storage.state.lastCommit)
  {
    var w := worlds[k];
    RunKeepsWorldInv(cfg, worlds, k);
    forall node | Certified(cfg, w, node) && node != INIT_NODE
      ensures exists below :: Certified(cfg, w, below) && Hash(below) == node.justify.node
                              && Extends(Hash(node), Hash(below)) && below.height < node.height
    {
      var below := CertifiedNodeHasCertifiedJustify(cfg, w, node);
    }
    forall i: ReplicaId | Correct(cfg, i) ensures CertifiedState(cfg, w, w[i].machine.storage) {
      assert ReplicaInv(cfg, w, w[i]);
    }
  }

  lemma {:induction false} CertifiedExtendsInit(cfg: Config, w: World, node: TreeNode)
    requires WorldInv(cfg, w) && Certified(cfg, w, node)
    ensures Extends(Hash(node), Hash(INIT_NODE))
    decreases node.height
  {
    if node != INIT_NODE {
      var below := CertifiedNodeHasCertifiedJustify(cfg, w, node);
      CertifiedExtendsInit(cfg, w, below);
      ExtendsTransitive(Hash(node), Hash(below), Hash(INIT_NODE));
    }
  }

  // ---------------------------------------------------------------- agreement

  ghost predicate HeightConsecutive(e: Execution) {
    e.top.height == e.mid.height + 1 && e.mid.height == e.bottom.height + 1
  }

  lemma GrandNodeOfExecution(cfg: Config, w: World, i: ReplicaId, e: Execution)
    requires WorldInv(cfg, w) && VotesInv(cfg, w) && CertifiedChain(cfg, w, e) && Correct(cfg, i) && e.top in w[i].signed
    ensures GrandNode(w[i].machine.storage.nodes, e.top) == Hash(e.bottom)
  {
    var s := w[i].machine.storage;
    SignedIsJustified(cfg, w, i, e.top);
    var mid := s.nodes[e.top.justify.node];
    assert Hash(mid) == Hash(e.mid);
    CertifiedHeightsAreUnique(cfg, w, mid, e.mid);
  }

  /** A replica that signed the top of an execution and later `node` signed it safely for the
      bottom of the execution, or for something certified that is not below it. */
  lemma LockOfLaterVote(cfg: Config, w: World, i: ReplicaId, e: Execution, node: TreeNode) returns (lock: TreeNode)
    requires WorldInv(cfg, w) && LocksInv(cfg, w) && VotesInv(cfg, w) && CertifiedChain(cfg, w, e) && HeightConsecutive(e)
    requires Correct(cfg, i) && e.top in w[i].signed && node in w[i].signed
    requires node.height > e.top.height
    ensures Certified(cfg, w, lock) && e.bottom.height <= lock.height < node.height
    ensures SafeFor(node, Hash(lock))
  {
    SignedIsJustified(cfg, w, i, node);
    GrandNodeOfExecution(cfg, w, i, e);
    assert LockInv(w[i]);
    lock := if e.bottom.height <= w[i].signed[node].height then w[i].signed[node] else e.bottom;
  }

  /** Whatever is certified at or above an executed node is on its branch. */
  lemma {:induction false} CertifiedAboveExtends(cfg: Config, w: World, e: Execution, node: TreeNode)
    requires WorldInv(cfg, w) && LocksInv(cfg, w) && VotesInv(cfg, w) && CertifiedChain(cfg, w, e) && HeightConsecutive(e)
    requires Certified(cfg, w, node) && node.height >= e.bottom.height
    ensures Extends(Hash(node), Hash(e.bottom))
    decreases node.height
  {
    if node.height <= e.top.height {
      ChainMember(cfg, w, e, node);
    } else {
      assert cfg.Valid();
      hide WorldInv, LocksInv, VotesInv, Certified, Extends;
      var i := CorrectSignerOfBoth(cfg, w, e.top, node);
      var lock := LockOfLaterVote(cfg, w, i, e, node);
      if Extends(Hash(node), Hash(lock)) {
        CertifiedAboveExtends(cfg, w, e, lock);
        ExtendsTransitive(Hash(node), Hash(lock), Hash(e.bottom));
      } else {
        var below := CertifiedNodeHasCertifiedJustify(cfg, w, node);
        CertifiedAboveExtends(cfg, w, e, below);
        ExtendsTransitive(Hash(node), Hash(below), Hash(e.bottom));
      }
    }
  }

  /** Between its bottom and its top only the chain itself is certified. */
  lemma ChainMember(cfg: Config, w: World, e: Execution, node: TreeNode)
    requires WorldInv(cfg, w) && VotesInv(cfg, w) && CertifiedChain(cfg, w, e) && HeightConsecutive(e)
    requires Certified(cfg, w, node) && e.bottom.height <= node.height <= e.top.height
    ensures Extends(Hash(node), Hash(e.bottom))
  {
    var same := if node.height == e.top.height then e.top else if node.height == e.mid.height then e.mid else e.bottom;
    CertifiedHeightsAreUnique(cfg, w, node, same);
    var belowTop := CertifiedNodeHasCertifiedJustify(cfg, w, e.top);
    var belowMid := CertifiedNodeHasCertifiedJustify(cfg, w, e.mid);
    ExtendsTransitive(Hash(e.top), Hash(e.mid), Hash(e.bottom));
  }

  lemma ExecutedIsCertified(cfg: Config, w: World, i: ReplicaId, e: Execution)
    requires WorldInv(cfg, w) && Correct(cfg, i) && e in w[i].executed
    ensures CertifiedChain(cfg, w, e)
  {
    assert ReplicaInv(cfg, w, w[i]);
  }

  /** What correct replicas executed, on one replica or on two and at any times: the higher node
      is on the branch of the lower one if the lower one was executed under a chain of
      consecutive heights.  So no two nodes executed under such chains conflict. */
  lemma ExecutionsAgree(cfg: Config, worlds: Worlds, p: nat, q: nat, i: ReplicaId, j: ReplicaId, a: Execution, b: Execution)
    requires cfg.Valid() && Run(SafeVotes, cfg, worlds) && p < |worlds| && q < |worlds| && Correct(cfg, i) && Correct(cfg, j)
    requires i < |worlds[p]| && a in worlds[p][i].executed
    requires j < |worlds[q]| && b in worlds[q][j].executed
    ensures a.bottom.height <= b.bottom.height && HeightConsecutive(a) ==> Extends(Hash(b.bottom), Hash(a.bottom))
    ensures HeightConsecutive(a) && HeightConsecutive(b) ==> !Conflicting(Hash(a.bottom), Hash(b.bottom))
  {
    var m := |worlds| - 1;
    var w := worlds[m];
    RunKeepsLocksInv(cfg, worlds, m);
    RunGrows(SafeVotes, cfg, worlds, p, m);
    RunGrows(SafeVotes, cfg, worlds, q, m);
    hide WorldInv, LocksInv, Run, Grows, Extends, HeightConsecutive;
    ExecutedIsCertified(cfg, w, i, a);
    ExecutedIsCertified(cfg, w, j, b);
    if a.bottom.height <= b.bottom.height && HeightConsecutive(a) {
      CertifiedAboveExtends(cfg, w, a, b.bottom);
    } else if b.bottom.height <= a.bottom.height && HeightConsecutive(b) {
      CertifiedAboveExtends(cfg, w, b, a.bottom);
    }
  }

  lemma ExecutedLast(cfg: Config, w: World, r: Replica) returns (e: Execution)
    requires ReplicaInv(cfg, w, r) && r.machine.storage.state.lastCommit != INIT_NODE
    ensures e in r.executed && e.bottom == r.machine.storage.state.lastCommit
  {
    e :| e in r.executed && e.bottom == r.machine.storage.state.lastCommit;
  }

  /** A replica that has only executed chains of consecutive heights is not behind on another
      branch: every last commit that is not lower is on the branch of its own. */
  lemma LastCommitsAgree(cfg: Config, worlds: Worlds, k: nat, i: ReplicaId, j: ReplicaId)
    requires cfg.Valid() && Run(SafeVotes, cfg, worlds) && k < |worlds| && Correct(cfg, i) && Correct(cfg, j)
    requires i < |worlds[k]| && forall e :: e in worlds[k][i].executed ==> HeightConsecutive(e)
    requires j < |worlds[k]|
    ensures var a, b := worlds[k][i].machine.storage.state.lastCommit, worlds[k][j].machine.storage.state.lastCommit;
            a.height <= b.height ==> Extends(Hash(b), Hash(a))
  {
    var w := worlds[k];
    RunKeepsLocksInv(cfg, worlds, k);
    assert ReplicaInv(cfg, w, w[i]) && ReplicaInv(cfg, w, w[j]);
    var a, b := w[i].machine.storage.state.lastCommit, w[j].machine.storage.state.lastCommit;
    assert Certified(cfg, w, b);
    hide Run, Certified, Extends, HeightConsecutive;
    CertifiedExtendsInit(cfg, w, b);
    if a != INIT_NODE && a.height <= b.height {
      var e := ExecutedLast(cfg, w, w[i]);
      ExecutedIsCertified(cfg, w, i, e);
      CertifiedAboveExtends(cfg, w, e, b);
    }
  }
}
