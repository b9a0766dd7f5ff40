/** n replicas that run the safety machine, at most (n-1)/3 of them faulty.  Faulty replicas
    have no state: they back whatever is convenient and put arbitrary messages on the
    network, limited only by unforgeability of signatures. */
module Protocol {
  import opened HsData
  import opened StorageModel
  import opened Voting
  import opened SafetyMachine
  import opened Quorums

  datatype Config = Config(n: nat, faulty: set<ReplicaId>) {
    ghost predicate Valid() {
      n >= 1 && faulty <= Ids(n) && |faulty| <= MaxFaulty(n)
    }
  }

  /** A node that a replica executed, with the two nodes above it that made it do so. */
  datatype Execution = Execution(top: TreeNode, mid: TreeNode, bottom: TreeNode)

  /** `signed` has every node the replica signed, with the lock it held at that time;
      `executed` every node it committed. */
  datatype Replica = Replica(machine: MachineState, signed: map<TreeNode, TreeNode>, executed: set<Execution>)

  type World = seq<Replica>

  /** The worlds that a run goes through. */
  type Worlds = ws: seq<World> | |ws| > 0 witness [[]]

  function Last(worlds: Worlds): World {
    worlds[|worlds| - 1]
  }

  ghost function InitWorld(cfg: Config): World {
    seq(cfg.n, i => Replica(InitMachine(), map[], {}))
  }

  // ---------------------------------------------------------------- certificates

  ghost predicate Backs(cfg: Config, w: World, i: ReplicaId, node: TreeNode) {
    i < cfg.n && i < |w| && (i in cfg.faulty || node in w[i].signed)
  }

  ghost function Backers(cfg: Config, w: World, node: TreeNode): set<ReplicaId> {
    set i | i in Ids(cfg.n) && Backs(cfg, w, i, node)
  }

  /** More than the threshold of replicas can have signed the node.  The initial node needs
      no signatures. */
  ghost predicate Certified(cfg: Config, w: World, node: TreeNode) {
    node == INIT_NODE || |Backers(cfg, w, node)| > QuorumThreshold(cfg.n)
  }

  // ---------------------------------------------------------------- steps

  /** The node that an event makes the replica sign. */
  function SignedBy(s: Storage, event: Event): Option<TreeNode> {
    match event
    case RecvProposal(prop) => if Signs(s, prop) then Some(prop) else None
    case NewTx(payload) => Some(MakeLeaf(s, payload))
    case _ => None
  }

  /** The node that handling a proposal commits. */
  ghost function ExecutedBy(s: Storage, prop: TreeNode): set<Execution> {
    if !VerifyProposal(s, prop.justify) then {} else
    var t := if Accepts(s, prop) then Accept(s, prop) else s;
    var chain := ThreeChain(t.nodes, prop);
    if ConsecutiveThreeChain(chain) && chain[2].height > s.state.committedHeight then
      {Execution(chain[0], chain[1], chain[2])}
    else {}
  }

  ghost function ReplicaStep(cfg: Config, i: ReplicaId, r: Replica, event: Event): Replica {
    var s := r.machine.storage;
    Replica(Step(r.machine, cfg.n, i, event),
            if SignedBy(s, event).Some? then r.signed[SignedBy(s, event).value := s.state.locked] else r.signed,
            if event.RecvProposal? || event.Sync? then r.executed + ExecutedBy(s, event.prop) else r.executed)
  }

  ghost function WorldStep(cfg: Config, w: World, i: ReplicaId, event: Event): World
    requires i < |w|
  {
    w[i := ReplicaStep(cfg, i, w[i], event)]
  }

  // ---------------------------------------------------------------- which runs are considered

  /** A combined signature exists only where more than the threshold of replicas signed, and
      the signature of the initial certificate comes with the initial node. */
  ghost predicate GenuineQc(cfg: Config, w: World, qc: GenericQC) {
    && (qc.sign.Threshold? ==> Certified(cfg, w, qc.sign.signed))
    && (qc.sign.ZeroSign? ==> qc.node == Hash(INIT_NODE))
  }

  ghost predicate GenuineKit(cfg: Config, w: World, kit: SignKit) {
    kit.share.ShareOf? ==> Backs(cfg, w, kit.share.signer, kit.share.node)
  }

  /** A proposal is on the branch of its justify node and above it. */
  predicate WellFormed(prop: TreeNode) {
    Extends(Hash(prop), prop.justify.node) && prop.height > HeightOf(prop.justify.node)
  }

  /** Higher than anything the replica has stored, and so than anything it has voted for. */
  ghost predicate Above(nodes: NodeMap, height: ViewNumber) {
    forall h :: h in nodes ==> nodes[h].height < height
  }

  /** The node two justify links below a node. */
  function GrandNode(nodes: NodeMap, node: TreeNode): NodeHash {
    if node.justify.node in nodes then nodes[node.justify.node].justify.node else Zeroed
  }

  /** The lock is at least two justify links below every stored node. */
  ghost predicate CaughtUp(s: Storage) {
    forall h :: h in s.nodes ==> HeightOf(GrandNode(s.nodes, s.nodes[h])) <= s.state.locked.height
  }

  /** The voting rule for a lock on `lock`. */
  predicate SafeFor(prop: TreeNode, lock: NodeHash) {
    Extends(Hash(prop), lock) || HeightOf(prop.justify.node) > HeightOf(lock)
  }

  /** The proposal is safe also for the nodes that the replica would be locked on if its lock did
      not lag: those two justify links below a signed node. */
  ghost predicate SafeForSigned(s: Storage, signed: set<TreeNode>, prop: TreeNode) {
    forall a :: a in signed ==>
      var lock := GrandNode(s.nodes, a);
      HeightOf(lock) <= s.state.locked.height || SafeFor(prop, lock)
  }

  /** What the network can deliver. */
  ghost predicate Deliverable(cfg: Config, w: World, event: Event) {
    match event
    case RecvProposal(prop) => GenuineQc(cfg, w, prop.justify)
    case Sync(prop) => GenuineQc(cfg, w, prop.justify)
    case RecvSign(_, _, kit) => GenuineKit(cfg, w, kit)
    case RecvNewView(qc) => GenuineQc(cfg, w, qc)
    case _ => true
  }

  /** Stored already, by a branch synchronisation for one, or higher than anything stored. */
  ghost predicate Fits(nodes: NodeMap, prop: TreeNode) {
    Has(nodes, prop) || Above(nodes, prop.height)
  }

  /** What is needed of messages and the handlers do not check: accepted proposals are well formed,
      new-view certificates that are adopted are valid, a leader proposes above its leaf, and a
      node that is handed back and adopted is the current leaf. */
  ghost predicate Orderly(s: Storage, event: Event) {
    match event
    case RecvProposal(prop) => Signs(s, prop) ==> WellFormed(prop)
    case Sync(prop) => Signs(s, prop) ==> WellFormed(prop)
    case NewTx(_) => s.state.view > s.state.leaf.height
    case RecvNewView(qc) => qc.node in s.nodes && Adopts(s, s.nodes[qc.node]) ==> VerifyProposal(s, qc)
    case UpdateQcHighReady(node) => Adopts(s, node) ==> node == s.state.leaf
    case _ => true
  }

  /** Nothing is stored below what is stored already. */
  ghost predicate Fitting(s: Storage, event: Event) {
    match event
    case RecvProposal(prop) => Signs(s, prop) ==> Fits(s.nodes, prop)
    case Sync(prop) => Signs(s, prop) ==> Fits(s.nodes, prop)
    case NewTx(_) => Above(s.nodes, s.state.view)
    case _ => true
  }

  /** A proposal that is received and signed is safe in spite of a lagging lock. */
  ghost predicate SafeVote(r: Replica, event: Event) {
    var s := r.machine.storage;
    event.RecvProposal? && Signs(s, event.prop) ==> SafeForSigned(s, r.signed.Keys, event.prop)
  }

  /** A signature is given again, or it is the first one for its height. */
  ghost predicate DistinctVote(r: Replica, event: Event) {
    var node := SignedBy(r.machine.storage, event);
    node.Some? && node.value !in r.signed ==>
      node.value.height > 0 && forall a :: a in r.signed ==> a.height != node.value.height
  }

  /** A signature is given again, or it is for a node above all that were signed before. */
  ghost predicate RisingVote(r: Replica, event: Event) {
    var node := SignedBy(r.machine.storage, event);
    node.Some? && node.value !in r.signed ==> Higher(r.signed.Keys, node.value)
  }

  ghost predicate Higher(signed: set<TreeNode>, node: TreeNode) {
    node.height > 0 && forall a :: a in signed ==> a.height < node.height
  }

  /** The pacemaker hands a proposal over once the leaf has reached the view of its certificate. */
  predicate InTime(s: Storage, event: Event) {
    event.RecvProposal? ==> event.prop.justify.view <= s.state.leaf.height
  }

  ghost predicate Correct(cfg: Config, i: ReplicaId) {
    i < cfg.n && i !in cfg.faulty
  }

  /** What is asked of the steps of a run. */
  datatype Law =
    | DistinctVotes    // at most one node of each height is signed; nothing is asked of messages
    | Delivered        // messages are genuine
    | OrderlyMessages  // and in order
    | FittingMessages  // and nothing is stored below what is stored already
    | SafeVotes        // and votes rise and are safe: the lawful runs, for which agreement holds
    | HandedInTime     // lawful, and proposals are handed over as the pacemaker does
    | AnyHeight        // the same, but for votes that do not rise
    | AnyVote          // the same, but for votes for other nodes than the leaf
    | AnyLock          // the same, but for locks that lag

  ghost predicate Allowed(law: Law, cfg: Config, w: World, i: ReplicaId, event: Event) {
    && Correct(cfg, i) && |w| == cfg.n
    && var r, s := w[i], w[i].machine.storage;
       match law
       case DistinctVotes => DistinctVote(r, event)
       case Delivered => Deliverable(cfg, w, event)
       case OrderlyMessages => InOrder(cfg, w, r, event)
       case FittingMessages => InOrder(cfg, w, r, event) && Fitting(s, event)
       case SafeVotes => InOrder(cfg, w, r, event) && RisingVote(r, event) && SafeVote(r, event)
       case HandedInTime => InOrder(cfg, w, r, event) && RisingVote(r, event) && SafeVote(r, event) && InTime(s, event)
       case AnyHeight => InOrder(cfg, w, r, event) && SafeVote(r, event) && InTime(s, event)
       case AnyVote => Deliverable(cfg, w, event) && Orderly(s, event) && UnanimousVote(cfg.n, r.machine, event)
                       && RisingVote(r, event) && SafeVote(r, event) && InTime(s, event)
       case AnyLock => InOrder(cfg, w, r, event) && RisingVote(r, event) && InTime(s, event)
  }

  ghost predicate InOrder(cfg: Config, w: World, r: Replica, event: Event) {
    && Deliverable(cfg, w, event) && Orderly(r.machine.storage, event)
    && LeafVote(cfg.n, r.machine, event) && UnanimousVote(cfg.n, r.machine, event)
  }

  ghost predicate NextWorld(law: Law, cfg: Config, w: World, w': World) {
    exists i: ReplicaId, event :: Allowed(law, cfg, w, i, event) && w' == WorldStep(cfg, w, i, event)
  }

  /** Worlds after a finite run in which every step is allowed. */
  ghost predicate Run(law: Law, cfg: Config, worlds: Worlds) {
    && worlds[0] == InitWorld(cfg)
    && forall k :: 0 < k < |worlds| ==> NextWorld(law, cfg, worlds[k - 1], worlds[k])
  }

  lemma RunStarts(law: Law, cfg: Config, worlds: Worlds)
    requires Run(law, cfg, worlds)
    ensures worlds[0] == InitWorld(cfg)
  {
  }

  /** The step that a world of a run comes from. */
  lemma StepOfRun(law: Law, cfg: Config, worlds: Worlds, k: nat) returns (i: ReplicaId, event: Event)
    requires Run(law, cfg, worlds) && 0 < k < |worlds|
    ensures |worlds[k - 1]| == cfg.n && Correct(cfg, i)
    ensures Allowed(law, cfg, worlds[k - 1], i, event) && worlds[k] == WorldStep(cfg, worlds[k - 1], i, event)
  {
    assert NextWorld(law, cfg, worlds[k - 1], worlds[k]);
    hide WorldStep;
    i, event :| Allowed(law, cfg, worlds[k - 1], i, event) && worlds[k] == WorldStep(cfg, worlds[k - 1], i, event);
  }

  lemma RunGoesOn(law: Law, cfg: Config, worlds: Worlds, i: ReplicaId, event: Event)
    requires Run(law, cfg, worlds) && Allowed(law, cfg, Last(worlds), i, event)
    ensures Run(law, cfg, worlds + [WorldStep(cfg, Last(worlds), i, event)])
  {
    var w := Last(worlds);
    assert i < |w|;
    hide Allowed, WorldStep;
    var longer := worlds + [WorldStep(cfg, w, i, event)];
    forall k | 0 < k < |longer| ensures NextWorld(law, cfg, longer[k - 1], longer[k]) {
      if k < |worlds| {
        assert NextWorld(law, cfg, worlds[k - 1], worlds[k]);
      } else {
        assert Allowed(law, cfg, longer[k - 1], i, event);
      }
    }
  }

  /** Only replica `i` moved, and what it signed and executed stays so. */
  ghost predicate OnlyMoves(w: World, w': World, i: ReplicaId) {
    && |w| == |w'| && i < |w|
    && (forall j :: 0 <= j < |w| && j != i ==> w'[j] == w[j])
    && w[i].signed.Keys <= w'[i].signed.Keys && w[i].executed <= w'[i].executed
  }

  lemma MovesKeepSize(w: World, w': World, i: ReplicaId)
    requires OnlyMoves(w, w', i)
    ensures |w| == |w'| > i
  {
  }

  lemma OnlyMovesOn(a: World, b: World, c: World, i: ReplicaId)
    requires OnlyMoves(a, b, i) && OnlyMoves(b, c, i)
    ensures OnlyMoves(a, c, i)
  {
  }

  lemma OneStep(law: Law, cfg: Config, worlds: Worlds, i: ReplicaId, event: Event) returns (longer: Worlds)
    requires Run(law, cfg, worlds) && Allowed(law, cfg, Last(worlds), i, event)
    ensures Run(law, cfg, longer) && longer == worlds + [WorldStep(cfg, Last(worlds), i, event)]
    ensures OnlyMoves(Last(worlds), Last(longer), i)
    ensures Last(longer)[i] == ReplicaStep(cfg, i, Last(worlds)[i], event)
  {
    longer := worlds + [WorldStep(cfg, Last(worlds), i, event)];
    RunGoesOn(law, cfg, worlds, i, event);
    hide Step, SignedBy, ExecutedBy, Run;
  }

  /** `law` asks for nothing that `other` does not ask for. */
  predicate Weaker(law: Law, other: Law) {
    || law == other
    || (other == HandedInTime && law != FittingMessages)
    || (law == Delivered && other != DistinctVotes)
    || (law == OrderlyMessages && other != DistinctVotes && other != Delivered && other != AnyVote)
    || (law == DistinctVotes && other == SafeVotes)
  }

  lemma WeakerAsksLess(law: Law, other: Law, cfg: Config, w: World, i: ReplicaId, event: Event)
    requires Weaker(law, other) && Allowed(other, cfg, w, i, event)
    ensures Allowed(law, cfg, w, i, event)
  {
    hide InTime, SafeVote, SignedBy, Deliverable, LeafVote, UnanimousVote, Orderly, Fitting;
  }

  lemma RunIsWeakerRun(law: Law, other: Law, cfg: Config, worlds: Worlds)
    requires Weaker(law, other) && Run(other, cfg, worlds)
    ensures Run(law, cfg, worlds)
  {
    forall k | 0 < k < |worlds| ensures NextWorld(law, cfg, worlds[k - 1], worlds[k]) {
      var i, event := StepOfRun(other, cfg, worlds, k);
      hide Allowed, WorldStep;
      WeakerAsksLess(law, other, cfg, worlds[k - 1], i, event);
    }
  }

  /** What the laws that ask for less leave out. */
  lemma WhatIsLeftOut(cfg: Config, w: World, i: ReplicaId, event: Event)
    ensures Allowed(HandedInTime, cfg, w, i, event)
            <==> Allowed(AnyLock, cfg, w, i, event) && SafeVote(w[i], event)
    ensures Allowed(HandedInTime, cfg, w, i, event)
            <==> Allowed(AnyHeight, cfg, w, i, event) && RisingVote(w[i], event)
    ensures Allowed(HandedInTime, cfg, w, i, event)
            <==> Allowed(AnyVote, cfg, w, i, event) && LeafVote(cfg.n, w[i].machine, event)
  {
    hide InTime, SafeVote, RisingVote, Deliverable, LeafVote, UnanimousVote, Orderly;
  }
}
