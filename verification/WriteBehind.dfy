/** Nothing that the storage takes in is lost on the way to the backend (hss/src/lib.rs).  The
    backend is the sequence of tasks it was given. */
module WriteBehind {
  import opened HsData
  import opened StorageModel

  datatype FlushTask = FlushTask(queues: Queues, state: InMemoryState)

  datatype Durable = Durable(storage: Storage, backend: bool, tasks: seq<FlushTask>)

  function InitDurable(backend: bool): Durable {
    Durable(InitStorage(), backend, [])
  }

  datatype Op =
    | OpAppendNode(node: TreeNode)
    | OpAppendQc(qc: GenericQC)
    | OpUpdateLeaf(node: TreeNode)
    | OpUpdateQcHigh(node: TreeNode, qc: GenericQC)
    | OpUpdateLocked(node: TreeNode)
    | OpIncreaseView(view: ViewNumber)
    | OpUpdateVheight(height: ViewNumber)
    | OpCommit(node: TreeNode)
    | OpAppendTc(tc: TimeoutCertificate)
    | OpSetDirty
    | OpFlush

  /** All queues and a copy of the state go to the backend, if there is one. */
  function Flush(d: Durable): Durable {
    if !d.storage.dirty || !d.backend then d
    else d.(storage := d.storage.(queues := NO_QUEUES, dirty := false),
            tasks := d.tasks + [FlushTask(d.storage.queues, d.storage.state)])
  }

  function Write(s: Storage, op: Op): Storage
    requires !op.OpFlush?
  {
    match op
    case OpAppendNode(node) => AppendNewNode(s, node)
    case OpAppendQc(qc) => AppendNewQc(s, qc)
    case OpUpdateLeaf(node) => UpdateLeaf(s, node)
    case OpUpdateQcHigh(node, qc) => UpdateQcHigh(s, node, qc)
    case OpUpdateLocked(node) => UpdateLocked(s, node)
    case OpIncreaseView(view) => IncreaseView(s, view)
    case OpUpdateVheight(height) => UpdateVheight(s, height)
    case OpCommit(node) => Commit(s, node)
    case OpAppendTc(tc) => AppendTc(s, tc)
    case OpSetDirty => s.(dirty := true)
  }

  function Apply(d: Durable, op: Op): Durable {
    if op.OpFlush? then Flush(d) else d.(storage := Write(d.storage, op))
  }

  // ---------------------------------------------------------------- what was taken in

  function NodesIn(s: Storage, op: Op): seq<TreeNode> {
    match op
    case OpAppendNode(node) => [node]
    case OpUpdateLeaf(node) => [node]
    case OpUpdateQcHigh(node, _) => if Adopts(s, node) then [node] else []
    case _ => []
  }

  function QcsIn(s: Storage, op: Op): seq<GenericQC> {
    match op
    case OpAppendQc(qc) => [qc]
    case OpUpdateQcHigh(node, qc) => if Adopts(s, node) then [qc] else []
    case _ => []
  }

  function TcsIn(op: Op): seq<TimeoutCertificate> {
    if op.OpAppendTc? then [op.tc] else []
  }

  /** Everything a run takes in, in order; `tcs` are split by kind as the queues are. */
  datatype Intake = Intake(nodes: seq<TreeNode>, qcs: seq<GenericQC>, tcs: seq<TimeoutCertificate>)

  function RunOps(backend: bool, ops: seq<Op>): (d: Durable)
    ensures d.backend == backend
  {
    if ops == [] then InitDurable(backend) else Apply(RunOps(backend, ops[..|ops| - 1]), ops[|ops| - 1])
  }

  function TakenIn(backend: bool, ops: seq<Op>): Intake {
    if ops == [] then Intake([], [], []) else
    var before := TakenIn(backend, ops[..|ops| - 1]);
    var s := RunOps(backend, ops[..|ops| - 1]).storage;
    var op := ops[|ops| - 1];
    Intake(before.nodes + NodesIn(s, op), before.qcs + QcsIn(s, op), before.tcs + TcsIn(op))
  }

  // ---------------------------------------------------------------- what was written out

  function Flushed(tasks: seq<FlushTask>): Queues {
    if tasks == [] then NO_QUEUES
    else Joined(Flushed(tasks[..|tasks| - 1]), tasks[|tasks| - 1].queues)
  }

  function Joined(a: Queues, b: Queues): Queues {
    Queues(a.props + b.props, a.justifies + b.justifies, a.partialTcs + b.partialTcs, a.combinedTcs + b.combinedTcs)
  }

  /** Flushed data followed by what is still queued. */
  function Kept(d: Durable): Queues {
    Joined(Flushed(d.tasks), d.storage.queues)
  }

  function Partials(tcs: seq<TimeoutCertificate>): seq<TimeoutCertificate> {
    if tcs == [] then [] else
    var last := tcs[|tcs| - 1];
    Partials(tcs[..|tcs| - 1]) + if last.Partial? then [last] else []
  }

  function Combineds(tcs: seq<TimeoutCertificate>): seq<TimeoutCertificate> {
    if tcs == [] then [] else
    var last := tcs[|tcs| - 1];
    Combineds(tcs[..|tcs| - 1]) + if last.Combined? then [last] else []
  }

  /** Exactly what was taken in, in order. */
  ghost predicate KeepsAll(d: Durable, intake: Intake) {
    && Kept(d).props == intake.nodes
    && Kept(d).justifies == intake.qcs
    && Kept(d).partialTcs == Partials(intake.tcs)
    && Kept(d).combinedTcs == Combineds(intake.tcs)
  }

  /** What the in-memory state is made of was taken in. */
  ghost predicate Backed(d: Durable, intake: Intake) {
    && (forall h :: h in d.storage.nodes ==> d.storage.nodes[h] == INIT_NODE || d.storage.nodes[h] in intake.nodes)
    && (d.storage.state.qcHigh == INIT_QC || d.storage.state.qcHigh in intake.qcs)
  }

  /** A clean storage has nothing queued and the backend has its state. */
  ghost predicate CleanMeansFlushed(d: Durable) {
    !d.storage.dirty ==>
      && d.storage.queues == NO_QUEUES
      && d.storage.state == (if d.tasks == [] then InitStorage().state else d.tasks[|d.tasks| - 1].state)
  }

  lemma FlushKeeps(d: Durable)
    ensures Kept(Flush(d)) == Kept(d)
  {
    var d' := Flush(d);
    if d' != d {
      assert d'.tasks[..|d'.tasks| - 1] == d.tasks;
    }
  }

  lemma LastTc(tcs: seq<TimeoutCertificate>, tc: TimeoutCertificate)
    ensures Partials(tcs + [tc]) == Partials(tcs) + if tc.Partial? then [tc] else []
    ensures Combineds(tcs + [tc]) == Combineds(tcs) + if tc.Combined? then [tc] else []
  {
    assert (tcs + [tc])[..|tcs|] == tcs;
  }

  function Taken(d: Durable, intake: Intake, op: Op): Intake {
    Intake(intake.nodes + NodesIn(d.storage, op), intake.qcs + QcsIn(d.storage, op), intake.tcs + TcsIn(op))
  }

  /** What an operation puts into the queues. */
  function Pushed(s: Storage, op: Op): Queues {
    Queues(NodesIn(s, op), QcsIn(s, op), Partials(TcsIn(op)), Combineds(TcsIn(op)))
  }

  lemma WritePushes(s: Storage, op: Op)
    requires !op.OpFlush?
    ensures Write(s, op).queues == Joined(s.queues, Pushed(s, op))
  {
    hide UpdateQcHigh, Adopts, Partials, Combineds;
    NothingJoined(s.queues);
    if op.OpAppendTc? {
      PushedTc(op.tc);
    } else {
      PushedNoTc();
      if op.OpUpdateQcHigh? {
        CertificatePushes(s, op.node, op.qc);
      }
    }
  }

  lemma NothingJoined(q: Queues)
    ensures q.props + [] == q.props && q.justifies + [] == q.justifies
    ensures q.partialTcs + [] == q.partialTcs && q.combinedTcs + [] == q.combinedTcs
  {
  }

  lemma PushedTc(tc: TimeoutCertificate)
    ensures Partials([tc]) == (if tc.Partial? then [tc] else []) && Combineds([tc]) == if tc.Combined? then [tc] else []
  {
    LastTc([], tc);
    assert [] + [tc] == [tc];
  }

  lemma PushedNoTc()
    ensures Partials([]) == [] && Combineds([]) == []
  {
  }

  lemma CertificatePushes(s: Storage, node: TreeNode, qc: GenericQC)
    ensures UpdateQcHigh(s, node, qc).queues
            == if Adopts(s, node) then s.queues.(props := s.queues.props + [node], justifies := s.queues.justifies + [qc])
               else s.queues
  {
  }

  lemma TcsSplit(tcs: seq<TimeoutCertificate>, op: Op)
    ensures Partials(tcs + TcsIn(op)) == Partials(tcs) + Partials(TcsIn(op))
    ensures Combineds(tcs + TcsIn(op)) == Combineds(tcs) + Combineds(TcsIn(op))
  {
    if op.OpAppendTc? {
      LastTc(tcs, op.tc);
      PushedTc(op.tc);
    } else {
      assert tcs + TcsIn(op) == tcs;
    }
  }

  lemma JoinedIsAssociative(a: Queues, b: Queues, c: Queues)
    ensures Joined(Joined(a, b), c) == Joined(a, Joined(b, c))
  {
    assert a.props + b.props + c.props == a.props + (b.props + c.props);
    assert a.justifies + b.justifies + c.justifies == a.justifies + (b.justifies + c.justifies);
    assert a.partialTcs + b.partialTcs + c.partialTcs == a.partialTcs + (b.partialTcs + c.partialTcs);
    assert a.combinedTcs + b.combinedTcs + c.combinedTcs == a.combinedTcs + (b.combinedTcs + c.combinedTcs);
  }

  lemma ApplyKeepsAll(d: Durable, intake: Intake, op: Op)
    requires KeepsAll(d, intake)
    ensures KeepsAll(Apply(d, op), Taken(d, intake, op))
  {
    TcsSplit(intake.tcs, op);
    if op.OpFlush? {
      FlushKeeps(d);
    } else {
      WritePushes(d.storage, op);
      JoinedIsAssociative(Flushed(d.tasks), d.storage.queues, Pushed(d.storage, op));
      hide Write;
    }
  }

  lemma ApplyKeepsBacked(d: Durable, intake: Intake, op: Op)
    requires Backed(d, intake)
    ensures Backed(Apply(d, op), Taken(d, intake, op))
  {
  }

  lemma ApplyKeepsClean(d: Durable, op: Op)
    requires CleanMeansFlushed(d)
    ensures CleanMeansFlushed(Apply(d, op))
  {
  }

  /** Over every run of storage operations, with or without a backend. */
  lemma {:induction false} WriteBehindLosesNothing(backend: bool, ops: seq<Op>)
    ensures var d := RunOps(backend, ops); var intake := TakenIn(backend, ops);
            KeepsAll(d, intake) && Backed(d, intake) && CleanMeansFlushed(d)
    decreases |ops|
  {
    if ops != [] {
      var k := |ops| - 1;
      WriteBehindLosesNothing(backend, ops[..k]);
      var d, intake := RunOps(backend, ops[..k]), TakenIn(backend, ops[..k]);
      ApplyKeepsAll(d, intake, ops[k]);
      ApplyKeepsBacked(d, intake, ops[k]);
      ApplyKeepsClean(d, ops[k]);
    }
  }

  /** Right after a flush, a storage with a backend is clean and all it took in is flushed. */
  lemma FlushLeavesNothingQueued(ops: seq<Op>)
    ensures var d := Flush(RunOps(true, ops)); var intake := TakenIn(true, ops);
            && !d.storage.dirty && d.storage.queues == NO_QUEUES
            && Flushed(d.tasks).props == intake.nodes && Flushed(d.tasks).justifies == intake.qcs
  {
    WriteBehindLosesNothing(true, ops);
    FlushKeeps(RunOps(true, ops));
  }
}
