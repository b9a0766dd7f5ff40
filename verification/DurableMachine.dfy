/** Every event of the safety machine is a sequence of storage operations, so what module
    WriteBehind says of those holds over every run of the machine, whenever it is flushed. */
module DurableMachine {
  import opened HsData
  import opened StorageModel
  import opened SafetyMachine
  import opened WriteBehind

  type Writing = op: Op | !op.OpFlush? witness OpSetDirty

  function Writes(s: Storage, ops: seq<Writing>): Storage
    decreases |ops|
  {
    if ops == [] then s else Writes(Write(s, ops[0]), ops[1..])
  }

  lemma {:induction false} WritesInTurn(s: Storage, a: seq<Writing>, b: seq<Writing>)
    ensures Writes(s, a + b) == Writes(Writes(s, a), b)
    decreases |a|
  {
    hide Write;
    if a == [] {
      assert a + b == b;
    } else {
      assert (a + b)[1..] == a[1..] + b;
      WritesInTurn(Write(s, a[0]), a[1..], b);
    }
  }

  lemma WritesOne(s: Storage, op: Writing)
    ensures Writes(s, [op]) == Write(s, op)
  {
    hide Write;
    assert [op][1..] == [];
  }

  // ---------------------------------------------------------------- events as operations

  function QcOps(prop: TreeNode, chain: seq<TreeNode>): seq<Writing> {
    if |chain| >= 1 then [OpUpdateQcHigh(chain[0], prop.justify)] else []
  }

  function LockOps(s: Storage, chain: seq<TreeNode>): seq<Writing> {
    if |chain| >= 2 && chain[1].height > s.state.locked.height then [OpUpdateLocked(chain[1])] else []
  }

  function CommitOps(chain: seq<TreeNode>): seq<Writing> {
    if ConsecutiveThreeChain(chain) then [OpCommit(chain[2])] else []
  }

  function ChainOps(s: Storage, prop: TreeNode, chain: seq<TreeNode>): seq<Writing> {
    QcOps(prop, chain) + LockOps(s, chain) + CommitOps(chain)
  }

  /** The storage between the three parts of update_nodes. */
  function WithQc(s: Storage, prop: TreeNode, chain: seq<TreeNode>): Storage {
    if |chain| >= 1 then UpdateQcHigh(s, chain[0], prop.justify) else s
  }

  lemma QcOpsWrite(s: Storage, prop: TreeNode, chain: seq<TreeNode>)
    ensures Writes(s, QcOps(prop, chain)) == WithQc(s, prop, chain)
    ensures LockOps(WithQc(s, prop, chain), chain) == LockOps(s, chain)
  {
    assert WithQc(s, prop, chain).state.locked == s.state.locked;
    hide UpdateQcHigh;
    WritesAtMostOne(s, QcOps(prop, chain), WithQc(s, prop, chain));
  }

  lemma LockOpsWrite(s: Storage, chain: seq<TreeNode>)
    ensures Writes(s, LockOps(s, chain)) == RaiseLock(s, chain)
  {
    WritesAtMostOne(s, LockOps(s, chain), RaiseLock(s, chain));
  }

  lemma CommitOpsWrite(s: Storage, chain: seq<TreeNode>)
    ensures Writes(s, CommitOps(chain)) == if ConsecutiveThreeChain(chain) then Commit(s, chain[2]) else s
  {
    hide Commit;
    WritesAtMostOne(s, CommitOps(chain), if ConsecutiveThreeChain(chain) then Commit(s, chain[2]) else s);
  }

  lemma UpdateNodesIsOps(s: Storage, prop: TreeNode)
    ensures UpdateNodes(s, prop) == Writes(s, ChainOps(s, prop, ThreeChain(s.nodes, prop)))
  {
    hide UpdateQcHigh, RaiseLock, Commit, ThreeChain, Writes, Write, QcOps, LockOps, CommitOps;
    var chain := ThreeChain(s.nodes, prop);
    var s1 := WithQc(s, prop, chain);
    QcOpsWrite(s, prop, chain);
    LockOpsWrite(s1, chain);
    CommitOpsWrite(RaiseLock(s1, chain), chain);
    WritesInTurn(s, QcOps(prop, chain), LockOps(s, chain));
    WritesInTurn(s, QcOps(prop, chain) + LockOps(s, chain), CommitOps(chain));
  }

  lemma WritesAtMostOne(s: Storage, ops: seq<Writing>, t: Storage)
    requires |ops| <= 1 && t == if |ops| == 1 then Write(s, ops[0]) else s
    ensures Writes(s, ops) == t
  {
    hide Write;
    if |ops| == 1 {
      assert ops == [ops[0]];
      WritesOne(s, ops[0]);
    }
  }

  function AcceptOps(s: Storage, prop: TreeNode): seq<Writing> {
    if Accepts(s, prop) then [OpAppendNode(prop), OpUpdateVheight(prop.height)] else []
  }

  function ProposalOps(s: Storage, prop: TreeNode): seq<Writing> {
    if !VerifyProposal(s, prop.justify) then [] else
    var t := if Accepts(s, prop) then Accept(s, prop) else s;
    AcceptOps(s, prop) + ChainOps(t, prop, ThreeChain(t.nodes, prop))
  }

  lemma ProposalIsOps(s: Storage, prop: TreeNode)
    ensures Writes(s, ProposalOps(s, prop)) == OnRecvProposal(s, prop)
    ensures VerifyProposal(s, prop.justify) ==> SyncProposal(s, prop) == OnRecvProposal(s, prop)
  {
    if VerifyProposal(s, prop.justify) {
      SyncIsReceipt(s, prop);
      var t := if Accepts(s, prop) then Accept(s, prop) else s;
      assert Writes(s, AcceptOps(s, prop)) == t by {
        AcceptIsOps(s, prop);
      }
      UpdateNodesIsOps(t, prop);
      hide Accepts, Accept, ChainOps, AcceptOps, UpdateNodes, Writes;
      WritesInTurn(s, AcceptOps(s, prop), ChainOps(t, prop, ThreeChain(t.nodes, prop)));
    }
  }

  lemma AcceptIsOps(s: Storage, prop: TreeNode)
    ensures Writes(s, AcceptOps(s, prop)) == if Accepts(s, prop) then Accept(s, prop) else s
  {
    if Accepts(s, prop) {
      hide Accepts, Writes;
      WritesInTurn(s, [OpAppendNode(prop)], [OpUpdateVheight(prop.height)]);
      WritesOne(s, OpAppendNode(prop));
      WritesOne(AppendNewNode(s, prop), OpUpdateVheight(prop.height));
      assert [OpAppendNode(prop)] + [OpUpdateVheight(prop.height)] == AcceptOps(s, prop);
    }
  }

  /** An event of the machine writes to the storage through the operations of module
      WriteBehind only. */
  lemma StepIsOps(m: MachineState, total: nat, self: ReplicaId, event: Event) returns (ops: seq<Writing>)
    ensures Writes(m.storage, ops) == Step(m, total, self, event).storage
  {
    var s := m.storage;
    hide OnRecvProposal, SyncProposal, VerifyProposal, UpdateQcHigh, OnRecvVote, Writes;
    match event
    case RecvProposal(prop) =>
      ops := ProposalOps(s, prop);
      ProposalIsOps(s, prop);
    case Sync(prop) =>
      ops := if VerifyProposal(s, prop.justify) then ProposalOps(s, prop) else [];
      ProposalIsOps(s, prop);
      WritesAtMostOne(s, [], s);
    case RecvSign(from, prop, kit) =>
      var sign := VoteMovesStorage(m, total, from, prop, kit);
      ops := if Step(m, total, self, event).storage == s then [] else [OpUpdateQcHigh(prop, LeafQc(s, sign))];
      WritesAtMostOne(s, ops, Step(m, total, self, event).storage);
    case NewTx(payload) =>
      ops := [OpUpdateLeaf(MakeLeaf(s, payload))];
      WritesOne(s, ops[0]);
    case RecvNewView(qc) =>
      ops := if qc.node in s.nodes then [OpUpdateQcHigh(s.nodes[qc.node], qc)] else [];
      WritesAtMostOne(s, ops, OnNewView(s, qc));
    case UpdateQcHighReady(node) =>
      ops := [OpUpdateQcHigh(node, node.justify), OpSetDirty];
      WritesInTurn(s, [ops[0]], [OpSetDirty]);
      WritesOne(s, ops[0]);
      WritesOne(UpdateQcHigh(s, node, node.justify), OpSetDirty);
      assert [ops[0]] + [OpSetDirty] == ops;
    case ViewChange(view) =>
      ops := if view > s.state.view then [OpIncreaseView(view)] else [];
      WritesAtMostOne(s, ops, OnViewChange(m, view).storage);
    case RaiseView(view) =>
      ops := [OpIncreaseView(view)];
      WritesOne(s, ops[0]);
    case RecordTimeout(tc) =>
      ops := [OpAppendTc(tc)];
      WritesOne(s, ops[0]);
  }

  // ---------------------------------------------------------------- runs with flushes

  datatype Action = Handle(event: Event) | FlushNow

  /** A machine with its backend. */
  datatype Flushing = Flushing(machine: MachineState, tasks: seq<FlushTask>)

  ghost function AsDurable(f: Flushing, backend: bool): Durable {
    Durable(f.machine.storage, backend, f.tasks)
  }

  ghost function Act(f: Flushing, backend: bool, total: nat, self: ReplicaId, action: Action): Flushing {
    match action
    case Handle(event) => f.(machine := Step(f.machine, total, self, event))
    case FlushNow =>
      var d := Flush(AsDurable(f, backend));
      Flushing(f.machine.(storage := d.storage), d.tasks)
  }

  ghost function RunActions(backend: bool, total: nat, self: ReplicaId, actions: seq<Action>): Flushing
    decreases |actions|
  {
    if actions == [] then Flushing(InitMachine(), [])
    else Act(RunActions(backend, total, self, actions[..|actions| - 1]), backend, total, self, actions[|actions| - 1])
  }

  lemma RunOneMore(backend: bool, ops: seq<Op>, op: Op)
    ensures RunOps(backend, ops + [op]) == Apply(RunOps(backend, ops), op)
  {
    assert (ops + [op])[..|ops|] == ops;
  }

  lemma {:induction false} RunWrites(backend: bool, ops: seq<Op>, more: seq<Writing>)
    ensures RunOps(backend, ops + more)
            == RunOps(backend, ops).(storage := Writes(RunOps(backend, ops).storage, more))
    decreases |more|
  {
    hide Write, RunOps;
    var d := RunOps(backend, ops);
    if more == [] {
      assert ops + more == ops;
    } else {
      var next := ops + [more[0]];
      RunOneMore(backend, ops, more[0]);
      assert RunOps(backend, next) == d.(storage := Write(d.storage, more[0]));
      RunWrites(backend, next, more[1..]);
      assert next + more[1..] == ops + more;
    }
  }

  /** A run of the machine with flushes is a run of storage operations. */
  lemma {:induction false} ActionsAreOps(backend: bool, total: nat, self: ReplicaId, actions: seq<Action>) returns (ops: seq<Op>)
    ensures RunOps(backend, ops) == AsDurable(RunActions(backend, total, self, actions), backend)
    decreases |actions|
  {
    if actions == [] {
      ops := [];
    } else {
      var k := |actions| - 1;
      var before := ActionsAreOps(backend, total, self, actions[..k]);
      var f := RunActions(backend, total, self, actions[..k]);
      hide Step, RunOps, Flush;
      match actions[k]
      case Handle(event) =>
        var more := StepIsOps(f.machine, total, self, event);
        RunWrites(backend, before, more);
        ops := before + more;
      case FlushNow =>
        RunOneMore(backend, before, OpFlush);
        ops := before + [OpFlush];
    }
  }

  /** Whatever the machine handles and whenever it is flushed: each stored node but the initial
      one and the certificate that is held have been flushed or are queued, and a storage that
      is not dirty has empty queues and its state flushed. */
  lemma MachineRunsLoseNothing(backend: bool, total: nat, self: ReplicaId, actions: seq<Action>)
    ensures var d := AsDurable(RunActions(backend, total, self, actions), backend);
            && (forall h :: h in d.storage.nodes ==> d.storage.nodes[h] == INIT_NODE || d.storage.nodes[h] in Kept(d).props)
            && (d.storage.state.qcHigh == INIT_QC || d.storage.state.qcHigh in Kept(d).justifies)
            && CleanMeansFlushed(d)
  {
    hide RunOps, CleanMeansFlushed, RunActions;
    var ops := ActionsAreOps(backend, total, self, actions);
    WriteBehindLosesNothing(backend, ops);
  }
}
