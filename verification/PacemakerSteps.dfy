/** What the pacemaker's handlers do (pacemaker/src/pacemaker.rs) to its own state, to the machine,
    to the queue of outputs and to the outbox, as relations, and what every run of them keeps.
    Timers, channels and the network are outside: handlers are called with what they deliver,
    and messages are appended to an outbox. */
module PacemakerSteps {
  import opened HsData
  import opened StorageModel
  import opened Voting
  import opened HotstuffStorageClass
  import opened MachineClass
  import SM = SafetyMachine
  import P = Pacing

  datatype PeerEvent =
    | SendNewProposal(prop: TreeNode)
    | SendAcceptProposal(to: ReplicaId, prop: TreeNode, kit: SignKit)
    | SendNewView(to: ReplicaId, view: ViewNumber, qcHigh: GenericQC)
    | SendTimeout(tc: TimeoutCertificate)
    | SendBranchSyncRequest(to: ReplicaId, growFrom: ViewNumber)
    | SendBranchSyncResponse(to: ReplicaId, branch: seq<TreeNode>)

  // ---------------------------------------------------------------- what a pacemaker acts on

  datatype Surroundings = Surroundings(
    machine: SM.MachineState,
    leader: Option<ReplicaId>,
    ready: seq<Ready>,
    outbox: seq<PeerEvent>)

  /** `leaderOf` is what the elector answers. */
  datatype Host = Host(id: ReplicaId, total: nat, leaderOf: ViewNumber -> ReplicaId)

  function Queued(ready: seq<Ready>, outcome: Outcome): seq<Ready> {
    if outcome.Fine? && !outcome.ready.Nil? then ready + [outcome.ready] else ready
  }

  /** An event goes to the machine and its output, if any, into the queue. */
  ghost function Emitted(host: Host, io: Surroundings, event: SafetyEvent): Surroundings {
    io.(machine := Handled(io.machine, host.total, host.id, event),
        leader := LeaderAfter(io.machine.storage, io.leader, event),
        ready := Queued(io.ready, OutcomeOf(io.machine, io.leader, host.total, host.id, event)))
  }

  ghost function HandedOrAsked(host: Host, pm: P.Pacemaker, io: Surroundings, leafHeight: ViewNumber, top: P.Incoming): Surroundings {
    if P.ViewOfKey(P.KeyOf(top)) <= leafHeight then Emitted(host, io, RecvProposal(top.from, top.prop))
    else if pm.syncing then io
    else io.(outbox := io.outbox + [SendBranchSyncRequest(host.leaderOf(pm.view), leafHeight)])
  }

  ghost predicate Checked(host: Host, pm: P.Pacemaker, io: Surroundings, leafHeight: ViewNumber,
                          pm': P.Pacemaker, io': Surroundings) {
    if pm.pending == multiset{} then pm' == pm && io' == io
    else exists top :: P.IsTop(pm.pending, top) && pm' == P.HandOrSync(pm, leafHeight, top)
                       && io' == HandedOrAsked(host, pm, io, leafHeight, top)
  }

  ghost predicate SyncEnded(host: Host, pm: P.Pacemaker, io: Surroundings, leafHeight: ViewNumber,
                            pm': P.Pacemaker, io': Surroundings) {
    if pm.syncing then Checked(host, P.BackToIdle(pm), io, leafHeight, pm', io') else pm' == pm && io' == io
  }

  /** The storage follows the view, and the leader of the view is told the highest certificate. */
  function Entered(host: Host, io: Surroundings, view: ViewNumber): Surroundings {
    io.(machine := io.machine.(storage := IncreaseView(io.machine.storage, view)),
        outbox := io.outbox + [SendNewView(host.leaderOf(view), view, io.machine.storage.state.qcHigh)])
  }

  /** A timeout with the highest certificate. */
  function TimeoutOf(host: Host, pm: P.Pacemaker, io: Surroundings): TimeoutCertificate {
    Partial(pm.view, host.id, io.machine.storage.state.qcHigh)
  }

  /** A timeout of the current view is stored and broadcast before the view is left. */
  function Reported(io: Surroundings, tc: TimeoutCertificate): Surroundings {
    io.(machine := io.machine.(storage := AppendTc(io.machine.storage, tc)), outbox := io.outbox + [SendTimeout(tc)])
  }

  ghost predicate TimedOut(host: Host, pm: P.Pacemaker, io: Surroundings, timeoutView: ViewNumber,
                           pm': P.Pacemaker, io': Surroundings) {
    if timeoutView >= pm.view then
      SyncEnded(host, P.GotoNewView(pm, timeoutView + 1), Entered(host, Reported(io, TimeoutOf(host, pm, io)), timeoutView + 1),
                io.machine.storage.state.leaf.height, pm', io')
    else pm' == pm && io' == io
  }

  /** What an output of the machine makes the pacemaker do. */
  ghost predicate Processed(host: Host, pm: P.Pacemaker, io: Surroundings, ready: Ready, pm': P.Pacemaker, io': Surroundings) {
    match ready
    case NewProposal(prop) => pm' == pm && io' == io.(outbox := io.outbox + [SendNewProposal(prop)])
    case UpdateQCHigh(node) =>
      pm' == pm && io' == io.(machine := io.machine.(storage := SM.OnUpdateQcHighReady(io.machine.storage, node)))
    case Signature(to, prop, kit) =>
      var sent := io.(outbox := io.outbox + [SendAcceptProposal(to, prop, kit)]);
      if to != host.id then TimedOut(host, pm, sent, prop.height, pm', io') else pm' == pm && io' == sent
    case BranchSyncDone(leaf) => SyncEnded(host, pm, io, leaf.height, pm', io')
    case ProposalReachConsensus(view) => TimedOut(host, pm, io, view, pm', io')
    case Nil => pm' == pm && io' == io
    case InternalState(_) => pm' == pm && io' == io
    case CommitState(_) => pm' == pm && io' == io
  }

  /** The view that a timeout of a peer is answered with. */
  function GrantedView(s: Storage): ViewNumber {
    if s.state.view == 0 then 0 else s.state.view - 1
  }

  /** The recorded timeout of a peer. */
  function Recorded(io: Surroundings, tc: TimeoutCertificate): Surroundings {
    io.(machine := io.machine.(storage := AppendTc(io.machine.storage, tc)))
  }

  /** All stored nodes above a height, lowest first and none twice. */
  ghost predicate IsBranch(nodes: NodeMap, growFrom: ViewNumber, branch: seq<TreeNode>) {
    && (forall node :: node in branch <==> Has(nodes, node) && node.height > growFrom)
    && ByHeight(branch)
  }

  /** What the pacemaker is called for: its timer, messages of peers, outputs of the machine and
      transactions. */
  datatype Call =
    | LocalTimeout(timeoutView: ViewNumber)
    | PeerProposal(from: ReplicaId, prop: TreeNode)
    | PeerVote(from: ReplicaId, prop: TreeNode, kit: Option<SignKit>)
    | PeerTimeout(tc: TimeoutCertificate)
    | PeerSyncRequest(from: ReplicaId, growFrom: ViewNumber)
    | PeerSyncResponse(branch: Option<seq<TreeNode>>)
    | PeerNewView(from: ReplicaId, view: ViewNumber, qc: GenericQC)
    | Output(ready: Ready)
    | Propose(payload: seq<Byte>)

  ghost predicate Handles(host: Host, pm: P.Pacemaker, io: Surroundings, call: Call, pm': P.Pacemaker, io': Surroundings) {
    match call
    case LocalTimeout(timeoutView) => TimedOut(host, pm, io, timeoutView, pm', io')
    case PeerProposal(from, prop) =>
      Checked(host, P.RecvNewProposal(pm, P.Incoming(from, prop)), io, io.machine.storage.state.leaf.height, pm', io')
    case PeerVote(from, prop, kit) =>
      pm' == pm && io' == if kit.Some? then Emitted(host, io, RecvSign(from, prop, kit.value)) else io
    case PeerTimeout(tc) =>
      var view := GrantedView(io.machine.storage);
      if view > pm.view then TimedOut(host, pm, Recorded(io, tc), view, pm', io') else pm' == pm && io' == Recorded(io, tc)
    case PeerSyncRequest(from, growFrom) =>
      pm' == pm && exists branch :: IsBranch(io.machine.storage.nodes, growFrom, branch)
                                    && io' == io.(outbox := io.outbox + [SendBranchSyncResponse(from, branch)])
    case PeerSyncResponse(branch) =>
      pm' == pm && io' == if branch.Some? then Emitted(host, io, BranchSync(branch.value)) else io
    case PeerNewView(from, view, qc) => pm' == P.RecvNewView(pm, from, view, qc) && io' == Emitted(host, io, RecvNewViewMsg(qc))
    case Output(ready) => Processed(host, pm, io, ready, pm', io')
    case Propose(payload) =>
      && pm' == P.MakeNewProposal(pm, host.total)
      && io' == if P.GateOpen(pm, host.total) then io.(machine := SM.OnBeat(io.machine, host.id, payload)) else io
  }

  // ---------------------------------------------------------------- runs

  datatype Moment = Moment(pm: P.Pacemaker, io: Surroundings)

  /** A fresh pacemaker on a fresh machine that has entered view 1. */
  function UpAndRunning(host: Host): Moment {
    Moment(P.GotoNewView(P.START, 1), Entered(host, Surroundings(SM.InitMachine(), None, [], []), 1))
  }

  ghost predicate IsRun(host: Host, run: seq<Moment>, calls: seq<Call>) {
    && |run| == |calls| + 1 && run[0] == UpAndRunning(host)
    && forall k :: 0 <= k < |calls| ==> Handles(host, run[k].pm, run[k].io, calls[k], run[k + 1].pm, run[k + 1].io)
  }

  // ---------------------------------------------------------------- steps of module Pacing

  lemma CheckedIsPacing(host: Host, pm: P.Pacemaker, io: Surroundings, leafHeight: ViewNumber, pm': P.Pacemaker, io': Surroundings)
    requires Checked(host, pm, io, leafHeight, pm', io')
    ensures P.CheckPendingProp(pm, leafHeight, pm')
  {
    hide P.HandOrSync, HandedOrAsked;
    if pm.pending != multiset{} {
      var top :| P.IsTop(pm.pending, top) && pm' == P.HandOrSync(pm, leafHeight, top)
                 && io' == HandedOrAsked(host, pm, io, leafHeight, top);
    }
  }

  lemma SyncEndedIsPacing(host: Host, pm: P.Pacemaker, io: Surroundings, leafHeight: ViewNumber, pm': P.Pacemaker, io': Surroundings)
    requires SyncEnded(host, pm, io, leafHeight, pm', io')
    ensures P.Next(host.total, pm, P.BranchSyncDone(leafHeight), pm')
  {
    hide Checked, P.CheckPendingProp;
    if pm.syncing {
      CheckedIsPacing(host, P.BackToIdle(pm), io, leafHeight, pm', io');
    }
  }

  lemma TimedOutIsPacing(host: Host, pm: P.Pacemaker, io: Surroundings, timeoutView: ViewNumber, pm': P.Pacemaker, io': Surroundings)
    requires TimedOut(host, pm, io, timeoutView, pm', io')
    ensures P.Next(host.total, pm, P.LocalTimeout(timeoutView, io.machine.storage.state.leaf.height), pm')
  {
    hide SyncEnded, P.EndSync;
    if timeoutView >= pm.view {
      SyncEndedIsPacing(host, P.GotoNewView(pm, timeoutView + 1), Entered(host, Reported(io, TimeoutOf(host, pm, io)), timeoutView + 1),
                        io.machine.storage.state.leaf.height, pm', io');
    }
  }

  // ---------------------------------------------------------------- pacemaker and storage agree on the view

  ghost predicate ViewsAgree(pm: P.Pacemaker, io: Surroundings) {
    io.machine.storage.state.view == pm.view
  }

  lemma {:induction false} SyncKeepsView(s: Storage, branch: seq<TreeNode>)
    ensures SM.OnBranchSync(s, branch).state.view == s.state.view
    decreases |branch|
  {
    if branch != [] && SM.VerifyProposal(s, branch[0].justify) {
      SM.ProposalKeepsView(s, branch[0]);
      SM.SyncIsReceipt(s, branch[0]);
      hide SM.OnRecvProposal, SM.SyncProposal, SM.VerifyProposal;
      SyncKeepsView(SM.SyncProposal(s, branch[0]), branch[1..]);
    }
  }

  lemma MachineKeepsView(host: Host, m: SM.MachineState, event: SafetyEvent)
    ensures Handled(m, host.total, host.id, event).storage.state.view == m.storage.state.view
  {
    hide SM.OnRecvProposal, SM.OnBranchSync, SM.OnRecvVote;
    match event
    case RecvProposal(_, prop) => SM.ProposalKeepsView(m.storage, prop);
    case RecvSign(from, prop, kit) =>
      var sign := SM.VoteMovesStorage(m, host.total, from, prop, kit);
    case BranchSync(branch) => SyncKeepsView(m.storage, branch);
    case _ =>
  }

  lemma CheckedKeepsViews(host: Host, pm: P.Pacemaker, io: Surroundings, leafHeight: ViewNumber, pm': P.Pacemaker, io': Surroundings)
    requires ViewsAgree(pm, io) && Checked(host, pm, io, leafHeight, pm', io')
    ensures ViewsAgree(pm', io')
  {
    if pm.pending != multiset{} {
      hide Handled, OutcomeOf, P.ViewOfKey, P.KeyOf;
      var top :| P.IsTop(pm.pending, top) && pm' == P.HandOrSync(pm, leafHeight, top)
                 && io' == HandedOrAsked(host, pm, io, leafHeight, top);
      MachineKeepsView(host, io.machine, RecvProposal(top.from, top.prop));
    }
  }

  lemma TimedOutKeepsViews(host: Host, pm: P.Pacemaker, io: Surroundings, timeoutView: ViewNumber, pm': P.Pacemaker, io': Surroundings)
    requires ViewsAgree(pm, io) && TimedOut(host, pm, io, timeoutView, pm', io')
    ensures ViewsAgree(pm', io')
  {
    hide Checked;
    if timeoutView >= pm.view && pm.syncing {
      var pm1 := P.GotoNewView(pm, timeoutView + 1);
      CheckedKeepsViews(host, P.BackToIdle(pm1), Entered(host, Reported(io, TimeoutOf(host, pm, io)), timeoutView + 1),
                        io.machine.storage.state.leaf.height, pm', io');
    }
  }

  lemma OutputsKeepViews(host: Host, pm: P.Pacemaker, io: Surroundings, ready: Ready, pm': P.Pacemaker, io': Surroundings)
    requires ViewsAgree(pm, io) && Processed(host, pm, io, ready, pm', io')
    ensures ViewsAgree(pm', io')
  {
    hide Checked, TimedOut;
    match ready
    case Signature(to, prop, kit) =>
      if to != host.id {
        TimedOutKeepsViews(host, pm, io.(outbox := io.outbox + [SendAcceptProposal(to, prop, kit)]), prop.height, pm', io');
      }
    case BranchSyncDone(leaf) =>
      if pm.syncing {
        CheckedKeepsViews(host, P.BackToIdle(pm), io, leaf.height, pm', io');
      }
    case ProposalReachConsensus(view) => TimedOutKeepsViews(host, pm, io, view, pm', io');
    case _ =>
  }

  lemma HandlersKeepViews(host: Host, pm: P.Pacemaker, io: Surroundings, call: Call, pm': P.Pacemaker, io': Surroundings)
    requires ViewsAgree(pm, io) && Handles(host, pm, io, call, pm', io')
    ensures ViewsAgree(pm', io')
  {
    hide Checked, TimedOut, Processed, Handled, OutcomeOf, LeaderAfter, Queued;
    match call
    case LocalTimeout(timeoutView) => TimedOutKeepsViews(host, pm, io, timeoutView, pm', io');
    case PeerProposal(from, prop) =>
      CheckedKeepsViews(host, P.RecvNewProposal(pm, P.Incoming(from, prop)), io, io.machine.storage.state.leaf.height, pm', io');
    case PeerVote(from, prop, kit) =>
      if kit.Some? {
        MachineKeepsView(host, io.machine, RecvSign(from, prop, kit.value));
      }
    case PeerTimeout(tc) =>
    case PeerSyncRequest(from, growFrom) =>
    case PeerSyncResponse(branch) =>
      if branch.Some? {
        MachineKeepsView(host, io.machine, BranchSync(branch.value));
      }
    case PeerNewView(from, view, qc) => MachineKeepsView(host, io.machine, RecvNewViewMsg(qc));
    case Output(ready) => OutputsKeepViews(host, pm, io, ready, pm', io');
    case Propose(payload) =>
  }

  /** Pacemaker and storage agree on the view at every moment of every run. */
  lemma {:induction false} RunKeepsViews(host: Host, run: seq<Moment>, calls: seq<Call>, k: nat)
    requires IsRun(host, run, calls) && k < |run|
    ensures ViewsAgree(run[k].pm, run[k].io)
  {
    if k > 0 {
      hide Handles, ViewsAgree;
      RunKeepsViews(host, run, calls, k - 1);
      HandlersKeepViews(host, run[k - 1].pm, run[k - 1].io, calls[k - 1], run[k].pm, run[k].io);
    }
  }

  /** So a timeout of a peer never moves a replica: whatever it says and whenever it comes, it is
      recorded and nothing else happens. */
  lemma PeerTimeoutsMoveNobody(host: Host, run: seq<Moment>, calls: seq<Call>, k: nat)
    requires IsRun(host, run, calls) && k < |calls| && calls[k].PeerTimeout?
    ensures run[k + 1] == Moment(run[k].pm, Recorded(run[k].io, calls[k].tc))
  {
    RunKeepsViews(host, run, calls, k);
    hide TimedOut;
    assert Handles(host, run[k].pm, run[k].io, calls[k], run[k + 1].pm, run[k + 1].io);
  }

  // ---------------------------------------------------------------- every run is one of module Pacing

  lemma OutputsArePacing(host: Host, pm: P.Pacemaker, io: Surroundings, ready: Ready, pm': P.Pacemaker, io': Surroundings)
    returns (event: P.Event)
    requires Processed(host, pm, io, ready, pm', io')
    ensures pm' == pm || P.Next(host.total, pm, event, pm')
    ensures !event.NewView?
  {
    hide SyncEnded, TimedOut, P.Next;
    event := P.Propose;
    match ready
    case Signature(to, prop, kit) =>
      if to != host.id {
        var sent := io.(outbox := io.outbox + [SendAcceptProposal(to, prop, kit)]);
        TimedOutIsPacing(host, pm, sent, prop.height, pm', io');
        event := P.LocalTimeout(prop.height, io.machine.storage.state.leaf.height);
      }
    case BranchSyncDone(leaf) =>
      SyncEndedIsPacing(host, pm, io, leaf.height, pm', io');
      event := P.BranchSyncDone(leaf.height);
    case ProposalReachConsensus(view) =>
      TimedOutIsPacing(host, pm, io, view, pm', io');
      event := P.LocalTimeout(view, io.machine.storage.state.leaf.height);
    case _ =>
  }

  /** Every handler is a step of module Pacing or leaves the pacemaker's own state alone. */
  lemma HandlersArePacing(host: Host, pm: P.Pacemaker, io: Surroundings, call: Call, pm': P.Pacemaker, io': Surroundings)
    returns (event: P.Event)
    requires Handles(host, pm, io, call, pm', io')
    ensures pm' == pm || P.Next(host.total, pm, event, pm')
    ensures event.NewView? ==> call == PeerNewView(event.from, event.view, event.qc)
    ensures call.Propose? ==> event == P.Propose && P.Next(host.total, pm, event, pm')
  {
    hide Checked, TimedOut, Processed, Emitted, P.MakeNewProposal;
    var leafHeight := io.machine.storage.state.leaf.height;
    event := P.Propose;
    match call
    case LocalTimeout(timeoutView) =>
      TimedOutIsPacing(host, pm, io, timeoutView, pm', io');
      event := P.LocalTimeout(timeoutView, leafHeight);
    case PeerProposal(from, prop) =>
      CheckedIsPacing(host, P.RecvNewProposal(pm, P.Incoming(from, prop)), io, leafHeight, pm', io');
      event := P.NewProposal(P.Incoming(from, prop), leafHeight);
    case PeerTimeout(tc) =>
      var view := GrantedView(io.machine.storage);
      if view > pm.view {
        TimedOutIsPacing(host, pm, Recorded(io, tc), view, pm', io');
        event := P.LocalTimeout(view, leafHeight);
      }
    case PeerNewView(from, view, qc) => event := P.NewView(from, view, qc);
    case Output(ready) => event := OutputsArePacing(host, pm, io, ready, pm', io');
    case Propose(payload) =>
    case PeerVote(_, _, _) =>
    case PeerSyncRequest(_, _) =>
    case PeerSyncResponse(_) =>
  }

  lemma StartIsPacing(host: Host)
    ensures P.IsRun(host.total, [UpAndRunning(host).pm], [])
  {
  }

  /** So whatever holds of every run of module Pacing holds of the object at every moment. */
  lemma {:induction false} RunIsPacing(host: Host, run: seq<Moment>, calls: seq<Call>, k: nat)
    returns (states: seq<P.Pacemaker>, events: seq<P.Event>)
    requires IsRun(host, run, calls) && k < |run|
    ensures P.IsRun(host.total, states, events) && states[|states| - 1] == run[k].pm
    ensures |events| <= k
    decreases k
  {
    hide Handles, P.Next, P.IsRun, UpAndRunning;
    if k == 0 {
      StartIsPacing(host);
      states, events := [run[0].pm], [];
    } else {
      states, events := RunIsPacing(host, run, calls, k - 1);
      assert Handles(host, run[k - 1].pm, run[k - 1].io, calls[k - 1], run[k].pm, run[k].io);
      var event := HandlersArePacing(host, run[k - 1].pm, run[k - 1].io, calls[k - 1], run[k].pm, run[k].io);
      if run[k].pm != run[k - 1].pm {
        P.RunGoesOn(host.total, states, events, event, run[k].pm);
        states, events := states + [run[k].pm], events + [event];
      }
    }
  }
}
