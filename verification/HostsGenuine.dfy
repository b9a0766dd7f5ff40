/** What the pacemaker's handlers send and queue is genuine if what they are called with is. */
module HostsGenuine {
  import opened HsData
  import opened StorageModel
  import opened Voting
  import opened MachineClass
  import opened PacemakerSteps
  import opened Protocol
  import opened Genuine
  import opened HostEvents
  import SM = SafetyMachine
  import P = Pacing

  ghost predicate GenuineReady(cfg: Config, w: World, ready: Ready) {
    match ready
    case NewProposal(prop) => GenuineQc(cfg, w, prop.justify)
    case UpdateQCHigh(node) => GenuineNode(cfg, w, node)
    case Signature(_, prop, kit) => GenuineQc(cfg, w, prop.justify) && GenuineKit(cfg, w, kit)
    case _ => true
  }

  ghost predicate GenuineMessage(cfg: Config, w: World, message: PeerEvent) {
    match message
    case SendNewProposal(prop) => GenuineQc(cfg, w, prop.justify)
    case SendAcceptProposal(_, prop, kit) => GenuineQc(cfg, w, prop.justify) && GenuineKit(cfg, w, kit)
    case SendNewView(_, _, qc) => GenuineQc(cfg, w, qc)
    case SendBranchSyncResponse(_, branch) => GenuineBranch(cfg, w, branch)
    case _ => true
  }

  ghost predicate GenuineBranch(cfg: Config, w: World, branch: seq<TreeNode>) {
    forall node :: node in branch ==> GenuineQc(cfg, w, node.justify)
  }

  ghost predicate GenuineIo(cfg: Config, w: World, io: Surroundings) {
    && GenuineMachine(cfg, w, io.machine)
    && (forall ready :: ready in io.ready ==> GenuineReady(cfg, w, ready))
    && (forall message :: message in io.outbox ==> GenuineMessage(cfg, w, message))
  }

  ghost predicate GenuinePending(cfg: Config, w: World, pm: P.Pacemaker) {
    forall item :: item in pm.pending ==> GenuineQc(cfg, w, item.prop.justify)
  }

  ghost predicate GenuineCall(cfg: Config, w: World, call: Call) {
    match call
    case PeerProposal(_, prop) => GenuineQc(cfg, w, prop.justify)
    case PeerVote(_, prop, kit) => kit.Some? ==> GenuineQc(cfg, w, prop.justify) && GenuineKit(cfg, w, kit.value)
    case PeerSyncResponse(branch) => branch.Some? ==> GenuineBranch(cfg, w, branch.value)
    case PeerNewView(_, _, qc) => GenuineQc(cfg, w, qc)
    case Output(ready) => GenuineReady(cfg, w, ready)
    case _ => true
  }

  /** What is signed in the steps is on record. */
  ghost predicate OnRecord(cfg: Config, w: World, i: ReplicaId, m: SM.MachineState, events: seq<SM.Event>)
    decreases |events|
  {
    events == []
    || (&& (SignedBy(m.storage, events[0]).Some? ==> Backs(cfg, w, i, SignedBy(m.storage, events[0]).value))
        && OnRecord(cfg, w, i, SM.Step(m, cfg.n, i, events[0]), events[1..]))
  }

  // ---------------------------------------------------------------- outputs and messages

  lemma QueuedIsGenuine(cfg: Config, w: World, ready: seq<Ready>, outcome: Outcome)
    requires forall r :: r in ready ==> GenuineReady(cfg, w, r)
    requires outcome.Fine? ==> GenuineReady(cfg, w, outcome.ready)
    ensures forall r :: r in Queued(ready, outcome) ==> GenuineReady(cfg, w, r)
  {
    hide GenuineReady;
  }

  lemma SentIsGenuine(cfg: Config, w: World, io: Surroundings, message: PeerEvent)
    requires GenuineIo(cfg, w, io) && GenuineMessage(cfg, w, message)
    ensures GenuineIo(cfg, w, io.(outbox := io.outbox + [message]))
  {
    hide GenuineMessage, GenuineReady, GenuineMachine;
  }

  lemma HandedIsGenuine(cfg: Config, w: World, host: Host, io: Surroundings, from: ReplicaId, prop: TreeNode)
    requires GenuineIo(cfg, w, io) && GenuineQc(cfg, w, prop.justify)
    requires SM.Signs(io.machine.storage, prop) ==> Backs(cfg, w, host.id, prop)
    ensures GenuineIo(cfg, w, Emitted(host, io, RecvProposal(from, prop)))
  {
    hide GenuineStorage, GenuineVotes, GenuineQc, SM.OnRecvProposal, SM.Signs, SM.VerifyProposal, Queued, GenuineMessage;
    ProposalKeepsGenuine(cfg, w, io.machine.storage, prop);
    QueuedIsGenuine(cfg, w, io.ready, ProposalOutcome(io.machine.storage, host.id, from, prop));
  }

  lemma VoteIsGenuine(cfg: Config, w: World, host: Host, io: Surroundings, from: ReplicaId, prop: TreeNode, kit: SignKit)
    requires GenuineIo(cfg, w, io) && GenuineQc(cfg, w, prop.justify) && GenuineKit(cfg, w, kit) && host.total == cfg.n
    ensures GenuineIo(cfg, w, Emitted(host, io, RecvSign(from, prop, kit)))
  {
    hide GenuineMachine, GenuineQc, SM.OnRecvVote, Queued, Combine, GenuineMessage;
    VoteKeepsGenuine(cfg, w, io.machine, from, prop, kit);
    QueuedIsGenuine(cfg, w, io.ready, VoteOutcome(io.machine, host.total, from, prop, kit));
  }

  lemma NewViewIsGenuine(cfg: Config, w: World, host: Host, io: Surroundings, qc: GenericQC)
    requires GenuineIo(cfg, w, io) && GenuineQc(cfg, w, qc)
    ensures GenuineIo(cfg, w, Emitted(host, io, RecvNewViewMsg(qc)))
  {
    hide GenuineVotes, GenuineQc, SM.OnNewView, Queued, GenuineNode, GenuineMessage;
    NewViewKeepsGenuine(cfg, w, io.machine.storage, qc);
    QueuedIsGenuine(cfg, w, io.ready, Fine(UpdateQCHigh(SM.OnNewView(io.machine.storage, qc).state.leaf)));
  }

  lemma SyncIsGenuine(cfg: Config, w: World, host: Host, io: Surroundings, branch: seq<TreeNode>)
    requires GenuineIo(cfg, w, io) && GenuineBranch(cfg, w, branch)
    ensures GenuineIo(cfg, w, Emitted(host, io, BranchSync(branch)))
  {
    hide GenuineVotes, GenuineQc, SM.OnBranchSync, Queued, GenuineStorage, GenuineMessage;
    SyncKeepsGenuine(cfg, w, io.machine.storage, branch);
    QueuedIsGenuine(cfg, w, io.ready, Fine(BranchSyncDone(SM.OnBranchSync(io.machine.storage, branch).state.leaf)));
  }

  lemma StorageIsGenuine(cfg: Config, w: World, io: Surroundings, t: Storage)
    requires GenuineIo(cfg, w, io) && GenuineStorage(cfg, w, t)
    ensures GenuineIo(cfg, w, io.(machine := io.machine.(storage := t)))
  {
    hide GenuineStorage, GenuineVotes, GenuineReady, GenuineMessage;
  }

  lemma SameTreeIsGenuine(cfg: Config, w: World, io: Surroundings, t: Storage)
    requires GenuineIo(cfg, w, io) && t.nodes == io.machine.storage.nodes
    requires t.state.leaf == io.machine.storage.state.leaf && t.state.qcHigh == io.machine.storage.state.qcHigh
    ensures GenuineIo(cfg, w, io.(machine := io.machine.(storage := t)))
  {
    hide GenuineNode, GenuineQc, GenuineVotes, GenuineReady, GenuineMessage;
    assert GenuineStorage(cfg, w, t);
    hide GenuineStorage;
    StorageIsGenuine(cfg, w, io, t);
  }

  lemma LeavingIsGenuine(cfg: Config, w: World, host: Host, io: Surroundings, tc: TimeoutCertificate, view: ViewNumber)
    requires GenuineIo(cfg, w, io)
    ensures GenuineIo(cfg, w, Recorded(io, tc)) && GenuineIo(cfg, w, Entered(host, Reported(io, tc), view))
  {
    hide GenuineQc, GenuineNode, GenuineVotes, GenuineReady;
    SameTreeIsGenuine(cfg, w, io, AppendTc(io.machine.storage, tc));
    var recorded := Recorded(io, tc);
    SentIsGenuine(cfg, w, recorded, SendTimeout(tc));
    var reported := Reported(io, tc);
    SameTreeIsGenuine(cfg, w, reported, IncreaseView(reported.machine.storage, view));
    var raised := reported.(machine := reported.machine.(storage := IncreaseView(reported.machine.storage, view)));
    SentIsGenuine(cfg, w, raised, SendNewView(host.leaderOf(view), view, io.machine.storage.state.qcHigh));
  }

  // ---------------------------------------------------------------- handlers

  lemma CheckedIsGenuine(cfg: Config, w: World, host: Host, pm: P.Pacemaker, io: Surroundings, leafHeight: ViewNumber,
                         pm': P.Pacemaker, io': Surroundings)
    requires Checked(host, pm, io, leafHeight, pm', io') && GenuineIo(cfg, w, io) && GenuinePending(cfg, w, pm)
    requires OnRecord(cfg, w, host.id, io.machine, HandedIn(pm, pm'))
    ensures GenuineIo(cfg, w, io') && GenuinePending(cfg, w, pm')
  {
    hide Checked, GenuineIo, Emitted, GenuineQc, SM.Signs, SM.Step;
    var top := CheckedHands(host, pm, io, leafHeight, pm', io');
    if HandedIn(pm, pm') != [] {
      HandedIsGenuine(cfg, w, host, io, top.from, top.prop);
    } else if io' != io {
      var to :| io' == io.(outbox := io.outbox + [SendBranchSyncRequest(to, leafHeight)]);
      SentIsGenuine(cfg, w, io, SendBranchSyncRequest(to, leafHeight));
    }
  }

  lemma SyncEndedIsGenuine(cfg: Config, w: World, host: Host, pm: P.Pacemaker, io: Surroundings, leafHeight: ViewNumber,
                           pm': P.Pacemaker, io': Surroundings)
    requires SyncEnded(host, pm, io, leafHeight, pm', io') && GenuineIo(cfg, w, io) && GenuinePending(cfg, w, pm)
    requires OnRecord(cfg, w, host.id, io.machine, HandedIn(pm, pm'))
    ensures GenuineIo(cfg, w, io') && GenuinePending(cfg, w, pm')
  {
    hide Checked, GenuineIo, OnRecord;
    if pm.syncing {
      CheckedIsGenuine(cfg, w, host, P.BackToIdle(pm), io, leafHeight, pm', io');
    }
  }

  lemma TimedOutIsGenuine(cfg: Config, w: World, host: Host, pm: P.Pacemaker, io: Surroundings, timeoutView: ViewNumber,
                          pm': P.Pacemaker, io': Surroundings)
    requires TimedOut(host, pm, io, timeoutView, pm', io') && GenuineIo(cfg, w, io) && GenuinePending(cfg, w, pm) && host.total == cfg.n
    requires OnRecord(cfg, w, host.id, io.machine, TimeoutEvents(host, pm, io, timeoutView, pm'))
    ensures GenuineIo(cfg, w, io') && GenuinePending(cfg, w, pm')
  {
    hide SyncEnded, GenuineIo, OnRecord, Entered, Reported;
    if timeoutView >= pm.view {
      var tc := TimeoutOf(host, pm, io);
      LeavingIsGenuine(cfg, w, host, io, tc, timeoutView + 1);
      RecordAfterLeaving(cfg, w, host, io, tc, timeoutView + 1, HandedIn(pm, pm'));
      SyncEndedIsGenuine(cfg, w, host, P.GotoNewView(pm, timeoutView + 1), Entered(host, Reported(io, tc), timeoutView + 1),
                         io.machine.storage.state.leaf.height, pm', io');
    }
  }

  lemma RecordAfterLeaving(cfg: Config, w: World, host: Host, io: Surroundings, tc: TimeoutCertificate, view: ViewNumber,
                           events: seq<SM.Event>)
    requires host.total == cfg.n
    requires OnRecord(cfg, w, host.id, io.machine, [SM.RecordTimeout(tc), SM.RaiseView(view)] + events)
    ensures OnRecord(cfg, w, host.id, Entered(host, Reported(io, tc), view).machine, events)
  {
    var all := [SM.RecordTimeout(tc), SM.RaiseView(view)] + events;
    assert all[1..][1..] == events && all[1..][0] == SM.RaiseView(view);
  }

  lemma OutputIsGenuine(cfg: Config, w: World, host: Host, pm: P.Pacemaker, io: Surroundings, ready: Ready,
                        pm': P.Pacemaker, io': Surroundings)
    requires Processed(host, pm, io, ready, pm', io') && GenuineIo(cfg, w, io) && GenuinePending(cfg, w, pm) && host.total == cfg.n
    requires GenuineReady(cfg, w, ready) && OnRecord(cfg, w, host.id, io.machine, OutputEvents(host, pm, io, ready, pm'))
    ensures GenuineIo(cfg, w, io') && GenuinePending(cfg, w, pm')
  {
    hide TimedOut, SyncEnded, GenuineIo, OnRecord, GenuinePending, SM.OnUpdateQcHighReady, GenuineNode, GenuineQc, TimeoutEvents;
    match ready
    case NewProposal(prop) => SentIsGenuine(cfg, w, io, SendNewProposal(prop));
    case UpdateQCHigh(node) => HandedBackIsGenuine(cfg, w, io, node);
    case Signature(to, prop, kit) =>
      SentIsGenuine(cfg, w, io, SendAcceptProposal(to, prop, kit));
      if to != host.id {
        var sent := io.(outbox := io.outbox + [SendAcceptProposal(to, prop, kit)]);
        SameTimeoutEvents(host, pm, io, sent, prop.height, pm');
        TimedOutIsGenuine(cfg, w, host, pm, sent, prop.height, pm', io');
      }
    case BranchSyncDone(leaf) => SyncEndedIsGenuine(cfg, w, host, pm, io, leaf.height, pm', io');
    case ProposalReachConsensus(view) => TimedOutIsGenuine(cfg, w, host, pm, io, view, pm', io');
    case _ =>
  }

  lemma HandedBackIsGenuine(cfg: Config, w: World, io: Surroundings, node: TreeNode)
    requires GenuineIo(cfg, w, io) && GenuineNode(cfg, w, node)
    ensures GenuineIo(cfg, w, io.(machine := io.machine.(storage := SM.OnUpdateQcHighReady(io.machine.storage, node))))
  {
    hide GenuineNode, SM.OnUpdateQcHighReady, GenuineStorage;
    HandingBackKeepsGenuine(cfg, w, io.machine.storage, node);
    StorageIsGenuine(cfg, w, io, SM.OnUpdateQcHighReady(io.machine.storage, node));
  }

  lemma AnswerIsGenuine(cfg: Config, w: World, io: Surroundings, from: ReplicaId, growFrom: ViewNumber, branch: seq<TreeNode>)
    requires GenuineIo(cfg, w, io) && IsBranch(io.machine.storage.nodes, growFrom, branch)
    ensures GenuineIo(cfg, w, io.(outbox := io.outbox + [SendBranchSyncResponse(from, branch)]))
  {
    hide GenuineQc, GenuineVotes, GenuineReady;
    forall node | node in branch ensures GenuineQc(cfg, w, node.justify) {
      assert GenuineNode(cfg, w, io.machine.storage.nodes[Hash(node)]);
    }
    SentIsGenuine(cfg, w, io, SendBranchSyncResponse(from, branch));
  }

  lemma BeatIsGenuine(cfg: Config, w: World, host: Host, io: Surroundings, payload: seq<Byte>)
    requires GenuineIo(cfg, w, io) && OnRecord(cfg, w, host.id, io.machine, [SM.NewTx(payload)])
    ensures GenuineIo(cfg, w, io.(machine := SM.OnBeat(io.machine, host.id, payload)))
  {
    hide GenuineReady, GenuineMessage, SM.OnBeat, GenuineMachine;
    BeatKeepsGenuine(cfg, w, io.machine, host.id, payload);
  }

  lemma HandlersAreGenuine(cfg: Config, w: World, host: Host, pm: P.Pacemaker, io: Surroundings, call: Call,
                           pm': P.Pacemaker, io': Surroundings)
    requires Handles(host, pm, io, call, pm', io') && GenuineIo(cfg, w, io) && GenuinePending(cfg, w, pm)
    requires GenuineCall(cfg, w, call) && host.total == cfg.n
    requires OnRecord(cfg, w, host.id, io.machine, EventsOf(host, pm, io, call, pm'))
    ensures GenuineIo(cfg, w, io') && GenuinePending(cfg, w, pm')
  {
    hide TimedOut, Checked, Processed, GenuineIo, OnRecord, GenuineQc, Emitted, TimeoutEvents, OutputEvents, GenuineKit, GenuineReady,
         SM.OnBeat, HandedIn, GenuineBranch;
    match call
    case LocalTimeout(timeoutView) => TimedOutIsGenuine(cfg, w, host, pm, io, timeoutView, pm', io');
    case PeerProposal(from, prop) => ReceiptIsGenuine(cfg, w, host, pm, io, from, prop, pm', io');
    case PeerVote(from, prop, kit) =>
      if kit.Some? {
        VoteIsGenuine(cfg, w, host, io, from, prop, kit.value);
      }
    case PeerTimeout(tc) => PeerTimeoutIsGenuine(cfg, w, host, pm, io, tc, pm', io');
    case PeerSyncRequest(from, growFrom) =>
      var branch :| IsBranch(io.machine.storage.nodes, growFrom, branch)
                    && io' == io.(outbox := io.outbox + [SendBranchSyncResponse(from, branch)]);
      AnswerIsGenuine(cfg, w, io, from, growFrom, branch);
    case PeerSyncResponse(branch) =>
      if branch.Some? {
        SyncIsGenuine(cfg, w, host, io, branch.value);
      }
    case PeerNewView(from, view, qc) => NewViewIsGenuine(cfg, w, host, io, qc);
    case Output(ready) => OutputIsGenuine(cfg, w, host, pm, io, ready, pm', io');
    case Propose(payload) =>
      if P.GateOpen(pm, host.total) {
        BeatIsGenuine(cfg, w, host, io, payload);
      }
  }

  lemma ReceiptIsGenuine(cfg: Config, w: World, host: Host, pm: P.Pacemaker, io: Surroundings, from: ReplicaId, prop: TreeNode,
                         pm': P.Pacemaker, io': Surroundings)
    requires Handles(host, pm, io, PeerProposal(from, prop), pm', io') && GenuineIo(cfg, w, io) && GenuinePending(cfg, w, pm)
    requires GenuineQc(cfg, w, prop.justify) && OnRecord(cfg, w, host.id, io.machine, HandedIn(pm, pm'))
    ensures GenuineIo(cfg, w, io') && GenuinePending(cfg, w, pm')
  {
    hide Checked, GenuineIo, OnRecord, GenuineQc;
    var more := P.RecvNewProposal(pm, P.Incoming(from, prop));
    CheckedIsGenuine(cfg, w, host, more, io, io.machine.storage.state.leaf.height, pm', io');
  }

  lemma PeerTimeoutIsGenuine(cfg: Config, w: World, host: Host, pm: P.Pacemaker, io: Surroundings, tc: TimeoutCertificate,
                             pm': P.Pacemaker, io': Surroundings)
    requires Handles(host, pm, io, PeerTimeout(tc), pm', io') && GenuineIo(cfg, w, io) && GenuinePending(cfg, w, pm) && host.total == cfg.n
    requires OnRecord(cfg, w, host.id, io.machine, EventsOf(host, pm, io, PeerTimeout(tc), pm'))
    ensures GenuineIo(cfg, w, io') && GenuinePending(cfg, w, pm')
  {
    hide TimedOut, GenuineIo, TimeoutEvents, GenuinePending;
    var view := GrantedView(io.machine.storage);
    LeavingIsGenuine(cfg, w, host, io, tc, 0);
    if view > pm.view {
      var more := TimeoutEvents(host, pm, Recorded(io, tc), view, pm');
      assert ([SM.RecordTimeout(tc)] + more)[1..] == more;
      TimedOutIsGenuine(cfg, w, host, pm, Recorded(io, tc), view, pm', io');
    }
  }
}
