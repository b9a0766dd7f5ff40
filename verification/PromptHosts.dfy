/** When the pacemaker hands proposals to the machine: only where the leaf has reached the view of
    their certificates, by hosts that act on outputs before anything else, as the loop that makes
    proposals does (pacemaker/src/pacemaker.rs:612-661), and by hosts that never propose, as in the
    other loop (pacemaker/src/pacemaker.rs:168-202). */
module PromptHosts {
  import opened HsData
  import opened StorageModel
  import opened Voting
  import opened MachineClass
  import opened PacemakerSteps
  import opened Protocol
  import opened HostEvents
  import opened Network
  import SM = SafetyMachine
  import P = Pacing

  // ---------------------------------------------------------------- one call

  /** The height that a call measures proposals by: that of the leaf, or of the leaf that a
      synchronisation ended with. */
  function Measure(io: Surroundings, call: Call): ViewNumber {
    if call.Output? && call.ready.BranchSyncDone? then call.ready.leaf.height else io.machine.storage.state.leaf.height
  }

  /** Certificates have views of 64 bits. */
  ghost predicate Bounded(pm: P.Pacemaker) {
    forall item :: item in pm.pending ==> item.prop.justify.view < P.TWO_64
  }

  predicate BoundedCall(call: Call) {
    call.PeerProposal? ==> call.prop.justify.view < P.TWO_64
  }

  lemma CheckHandsInTime(host: Host, pm: P.Pacemaker, io: Surroundings, leafHeight: ViewNumber, pm': P.Pacemaker, io': Surroundings, prop: TreeNode)
    requires SyncEnded(host, pm, io, leafHeight, pm', io') || Checked(host, pm, io, leafHeight, pm', io')
    requires SM.RecvProposal(prop) in HandedIn(pm, pm') && Bounded(pm)
    ensures prop.justify.view <= leafHeight
  {
    hide Checked, Emitted, P.KeyOf, P.ViewOfKey;
    var was := if Checked(host, pm, io, leafHeight, pm', io') then pm else P.BackToIdle(pm);
    var top := CheckedHands(host, was, io, leafHeight, pm', io');
    P.ViewOfItem(top);
  }

  lemma TimeoutHandsInTime(host: Host, pm: P.Pacemaker, io: Surroundings, timeoutView: ViewNumber, pm': P.Pacemaker, io': Surroundings, prop: TreeNode)
    requires TimedOut(host, pm, io, timeoutView, pm', io')
    requires SM.RecvProposal(prop) in TimeoutEvents(host, pm, io, timeoutView, pm') && Bounded(pm)
    ensures prop.justify.view <= io.machine.storage.state.leaf.height
  {
    hide SyncEnded, Entered, Reported;
    CheckHandsInTime(host, P.GotoNewView(pm, timeoutView + 1), Entered(host, Reported(io, TimeoutOf(host, pm, io)), timeoutView + 1),
                     io.machine.storage.state.leaf.height, pm', io', prop);
  }

  lemma ReceiptHandsInTime(host: Host, pm: P.Pacemaker, io: Surroundings, from: ReplicaId, sent: TreeNode, pm': P.Pacemaker, io': Surroundings, prop: TreeNode)
    requires Handles(host, pm, io, PeerProposal(from, sent), pm', io')
    requires SM.RecvProposal(prop) in HandedIn(pm, pm') && Bounded(pm) && sent.justify.view < P.TWO_64
    ensures prop.justify.view <= io.machine.storage.state.leaf.height
  {
    hide Checked;
    assert Bounded(P.RecvNewProposal(pm, P.Incoming(from, sent)));
    CheckHandsInTime(host, P.RecvNewProposal(pm, P.Incoming(from, sent)), io, io.machine.storage.state.leaf.height, pm', io', prop);
  }

  lemma OutputIsMeasured(host: Host, pm: P.Pacemaker, io: Surroundings, ready: Ready, pm': P.Pacemaker, io': Surroundings, prop: TreeNode)
    requires Processed(host, pm, io, ready, pm', io')
    requires SM.RecvProposal(prop) in OutputEvents(host, pm, io, ready, pm') && Bounded(pm)
    ensures prop.justify.view <= Measure(io, Output(ready))
  {
    hide TimedOut, SyncEnded, TimeoutEvents, HandedIn;
    match ready
    case Signature(to, node, kit) =>
      var sent := io.(outbox := io.outbox + [SendAcceptProposal(to, node, kit)]);
      SameTimeoutEvents(host, pm, io, sent, node.height, pm');
      TimeoutHandsInTime(host, pm, sent, node.height, pm', io', prop);
    case BranchSyncDone(leaf) => CheckHandsInTime(host, pm, io, leaf.height, pm', io', prop);
    case ProposalReachConsensus(view) => TimeoutHandsInTime(host, pm, io, view, pm', io', prop);
    case _ =>
  }


  /** What is handed over is not above the measure. */
  lemma HandedIsMeasured(host: Host, pm: P.Pacemaker, io: Surroundings, call: Call, pm': P.Pacemaker, io': Surroundings, prop: TreeNode)
    requires Handles(host, pm, io, call, pm', io') && SM.RecvProposal(prop) in EventsOf(host, pm, io, call, pm')
    requires Bounded(pm) && BoundedCall(call)
    ensures prop.justify.view <= Measure(io, call)
  {
    hide TimedOut, Checked, Processed, TimeoutEvents, OutputEvents, HandedIn, Emitted, Synced;
    match call
    case LocalTimeout(timeoutView) => TimeoutHandsInTime(host, pm, io, timeoutView, pm', io', prop);
    case PeerProposal(from, sent) => ReceiptHandsInTime(host, pm, io, from, sent, pm', io', prop);
    case PeerTimeout(tc) => TimeoutHandsInTime(host, pm, Recorded(io, tc), GrantedView(io.machine.storage), pm', io', prop);
    case Output(ready) => OutputIsMeasured(host, pm, io, ready, pm', io', prop);
    case _ =>
  }

  /** A finished synchronisation lets a proposal go that the present leaf has not reached. */
  ghost predicate StaleSync(pm: P.Pacemaker, io: Surroundings, call: Call) {
    && call.Output? && call.ready.BranchSyncDone? && pm.syncing
    && exists top :: P.IsTop(pm.pending, top) && io.machine.storage.state.leaf.height < top.prop.justify.view <= call.ready.leaf.height
  }

  /** A call hands a proposal over too early exactly where it is told of the end of a
      synchronisation with a leaf that is the present one no more. */
  lemma TooEarlyIff(host: Host, pm: P.Pacemaker, io: Surroundings, call: Call, pm': P.Pacemaker, io': Surroundings)
    requires Handles(host, pm, io, call, pm', io') && Bounded(pm) && BoundedCall(call)
    ensures StaleSync(pm, io, call)
            <==> exists prop :: SM.RecvProposal(prop) in EventsOf(host, pm, io, call, pm') && !InTime(io.machine.storage, SM.RecvProposal(prop))
  {
    hide Handles, EventsOf, P.IsTop;
    if StaleSync(pm, io, call) {
      var top :| P.IsTop(pm.pending, top) && io.machine.storage.state.leaf.height < top.prop.justify.view <= call.ready.leaf.height;
      var prop := TopGoes(host, pm, io, call.ready.leaf, pm', io', top);
    }
    forall prop | SM.RecvProposal(prop) in EventsOf(host, pm, io, call, pm') && !InTime(io.machine.storage, SM.RecvProposal(prop))
      ensures StaleSync(pm, io, call)
    {
      HandedIsMeasured(host, pm, io, call, pm', io', prop);
      HandedIsTop(host, pm, io, call.ready.leaf, pm', io', prop);
    }
  }

  /** Of all the proposals with the largest key one goes. */
  lemma TopGoes(host: Host, pm: P.Pacemaker, io: Surroundings, leaf: TreeNode, pm': P.Pacemaker, io': Surroundings, top: P.Incoming)
    returns (prop: TreeNode)
    requires Handles(host, pm, io, Output(BranchSyncDone(leaf)), pm', io') && Bounded(pm) && pm.syncing
    requires P.IsTop(pm.pending, top) && top.prop.justify.view <= leaf.height
    ensures SM.RecvProposal(prop) in EventsOf(host, pm, io, Output(BranchSyncDone(leaf)), pm')
    ensures prop.justify.view == top.prop.justify.view
  {
    hide Emitted, P.KeyOf, P.ViewOfKey;
    var idle := P.BackToIdle(pm);
    var gone :| P.IsTop(idle.pending, gone) && pm' == P.HandOrSync(idle, leaf.height, gone)
                && io' == HandedOrAsked(host, idle, io, leaf.height, gone);
    P.ViewOfItem(top);
    P.ViewOfItem(gone);
    prop := gone.prop;
  }

  lemma HandedIsTop(host: Host, pm: P.Pacemaker, io: Surroundings, leaf: TreeNode, pm': P.Pacemaker, io': Surroundings, prop: TreeNode)
    requires Handles(host, pm, io, Output(BranchSyncDone(leaf)), pm', io')
    requires SM.RecvProposal(prop) in EventsOf(host, pm, io, Output(BranchSyncDone(leaf)), pm')
    ensures pm.syncing && exists top :: P.IsTop(pm.pending, top) && top.prop == prop
  {
    hide Emitted, P.KeyOf, P.ViewOfKey;
    if pm.syncing && pm.pending != multiset{} {
      var idle := P.BackToIdle(pm);
      var top :| P.IsTop(idle.pending, top) && pm' == P.HandOrSync(idle, leaf.height, top)
                 && io' == HandedOrAsked(host, idle, io, leaf.height, top);
    }
  }

  // ---------------------------------------------------------------- hosts that act on outputs first

  /** Nothing but a proposal that has just been made waits in the queue when a message, a timeout or
      transactions are taken up. */
  ghost predicate Prompt(sys: System, move: Move) {
    !move.call.Output? && move.host < |sys| ==> forall ready :: ready in sys[move.host].io.ready ==> ready.NewProposal?
  }

  ghost predicate PromptRun(law: Law, net: Setting, run: Systems, moves: seq<Move>) {
    && TracedRun(law, net, run, moves)
    && forall k :: 0 <= k < |moves| ==> Prompt(run[k], moves[k]) && BoundedCall(moves[k].call)
  }

  /** The end of a synchronisation waits only behind proposals, and its leaf is the present one. */
  ghost predicate UpToDate(io: Surroundings) {
    forall k :: 0 <= k < |io.ready| && io.ready[k].BranchSyncDone? ==>
      io.ready[k].leaf == io.machine.storage.state.leaf && forall j :: 0 <= j < k ==> io.ready[j].NewProposal?
  }

  predicate TellsLeaf(ready: Ready) {
    ready.BranchSyncDone? || ready.UpdateQCHigh?
  }

  function LeafTold(ready: Ready): TreeNode
    requires TellsLeaf(ready)
  {
    if ready.BranchSyncDone? then ready.leaf else ready.node
  }

  /** Outputs were queued, but none that tells a leaf; proposals may have been taken off the heap. */
  ghost predicate Quiet(pm: P.Pacemaker, io: Surroundings, pm': P.Pacemaker, io': Surroundings) {
    && io.ready <= io'.ready && (forall k :: |io.ready| <= k < |io'.ready| ==> !TellsLeaf(io'.ready[k]))
    && pm'.pending <= pm.pending
  }

  lemma CheckIsQuiet(host: Host, pm: P.Pacemaker, io: Surroundings, leafHeight: ViewNumber, pm': P.Pacemaker, io': Surroundings)
    requires SyncEnded(host, pm, io, leafHeight, pm', io') || Checked(host, pm, io, leafHeight, pm', io')
    ensures Quiet(pm, io, pm', io')
  {
    hide Checked, P.KeyOf, P.ViewOfKey, Handled, LeaderAfter, HandedIn;
    var was := if Checked(host, pm, io, leafHeight, pm', io') then pm else P.BackToIdle(pm);
    if Checked(host, was, io, leafHeight, pm', io') {
      var top := CheckedHands(host, was, io, leafHeight, pm', io');
    }
  }

  lemma TimeoutIsQuiet(host: Host, pm: P.Pacemaker, io: Surroundings, timeoutView: ViewNumber, pm': P.Pacemaker, io': Surroundings)
    requires TimedOut(host, pm, io, timeoutView, pm', io')
    ensures Quiet(pm, io, pm', io')
  {
    hide SyncEnded;
    if timeoutView >= pm.view {
      CheckIsQuiet(host, P.GotoNewView(pm, timeoutView + 1), Entered(host, Reported(io, TimeoutOf(host, pm, io)), timeoutView + 1),
                   io.machine.storage.state.leaf.height, pm', io');
    }
  }

  lemma OutputIsQuiet(host: Host, pm: P.Pacemaker, io: Surroundings, ready: Ready, pm': P.Pacemaker, io': Surroundings)
    requires Processed(host, pm, io, ready, pm', io')
    ensures Quiet(pm, io, pm', io')
  {
    hide SyncEnded, TimedOut;
    match ready
    case Signature(to, prop, kit) =>
      if to != host.id {
        TimeoutIsQuiet(host, pm, io.(outbox := io.outbox + [SendAcceptProposal(to, prop, kit)]), prop.height, pm', io');
      }
    case BranchSyncDone(leaf) => CheckIsQuiet(host, pm, io, leaf.height, pm', io');
    case ProposalReachConsensus(view) => TimeoutIsQuiet(host, pm, io, view, pm', io');
    case _ =>
  }

  /** Of the events of peers' messages only an answer and a new-view certificate tell the leaf. */
  lemma EmittingTells(host: Host, io: Surroundings, event: SafetyEvent)
    requires event.RecvSign? || event.BranchSync? || event.RecvNewViewMsg?
    ensures var io' := Emitted(host, io, event); var leaf := io'.machine.storage.state.leaf;
            && (event.RecvSign? ==> io'.ready == io.ready || exists ready :: !TellsLeaf(ready) && io'.ready == io.ready + [ready])
            && (event.BranchSync? ==> io'.ready == io.ready + [BranchSyncDone(leaf)])
            && (event.RecvNewViewMsg? ==> io'.ready == io.ready + [UpdateQCHigh(leaf)])
  {
    hide Handled, Combine, ValidVote;
  }

  /** Only a peer's answer has the end of a synchronisation queued, with the leaf it left. */
  lemma CallIsQuiet(host: Host, pm: P.Pacemaker, io: Surroundings, call: Call, pm': P.Pacemaker, io': Surroundings)
    requires Handles(host, pm, io, call, pm', io')
    ensures Bounded(pm) && BoundedCall(call) ==> Bounded(pm')
    ensures if call.PeerSyncResponse? && call.branch.Some? then io'.ready == io.ready + [BranchSyncDone(io'.machine.storage.state.leaf)]
            else io.ready <= io'.ready && forall k :: |io.ready| <= k < |io'.ready| ==> !io'.ready[k].BranchSyncDone?
    ensures forall k :: |io.ready| <= k < |io'.ready| && TellsLeaf(io'.ready[k]) ==> LeafTold(io'.ready[k]) == io'.machine.storage.state.leaf
  {
    hide Checked, TimedOut, Processed, Emitted, P.MakeNewProposal, Bounded;
    PendingStaysBounded(pm, pm', call);
    match call
    case LocalTimeout(timeoutView) => TimeoutIsQuiet(host, pm, io, timeoutView, pm', io');
    case PeerProposal(from, prop) =>
      CheckIsQuiet(host, P.RecvNewProposal(pm, P.Incoming(from, prop)), io, io.machine.storage.state.leaf.height, pm', io');
    case PeerTimeout(tc) =>
      if GrantedView(io.machine.storage) > pm.view {
        TimeoutIsQuiet(host, pm, Recorded(io, tc), GrantedView(io.machine.storage), pm', io');
      }
    case Output(ready) => OutputIsQuiet(host, pm, io, ready, pm', io');
    case PeerVote(from, prop, kit) =>
      if kit.Some? {
        EmittingTells(host, io, RecvSign(from, prop, kit.value));
      }
    case PeerSyncResponse(branch) =>
      if branch.Some? {
        EmittingTells(host, io, BranchSync(branch.value));
      }
    case PeerNewView(from, view, qc) => EmittingTells(host, io, RecvNewViewMsg(qc));
    case Propose(_) =>
      ProposingLeavesPending(host, pm);
    case PeerSyncRequest(_, _) =>
  }

  lemma PendingStaysBounded(pm: P.Pacemaker, pm': P.Pacemaker, call: Call)
    ensures Bounded(pm) && pm'.pending <= pm.pending ==> Bounded(pm')
    ensures call.PeerProposal? ==>
              (Bounded(pm) && BoundedCall(call) && pm'.pending <= P.RecvNewProposal(pm, P.Incoming(call.from, call.prop)).pending
               ==> Bounded(pm'))
  {
  }

  lemma ProposingLeavesPending(host: Host, pm: P.Pacemaker)
    ensures P.MakeNewProposal(pm, host.total).pending == pm.pending
  {
  }

  /** A proposal that is sent changes neither the leaf nor the order of what follows it. */
  lemma SendingIsQuiet(host: Host, pm: P.Pacemaker, io: Surroundings, prop: TreeNode, pm': P.Pacemaker, io': Surroundings)
    requires Handles(host, pm, io, Output(NewProposal(prop)), pm', io')
    ensures io'.ready == io.ready && io'.machine == io.machine
  {
  }

  lemma MovedIsUpToDate(net: Setting, st: Station, i: ReplicaId, call: Call, pm': P.Pacemaker, io': Surroundings)
    requires Handles(HostOf(net, i), st.pm, Popped(st.io, call), call, pm', io')
    requires UpToDate(st.io) && Bounded(st.pm) && BoundedCall(call)
    requires call.Output? ==> |st.io.ready| > 0 && st.io.ready[0] == call.ready
    requires !call.Output? ==> forall ready :: ready in st.io.ready ==> ready.NewProposal?
    ensures UpToDate(Queueing(HostOf(net, i), st.pm, call, io')) && Bounded(pm')
  {
    hide Handles, P.GateOpen, Bounded;
    var io := Popped(st.io, call);
    CallIsQuiet(HostOf(net, i), st.pm, io, call, pm', io');
    if call.Output? {
      if call.ready.NewProposal? {
        SendingIsQuiet(HostOf(net, i), st.pm, io, call.ready.prop, pm', io');
        PoppedIsUpToDate(st.io, io');
      } else {
        assert forall k :: 0 <= k < |io.ready| ==> io.ready[k] == st.io.ready[k + 1] && !st.io.ready[k + 1].BranchSyncDone?;
      }
    } else {
      assert forall k :: 0 <= k < |io.ready| ==> io.ready[k] in io.ready;
    }
  }

  lemma PoppedIsUpToDate(io: Surroundings, io': Surroundings)
    requires UpToDate(io) && |io.ready| > 0 && io'.ready == io.ready[1..] && io'.machine == io.machine
    ensures UpToDate(io')
  {
    forall k | 0 <= k < |io'.ready| && io'.ready[k].BranchSyncDone?
      ensures io'.ready[k].leaf == io'.machine.storage.state.leaf && forall j :: 0 <= j < k ==> io'.ready[j].NewProposal?
    {
      assert io.ready[k + 1].BranchSyncDone?;
      assert forall j :: 0 <= j < k ==> io'.ready[j] == io.ready[j + 1];
    }
  }

  /** In every run of prompt hosts. */
  lemma {:induction false} RunStaysUpToDate(law: Law, net: Setting, run: Systems, moves: seq<Move>, k: nat, i: ReplicaId)
    requires PromptRun(law, net, run, moves) && k < |run| && Correct(net.cfg, i)
    ensures i < |run[k]| && UpToDate(run[k][i].io) && Bounded(run[k][i].pm)
    decreases k
  {
    hide Handles, UpToDate, Bounded, Demands, Arrives, Popped, Queueing;
    if k == 0 {
      FreshIsUpToDate(net, i);
    } else {
      RunStaysUpToDate(law, net, run, moves, k - 1, i);
      assert Made(law, net, run[k - 1], moves[k - 1], run[k]) && Prompt(run[k - 1], moves[k - 1]) && BoundedCall(moves[k - 1].call);
      if moves[k - 1].host == i {
        OutputIsOldest(net, run[k - 1], i, moves[k - 1].call);
        MovedIsUpToDate(net, run[k - 1][i], i, moves[k - 1].call, moves[k - 1].pm, moves[k - 1].io);
      }
    }
  }

  lemma OutputIsOldest(net: Setting, sys: System, i: ReplicaId, call: Call)
    requires i < |sys| == net.cfg.n && Arrives(net.cfg, sys, i, call)
    ensures call.Output? ==> |sys[i].io.ready| > 0 && sys[i].io.ready[0] == call.ready
  {
  }

  lemma FreshIsUpToDate(net: Setting, i: ReplicaId)
    requires Correct(net.cfg, i)
    ensures |InitSystem(net)| == net.cfg.n && UpToDate(InitSystem(net)[i].io) && Bounded(InitSystem(net)[i].pm)
  {
  }

  /** Proposals are handed over in time. */
  lemma PromptHostsAreInTime(law: Law, net: Setting, run: Systems, moves: seq<Move>, k: nat, prop: TreeNode)
    requires PromptRun(law, net, run, moves) && k < |moves|
    requires var move := moves[k]; move.host < |run[k]| && SM.RecvProposal(prop) in CallEvents(net, run[k][move.host], move.host, move.call, move.pm)
    ensures InTime(run[k][moves[k].host].io.machine.storage, SM.RecvProposal(prop))
  {
    hide Handles, EventsOf, Bounded, Demands, Arrives, Moved;
    var move := moves[k];
    assert Made(law, net, run[k], move, run[k + 1]) && BoundedCall(move.call);
    RunStaysUpToDate(law, net, run, moves, k, move.host);
    OutputIsOldest(net, run[k], move.host, move.call);
    HandedIsMeasured(HostOf(net, move.host), run[k][move.host].pm, Popped(run[k][move.host].io, move.call), move.call, move.pm, move.io, prop);
  }

  // ---------------------------------------------------------------- so their runs are lawful in time

  /** Before a proposal is handed over a call only records a timeout and raises the view. */
  ghost predicate HandsLast(events: seq<SM.Event>) {
    forall k :: 0 <= k < |events| && events[k].RecvProposal? ==>
      forall j :: 0 <= j < k ==> events[j].RecordTimeout? || events[j].RaiseView?
  }

  lemma CallsHandLast(host: Host, pm: P.Pacemaker, io: Surroundings, call: Call, pm': P.Pacemaker)
    ensures HandsLast(EventsOf(host, pm, io, call, pm'))
  {
    hide Synced;
  }

  lemma {:induction false} DemandsInTime(cfg: Config, i: ReplicaId, r: Replica, events: seq<SM.Event>)
    requires Demands(SafeVotes, cfg, i, r, events) && HandsLast(events)
    requires forall e :: e in events ==> InTime(r.machine.storage, e)
    ensures Demands(HandedInTime, cfg, i, r, events)
    decreases |events|
  {
    hide Orderly, SM.LeafVote, SM.UnanimousVote, RisingVote, SafeVote, SignedBy, ExecutedBy;
    if events != [] {
      assert events[0] in events;
      var next := ReplicaStep(cfg, i, r, events[0]);
      forall e | e in events[1..] ensures InTime(next.machine.storage, e) {
        var k :| 0 <= k < |events[1..]| && events[1..][k] == e;
        assert events[k + 1] == e && e in events;
        if e.RecvProposal? {
          LeafStays(cfg, i, r, events[0]);
        }
      }
      assert HandsLast(events[1..]) by {
        RestHandsLast(events);
      }
      DemandsInTime(cfg, i, next, events[1..]);
    }
  }

  lemma LeafStays(cfg: Config, i: ReplicaId, r: Replica, event: SM.Event)
    requires event.RecordTimeout? || event.RaiseView?
    ensures ReplicaStep(cfg, i, r, event).machine.storage.state.leaf == r.machine.storage.state.leaf
  {
  }

  lemma RestHandsLast(events: seq<SM.Event>)
    requires events != [] && HandsLast(events)
    ensures HandsLast(events[1..])
  {
    forall k | 0 <= k < |events[1..]| && events[1..][k].RecvProposal?
      ensures forall j :: 0 <= j < k ==> events[1..][j].RecordTimeout? || events[1..][j].RaiseView?
    {
      assert events[k + 1].RecvProposal?;
      assert forall j :: 0 <= j < k ==> events[1..][j] == events[j + 1];
    }
  }

  /** What the law about timely handing over asks for is what prompt hosts do anyway. */
  lemma PromptRunsAreLawful(net: Setting, run: Systems, moves: seq<Move>)
    requires PromptRun(SafeVotes, net, run, moves)
    ensures PromptRun(HandedInTime, net, run, moves) && SystemRun(HandedInTime, net, run)
  {
    hide Happens, Moved, InitSystem, Prompt, BoundedCall, SystemRun;
    forall k | 0 <= k < |moves| ensures Made(HandedInTime, net, run[k], moves[k], run[k + 1]) {
      MadeInTime(net, run, moves, k);
    }
    TracedIsRun(HandedInTime, net, run, moves);
  }

  lemma MadeInTime(net: Setting, run: Systems, moves: seq<Move>, k: nat)
    requires PromptRun(SafeVotes, net, run, moves) && k < |moves|
    ensures Made(HandedInTime, net, run[k], moves[k], run[k + 1])
  {
    hide Handles, EventsOf, Arrives, Demands, Moved, InitSystem, Prompt;
    assert Made(SafeVotes, net, run[k], moves[k], run[k + 1]);
    var move := moves[k];
    var st := run[k][move.host];
    var events := CallEvents(net, st, move.host, move.call, move.pm);
    CallsHandLast(HostOf(net, move.host), st.pm, Popped(st.io, move.call), move.call, move.pm);
    forall e | e in events ensures InTime(st.io.machine.storage, e) {
      if e.RecvProposal? {
        PromptHostsAreInTime(SafeVotes, net, run, moves, k, e.prop);
      }
    }
    DemandsInTime(net.cfg, move.host, ReplicaOf(st), events);
  }

  // ---------------------------------------------------------------- hosts that never propose

  /** The leaf is the certified node. */
  ghost predicate Settled(s: Storage) {
    s.state.qcHigh.node in s.nodes && s.state.qcHigh.node == Hash(s.state.leaf)
  }

  /** No event but a beat, and a vote for another node than the leaf, takes that away, and the leaf
      does not fall. */
  lemma EventKeepsSettled(m: SM.MachineState, total: nat, self: ReplicaId, event: SM.Event)
    requires Settled(m.storage) && !event.NewTx? && SM.LeafVote(total, m, event)
    requires event.UpdateQcHighReady? ==> event.node.height <= m.storage.state.leaf.height
    ensures var t := SM.Step(m, total, self, event).storage; Settled(t) && t.state.leaf.height >= m.storage.state.leaf.height
  {
    var s := m.storage;
    match event
    case RecvProposal(prop) => ReceiptKeepsSettled(s, prop);
    case Sync(prop) => ReceiptKeepsSettled(s, prop);
    case RecvSign(from, prop, kit) =>
      hide SM.OnRecvVote;
      var sign := SM.LeafVoteMoves(m, total, event);
    case RecvNewView(qc) =>
    case UpdateQcHighReady(node) =>
    case ViewChange(view) =>
    case RaiseView(view) =>
    case RecordTimeout(tc) =>
  }

  lemma UpdateKeepsSettled(s: Storage, prop: TreeNode)
    requires Settled(s)
    ensures var t := SM.UpdateNodes(s, prop); Settled(t) && t.state.leaf.height >= s.state.leaf.height
  {
    hide ThreeChain, ConsecutiveThreeChain, UpdateQcHigh;
    var chain := ThreeChain(s.nodes, prop);
    TopOfChain(s, prop);
    if |chain| >= 1 {
      AdoptingKeepsSettled(s, chain[0], prop.justify);
    }
  }

  lemma TopOfChain(s: Storage, prop: TreeNode)
    ensures |ThreeChain(s.nodes, prop)| >= 1 ==> Hash(ThreeChain(s.nodes, prop)[0]) == prop.justify.node
  {
  }

  lemma AdoptingKeepsSettled(s: Storage, node: TreeNode, qc: GenericQC)
    requires Settled(s) && Hash(node) == qc.node
    ensures var t := UpdateQcHigh(s, node, qc); Settled(t) && t.state.leaf.height >= s.state.leaf.height
  {
  }

  lemma VerifiedIsStored(s: Storage, prop: TreeNode)
    requires SM.VerifyProposal(s, prop.justify)
    ensures prop.justify.node in s.nodes
  {
  }

  lemma AcceptingKeepsSettled(s: Storage, prop: TreeNode)
    requires Settled(s)
    ensures Settled(SM.Accept(s, prop)) && SM.Accept(s, prop).state.leaf == s.state.leaf
  {
  }

  lemma ReceiptKeepsSettled(s: Storage, prop: TreeNode)
    requires Settled(s)
    ensures var t := SM.OnRecvProposal(s, prop); Settled(t) && t.state.leaf.height >= s.state.leaf.height
    ensures var t := SM.SyncProposal(s, prop); Settled(t) && t.state.leaf.height >= s.state.leaf.height
  {
    hide SM.UpdateNodes, SM.Accepts, SM.VerifyProposal, SM.Accept, Settled;
    UpdateKeepsSettled(s, prop);
    AcceptingKeepsSettled(s, prop);
    UpdateKeepsSettled(SM.Accept(s, prop), prop);
    if SM.VerifyProposal(s, prop.justify) {
      VerifiedIsStored(s, prop);
    }
  }

  ghost predicate CanSettle(s: Storage, events: seq<SM.Event>) {
    forall e :: e in events ==> !e.NewTx? && (e.UpdateQcHighReady? ==> e.node.height <= s.state.leaf.height)
  }

  lemma {:induction false} EventsKeepSettled(cfg: Config, i: ReplicaId, r: Replica, events: seq<SM.Event>)
    requires Settled(r.machine.storage) && Demands(SafeVotes, cfg, i, r, events) && CanSettle(r.machine.storage, events)
    ensures var t := ReplicaSteps(cfg, i, r, events).machine.storage; Settled(t) && t.state.leaf.height >= r.machine.storage.state.leaf.height
    decreases |events|
  {
    hide Settled, Orderly, RisingVote, SafeVote, SM.LeafVote, SM.UnanimousVote, SM.Step, SignedBy, ExecutedBy;
    if events != [] {
      assert events[0] in events;
      EventKeepsSettled(r.machine, cfg.n, i, events[0]);
      EventsKeepSettled(cfg, i, ReplicaStep(cfg, i, r, events[0]), events[1..]);
    }
  }

  /** What waits in the queue tells of no leaf above the present one. */
  ghost predicate NoHigherLeaf(ready: seq<Ready>, s: Storage) {
    forall k :: 0 <= k < |ready| && TellsLeaf(ready[k]) ==> LeafTold(ready[k]).height <= s.state.leaf.height
  }

  ghost predicate Calm(st: Station) {
    Settled(st.io.machine.storage) && NoHigherLeaf(st.io.ready, st.io.machine.storage) && Bounded(st.pm)
  }

  lemma CallCanSettle(host: Host, pm: P.Pacemaker, io: Surroundings, call: Call, pm': P.Pacemaker)
    requires !call.Propose? && (call.Output? && TellsLeaf(call.ready) ==> LeafTold(call.ready).height <= io.machine.storage.state.leaf.height)
    ensures CanSettle(io.machine.storage, EventsOf(host, pm, io, call, pm'))
  {
    hide Synced;
  }

  lemma MovedIsCalm(net: Setting, st: Station, i: ReplicaId, call: Call, pm': P.Pacemaker, io': Surroundings)
    requires Handles(HostOf(net, i), st.pm, Popped(st.io, call), call, pm', io') && Calm(st) && BoundedCall(call)
    requires !call.Propose? && Demands(SafeVotes, net.cfg, i, ReplicaOf(st), CallEvents(net, st, i, call, pm'))
    requires call.Output? ==> |st.io.ready| > 0 && st.io.ready[0] == call.ready
    ensures Calm(Moved(net, st, i, call, pm', io'))
  {
    hide Handles, Settled, Demands, EventsOf, ReplicaSteps, Bounded;
    var io, events := Popped(st.io, call), CallEvents(net, st, i, call, pm');
    CallCanSettle(HostOf(net, i), st.pm, io, call, pm');
    EventsKeepSettled(net.cfg, i, ReplicaOf(st), events);
    StepsOfReplica(net.cfg, i, ReplicaOf(st), events);
    HandlersAreSteps(HostOf(net, i), st.pm, io, call, pm', io');
    CallIsQuiet(HostOf(net, i), st.pm, io, call, pm', io');
    QueueStaysLow(st.io, io, io', call);
  }

  lemma QueueStaysLow(was: Surroundings, io: Surroundings, io': Surroundings, call: Call)
    requires NoHigherLeaf(was.ready, was.machine.storage) && io == Popped(was, call)
    requires io.machine.storage.state.leaf.height <= io'.machine.storage.state.leaf.height && io.ready <= io'.ready
    requires forall k :: |io.ready| <= k < |io'.ready| && TellsLeaf(io'.ready[k]) ==> LeafTold(io'.ready[k]) == io'.machine.storage.state.leaf
    ensures NoHigherLeaf(io'.ready, io'.machine.storage)
  {
    forall k | 0 <= k < |io'.ready| && TellsLeaf(io'.ready[k])
      ensures LeafTold(io'.ready[k]).height <= io'.machine.storage.state.leaf.height
    {
      if k < |io.ready| {
        assert io'.ready[k] == was.ready[if io == was then k else k + 1];
      }
    }
  }

  /** Host `i` is never called for a proposal of its own. */
  ghost predicate Silent(moves: seq<Move>, i: ReplicaId) {
    forall k :: 0 <= k < |moves| && moves[k].host == i ==> !moves[k].call.Propose? && BoundedCall(moves[k].call)
  }

  lemma {:induction false} SilentHostsAreCalm(net: Setting, run: Systems, moves: seq<Move>, k: nat, i: ReplicaId)
    requires TracedRun(SafeVotes, net, run, moves) && k < |run| && Correct(net.cfg, i) && Silent(moves, i)
    ensures i < |run[k]| && Calm(run[k][i])
    decreases k
  {
    hide Handles, Calm, Demands, Arrives, Moved;
    if k == 0 {
      FreshIsCalm(net, i);
    } else {
      SilentHostsAreCalm(net, run, moves, k - 1, i);
      assert Made(SafeVotes, net, run[k - 1], moves[k - 1], run[k]);
      if moves[k - 1].host == i {
        OutputIsOldest(net, run[k - 1], i, moves[k - 1].call);
        MovedIsCalm(net, run[k - 1][i], i, moves[k - 1].call, moves[k - 1].pm, moves[k - 1].io);
      }
    }
  }

  lemma FreshIsCalm(net: Setting, i: ReplicaId)
    requires Correct(net.cfg, i)
    ensures |InitSystem(net)| == net.cfg.n && Calm(InitSystem(net)[i])
  {
  }

  /** Whenever it acts on its outputs, a host that never proposes hands proposals over in time. */
  lemma SilentHostsAreInTime(net: Setting, run: Systems, moves: seq<Move>, k: nat, prop: TreeNode)
    requires TracedRun(SafeVotes, net, run, moves) && k < |moves| && Silent(moves, moves[k].host)
    requires var move := moves[k]; move.host < |run[k]| && SM.RecvProposal(prop) in CallEvents(net, run[k][move.host], move.host, move.call, move.pm)
    ensures InTime(run[k][moves[k].host].io.machine.storage, SM.RecvProposal(prop))
  {
    hide Handles, EventsOf, Bounded, Demands, Arrives, Moved, Settled;
    var move := moves[k];
    assert Made(SafeVotes, net, run[k], move, run[k + 1]);
    SilentHostsAreCalm(net, run, moves, k, move.host);
    OutputIsOldest(net, run[k], move.host, move.call);
    HandedIsMeasured(HostOf(net, move.host), run[k][move.host].pm, Popped(run[k][move.host].io, move.call), move.call, move.pm, move.io, prop);
  }
}
