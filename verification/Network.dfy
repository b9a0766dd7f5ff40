/** n hosts, each a pacemaker on its machine, of which the correct ones send each other what is in
    their outboxes.  Faulty ones send whatever needs no forged signature.

    Every run of such a system is a run of module Protocol.  That messages are genuine, which is
    supposed there, is proved here; agreement is then a theorem about hosts. */
module Network {
  import opened HsData
  import opened MachineClass
  import opened PacemakerSteps
  import opened Protocol
  import opened ProtocolInvariant
  import opened Agreement
  import opened Genuine
  import opened HostEvents
  import opened HostsGenuine
  import SM = SafetyMachine
  import P = Pacing

  /** A host, with what its machine has signed and executed. */
  datatype Station = Station(pm: P.Pacemaker, io: Surroundings, signed: map<TreeNode, TreeNode>, executed: set<Execution>)

  type System = seq<Station>
  type Systems = run: seq<System> | |run| > 0 witness [[]]

  function ReplicaOf(st: Station): Replica {
    Replica(st.io.machine, st.signed, st.executed)
  }

  function WorldOf(sys: System): (w: World)
    ensures |w| == |sys| && forall i :: 0 <= i < |sys| ==> w[i] == ReplicaOf(sys[i])
  {
    seq(|sys|, i requires 0 <= i < |sys| => ReplicaOf(sys[i]))
  }

  /** n hosts that share an elector. */
  datatype Setting = Setting(cfg: Config, leaderOf: ViewNumber -> ReplicaId)

  function HostOf(net: Setting, i: ReplicaId): Host {
    Host(i, net.cfg.n, net.leaderOf)
  }

  // ---------------------------------------------------------------- what arrives

  /** What host `i` can be called with: its timer and transactions at any time, its oldest output,
      and messages.  A message of a correct host is in that host's outbox. */
  ghost predicate Arrives(cfg: Config, sys: System, i: ReplicaId, call: Call)
    requires i < |sys| == cfg.n
  {
    match call
    case PeerProposal(from, prop) =>
      if Correct(cfg, from) then SendNewProposal(prop) in sys[from].io.outbox else GenuineCall(cfg, WorldOf(sys), call)
    case PeerVote(from, prop, kit) =>
      if Correct(cfg, from) && kit.Some? then SendAcceptProposal(i, prop, kit.value) in sys[from].io.outbox
      else GenuineCall(cfg, WorldOf(sys), call)
    case PeerSyncResponse(branch) =>
      || GenuineCall(cfg, WorldOf(sys), call)
      || (branch.Some? && exists from: ReplicaId :: Correct(cfg, from) && SendBranchSyncResponse(i, branch.value) in sys[from].io.outbox)
    case PeerNewView(from, view, qc) =>
      if Correct(cfg, from) then SendNewView(i, view, qc) in sys[from].io.outbox else GenuineCall(cfg, WorldOf(sys), call)
    case Output(ready) => |sys[i].io.ready| > 0 && sys[i].io.ready[0] == ready
    case _ => true
  }

  function Popped(io: Surroundings, call: Call): Surroundings {
    if call.Output? && |io.ready| > 0 then io.(ready := io.ready[1..]) else io
  }

  /** A proposal that was made is queued for sending. */
  function Queueing(host: Host, pm: P.Pacemaker, call: Call, io: Surroundings): Surroundings {
    if call.Propose? && P.GateOpen(pm, host.total) then io.(ready := io.ready + [NewProposal(io.machine.storage.state.leaf)]) else io
  }

  // ---------------------------------------------------------------- steps

  ghost function ReplicaSteps(cfg: Config, i: ReplicaId, r: Replica, events: seq<SM.Event>): Replica
    decreases |events|
  {
    if events == [] then r else ReplicaSteps(cfg, i, ReplicaStep(cfg, i, r, events[0]), events[1..])
  }

  /** The laws that runs of hosts are considered under. */
  predicate HostLaw(law: Law) {
    law == Delivered || law == SafeVotes || law == HandedInTime
  }

  /** What a lawful run asks for besides genuine messages. */
  ghost predicate Demand(law: Law, cfg: Config, r: Replica, event: SM.Event) {
    && (law == SafeVotes || law == HandedInTime ==>
          && Orderly(r.machine.storage, event) && SM.LeafVote(cfg.n, r.machine, event) && SM.UnanimousVote(cfg.n, r.machine, event)
          && RisingVote(r, event) && SafeVote(r, event))
    && (law == HandedInTime ==> InTime(r.machine.storage, event))
  }

  ghost predicate Demands(law: Law, cfg: Config, i: ReplicaId, r: Replica, events: seq<SM.Event>)
    decreases |events|
  {
    events == [] || (Demand(law, cfg, r, events[0]) && Demands(law, cfg, i, ReplicaStep(cfg, i, r, events[0]), events[1..]))
  }

  function CallEvents(net: Setting, st: Station, i: ReplicaId, call: Call, pm': P.Pacemaker): seq<SM.Event> {
    EventsOf(HostOf(net, i), st.pm, Popped(st.io, call), call, pm')
  }

  ghost function Moved(net: Setting, st: Station, i: ReplicaId, call: Call, pm': P.Pacemaker, io': Surroundings): Station {
    var r := ReplicaSteps(net.cfg, i, ReplicaOf(st), CallEvents(net, st, i, call, pm'));
    Station(pm', Queueing(HostOf(net, i), st.pm, call, io'), r.signed, r.executed)
  }

  ghost predicate Happens(law: Law, net: Setting, sys: System, i: ReplicaId, call: Call, pm': P.Pacemaker, io': Surroundings) {
    && Correct(net.cfg, i) && |sys| == net.cfg.n && Arrives(net.cfg, sys, i, call)
    && Handles(HostOf(net, i), sys[i].pm, Popped(sys[i].io, call), call, pm', io')
    && Demands(law, net.cfg, i, ReplicaOf(sys[i]), CallEvents(net, sys[i], i, call, pm'))
  }

  /** The host that was called, the call and what the handler left. */
  datatype Move = Move(host: ReplicaId, call: Call, pm: P.Pacemaker, io: Surroundings)

  ghost predicate Made(law: Law, net: Setting, sys: System, move: Move, sys': System) {
    && Happens(law, net, sys, move.host, move.call, move.pm, move.io)
    && sys' == sys[move.host := Moved(net, sys[move.host], move.host, move.call, move.pm, move.io)]
  }

  ghost predicate NextSystem(law: Law, net: Setting, sys: System, sys': System) {
    exists move :: Made(law, net, sys, move, sys')
  }

  function Fresh(net: Setting, i: ReplicaId): Station {
    if i in net.cfg.faulty then Station(P.START, Surroundings(SM.InitMachine(), None, [], []), map[], {})
    else Station(UpAndRunning(HostOf(net, i)).pm, UpAndRunning(HostOf(net, i)).io, map[], {})
  }

  ghost function InitSystem(net: Setting): System {
    seq(net.cfg.n, i requires 0 <= i < net.cfg.n => Fresh(net, i))
  }

  ghost predicate SystemRun(law: Law, net: Setting, run: Systems) {
    && run[0] == InitSystem(net)
    && forall k :: 0 < k < |run| ==> NextSystem(law, net, run[k - 1], run[k])
  }

  /** A run with its moves. */
  ghost predicate TracedRun(law: Law, net: Setting, run: Systems, moves: seq<Move>) {
    && |run| == |moves| + 1 && run[0] == InitSystem(net)
    && forall k :: 0 <= k < |moves| ==> Made(law, net, run[k], moves[k], run[k + 1])
  }

  lemma TracedIsRun(law: Law, net: Setting, run: Systems, moves: seq<Move>)
    requires TracedRun(law, net, run, moves)
    ensures SystemRun(law, net, run)
  {
    hide Made, InitSystem;
    forall k | 0 < k < |run| ensures NextSystem(law, net, run[k - 1], run[k]) {
      assert Made(law, net, run[k - 1], moves[k - 1], run[k]);
    }
  }

  /** Every run has its moves. */
  lemma {:induction false} RunIsTraced(law: Law, net: Setting, run: Systems) returns (moves: seq<Move>)
    requires SystemRun(law, net, run)
    ensures TracedRun(law, net, run, moves)
    decreases |run|
  {
    hide Made, InitSystem, NextSystem;
    moves := [];
    if |run| > 1 {
      var k := |run| - 1;
      moves := RunIsTraced(law, net, run[..k]);
      assert NextSystem(law, net, run[k - 1], run[k]);
      var move := MoveOf(law, net, run[k - 1], run[k]);
      moves := moves + [move];
    }
  }

  lemma MoveOf(law: Law, net: Setting, sys: System, sys': System) returns (move: Move)
    requires NextSystem(law, net, sys, sys')
    ensures Made(law, net, sys, move, sys')
  {
    hide Made;
    move :| Made(law, net, sys, move, sys');
  }

  // ---------------------------------------------------------------- everything is genuine

  ghost predicate GenuineStation(cfg: Config, w: World, st: Station) {
    GenuineIo(cfg, w, st.io) && GenuinePending(cfg, w, st.pm)
  }

  ghost predicate NetInv(cfg: Config, sys: System) {
    && |sys| == cfg.n
    && forall i: ReplicaId :: Correct(cfg, i) ==> GenuineStation(cfg, WorldOf(sys), sys[i])
  }

  lemma ReadyGrows(cfg: Config, w: World, w': World, ready: Ready)
    requires Grows(cfg, w, w') && GenuineReady(cfg, w, ready)
    ensures GenuineReady(cfg, w', ready)
  {
    forall qc | GenuineQc(cfg, w, qc) ensures GenuineQc(cfg, w', qc) {
      GenuineQcGrows(cfg, w, w', qc);
    }
  }

  lemma MessageGrows(cfg: Config, w: World, w': World, message: PeerEvent)
    requires Grows(cfg, w, w') && GenuineMessage(cfg, w, message)
    ensures GenuineMessage(cfg, w', message)
  {
    forall qc | GenuineQc(cfg, w, qc) ensures GenuineQc(cfg, w', qc) {
      GenuineQcGrows(cfg, w, w', qc);
    }
  }

  lemma CallGrows(cfg: Config, w: World, w': World, call: Call)
    requires Grows(cfg, w, w') && GenuineCall(cfg, w, call)
    ensures GenuineCall(cfg, w', call)
  {
    forall qc | GenuineQc(cfg, w, qc) ensures GenuineQc(cfg, w', qc) {
      GenuineQcGrows(cfg, w, w', qc);
    }
    if call.Output? {
      ReadyGrows(cfg, w, w', call.ready);
    }
  }

  lemma StationGrows(cfg: Config, w: World, w': World, st: Station)
    requires Grows(cfg, w, w') && GenuineStation(cfg, w, st)
    ensures GenuineStation(cfg, w', st)
  {
    hide GenuineReady, GenuineMessage, GenuineQc, GenuineMachine, Grows;
    GenuineMachineGrows(cfg, w, w', st.io.machine);
    forall ready | ready in st.io.ready ensures GenuineReady(cfg, w', ready) {
      ReadyGrows(cfg, w, w', ready);
    }
    forall message | message in st.io.outbox ensures GenuineMessage(cfg, w', message) {
      MessageGrows(cfg, w, w', message);
    }
    forall item | item in st.pm.pending ensures GenuineQc(cfg, w', item.prop.justify) {
      GenuineQcGrows(cfg, w, w', item.prop.justify);
    }
  }

  /** What arrives is genuine: correct hosts send nothing else, and faulty ones cannot. */
  lemma ArrivalIsGenuine(cfg: Config, sys: System, i: ReplicaId, call: Call)
    requires NetInv(cfg, sys) && Correct(cfg, i) && Arrives(cfg, sys, i, call)
    ensures GenuineCall(cfg, WorldOf(sys), call)
  {
    hide GenuineQc, GenuineMachine, GenuineNode, GenuineKit, GenuineBranch, WorldOf;
    assert GenuineStation(cfg, WorldOf(sys), sys[i]);
    match call
    case PeerProposal(from, prop) =>
      if Correct(cfg, from) {
        assert GenuineStation(cfg, WorldOf(sys), sys[from]) && GenuineMessage(cfg, WorldOf(sys), SendNewProposal(prop));
      }
    case PeerVote(from, prop, kit) =>
      if Correct(cfg, from) && kit.Some? {
        assert GenuineStation(cfg, WorldOf(sys), sys[from]) && GenuineMessage(cfg, WorldOf(sys), SendAcceptProposal(i, prop, kit.value));
      }
    case PeerSyncResponse(branch) =>
      forall from: ReplicaId | branch.Some? && Correct(cfg, from) && SendBranchSyncResponse(i, branch.value) in sys[from].io.outbox
        ensures GenuineMessage(cfg, WorldOf(sys), SendBranchSyncResponse(i, branch.value))
      {
        assert GenuineStation(cfg, WorldOf(sys), sys[from]);
      }
    case PeerNewView(from, view, qc) =>
      if Correct(cfg, from) {
        assert GenuineStation(cfg, WorldOf(sys), sys[from]) && GenuineMessage(cfg, WorldOf(sys), SendNewView(i, view, qc));
      }
    case Output(ready) => assert ready in sys[i].io.ready;
    case _ =>
  }

  // ---------------------------------------------------------------- a call is a sequence of steps of module Protocol

  lemma {:induction false} StepsOfReplica(cfg: Config, i: ReplicaId, r: Replica, events: seq<SM.Event>)
    ensures ReplicaSteps(cfg, i, r, events).machine == SM.Steps(r.machine, cfg.n, i, events)
    ensures r.signed.Keys <= ReplicaSteps(cfg, i, r, events).signed.Keys
    decreases |events|
  {
    hide SM.Step, SignedBy, ExecutedBy;
    if events != [] {
      StepsOfReplica(cfg, i, ReplicaStep(cfg, i, r, events[0]), events[1..]);
    }
  }

  lemma {:induction false} SignedIsOnRecord(cfg: Config, w: World, i: ReplicaId, r: Replica, events: seq<SM.Event>)
    requires i < cfg.n && i < |w| && ReplicaSteps(cfg, i, r, events).signed.Keys <= w[i].signed.Keys
    ensures OnRecord(cfg, w, i, r.machine, events)
    decreases |events|
  {
    hide SM.Step, SignedBy, ExecutedBy;
    if events != [] {
      var next := ReplicaStep(cfg, i, r, events[0]);
      StepsOfReplica(cfg, i, next, events[1..]);
      SignedIsOnRecord(cfg, w, i, next, events[1..]);
    }
  }

  lemma {:induction false} WorldGoesOn(law: Law, cfg: Config, worlds: Worlds, i: ReplicaId, events: seq<SM.Event>)
    returns (longer: Worlds)
    requires HostLaw(law) && Run(law, cfg, worlds) && Correct(cfg, i) && |Last(worlds)| == cfg.n
    requires (forall e :: e in events ==> Deliverable(cfg, Last(worlds), e)) && Demands(law, cfg, i, Last(worlds)[i], events)
    ensures Run(law, cfg, longer) && worlds <= longer && Grows(cfg, Last(worlds), Last(longer))
    ensures Last(longer) == Last(worlds)[i := ReplicaSteps(cfg, i, Last(worlds)[i], events)]
    decreases |events|
  {
    hide Run, Deliverable, ReplicaStep, Orderly, RisingVote, SafeVote, SM.LeafVote, SM.UnanimousVote, Grows;
    if events == [] {
      longer := worlds;
      assert Last(worlds)[i := Last(worlds)[i]] == Last(worlds);
      GrowsNot(cfg, Last(worlds));
    } else {
      var w := Last(worlds);
      assert Demand(law, cfg, w[i], events[0]) && events[0] in events;
      var next := OneStep(law, cfg, worlds, i, events[0]);
      StepGrows(cfg, w, i, events[0]);
      forall e | e in events[1..] ensures Deliverable(cfg, Last(next), e) {
        DeliverableGrows(cfg, w, Last(next), e);
      }
      longer := WorldGoesOn(law, cfg, next, i, events[1..]);
      GrowsOn(cfg, w, Last(next), Last(longer));
    }
  }

  lemma GrowsNot(cfg: Config, w: World)
    ensures Grows(cfg, w, w)
  {
  }

  lemma GrowsOn(cfg: Config, a: World, b: World, c: World)
    requires Grows(cfg, a, b) && Grows(cfg, b, c)
    ensures Grows(cfg, a, c)
  {
    hide Backs;
  }

  // ---------------------------------------------------------------- every event can be delivered

  ghost predicate AllDeliverable(cfg: Config, w: World, events: seq<SM.Event>) {
    forall e :: e in events ==> Deliverable(cfg, w, e)
  }

  lemma HandedIsDeliverable(cfg: Config, w: World, host: Host, pm: P.Pacemaker, io: Surroundings, leafHeight: ViewNumber,
                            pm': P.Pacemaker, io': Surroundings)
    requires SyncEnded(host, pm, io, leafHeight, pm', io') || Checked(host, pm, io, leafHeight, pm', io')
    requires GenuinePending(cfg, w, pm)
    ensures AllDeliverable(cfg, w, HandedIn(pm, pm'))
  {
    hide Checked, GenuineQc, Emitted;
    var was := if Checked(host, pm, io, leafHeight, pm', io') then pm else P.BackToIdle(pm);
    if Checked(host, was, io, leafHeight, pm', io') {
      var top := CheckedHands(host, was, io, leafHeight, pm', io');
    }
  }

  lemma TimeoutIsDeliverable(cfg: Config, w: World, host: Host, pm: P.Pacemaker, io: Surroundings, timeoutView: ViewNumber,
                             pm': P.Pacemaker, io': Surroundings)
    requires TimedOut(host, pm, io, timeoutView, pm', io') && GenuinePending(cfg, w, pm)
    ensures AllDeliverable(cfg, w, TimeoutEvents(host, pm, io, timeoutView, pm'))
  {
    hide SyncEnded, GenuineQc;
    if timeoutView >= pm.view {
      HandedIsDeliverable(cfg, w, host, P.GotoNewView(pm, timeoutView + 1), Entered(host, Reported(io, TimeoutOf(host, pm, io)), timeoutView + 1),
                          io.machine.storage.state.leaf.height, pm', io');
    }
  }

  lemma OutputIsDeliverable(cfg: Config, w: World, host: Host, pm: P.Pacemaker, io: Surroundings, ready: Ready,
                            pm': P.Pacemaker, io': Surroundings)
    requires Processed(host, pm, io, ready, pm', io') && GenuinePending(cfg, w, pm)
    ensures AllDeliverable(cfg, w, OutputEvents(host, pm, io, ready, pm'))
  {
    hide TimedOut, SyncEnded, GenuineQc, TimeoutEvents, HandedIn, GenuinePending;
    match ready
    case Signature(to, prop, kit) =>
      if to != host.id {
        var sent := io.(outbox := io.outbox + [SendAcceptProposal(to, prop, kit)]);
        SameTimeoutEvents(host, pm, io, sent, prop.height, pm');
        TimeoutIsDeliverable(cfg, w, host, pm, sent, prop.height, pm', io');
      }
    case BranchSyncDone(leaf) => HandedIsDeliverable(cfg, w, host, pm, io, leaf.height, pm', io');
    case ProposalReachConsensus(view) => TimeoutIsDeliverable(cfg, w, host, pm, io, view, pm', io');
    case _ =>
  }

  lemma EventsAreDeliverable(cfg: Config, w: World, host: Host, pm: P.Pacemaker, io: Surroundings, call: Call,
                             pm': P.Pacemaker, io': Surroundings)
    requires Handles(host, pm, io, call, pm', io') && GenuinePending(cfg, w, pm) && GenuineCall(cfg, w, call)
    ensures AllDeliverable(cfg, w, EventsOf(host, pm, io, call, pm'))
  {
    hide TimedOut, Checked, Processed, GenuineQc, TimeoutEvents, OutputEvents, GenuineKit, GenuineReady, Emitted, Synced;
    match call
    case LocalTimeout(timeoutView) => TimeoutIsDeliverable(cfg, w, host, pm, io, timeoutView, pm', io');
    case PeerProposal(from, prop) =>
      var more := P.RecvNewProposal(pm, P.Incoming(from, prop));
      HandedIsDeliverable(cfg, w, host, more, io, io.machine.storage.state.leaf.height, pm', io');
    case PeerTimeout(tc) =>
      var view := GrantedView(io.machine.storage);
      if view > pm.view {
        TimeoutIsDeliverable(cfg, w, host, pm, Recorded(io, tc), view, pm', io');
      }
    case Output(ready) => OutputIsDeliverable(cfg, w, host, pm, io, ready, pm', io');
    case _ =>
  }

  // ---------------------------------------------------------------- every run of hosts is one of module Protocol

  lemma PoppedIsGenuine(cfg: Config, w: World, io: Surroundings, call: Call)
    requires GenuineIo(cfg, w, io)
    ensures GenuineIo(cfg, w, Popped(io, call)) && Popped(io, call).machine == io.machine
  {
    hide GenuineReady, GenuineMessage, GenuineMachine;
  }

  lemma QueueingIsGenuine(cfg: Config, w: World, host: Host, pm: P.Pacemaker, io: Surroundings, call: Call,
                          pm': P.Pacemaker, io': Surroundings)
    requires Handles(host, pm, io, call, pm', io') && GenuineIo(cfg, w, io) && GenuineIo(cfg, w, io')
    ensures GenuineIo(cfg, w, Queueing(host, pm, call, io')) && Queueing(host, pm, call, io').machine == io'.machine
  {
    hide GenuineMessage, GenuineVotes, GenuineNode, GenuineQc, P.GateOpen, P.MakeNewProposal;
    if call.Propose? && P.GateOpen(pm, host.total) {
      assert io'.machine.storage.state.leaf == SM.MakeLeaf(io.machine.storage, call.payload);
      QueuedIsGenuine(cfg, w, io'.ready, Fine(NewProposal(io'.machine.storage.state.leaf)));
    }
  }

  /** The host that was called. */
  lemma MovedIsGenuine(net: Setting, w: World, w': World, st: Station, i: ReplicaId, call: Call, pm': P.Pacemaker, io': Surroundings)
    requires Correct(net.cfg, i) && i < |w'| && Grows(net.cfg, w, w')
    requires Handles(HostOf(net, i), st.pm, Popped(st.io, call), call, pm', io')
    requires GenuineStation(net.cfg, w, st) && GenuineCall(net.cfg, w, call)
    requires w'[i] == ReplicaSteps(net.cfg, i, ReplicaOf(st), CallEvents(net, st, i, call, pm'))
    ensures GenuineStation(net.cfg, w', Moved(net, st, i, call, pm', io'))
    ensures ReplicaOf(Moved(net, st, i, call, pm', io')) == w'[i]
  {
    hide Handles, GenuineCall, GenuinePending, GenuineIo, EventsOf, ReplicaSteps, Grows, Popped, Queueing, OnRecord;
    var cfg, host, io := net.cfg, HostOf(net, i), Popped(st.io, call);
    var events := CallEvents(net, st, i, call, pm');
    StationGrows(cfg, w, w', st);
    CallGrows(cfg, w, w', call);
    PoppedIsGenuine(cfg, w', st.io, call);
    StepsOfReplica(cfg, i, ReplicaOf(st), events);
    SignedIsOnRecord(cfg, w', i, ReplicaOf(st), events);
    HandlersAreSteps(host, st.pm, io, call, pm', io');
    HandlersAreGenuine(cfg, w', host, st.pm, io, call, pm', io');
    QueueingIsGenuine(cfg, w', host, st.pm, io, call, pm', io');
  }

  lemma HappeningGoesOn(law: Law, net: Setting, sys: System, i: ReplicaId, call: Call, pm': P.Pacemaker, io': Surroundings, worlds: Worlds)
    returns (longer: Worlds)
    requires HostLaw(law) && Happens(law, net, sys, i, call, pm', io') && NetInv(net.cfg, sys)
    requires Run(law, net.cfg, worlds) && Last(worlds) == WorldOf(sys)
    ensures var sys' := sys[i := Moved(net, sys[i], i, call, pm', io')];
            NetInv(net.cfg, sys') && Run(law, net.cfg, longer) && Last(longer) == WorldOf(sys')
    ensures worlds <= longer
  {
    hide Run, Handles, GenuineStation, GenuineCall, Arrives, Demands, Moved, ReplicaSteps, Grows, CallEvents, Deliverable, ReplicaOf;
    var cfg, w := net.cfg, WorldOf(sys);
    var st := sys[i];
    var events := CallEvents(net, st, i, call, pm');
    assert GenuineStation(cfg, w, st) && w[i] == ReplicaOf(st);
    ArrivalIsGenuine(cfg, sys, i, call);
    CallIsDeliverable(net, w, st, i, call, pm', io');
    longer := WorldGoesOn(law, cfg, worlds, i, events);
    var w' := Last(longer);
    MovedIsGenuine(net, w, w', st, i, call, pm', io');
    SameWorld(net, sys, i, Moved(net, st, i, call, pm', io'), w');
    forall j: ReplicaId | Correct(cfg, j) && j != i ensures GenuineStation(cfg, w', sys[j]) {
      StationGrows(cfg, w, w', sys[j]);
    }
  }

  lemma SameWorld(net: Setting, sys: System, i: ReplicaId, moved: Station, w': World)
    requires i < |sys| == |w'| && w' == WorldOf(sys)[i := w'[i]] && ReplicaOf(moved) == w'[i]
    ensures WorldOf(sys[i := moved]) == w'
  {
    hide ReplicaOf;
  }

  lemma CallIsDeliverable(net: Setting, w: World, st: Station, i: ReplicaId, call: Call, pm': P.Pacemaker, io': Surroundings)
    requires Handles(HostOf(net, i), st.pm, Popped(st.io, call), call, pm', io')
    requires GenuineStation(net.cfg, w, st) && GenuineCall(net.cfg, w, call)
    ensures forall e :: e in CallEvents(net, st, i, call, pm') ==> Deliverable(net.cfg, w, e)
  {
    hide Handles, GenuineIo, GenuinePending, GenuineCall, EventsOf, Deliverable;
    EventsAreDeliverable(net.cfg, w, HostOf(net, i), st.pm, Popped(st.io, call), call, pm', io');
  }

  /** The hosts come up one after another. */
  lemma {:induction false} HostsComeUp(law: Law, net: Setting, i: nat) returns (worlds: Worlds)
    requires HostLaw(law) && i <= net.cfg.n
    ensures Run(law, net.cfg, worlds) && |Last(worlds)| == net.cfg.n
    ensures forall j :: 0 <= j < net.cfg.n ==> Last(worlds)[j] == if j < i then ReplicaOf(Fresh(net, j)) else InitWorld(net.cfg)[j]
    decreases i
  {
    if i == 0 {
      worlds := [InitWorld(net.cfg)];
    } else {
      worlds := HostsComeUp(law, net, i - 1);
      if i - 1 !in net.cfg.faulty {
        hide Run;
        worlds := OneStep(law, net.cfg, worlds, i - 1, SM.RaiseView(1));
      }
    }
  }

  lemma FreshIsGenuine(net: Setting)
    ensures NetInv(net.cfg, InitSystem(net))
  {
  }

  /** For every run of hosts there is a run of module Protocol that goes through its worlds, at the
      moments `marks`, under the same law. */
  lemma {:induction false} HostsAreWorlds(law: Law, net: Setting, run: Systems, k: nat) returns (worlds: Worlds, marks: seq<nat>)
    requires HostLaw(law) && SystemRun(law, net, run) && k < |run|
    ensures Run(law, net.cfg, worlds) && Last(worlds) == WorldOf(run[k]) && NetInv(net.cfg, run[k])
    ensures |marks| == k + 1 && forall j :: 0 <= j <= k ==> marks[j] < |worlds| && worlds[marks[j]] == WorldOf(run[j])
    decreases k
  {
    hide Run, NetInv, WorldOf, NextSystem, InitSystem;
    if k == 0 {
      worlds := FreshWorlds(law, net);
      marks := [|worlds| - 1];
    } else {
      var before, earlier := HostsAreWorlds(law, net, run, k - 1);
      worlds := NextIsWorlds(law, net, run[k - 1], run[k], before);
      marks := earlier + [|worlds| - 1];
    }
  }

  lemma FreshWorlds(law: Law, net: Setting) returns (worlds: Worlds)
    requires HostLaw(law)
    ensures Run(law, net.cfg, worlds) && Last(worlds) == WorldOf(InitSystem(net)) && NetInv(net.cfg, InitSystem(net))
  {
    hide Run, NetInv, InitWorld;
    worlds := HostsComeUp(law, net, net.cfg.n);
    FreshIsGenuine(net);
    assert Last(worlds) == WorldOf(InitSystem(net));
  }

  lemma NextIsWorlds(law: Law, net: Setting, sys: System, sys': System, worlds: Worlds) returns (longer: Worlds)
    requires HostLaw(law) && NextSystem(law, net, sys, sys') && NetInv(net.cfg, sys)
    requires Run(law, net.cfg, worlds) && Last(worlds) == WorldOf(sys)
    ensures Run(law, net.cfg, longer) && Last(longer) == WorldOf(sys') && NetInv(net.cfg, sys') && worlds <= longer
  {
    hide Run, NetInv, WorldOf, Moved, Handles, Arrives, Demands;
    var move := MoveOf(law, net, sys, sys');
    longer := HappeningGoesOn(law, net, sys, move.host, move.call, move.pm, move.io, worlds);
  }

  // ---------------------------------------------------------------- so hosts agree

  /** Two executions of correct hosts, at any times. */
  lemma HostsAgree(net: Setting, run: Systems, p: nat, q: nat, i: ReplicaId, j: ReplicaId, a: Execution, b: Execution)
    requires net.cfg.Valid() && SystemRun(SafeVotes, net, run) && p < |run| && q < |run| && Correct(net.cfg, i) && Correct(net.cfg, j)
    requires i < |run[p]| && a in run[p][i].executed
    requires j < |run[q]| && b in run[q][j].executed
    ensures a.bottom.height <= b.bottom.height && HeightConsecutive(a) ==> Extends(Hash(b.bottom), Hash(a.bottom))
    ensures HeightConsecutive(a) && HeightConsecutive(b) ==> !Conflicting(Hash(a.bottom), Hash(b.bottom))
  {
    hide SystemRun, Run, HeightConsecutive, Extends, Conflicting, NetInv, Config.Valid;
    var worlds, marks := HostsAreWorlds(SafeVotes, net, run, |run| - 1);
    ExecutionsAgree(net.cfg, worlds, marks[p], marks[q], i, j, a, b);
  }
}
