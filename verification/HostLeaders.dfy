/** One proposal per view among hosts: a leader passes the gate once in a view if the network
    delivers no announcement of a correct host to it twice, and passes it again if the network
    does. */
module HostLeaders {
  import opened HsData
  import opened StorageModel
  import opened Quorums
  import opened MachineClass
  import opened PacemakerSteps
  import opened Protocol
  import opened HostEvents
  import opened Network
  import SM = SafetyMachine
  import P = Pacing

  // ---------------------------------------------------------------- a host announces rising views

  /** The announced views rise and none is above the present one. */
  ghost predicate Announces(pm: P.Pacemaker, outbox: seq<PeerEvent>) {
    && (forall a, b :: 0 <= a < b < |outbox| && outbox[a].SendNewView? && outbox[b].SendNewView? ==> outbox[a].view < outbox[b].view)
    && forall a :: 0 <= a < |outbox| && outbox[a].SendNewView? ==> outbox[a].view <= pm.view
  }

  /** A handler only adds to the outbox, and announcements keep rising. */
  ghost predicate GoesOnAnnouncing(pm: P.Pacemaker, io: Surroundings, pm': P.Pacemaker, io': Surroundings) {
    io.outbox <= io'.outbox && (Announces(pm, io.outbox) ==> Announces(pm', io'.outbox))
  }

  lemma EmittingSendsNothing(host: Host, io: Surroundings, event: SafetyEvent)
    ensures Emitted(host, io, event).outbox == io.outbox
  {
  }

  lemma CheckAnnounces(host: Host, pm: P.Pacemaker, io: Surroundings, leafHeight: ViewNumber, pm': P.Pacemaker, io': Surroundings)
    requires SyncEnded(host, pm, io, leafHeight, pm', io') || Checked(host, pm, io, leafHeight, pm', io')
    ensures GoesOnAnnouncing(pm, io, pm', io')
  {
    hide Checked, Emitted, P.KeyOf, P.ViewOfKey, P.CheckPendingProp, HandedIn;
    var was := if Checked(host, pm, io, leafHeight, pm', io') then pm else P.BackToIdle(pm);
    if Checked(host, was, io, leafHeight, pm', io') {
      var top := CheckedHands(host, was, io, leafHeight, pm', io');
      EmittingSendsNothing(host, io, RecvProposal(top.from, top.prop));
      CheckedIsPacing(host, was, io, leafHeight, pm', io');
      P.ChecksLeaveNewViews(was, leafHeight, pm');
    }
  }

  lemma EnteringAnnounces(host: Host, pm: P.Pacemaker, io: Surroundings, tc: TimeoutCertificate, view: ViewNumber)
    requires view > pm.view
    ensures GoesOnAnnouncing(pm, io, P.GotoNewView(pm, view), Entered(host, Reported(io, tc), view))
  {
  }

  lemma TimeoutAnnounces(host: Host, pm: P.Pacemaker, io: Surroundings, timeoutView: ViewNumber, pm': P.Pacemaker, io': Surroundings)
    requires TimedOut(host, pm, io, timeoutView, pm', io')
    ensures GoesOnAnnouncing(pm, io, pm', io')
  {
    hide SyncEnded, Announces, P.GotoNewView, Entered, Reported;
    if timeoutView >= pm.view {
      EnteringAnnounces(host, pm, io, TimeoutOf(host, pm, io), timeoutView + 1);
      CheckAnnounces(host, P.GotoNewView(pm, timeoutView + 1), Entered(host, Reported(io, TimeoutOf(host, pm, io)), timeoutView + 1),
                     io.machine.storage.state.leaf.height, pm', io');
    }
  }

  lemma OutputAnnounces(host: Host, pm: P.Pacemaker, io: Surroundings, ready: Ready, pm': P.Pacemaker, io': Surroundings)
    requires Processed(host, pm, io, ready, pm', io')
    ensures GoesOnAnnouncing(pm, io, pm', io')
  {
    hide SyncEnded, TimedOut;
    match ready
    case Signature(to, prop, kit) =>
      var sent := io.(outbox := io.outbox + [SendAcceptProposal(to, prop, kit)]);
      assert GoesOnAnnouncing(pm, io, pm, sent);
      if to != host.id {
        TimeoutAnnounces(host, pm, sent, prop.height, pm', io');
      }
    case BranchSyncDone(leaf) => CheckAnnounces(host, pm, io, leaf.height, pm', io');
    case ProposalReachConsensus(view) => TimeoutAnnounces(host, pm, io, view, pm', io');
    case _ =>
  }

  lemma CallAnnounces(host: Host, pm: P.Pacemaker, io: Surroundings, call: Call, pm': P.Pacemaker, io': Surroundings)
    requires Handles(host, pm, io, call, pm', io')
    ensures GoesOnAnnouncing(pm, io, pm', io')
  {
    hide Checked, TimedOut, Processed, Handled, OutcomeOf, LeaderAfter, Queued, IsBranch, P.GateOpen;
    match call
    case LocalTimeout(timeoutView) => TimeoutAnnounces(host, pm, io, timeoutView, pm', io');
    case PeerProposal(from, prop) =>
      CheckAnnounces(host, P.RecvNewProposal(pm, P.Incoming(from, prop)), io, io.machine.storage.state.leaf.height, pm', io');
    case PeerTimeout(tc) =>
      if GrantedView(io.machine.storage) > pm.view {
        TimeoutAnnounces(host, pm, Recorded(io, tc), GrantedView(io.machine.storage), pm', io');
      }
    case Output(ready) => OutputAnnounces(host, pm, io, ready, pm', io');
    case _ =>
  }

  lemma MoveAnnounces(law: Law, net: Setting, sys: System, move: Move, sys': System, i: ReplicaId)
    requires Made(law, net, sys, move, sys') && Correct(net.cfg, i)
    ensures |sys| == |sys'| == net.cfg.n && sys[i].io.outbox <= sys'[i].io.outbox
    ensures Announces(sys[i].pm, sys[i].io.outbox) ==> Announces(sys'[i].pm, sys'[i].io.outbox)
  {
    hide Handles, Arrives, Demands, Announces, ReplicaSteps, P.GateOpen;
    if move.host == i {
      CallAnnounces(HostOf(net, i), sys[i].pm, Popped(sys[i].io, move.call), move.call, move.pm, move.io);
    }
  }

  lemma {:induction false} HostsAnnounceRising(law: Law, net: Setting, run: Systems, moves: seq<Move>, k: nat, i: ReplicaId)
    requires TracedRun(law, net, run, moves) && k < |run| && Correct(net.cfg, i)
    ensures |run[k]| == net.cfg.n && Announces(run[k][i].pm, run[k][i].io.outbox)
    decreases k
  {
    hide Made, Announces;
    if k == 0 {
      FreshAnnounces(net, i);
    } else {
      HostsAnnounceRising(law, net, run, moves, k - 1, i);
      assert Made(law, net, run[k - 1], moves[k - 1], run[k]);
      MoveAnnounces(law, net, run[k - 1], moves[k - 1], run[k], i);
    }
  }

  lemma FreshAnnounces(net: Setting, i: ReplicaId)
    requires Correct(net.cfg, i)
    ensures |InitSystem(net)| == net.cfg.n && Announces(InitSystem(net)[i].pm, InitSystem(net)[i].io.outbox)
  {
  }

  lemma {:induction false} OutboxesGrow(law: Law, net: Setting, run: Systems, moves: seq<Move>, j: nat, k: nat, i: ReplicaId)
    requires TracedRun(law, net, run, moves) && j <= k < |run| && Correct(net.cfg, i)
    ensures |run[j]| == |run[k]| == net.cfg.n && run[j][i].io.outbox <= run[k][i].io.outbox
    decreases k - j
  {
    hide Made;
    if j == k {
      HostsAnnounceRising(law, net, run, moves, k, i);
    } else {
      OutboxesGrow(law, net, run, moves, j, k - 1, i);
      assert Made(law, net, run[k - 1], moves[k - 1], run[k]);
      MoveAnnounces(law, net, run[k - 1], moves[k - 1], run[k], i);
    }
  }

  // ---------------------------------------------------------------- a host's moves are a run of module Pacing

  /** What the pacemaker of host `i` did up to moment `k`; event `e` was move `at[e]`. */
  ghost predicate Paces(net: Setting, run: Systems, moves: seq<Move>, i: ReplicaId, k: nat,
                        states: seq<P.Pacemaker>, events: seq<P.Event>, at: seq<nat>)
    requires |run| == |moves| + 1 && k < |run|
  {
    && P.IsRun(net.cfg.n, states, events) && |at| == |events| && |states| == |events| + 1
    && |run[k]| == net.cfg.n && i < net.cfg.n && states[|events|] == run[k][i].pm
    && (forall e :: 0 <= e < |at| ==> at[e] < k && EventOf(net, run, moves, i, states[e], events[e], at[e]))
    && (forall e, f :: 0 <= e < f < |at| ==> at[e] < at[f])
    && (forall m :: 0 <= m < k && moves[m].host == i && moves[m].call.Propose? ==> m in at)
  }

  ghost predicate EventOf(net: Setting, run: Systems, moves: seq<Move>, i: ReplicaId, pm: P.Pacemaker, event: P.Event, m: nat)
    requires |run| == |moves| + 1
  {
    && m < |moves| && moves[m].host == i < |run[m]| && pm == run[m][i].pm
    && (event.NewView? ==> moves[m].call == PeerNewView(event.from, event.view, event.qc))
    && (moves[m].call.Propose? ==> event == P.Propose)
  }

  lemma {:induction false} HostPaces(law: Law, net: Setting, run: Systems, moves: seq<Move>, i: ReplicaId, k: nat)
    returns (states: seq<P.Pacemaker>, events: seq<P.Event>, at: seq<nat>)
    requires TracedRun(law, net, run, moves) && k < |run| && Correct(net.cfg, i)
    ensures Paces(net, run, moves, i, k, states, events, at)
    decreases k
  {
    hide Made, P.Next, P.IsRun;
    if k == 0 {
      FreshPaces(net, i);
      states, events, at := [run[0][i].pm], [], [];
    } else {
      states, events, at := HostPaces(law, net, run, moves, i, k - 1);
      assert Made(law, net, run[k - 1], moves[k - 1], run[k]);
      var event := MoveIsPacing(law, net, run[k - 1], moves[k - 1], run[k], i);
      if moves[k - 1].host == i && (run[k][i].pm != run[k - 1][i].pm || moves[k - 1].call.Propose?) {
        PacesOn(net, run, moves, i, k - 1, states, events, at, event);
        states, events, at := states + [run[k][i].pm], events + [event], at + [k - 1];
      }
    }
  }

  lemma FreshPaces(net: Setting, i: ReplicaId)
    requires Correct(net.cfg, i)
    ensures |InitSystem(net)| == net.cfg.n && P.IsRun(net.cfg.n, [InitSystem(net)[i].pm], [])
  {
  }

  lemma PacesOn(net: Setting, run: Systems, moves: seq<Move>, i: ReplicaId, k: nat,
                states: seq<P.Pacemaker>, events: seq<P.Event>, at: seq<nat>, event: P.Event)
    requires |run| == |moves| + 1 && k < |moves| && Paces(net, run, moves, i, k, states, events, at)
    requires |run[k + 1]| == net.cfg.n && moves[k].host == i && P.Next(net.cfg.n, run[k][i].pm, event, run[k + 1][i].pm)
    requires EventOf(net, run, moves, i, run[k][i].pm, event, k)
    ensures Paces(net, run, moves, i, k + 1, states + [run[k + 1][i].pm], events + [event], at + [k])
  {
    hide P.IsRun, P.Next, EventOf;
    P.RunGoesOn(net.cfg.n, states, events, event, run[k + 1][i].pm);
  }

  lemma MoveIsPacing(law: Law, net: Setting, sys: System, move: Move, sys': System, i: ReplicaId) returns (event: P.Event)
    requires Made(law, net, sys, move, sys') && Correct(net.cfg, i)
    ensures |sys| == |sys'| == net.cfg.n && (move.host != i ==> sys'[i].pm == sys[i].pm)
    ensures move.host == i ==>
              && (sys'[i].pm == sys[i].pm || P.Next(net.cfg.n, sys[i].pm, event, sys'[i].pm))
              && (event.NewView? ==> move.call == PeerNewView(event.from, event.view, event.qc))
              && (move.call.Propose? ==> event == P.Propose && P.Next(net.cfg.n, sys[i].pm, event, sys'[i].pm))
  {
    hide Handles, Arrives, Demands, ReplicaSteps, P.Next, Queueing;
    event := P.Propose;
    if move.host == i {
      event := HandlersArePacing(HostOf(net, i), sys[i].pm, Popped(sys[i].io, move.call), move.call, move.pm, move.io);
    }
  }

  // ---------------------------------------------------------------- the gate

  ghost predicate FromReplicas(cfg: Config, moves: seq<Move>, i: ReplicaId) {
    forall k :: 0 <= k < |moves| && Announcement(moves[k], i) ==> moves[k].call.from < cfg.n
  }

  /** Host `i` gets announcements from the n hosts only, and none of a correct one twice. */
  ghost predicate AnnouncementsOnce(cfg: Config, moves: seq<Move>, i: ReplicaId) {
    && FromReplicas(cfg, moves, i)
    && forall j, k :: 0 <= j < k < |moves| && Announcement(moves[j], i) && Correct(cfg, moves[j].call.from) ==> !Again(moves[j], moves[k])
  }

  predicate Announcement(move: Move, i: ReplicaId) {
    move.host == i && move.call.PeerNewView?
  }

  /** The same message once more. */
  predicate Again(move: Move, later: Move) {
    later.host == move.host && later.call == move.call
  }

  ghost predicate PassesGate(net: Setting, run: Systems, moves: seq<Move>, i: ReplicaId, k: nat, view: ViewNumber)
    requires |run| == |moves| + 1
  {
    && k < |moves| && moves[k].host == i < |run[k]| && moves[k].call.Propose?
    && P.GateOpen(run[k][i].pm, net.cfg.n) && run[k][i].pm.view == view
  }

  /** Two announcements of one view by a correct host are one message. */
  lemma SameAnnouncement(law: Law, net: Setting, run: Systems, moves: seq<Move>, i: ReplicaId, j: nat, k: nat)
    requires TracedRun(law, net, run, moves) && j < k < |moves| && Correct(net.cfg, i)
    requires Announcement(moves[j], i) && Announcement(moves[k], i) && Correct(net.cfg, moves[j].call.from)
    requires moves[j].call.from == moves[k].call.from && moves[j].call.view == moves[k].call.view
    ensures Again(moves[j], moves[k])
  {
    hide Handles, Demands, Moved, InitSystem;
    var from, view := moves[j].call.from, moves[j].call.view;
    assert Made(law, net, run[j], moves[j], run[j + 1]) && Made(law, net, run[k], moves[k], run[k + 1]);
    OutboxesGrow(law, net, run, moves, j, k, from);
    HostsAnnounceRising(law, net, run, moves, k, from);
    var outbox := run[k][from].io.outbox;
    var a :| 0 <= a < |outbox| && outbox[a] == SendNewView(i, view, moves[j].call.qc);
    var b :| 0 <= b < |outbox| && outbox[b] == SendNewView(i, view, moves[k].call.qc);
  }

  lemma HostsAnnounceOnce(law: Law, net: Setting, run: Systems, moves: seq<Move>, i: ReplicaId,
                          states: seq<P.Pacemaker>, events: seq<P.Event>, at: seq<nat>)
    requires TracedRun(law, net, run, moves) && Correct(net.cfg, i) && AnnouncementsOnce(net.cfg, moves, i)
    requires Paces(net, run, moves, i, |moves|, states, events, at)
    ensures P.CorrectReplicasAnnounceOnce(net.cfg.n, events, net.cfg.faulty)
  {
    hide Made, P.IsRun;
    forall e | 0 <= e < |events| && events[e].NewView? ensures events[e].from < net.cfg.n {
      assert EventOf(net, run, moves, i, states[e], events[e], at[e]);
      assert Announcement(moves[at[e]], i);
    }
    forall e, f | 0 <= e < f < |events| && P.AnnouncedIn(events[e]).Arrival? && P.AnnouncedIn(events[e]) == P.AnnouncedIn(events[f])
      ensures P.AnnouncedIn(events[e]).from in net.cfg.faulty
    {
      assert EventOf(net, run, moves, i, states[e], events[e], at[e]) && EventOf(net, run, moves, i, states[f], events[f], at[f]);
      assert Announcement(moves[at[e]], i) && Announcement(moves[at[f]], i);
      if events[e].from !in net.cfg.faulty {
        SameAnnouncement(law, net, run, moves, i, at[e], at[f]);
      }
    }
  }

  /** In every run of hosts, whatever the law: no second pass in a view without a second delivery. */
  lemma OnePassPerView(law: Law, net: Setting, run: Systems, moves: seq<Move>, i: ReplicaId, j: nat, k: nat, view: ViewNumber)
    requires net.cfg.Valid() && TracedRun(law, net, run, moves) && Correct(net.cfg, i) && AnnouncementsOnce(net.cfg, moves, i)
    requires PassesGate(net, run, moves, i, j, view) && PassesGate(net, run, moves, i, k, view)
    ensures j == k
  {
    hide AnnouncementsOnce, P.IsRun, P.CorrectReplicasAnnounceOnce, P.ProposesIn, PassesGate, Made, InitSystem;
    var states, events, at := HostPaces(law, net, run, moves, i, |moves|);
    HostsAnnounceOnce(law, net, run, moves, i, states, events, at);
    var e := PassIsEvent(net, run, moves, i, states, events, at, j, view);
    var f := PassIsEvent(net, run, moves, i, states, events, at, k, view);
    P.OneProposalPerView(net.cfg.n, states, events, net.cfg.faulty, e, f, view);
  }

  lemma PassIsEvent(net: Setting, run: Systems, moves: seq<Move>, i: ReplicaId,
                    states: seq<P.Pacemaker>, events: seq<P.Event>, at: seq<nat>, k: nat, view: ViewNumber) returns (e: nat)
    requires |run| == |moves| + 1 && Paces(net, run, moves, i, |moves|, states, events, at)
    requires PassesGate(net, run, moves, i, k, view)
    ensures e < |events| && |states| == |events| + 1 && e < |at| && at[e] == k && P.ProposesIn(net.cfg.n, states, events, e, view)
  {
    hide P.IsRun, P.GateOpen;
    e :| 0 <= e < |at| && at[e] == k;
    assert EventOf(net, run, moves, i, states[e], events[e], at[e]);
  }

  // ---------------------------------------------------------------- delivered twice

  /** The certificate that every host starts with. */
  const FIRST_QC := InitStorage().state.qcHigh

  /** Host `i` leads view 1 and is still in it; all correct hosts have announced it to `i`. */
  ghost predicate InFirstView(net: Setting, sys: System, i: ReplicaId) {
    && |sys| == net.cfg.n && i < net.cfg.n && sys[i].pm.view == 1
    && forall j: ReplicaId :: Correct(net.cfg, j) ==> SendNewView(i, 1, FIRST_QC) in sys[j].io.outbox
  }

  function LastOf(run: Systems): System {
    run[|run| - 1]
  }

  lemma {:induction false} NothingDemanded(cfg: Config, i: ReplicaId, r: Replica, events: seq<SM.Event>)
    ensures Demands(Delivered, cfg, i, r, events)
    decreases |events|
  {
    hide ReplicaStep;
    if events != [] {
      NothingDemanded(cfg, i, ReplicaStep(cfg, i, r, events[0]), events[1..]);
    }
  }

  lemma TraceGoesOn(law: Law, net: Setting, run: Systems, moves: seq<Move>, move: Move, sys': System)
    requires TracedRun(law, net, run, moves) && Made(law, net, LastOf(run), move, sys')
    ensures TracedRun(law, net, run + [sys'], moves + [move])
  {
    hide Made, InitSystem;
  }

  lemma DeliverOne(net: Setting, run: Systems, moves: seq<Move>, i: ReplicaId, from: ReplicaId)
    returns (longer: Systems, more: seq<Move>)
    requires TracedRun(Delivered, net, run, moves) && Correct(net.cfg, i) && Correct(net.cfg, from) && InFirstView(net, LastOf(run), i)
    ensures TracedRun(Delivered, net, longer, more) && run <= longer && moves <= more && InFirstView(net, LastOf(longer), i)
    ensures var pm := LastOf(run)[i].pm; LastOf(longer)[i].pm == P.RecvNewView(pm, from, 1, FIRST_QC)
    ensures FromReplicas(net.cfg, moves, i) ==> FromReplicas(net.cfg, more, i)
  {
    hide Emitted, ReplicaSteps, Demands, TracedRun;
    var sys, call := LastOf(run), PeerNewView(from, 1, FIRST_QC);
    var st := sys[i];
    var pm', io' := P.RecvNewView(st.pm, from, 1, FIRST_QC), Emitted(HostOf(net, i), st.io, RecvNewViewMsg(FIRST_QC));
    NothingDemanded(net.cfg, i, ReplicaOf(st), CallEvents(net, st, i, call, pm'));
    EmittingSendsNothing(HostOf(net, i), st.io, RecvNewViewMsg(FIRST_QC));
    var move := Move(i, call, pm', io');
    var sys' := sys[i := Moved(net, st, i, call, pm', io')];
    assert Made(Delivered, net, sys, move, sys');
    TraceGoesOn(Delivered, net, run, moves, move, sys');
    longer, more := run + [sys'], moves + [move];
  }

  ghost predicate HeardBelow(net: Setting, sys: System, i: ReplicaId, k: nat) {
    i < |sys| && forall j: ReplicaId :: j < k && Correct(net.cfg, j) ==> j in P.NewViewSet(sys[i].pm.newViews, 1)
  }

  /** The announcements of all correct hosts below `k` are delivered. */
  lemma {:induction false} DeliverAll(net: Setting, run: Systems, moves: seq<Move>, i: ReplicaId, k: nat)
    returns (longer: Systems, more: seq<Move>)
    requires TracedRun(Delivered, net, run, moves) && Correct(net.cfg, i) && InFirstView(net, LastOf(run), i) && k <= net.cfg.n
    requires FromReplicas(net.cfg, moves, i)
    ensures TracedRun(Delivered, net, longer, more) && run <= longer && moves <= more && InFirstView(net, LastOf(longer), i)
    ensures HeardBelow(net, LastOf(longer), i, k) && FromReplicas(net.cfg, more, i)
    decreases k
  {
    hide TracedRun, FromReplicas;
    if k == 0 {
      longer, more := run, moves;
    } else {
      longer, more := DeliverAll(net, run, moves, i, k - 1);
      if Correct(net.cfg, k - 1) {
        var before := LastOf(longer);
        longer, more := DeliverOne(net, longer, more, i, k - 1);
        HeardOneMore(net, before, LastOf(longer), i, k - 1);
      }
    }
  }

  lemma HeardOneMore(net: Setting, sys: System, sys': System, i: ReplicaId, k: nat)
    requires HeardBelow(net, sys, i, k) && i < |sys'| && sys'[i].pm == P.RecvNewView(sys[i].pm, k, 1, FIRST_QC)
    ensures HeardBelow(net, sys', i, k + 1)
  {
  }

  lemma AllHeardOpensGate(net: Setting, sys: System, i: ReplicaId)
    requires net.cfg.Valid() && InFirstView(net, sys, i) && HeardBelow(net, sys, i, net.cfg.n)
    ensures P.GateOpen(sys[i].pm, net.cfg.n)
  {
    var correct, heard := Ids(net.cfg.n) - net.cfg.faulty, P.NewViewSet(sys[i].pm.newViews, 1);
    IdsSize(net.cfg.n);
    ThresholdIsNMinusF(net.cfg.n);
    assert correct <= heard.Keys;
    SubsetSize(correct, heard.Keys);
    assert |correct| == net.cfg.n - |net.cfg.faulty|;
    assert |heard| == |heard.Keys|;
  }

  lemma PassOnce(net: Setting, run: Systems, moves: seq<Move>, i: ReplicaId) returns (longer: Systems, more: seq<Move>)
    requires TracedRun(Delivered, net, run, moves) && Correct(net.cfg, i) && InFirstView(net, LastOf(run), i)
    requires P.GateOpen(LastOf(run)[i].pm, net.cfg.n)
    ensures TracedRun(Delivered, net, longer, more) && run <= longer && moves <= more && InFirstView(net, LastOf(longer), i)
    ensures |more| == |moves| + 1 && PassesGate(net, longer, more, i, |moves|, 1)
    ensures FromReplicas(net.cfg, moves, i) ==> FromReplicas(net.cfg, more, i)
  {
    hide ReplicaSteps, Demands, Made, P.GateOpen, SM.OnBeat, InitSystem;
    var sys, call := LastOf(run), Propose([]);
    var st := sys[i];
    var pm', io' := P.MakeNewProposal(st.pm, net.cfg.n), st.io.(machine := SM.OnBeat(st.io.machine, i, []));
    var move := Move(i, call, pm', io');
    var sys' := sys[i := Moved(net, st, i, call, pm', io')];
    PassIsMade(net, sys, i);
    TraceGoesOn(Delivered, net, run, moves, move, sys');
    longer, more := run + [sys'], moves + [move];
  }

  lemma PassIsMade(net: Setting, sys: System, i: ReplicaId)
    requires Correct(net.cfg, i) && |sys| == net.cfg.n && P.GateOpen(sys[i].pm, net.cfg.n)
    ensures var st := sys[i];
            var pm', io' := P.MakeNewProposal(st.pm, net.cfg.n), st.io.(machine := SM.OnBeat(st.io.machine, i, []));
            Made(Delivered, net, sys, Move(i, Propose([]), pm', io'), sys[i := Moved(net, st, i, Propose([]), pm', io')])
  {
    hide ReplicaSteps, Demands, P.GateOpen, SM.OnBeat, Moved;
    var st := sys[i];
    var pm' := P.MakeNewProposal(st.pm, net.cfg.n);
    NothingDemanded(net.cfg, i, ReplicaOf(st), CallEvents(net, st, i, Propose([]), pm'));
  }

  lemma FirstViewIsEntered(net: Setting, i: ReplicaId)
    requires Correct(net.cfg, i) && net.leaderOf(1) == i
    ensures TracedRun(Delivered, net, [InitSystem(net)], []) && InFirstView(net, InitSystem(net), i) && FromReplicas(net.cfg, [], i)
  {
  }

  /** In every setting with a correct leader of view 1: its peers' announcements are delivered to it,
      all of them once more, and it passes the gate twice in that view. */
  lemma SecondDeliverySecondPass(net: Setting, i: ReplicaId) returns (run: Systems, moves: seq<Move>, j: nat, k: nat)
    requires net.cfg.Valid() && Correct(net.cfg, i) && net.leaderOf(1) == i
    ensures TracedRun(Delivered, net, run, moves) && FromReplicas(net.cfg, moves, i)
    ensures j < k && PassesGate(net, run, moves, i, j, 1) && PassesGate(net, run, moves, i, k, 1)
    ensures !AnnouncementsOnce(net.cfg, moves, i)
  {
    hide InitSystem, Made, FromReplicas, AnnouncementsOnce, PassesGate, HeardBelow, InFirstView, P.GateOpen;
    FirstViewIsEntered(net, i);
    run, moves := [InitSystem(net)], [];
    run, moves := DeliverAll(net, run, moves, i, net.cfg.n);
    AllHeardOpensGate(net, LastOf(run), i);
    j := |moves|;
    run, moves := PassOnce(net, run, moves, i);
    var first, firstMoves := run, moves;
    run, moves := DeliverAll(net, run, moves, i, net.cfg.n);
    AllHeardOpensGate(net, LastOf(run), i);
    k := |moves|;
    run, moves := PassOnce(net, run, moves, i);
    PassStays(net, first, firstMoves, run, moves, i, j);
    if AnnouncementsOnce(net.cfg, moves, i) {
      OnePassPerView(Delivered, net, run, moves, i, j, k, 1);
    }
  }

  lemma PassStays(net: Setting, run: Systems, moves: seq<Move>, longer: Systems, more: seq<Move>, i: ReplicaId, k: nat)
    requires |run| == |moves| + 1 && |longer| == |more| + 1 && run <= longer && moves <= more && PassesGate(net, run, moves, i, k, 1)
    ensures PassesGate(net, longer, more, i, k, 1)
  {
    hide P.GateOpen;
  }
}
