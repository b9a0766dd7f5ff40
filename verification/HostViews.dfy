/** How hosts move from view to view: a completed set of votes takes a leader into the next view,
    whoever enters a view tells its leader the highest certificate, and a leader proposes on none
    lower than it has been told. */
module HostViews {
  import opened HsData
  import opened StorageModel
  import opened MachineClass
  import opened PacemakerSteps
  import opened Protocol
  import opened HostEvents
  import opened Network
  import opened HostLeaders
  import opened PromptHosts
  import opened HostOutputs
  import SM = SafetyMachine
  import RI = ReplicaInvariants
  import P = Pacing

  // ---------------------------------------------------------------- a quorum moves its leader on

  lemma {:induction false} HostViewsAgree(law: Law, net: Setting, run: Systems, moves: seq<Move>, k: nat, i: ReplicaId)
    requires TracedRun(law, net, run, moves) && k < |run| && Correct(net.cfg, i)
    ensures |run[k]| == net.cfg.n && ViewsAgree(run[k][i].pm, run[k][i].io)
    decreases k
  {
    hide Handles, Arrives, Demands, ReplicaSteps, P.GateOpen;
    if k > 0 {
      HostViewsAgree(law, net, run, moves, k - 1, i);
      assert Made(law, net, run[k - 1], moves[k - 1], run[k]);
      var st, move := run[k - 1][i], moves[k - 1];
      if move.host == i {
        HandlersKeepViews(HostOf(net, i), st.pm, Popped(st.io, move.call), move.call, move.pm, move.io);
      }
    }
  }

  /** A vote that completes a set: at every later moment this waits to be acted on, or the host has
      left the view. */
  lemma QuorumsMoveOn(law: Law, net: Setting, run: Systems, moves: seq<Move>, j: nat, k: nat)
    requires TracedRun(law, net, run, moves) && j < k < |run|
    requires moves[j].host < |run[j]| && moves[j].call.PeerVote? && moves[j].call.kit.Some?
    requires var call := moves[j].call;
             SM.FormsQc(run[j][moves[j].host].io.machine, net.cfg.n, SM.RecvSign(call.from, call.prop, call.kit.value))
    ensures var i := moves[j].host; var view := run[j][i].pm.view;
            i < |run[k]| && (ProposalReachConsensus(view) in run[k][i].io.ready || run[k][i].pm.view > view)
  {
    hide Handles, Demands, Arrives, ReplicaSteps, SM.FormsQc, InitSystem;
    var i, call := moves[j].host, moves[j].call;
    var st := run[j][i];
    assert Made(law, net, run[j], moves[j], run[j + 1]);
    HostViewsAgree(law, net, run, moves, j, i);
    VoteIsReportedIff(HostOf(net, i), st.pm, st.io, call.from, call.prop, call.kit.value, moves[j].pm, moves[j].io);
    assert run[j + 1][i].io.ready[|st.io.ready|] == ProposalReachConsensus(st.pm.view);
    OutputsAreHeeded(law, net, run, moves, j + 1, k, i, ProposalReachConsensus(st.pm.view));
  }

  // ---------------------------------------------------------------- announcements carry the highest certificate

  /** Move `m` takes host `i` into another view. */
  ghost predicate EntersAt(run: Systems, moves: seq<Move>, i: ReplicaId, m: nat)
    requires |run| == |moves| + 1
  {
    && m < |moves| && moves[m].host == i < |run[m]| && i < |run[m + 1]|
    && run[m][i].pm.view < run[m + 1][i].pm.view
  }

  /** What a message says of its sender's view and certificate was so when the view was entered. */
  ghost predicate Truthful(net: Setting, run: Systems, moves: seq<Move>, i: ReplicaId, k: nat, message: PeerEvent)
    requires |run| == |moves| + 1
  {
    match message
    case SendNewView(to, view, qc) =>
      && to == net.leaderOf(view)
      && (|| (view == 1 && qc == INIT_QC)
          || exists m :: 0 <= m < k && EntersAt(run, moves, i, m) && run[m + 1][i].pm.view == view
                         && run[m][i].io.machine.storage.state.qcHigh == qc)
    case SendTimeout(tc) =>
      exists m :: 0 <= m < k && EntersAt(run, moves, i, m)
                  && tc == Partial(run[m][i].pm.view, i, run[m][i].io.machine.storage.state.qcHigh)
    case _ => true
  }

  /** One move: the host stays in its view and announces nothing, or it enters a later one and sends
      both messages. */
  lemma MoveEnters(law: Law, net: Setting, sys: System, move: Move, sys': System, i: ReplicaId) returns (a: nat)
    requires Made(law, net, sys, move, sys') && Correct(net.cfg, i)
    ensures |sys| == |sys'| == net.cfg.n
    ensures || StaysInView(sys[i].pm, sys[i].io, sys'[i].pm, sys'[i].io)
            || (move.host == i && EntersView(HostOf(net, i), sys[i].pm, sys[i].io, sys'[i].pm, sys'[i].io, a))
  {
    hide Handles, Arrives, Demands, ReplicaSteps, P.GateOpen;
    a := 0;
    if move.host == i {
      a := CallEnters(HostOf(net, i), sys[i].pm, Popped(sys[i].io, move.call), move.call, move.pm, move.io);
    }
  }

  /** All that a correct host has announced, at every moment of every run. */
  lemma {:induction false} AnnouncementsAreTruthful(law: Law, net: Setting, run: Systems, moves: seq<Move>, k: nat, i: ReplicaId, b: nat)
    requires TracedRun(law, net, run, moves) && k < |run| && Correct(net.cfg, i)
    requires i < |run[k]| && b < |run[k][i].io.outbox|
    ensures Truthful(net, run, moves, i, k, run[k][i].io.outbox[b])
    decreases k
  {
    hide Made, AnnouncesOnlyAt, Truthful;
    if k == 0 {
      FirstAnnouncement(net, run, moves, i, b);
    } else {
      var message := run[k][i].io.outbox[b];
      assert Made(law, net, run[k - 1], moves[k - 1], run[k]);
      var a := MoveEnters(law, net, run[k - 1], moves[k - 1], run[k], i);
      OutboxesGrow(law, net, run, moves, k - 1, k, i);
      if b < |run[k - 1][i].io.outbox| {
        AnnouncementsAreTruthful(law, net, run, moves, k - 1, i, b);
        StillTruthful(net, run, moves, i, k - 1, message);
      } else {
        NewIsTruthful(net, run, moves, i, k - 1, a, b);
      }
    }
  }

  lemma FirstAnnouncement(net: Setting, run: Systems, moves: seq<Move>, i: ReplicaId, b: nat)
    requires |run| == |moves| + 1 && run[0] == InitSystem(net) && Correct(net.cfg, i) && b < |run[0][i].io.outbox|
    ensures Truthful(net, run, moves, i, 0, run[0][i].io.outbox[b])
  {
  }

  lemma StillTruthful(net: Setting, run: Systems, moves: seq<Move>, i: ReplicaId, k: nat, message: PeerEvent)
    requires |run| == |moves| + 1 && Truthful(net, run, moves, i, k, message)
    ensures Truthful(net, run, moves, i, k + 1, message)
  {
    hide EntersAt;
  }

  lemma NewIsTruthful(net: Setting, run: Systems, moves: seq<Move>, i: ReplicaId, k: nat, a: nat, b: nat)
    requires |run| == |moves| + 1 && k < |moves| && |run[k]| == |run[k + 1]| == net.cfg.n && i < net.cfg.n
    requires var st, st' := run[k][i], run[k + 1][i];
             || StaysInView(st.pm, st.io, st'.pm, st'.io)
             || (moves[k].host == i && EntersView(HostOf(net, i), st.pm, st.io, st'.pm, st'.io, a))
    requires |run[k][i].io.outbox| <= b < |run[k + 1][i].io.outbox|
    ensures Truthful(net, run, moves, i, k + 1, run[k + 1][i].io.outbox[b])
  {
    assert run[k][i].pm.view < run[k + 1][i].pm.view && moves[k].host == i ==> EntersAt(run, moves, i, k);
  }

  /** And every view that a correct host is in has been announced to its leader. */
  lemma {:induction false} ViewsAreAnnounced(law: Law, net: Setting, run: Systems, moves: seq<Move>, k: nat, i: ReplicaId) returns (b: nat)
    requires TracedRun(law, net, run, moves) && k < |run| && Correct(net.cfg, i)
    ensures |run[k]| == net.cfg.n && b < |run[k][i].io.outbox|
    ensures var message := run[k][i].io.outbox[b];
            message.SendNewView? && message.view == run[k][i].pm.view && message.to == net.leaderOf(message.view)
    decreases k
  {
    hide Made;
    if k == 0 {
      FirstViewIsAnnounced(net, i);
      b := 0;
    } else {
      assert Made(law, net, run[k - 1], moves[k - 1], run[k]);
      b := ViewsAreAnnounced(law, net, run, moves, k - 1, i);
      OutboxesGrow(law, net, run, moves, k - 1, k, i);
      var a := MoveEnters(law, net, run[k - 1], moves[k - 1], run[k], i);
      b := if run[k][i].pm.view > run[k - 1][i].pm.view then a + 1 else b;
    }
  }

  lemma FirstViewIsAnnounced(net: Setting, i: ReplicaId)
    requires Correct(net.cfg, i)
    ensures |InitSystem(net)| == net.cfg.n && InitSystem(net)[i].pm.view == 1
    ensures InitSystem(net)[i].io.outbox == [SendNewView(net.leaderOf(1), 1, INIT_QC)]
  {
  }

  // ---------------------------------------------------------------- certificates do not fall

  lemma {:induction false} LawfulIsTame(law: Law, cfg: Config, i: ReplicaId, r: Replica, events: seq<SM.Event>)
    requires (law == SafeVotes || law == HandedInTime) && Demands(law, cfg, i, r, events) && RI.Inv(r.machine.storage)
    ensures var t := ReplicaSteps(cfg, i, r, events).machine.storage; RI.Inv(t) && RI.Advances(r.machine.storage.state, t.state)
    decreases |events|
  {
    hide RI.Inv, RI.Advances, SM.Step, SignedBy, ExecutedBy, SafeVote, RisingVote, SM.UnanimousVote, RI.Tame, Orderly, SM.LeafVote;
    RI.StandingStill(r.machine.storage.state);
    if events != [] {
      var next := ReplicaStep(cfg, i, r, events[0]);
      DemandIsTame(law, cfg, r, events[0]);
      RI.StepKeepsInv(r.machine, cfg.n, i, events[0]);
      LawfulIsTame(law, cfg, i, next, events[1..]);
      RI.MovingOn(r.machine.storage.state, next.machine.storage.state,
                  ReplicaSteps(cfg, i, next, events[1..]).machine.storage.state);
    }
  }

  lemma DemandIsTame(law: Law, cfg: Config, r: Replica, event: SM.Event)
    requires (law == SafeVotes || law == HandedInTime) && Demand(law, cfg, r, event)
    ensures RI.Tame(cfg.n, r.machine, event)
  {
    hide SM.Signs, SM.LeafVote, SafeVote, RisingVote, SM.UnanimousVote, Adopts, SM.VerifyProposal;
  }

  lemma {:induction false} HostsStayTame(law: Law, net: Setting, run: Systems, moves: seq<Move>, k: nat, i: ReplicaId)
    requires (law == SafeVotes || law == HandedInTime) && TracedRun(law, net, run, moves) && k < |run| && Correct(net.cfg, i)
    ensures |run[k]| == net.cfg.n && RI.Inv(run[k][i].io.machine.storage)
    decreases k
  {
    hide Made, RI.Inv;
    if k == 0 {
      FreshIsTame(net, i);
    } else {
      HostsStayTame(law, net, run, moves, k - 1, i);
      assert Made(law, net, run[k - 1], moves[k - 1], run[k]);
      MoveIsTame(law, net, run[k - 1], moves[k - 1], run[k], i);
    }
  }

  lemma FreshIsTame(net: Setting, i: ReplicaId)
    requires Correct(net.cfg, i)
    ensures |InitSystem(net)| == net.cfg.n && RI.Inv(InitSystem(net)[i].io.machine.storage)
  {
  }

  lemma MoveIsTame(law: Law, net: Setting, sys: System, move: Move, sys': System, i: ReplicaId)
    requires (law == SafeVotes || law == HandedInTime) && Made(law, net, sys, move, sys') && Correct(net.cfg, i)
    requires i < |sys| && RI.Inv(sys[i].io.machine.storage)
    ensures |sys| == |sys'| == net.cfg.n && RI.Inv(sys'[i].io.machine.storage)
    ensures RI.Advances(sys[i].io.machine.storage.state, sys'[i].io.machine.storage.state)
  {
    hide Handles, Arrives, Demands, ReplicaSteps, RI.Inv, RI.Advances, EventsOf, P.GateOpen;
    RI.StandingStill(sys[i].io.machine.storage.state);
    if move.host == i {
      var r, events := ReplicaOf(sys[i]), CallEvents(net, sys[i], i, move.call, move.pm);
      LawfulIsTame(law, net.cfg, i, r, events);
      StepsOfReplica(net.cfg, i, r, events);
      HandlersAreSteps(HostOf(net, i), sys[i].pm, Popped(sys[i].io, move.call), move.call, move.pm, move.io);
    }
  }

  lemma {:induction false} CertificatesDoNotFall(law: Law, net: Setting, run: Systems, moves: seq<Move>, j: nat, k: nat, i: ReplicaId)
    requires (law == SafeVotes || law == HandedInTime) && TracedRun(law, net, run, moves) && j <= k < |run| && Correct(net.cfg, i)
    ensures |run[j]| == |run[k]| == net.cfg.n
    ensures RI.Advances(run[j][i].io.machine.storage.state, run[k][i].io.machine.storage.state)
    decreases k - j
  {
    hide Made, RI.Inv, RI.Advances;
    HostsStayTame(law, net, run, moves, k, i);
    if j == k {
      RI.StandingStill(run[j][i].io.machine.storage.state);
    } else {
      CertificatesDoNotFall(law, net, run, moves, j, k - 1, i);
      HostsStayTame(law, net, run, moves, k - 1, i);
      assert Made(law, net, run[k - 1], moves[k - 1], run[k]);
      MoveIsTame(law, net, run[k - 1], moves[k - 1], run[k], i);
      RI.MovingOn(run[j][i].io.machine.storage.state, run[k - 1][i].io.machine.storage.state, run[k][i].io.machine.storage.state);
    }
  }

  // ---------------------------------------------------------------- a leader proposes on what it was told

  /** A new-view message whose node is stored: the certificate that is held then is not lower. */
  lemma ToldIsHeld(host: Host, pm: P.Pacemaker, io: Surroundings, from: ReplicaId, view: ViewNumber, qc: GenericQC,
                   pm': P.Pacemaker, io': Surroundings)
    requires Handles(host, pm, io, PeerNewView(from, view, qc), pm', io')
    requires io.machine.storage.state.qcHigh.node in io.machine.storage.nodes && qc.node in io.machine.storage.nodes
    ensures HeightOf(io'.machine.storage.state.qcHigh.node) >= HeightOf(qc.node)
  {
    hide OutcomeOf;
    assert Hash(io.machine.storage.nodes[qc.node]) == qc.node;
  }

  /** Move `j` brings host `i` the certificate, and its node is stored. */
  ghost predicate ToldAt(run: Systems, moves: seq<Move>, i: ReplicaId, j: nat, from: ReplicaId, view: ViewNumber, qc: GenericQC)
    requires |run| == |moves| + 1
  {
    && j < |moves| && moves[j].host == i < |run[j]| && moves[j].call == PeerNewView(from, view, qc)
    && qc.node in run[j][i].io.machine.storage.nodes
  }

  /** In every lawful run: what a host proposes is on a certificate that is not lower than any it was
      told before and whose node it had, however long ago; and what a correct peer told it is the
      certificate that peer held when it entered the view. */
  lemma LeadersProposeOnHighest(law: Law, net: Setting, run: Systems, moves: seq<Move>, i: ReplicaId, j: nat, k: nat,
                                from: ReplicaId, view: ViewNumber, qc: GenericQC, present: ViewNumber)
    requires (law == SafeVotes || law == HandedInTime) && TracedRun(law, net, run, moves) && Correct(net.cfg, i) && j < k
    requires ToldAt(run, moves, i, j, from, view, qc) && PassesGate(net, run, moves, i, k, present)
    ensures i < |run[k + 1]| && HeightOf(run[k + 1][i].io.machine.storage.state.leaf.justify.node) >= HeightOf(qc.node)
    ensures Correct(net.cfg, from) ==>
              && net.leaderOf(view) == i
              && (|| (view == 1 && qc == INIT_QC)
                  || exists m :: 0 <= m < j && EntersAt(run, moves, from, m) && run[m + 1][from].pm.view == view
                                 && run[m][from].io.machine.storage.state.qcHigh == qc)
  {
    hide Handles, Demands, Moved, InitSystem, RI.Inv, P.GateOpen, EntersAt, RI.Advances;
    assert Made(law, net, run[j], moves[j], run[j + 1]) && Made(law, net, run[k], moves[k], run[k + 1]);
    HostsStayTame(law, net, run, moves, j, i);
    ToldStays(law, net, run[j], moves[j], run[j + 1], i, from, view, qc);
    CertificatesDoNotFall(law, net, run, moves, j + 1, k, i);
    HigherThen(run[j + 1][i].io.machine.storage.state, run[k][i].io.machine.storage.state);
    PassIsQueued(law, net, run[k], moves[k], run[k + 1]);
    if Correct(net.cfg, from) {
      var b :| 0 <= b < |run[j][from].io.outbox| && run[j][from].io.outbox[b] == SendNewView(i, view, qc);
      AnnouncementsAreTruthful(law, net, run, moves, j, from, b);
    }
  }

  lemma HigherThen(a: InMemoryState, b: InMemoryState)
    requires RI.Advances(a, b)
    ensures HeightOf(a.qcHigh.node) <= HeightOf(b.qcHigh.node)
  {
  }

  lemma ToldStays(law: Law, net: Setting, sys: System, move: Move, sys': System, i: ReplicaId, from: ReplicaId, view: ViewNumber, qc: GenericQC)
    requires Made(law, net, sys, move, sys') && Correct(net.cfg, i) && move.host == i && move.call == PeerNewView(from, view, qc)
    requires |sys| == net.cfg.n && RI.Inv(sys[i].io.machine.storage) && qc.node in sys[i].io.machine.storage.nodes
    ensures |sys'| == net.cfg.n && HeightOf(sys'[i].io.machine.storage.state.qcHigh.node) >= HeightOf(qc.node)
  {
    hide Handles, Demands, Arrives, ReplicaSteps;
    ToldIsHeld(HostOf(net, i), sys[i].pm, sys[i].io, from, view, qc, move.pm, move.io);
  }
}
