/** How often hosts ask for branches: every request in an outbox opened a synchronisation of its own,
    so between two of them the pacemaker was back to idle. */
module HostRequests {
  import opened HsData
  import opened MachineClass
  import opened PacemakerSteps
  import opened Protocol
  import opened HostEvents
  import opened Network
  import opened HostLeaders
  import P = Pacing

  /** How many requests are among the messages. */
  function Requests(outbox: seq<PeerEvent>): nat {
    if outbox == [] then 0
    else Requests(outbox[..|outbox| - 1]) + if outbox[|outbox| - 1].SendBranchSyncRequest? then 1 else 0
  }

  /** How often a synchronisation was opened. */
  function Opened(syncs: seq<bool>): nat {
    if syncs == [] then 0 else Opened(syncs[..|syncs| - 1]) + if syncs[|syncs| - 1] then 1 else 0
  }

  lemma OneMoreMessage(outbox: seq<PeerEvent>, message: PeerEvent)
    ensures Requests(outbox + [message]) == Requests(outbox) + if message.SendBranchSyncRequest? then 1 else 0
  {
    assert (outbox + [message])[..|outbox|] == outbox;
  }

  lemma OneMoreSync(syncs: seq<bool>, sync: bool)
    ensures Opened(syncs + [sync]) == Opened(syncs) + if sync then 1 else 0
  {
    assert (syncs + [sync])[..|syncs|] == syncs;
  }

  /** Requests and openings go together. */
  ghost predicate Together(pm: P.Pacemaker, io: Surroundings, pm': P.Pacemaker, io': Surroundings) {
    Requests(io'.outbox) - Requests(io.outbox) == Opened(pm'.syncs) - Opened(pm.syncs)
  }

  lemma CheckedTogether(host: Host, pm: P.Pacemaker, io: Surroundings, leafHeight: ViewNumber, pm': P.Pacemaker, io': Surroundings)
    requires Checked(host, pm, io, leafHeight, pm', io')
    ensures Together(pm, io, pm', io')
  {
    hide P.IsTop, P.HandOrSync, HandedOrAsked, Together;
    if pm.pending != multiset{} {
      var top :| P.IsTop(pm.pending, top) && pm' == P.HandOrSync(pm, leafHeight, top) && io' == HandedOrAsked(host, pm, io, leafHeight, top);
      TopTogether(host, pm, io, leafHeight, top);
    } else {
      NothingTogether(pm, io);
    }
  }

  lemma NothingTogether(pm: P.Pacemaker, io: Surroundings)
    ensures Together(pm, io, pm, io)
  {
  }

  lemma TopTogether(host: Host, pm: P.Pacemaker, io: Surroundings, leafHeight: ViewNumber, top: P.Incoming)
    ensures Together(pm, io, P.HandOrSync(pm, leafHeight, top), HandedOrAsked(host, pm, io, leafHeight, top))
  {
    hide P.KeyOf, P.ViewOfKey, Emitted, Requests, Opened;
    EmittingSendsNothing(host, io, RecvProposal(top.from, top.prop));
    OneMoreMessage(io.outbox, SendBranchSyncRequest(host.leaderOf(pm.view), leafHeight));
    OneMoreSync(pm.syncs, true);
  }

  lemma EndedTogether(host: Host, pm: P.Pacemaker, io: Surroundings, leafHeight: ViewNumber, pm': P.Pacemaker, io': Surroundings)
    requires SyncEnded(host, pm, io, leafHeight, pm', io')
    ensures Together(pm, io, pm', io')
  {
    hide Checked, Requests, Opened;
    if pm.syncing {
      CheckedTogether(host, P.BackToIdle(pm), io, leafHeight, pm', io');
      OneMoreSync(pm.syncs, false);
    }
  }

  lemma TimeoutTogether(host: Host, pm: P.Pacemaker, io: Surroundings, timeoutView: ViewNumber, pm': P.Pacemaker, io': Surroundings)
    requires TimedOut(host, pm, io, timeoutView, pm', io')
    ensures Together(pm, io, pm', io')
  {
    hide SyncEnded, Requests, Opened;
    if timeoutView >= pm.view {
      var tc := TimeoutOf(host, pm, io);
      EndedTogether(host, P.GotoNewView(pm, timeoutView + 1), Entered(host, Reported(io, tc), timeoutView + 1),
                    io.machine.storage.state.leaf.height, pm', io');
      OneMoreMessage(io.outbox, SendTimeout(tc));
      OneMoreMessage(io.outbox + [SendTimeout(tc)],
                     SendNewView(host.leaderOf(timeoutView + 1), timeoutView + 1, io.machine.storage.state.qcHigh));
    }
  }

  lemma OutputTogether(host: Host, pm: P.Pacemaker, io: Surroundings, ready: Ready, pm': P.Pacemaker, io': Surroundings)
    requires Processed(host, pm, io, ready, pm', io')
    ensures Together(pm, io, pm', io')
  {
    hide SyncEnded, TimedOut, Requests, Opened;
    match ready
    case NewProposal(prop) => OneMoreMessage(io.outbox, SendNewProposal(prop));
    case Signature(to, prop, kit) =>
      OneMoreMessage(io.outbox, SendAcceptProposal(to, prop, kit));
      if to != host.id {
        TimeoutTogether(host, pm, io.(outbox := io.outbox + [SendAcceptProposal(to, prop, kit)]), prop.height, pm', io');
      }
    case BranchSyncDone(leaf) => EndedTogether(host, pm, io, leaf.height, pm', io');
    case ProposalReachConsensus(view) => TimeoutTogether(host, pm, io, view, pm', io');
    case _ =>
  }

  lemma CallTogether(host: Host, pm: P.Pacemaker, io: Surroundings, call: Call, pm': P.Pacemaker, io': Surroundings)
    requires Handles(host, pm, io, call, pm', io')
    ensures Together(pm, io, pm', io')
  {
    hide Checked, TimedOut, Processed, Emitted, IsBranch, Requests, Opened, P.GateOpen;
    match call
    case LocalTimeout(timeoutView) => TimeoutTogether(host, pm, io, timeoutView, pm', io');
    case PeerProposal(from, prop) =>
      CheckedTogether(host, P.RecvNewProposal(pm, P.Incoming(from, prop)), io, io.machine.storage.state.leaf.height, pm', io');
    case PeerVote(from, prop, kit) =>
      if kit.Some? {
        EmittingSendsNothing(host, io, RecvSign(from, prop, kit.value));
      }
    case PeerTimeout(tc) =>
      if GrantedView(io.machine.storage) > pm.view {
        TimeoutTogether(host, pm, Recorded(io, tc), GrantedView(io.machine.storage), pm', io');
      }
    case PeerSyncRequest(from, growFrom) =>
      var branch :| IsBranch(io.machine.storage.nodes, growFrom, branch)
                    && io' == io.(outbox := io.outbox + [SendBranchSyncResponse(from, branch)]);
      OneMoreMessage(io.outbox, SendBranchSyncResponse(from, branch));
    case PeerSyncResponse(branch) =>
      if branch.Some? {
        EmittingSendsNothing(host, io, BranchSync(branch.value));
      }
    case PeerNewView(from, view, qc) => EmittingSendsNothing(host, io, RecvNewViewMsg(qc));
    case Output(ready) => OutputTogether(host, pm, io, ready, pm', io');
    case Propose(_) =>
  }

  /** In every run of hosts a host has sent as many requests as it has opened synchronisations, and
      between any two openings it was back to idle. */
  lemma {:induction false} RequestsAreOpenings(law: Law, net: Setting, run: Systems, moves: seq<Move>, k: nat, i: ReplicaId)
    requires TracedRun(law, net, run, moves) && k < |run| && Correct(net.cfg, i)
    ensures |run[k]| == net.cfg.n && Requests(run[k][i].io.outbox) == Opened(run[k][i].pm.syncs)
    ensures P.Alternating(run[k][i].pm.syncs)
    decreases k
  {
    hide Made, Requests, Opened, P.Inv, P.Alternating;
    if k == 0 {
      FreshHasAskedNothing(net, i);
    } else {
      RequestsAreOpenings(law, net, run, moves, k - 1, i);
      assert Made(law, net, run[k - 1], moves[k - 1], run[k]);
      MoveTogether(law, net, run[k - 1], moves[k - 1], run[k], i);
    }
    var states, events, at := HostPaces(law, net, run, moves, i, k);
    PacesKeepsInv(net, run, moves, i, k, states, events, at);
  }

  lemma FreshHasAskedNothing(net: Setting, i: ReplicaId)
    requires Correct(net.cfg, i)
    ensures |InitSystem(net)| == net.cfg.n && Requests(InitSystem(net)[i].io.outbox) == 0 == Opened(InitSystem(net)[i].pm.syncs)
  {
  }

  lemma MoveTogether(law: Law, net: Setting, sys: System, move: Move, sys': System, i: ReplicaId)
    requires Made(law, net, sys, move, sys') && Correct(net.cfg, i)
    ensures |sys| == |sys'| == net.cfg.n && Together(sys[i].pm, sys[i].io, sys'[i].pm, sys'[i].io)
  {
    hide Handles, Arrives, Demands, ReplicaSteps, Requests, Opened, P.GateOpen;
    if move.host == i {
      CallTogether(HostOf(net, i), sys[i].pm, Popped(sys[i].io, move.call), move.call, move.pm, move.io);
    }
  }

  lemma PacesKeepsInv(net: Setting, run: Systems, moves: seq<Move>, i: ReplicaId, k: nat,
                      states: seq<P.Pacemaker>, events: seq<P.Event>, at: seq<nat>)
    requires |run| == |moves| + 1 && k < |run| && Paces(net, run, moves, i, k, states, events, at)
    ensures |run[k]| == net.cfg.n && i < net.cfg.n && P.Alternating(run[k][i].pm.syncs)
  {
    hide P.IsRun, EventOf, P.Alternating, P.Rising;
    P.RunKeepsInv(net.cfg.n, states, events, |events|);
  }
}
