/** What the pacemaker's handlers make the machine do, as a sequence of the machine's single
    steps. */
module HostEvents {
  import opened HsData
  import opened StorageModel
  import opened MachineClass
  import opened PacemakerSteps
  import SM = SafetyMachine
  import P = Pacing

  /** How many proposals of a branch are handled. */
  function Synced(s: Storage, branch: seq<TreeNode>): (k: nat)
    ensures k <= |branch|
    decreases |branch|
  {
    if branch == [] || !SM.VerifyProposal(s, branch[0].justify) then 0
    else 1 + Synced(SM.SyncProposal(s, branch[0]), branch[1..])
  }

  /** The proposal that was handed over, if one was. */
  function HandedIn(pm: P.Pacemaker, pm': P.Pacemaker): seq<SM.Event> {
    if |pm'.handed| > |pm.handed| then [SM.RecvProposal(pm'.handed[|pm.handed|].prop)] else []
  }

  function TimeoutEvents(host: Host, pm: P.Pacemaker, io: Surroundings, timeoutView: ViewNumber, pm': P.Pacemaker): seq<SM.Event> {
    if timeoutView >= pm.view then
      [SM.RecordTimeout(TimeoutOf(host, pm, io)), SM.RaiseView(timeoutView + 1)] + HandedIn(pm, pm')
    else []
  }

  function OutputEvents(host: Host, pm: P.Pacemaker, io: Surroundings, ready: Ready, pm': P.Pacemaker): seq<SM.Event> {
    match ready
    case UpdateQCHigh(node) => [SM.UpdateQcHighReady(node)]
    case Signature(to, prop, _) => if to != host.id then TimeoutEvents(host, pm, io, prop.height, pm') else []
    case BranchSyncDone(_) => HandedIn(pm, pm')
    case ProposalReachConsensus(view) => TimeoutEvents(host, pm, io, view, pm')
    case _ => []
  }

  /** The single steps of the machine in a call. */
  function EventsOf(host: Host, pm: P.Pacemaker, io: Surroundings, call: Call, pm': P.Pacemaker): seq<SM.Event> {
    match call
    case LocalTimeout(timeoutView) => TimeoutEvents(host, pm, io, timeoutView, pm')
    case PeerProposal(_, _) => HandedIn(pm, pm')
    case PeerVote(from, prop, kit) => if kit.Some? then [SM.RecvSign(from, prop, kit.value)] else []
    case PeerTimeout(tc) =>
      [SM.RecordTimeout(tc)]
      + if GrantedView(io.machine.storage) > pm.view then TimeoutEvents(host, pm, Recorded(io, tc), GrantedView(io.machine.storage), pm') else []
    case PeerSyncRequest(_, _) => []
    case PeerSyncResponse(branch) =>
      if branch.Some? then SM.Syncs(branch.value[..Synced(io.machine.storage, branch.value)]) else []
    case PeerNewView(_, _, qc) => [SM.RecvNewView(qc)]
    case Output(ready) => OutputEvents(host, pm, io, ready, pm')
    case Propose(payload) => if P.GateOpen(pm, host.total) then [SM.NewTx(payload)] else []
  }

  // ---------------------------------------------------------------- the machine does these steps

  lemma {:induction false} StepsInTurn(m: SM.MachineState, total: nat, self: ReplicaId, a: seq<SM.Event>, b: seq<SM.Event>)
    ensures SM.Steps(m, total, self, a + b) == SM.Steps(SM.Steps(m, total, self, a), total, self, b)
    decreases |a|
  {
    hide SM.Step;
    if a == [] {
      assert a + b == b;
    } else {
      assert (a + b)[0] == a[0] && (a + b)[1..] == a[1..] + b;
      StepsInTurn(SM.Step(m, total, self, a[0]), total, self, a[1..], b);
    }
  }

  lemma NoStep(m: SM.MachineState, total: nat, self: ReplicaId)
    ensures SM.Steps(m, total, self, []) == m
  {
  }

  lemma SingleStep(m: SM.MachineState, total: nat, self: ReplicaId, event: SM.Event)
    ensures SM.Steps(m, total, self, [event]) == SM.Step(m, total, self, event)
  {
    hide SM.Step;
    assert [event][1..] == [];
  }

  lemma {:induction false} SyncIsSteps(m: SM.MachineState, total: nat, self: ReplicaId, branch: seq<TreeNode>)
    ensures SM.Steps(m, total, self, SM.Syncs(branch[..Synced(m.storage, branch)])) == m.(storage := SM.OnBranchSync(m.storage, branch))
    decreases |branch|
  {
    hide SM.SyncProposal, SM.VerifyProposal;
    if branch != [] && SM.VerifyProposal(m.storage, branch[0].justify) {
      var m1 := m.(storage := SM.SyncProposal(m.storage, branch[0]));
      var k := Synced(m1.storage, branch[1..]);
      SyncIsSteps(m1, total, self, branch[1..]);
      assert SM.Syncs(branch[..k + 1])[1..] == SM.Syncs(branch[1..][..k]);
    }
  }

  /** A proposal that was handed over came from the heap, in time for a leaf of the given height. */
  lemma CheckedHands(host: Host, pm: P.Pacemaker, io: Surroundings, leafHeight: ViewNumber, pm': P.Pacemaker, io': Surroundings)
    returns (top: P.Incoming)
    requires Checked(host, pm, io, leafHeight, pm', io')
    ensures HandedIn(pm, pm') == [] ==> io' == io || exists to :: io' == io.(outbox := io.outbox + [SendBranchSyncRequest(to, leafHeight)])
    ensures HandedIn(pm, pm') != [] ==>
              && top in pm.pending && HandedIn(pm, pm') == [SM.RecvProposal(top.prop)]
              && io' == Emitted(host, io, RecvProposal(top.from, top.prop))
              && P.ViewOfKey(P.KeyOf(top)) <= leafHeight
    ensures pm'.pending <= pm.pending
  {
    hide P.HandOrSync, HandedOrAsked, HandedIn, P.KeyOf, P.ViewOfKey;
    if pm.pending == multiset{} {
      top := P.Incoming(0, INIT_NODE);
      NothingHanded(pm);
    } else {
      top :| P.IsTop(pm.pending, top) && pm' == P.HandOrSync(pm, leafHeight, top)
             && io' == HandedOrAsked(host, pm, io, leafHeight, top);
      TopIsHanded(host, pm, io, leafHeight, top);
    }
  }

  lemma NothingHanded(pm: P.Pacemaker)
    ensures HandedIn(pm, pm) == []
  {
  }

  lemma TopIsHanded(host: Host, pm: P.Pacemaker, io: Surroundings, leafHeight: ViewNumber, top: P.Incoming)
    ensures var pm', io' := P.HandOrSync(pm, leafHeight, top), HandedOrAsked(host, pm, io, leafHeight, top);
            && (HandedIn(pm, pm') == [] ==> io' == io || exists to :: io' == io.(outbox := io.outbox + [SendBranchSyncRequest(to, leafHeight)]))
            && (HandedIn(pm, pm') != [] ==>
                  && HandedIn(pm, pm') == [SM.RecvProposal(top.prop)] && io' == Emitted(host, io, RecvProposal(top.from, top.prop))
                  && P.ViewOfKey(P.KeyOf(top)) <= leafHeight)
            && pm'.pending <= pm.pending
  {
    hide Emitted, P.KeyOf, P.ViewOfKey;
  }

  lemma CheckedIsSteps(host: Host, pm: P.Pacemaker, io: Surroundings, leafHeight: ViewNumber, pm': P.Pacemaker, io': Surroundings)
    requires Checked(host, pm, io, leafHeight, pm', io')
    ensures io'.machine == SM.Steps(io.machine, host.total, host.id, HandedIn(pm, pm'))
  {
    hide Checked, SM.OnRecvProposal, SM.Steps, OutcomeOf, LeaderAfter, Queued;
    var top := CheckedHands(host, pm, io, leafHeight, pm', io');
    if HandedIn(pm, pm') == [] {
      NoStep(io.machine, host.total, host.id);
    } else {
      SingleStep(io.machine, host.total, host.id, SM.RecvProposal(top.prop));
    }
  }

  lemma SyncEndedIsSteps(host: Host, pm: P.Pacemaker, io: Surroundings, leafHeight: ViewNumber, pm': P.Pacemaker, io': Surroundings)
    requires SyncEnded(host, pm, io, leafHeight, pm', io')
    ensures io'.machine == SM.Steps(io.machine, host.total, host.id, HandedIn(pm, pm'))
  {
    hide Checked, SM.Steps;
    if pm.syncing {
      CheckedIsSteps(host, P.BackToIdle(pm), io, leafHeight, pm', io');
    } else {
      NoStep(io.machine, host.total, host.id);
    }
  }

  lemma TimedOutIsSteps(host: Host, pm: P.Pacemaker, io: Surroundings, timeoutView: ViewNumber, pm': P.Pacemaker, io': Surroundings)
    requires TimedOut(host, pm, io, timeoutView, pm', io')
    ensures io'.machine == SM.Steps(io.machine, host.total, host.id, TimeoutEvents(host, pm, io, timeoutView, pm'))
  {
    hide SyncEnded, SM.Steps;
    if timeoutView >= pm.view {
      var tc := TimeoutOf(host, pm, io);
      var left := Entered(host, Reported(io, tc), timeoutView + 1);
      SyncEndedIsSteps(host, P.GotoNewView(pm, timeoutView + 1), left, io.machine.storage.state.leaf.height, pm', io');
      LeavingIsSteps(host, io, tc, timeoutView + 1);
      StepsInTurn(io.machine, host.total, host.id, [SM.RecordTimeout(tc), SM.RaiseView(timeoutView + 1)], HandedIn(pm, pm'));
    } else {
      NoStep(io.machine, host.total, host.id);
    }
  }

  lemma LeavingIsSteps(host: Host, io: Surroundings, tc: TimeoutCertificate, view: ViewNumber)
    ensures Entered(host, Reported(io, tc), view).machine
            == SM.Steps(io.machine, host.total, host.id, [SM.RecordTimeout(tc), SM.RaiseView(view)])
  {
    hide SM.Steps;
    assert [SM.RecordTimeout(tc)] + [SM.RaiseView(view)] == [SM.RecordTimeout(tc), SM.RaiseView(view)];
    StepsInTurn(io.machine, host.total, host.id, [SM.RecordTimeout(tc)], [SM.RaiseView(view)]);
    SingleStep(io.machine, host.total, host.id, SM.RecordTimeout(tc));
    SingleStep(io.machine.(storage := AppendTc(io.machine.storage, tc)), host.total, host.id, SM.RaiseView(view));
  }

  lemma OutputIsSteps(host: Host, pm: P.Pacemaker, io: Surroundings, ready: Ready, pm': P.Pacemaker, io': Surroundings)
    requires Processed(host, pm, io, ready, pm', io')
    ensures io'.machine == SM.Steps(io.machine, host.total, host.id, OutputEvents(host, pm, io, ready, pm'))
  {
    hide SyncEnded, TimedOut, SM.Steps, SM.OnUpdateQcHighReady, TimeoutEvents, HandedIn;
    NoStep(io.machine, host.total, host.id);
    match ready
    case UpdateQCHigh(node) => SingleStep(io.machine, host.total, host.id, SM.UpdateQcHighReady(node));
    case Signature(to, prop, kit) =>
      if to != host.id {
        var sent := io.(outbox := io.outbox + [SendAcceptProposal(to, prop, kit)]);
        TimedOutIsSteps(host, pm, sent, prop.height, pm', io');
        SameTimeoutEvents(host, pm, io, sent, prop.height, pm');
      }
    case BranchSyncDone(leaf) => SyncEndedIsSteps(host, pm, io, leaf.height, pm', io');
    case ProposalReachConsensus(view) => TimedOutIsSteps(host, pm, io, view, pm', io');
    case _ =>
  }

  lemma SameTimeoutEvents(host: Host, pm: P.Pacemaker, io: Surroundings, sent: Surroundings, view: ViewNumber, pm': P.Pacemaker)
    requires sent.machine == io.machine
    ensures TimeoutEvents(host, pm, sent, view, pm') == TimeoutEvents(host, pm, io, view, pm')
  {
  }

  /** Every handler moves the machine by its events. */
  lemma HandlersAreSteps(host: Host, pm: P.Pacemaker, io: Surroundings, call: Call, pm': P.Pacemaker, io': Surroundings)
    requires Handles(host, pm, io, call, pm', io')
    ensures io'.machine == SM.Steps(io.machine, host.total, host.id, EventsOf(host, pm, io, call, pm'))
  {
    hide Checked, TimedOut, Processed, SM.Steps, TimeoutEvents, OutputEvents, HandedIn, SM.OnBranchSync, SM.OnRecvVote, SM.OnNewView,
         SM.OnBeat, OutcomeOf, LeaderAfter, Queued, Synced, SM.Syncs;
    var m := io.machine;
    NoStep(m, host.total, host.id);
    match call
    case LocalTimeout(timeoutView) => TimedOutIsSteps(host, pm, io, timeoutView, pm', io');
    case PeerProposal(from, prop) =>
      ReceiptIsSteps(host, pm, io, from, prop, pm', io');
    case PeerVote(from, prop, kit) =>
      if kit.Some? {
        SingleStep(m, host.total, host.id, SM.RecvSign(from, prop, kit.value));
      }
    case PeerTimeout(tc) => PeerTimeoutIsSteps(host, pm, io, tc, pm', io');
    case PeerSyncRequest(from, growFrom) =>
    case PeerSyncResponse(branch) =>
      if branch.Some? {
        SyncIsSteps(m, host.total, host.id, branch.value);
      }
    case PeerNewView(from, view, qc) => SingleStep(m, host.total, host.id, SM.RecvNewView(qc));
    case Output(ready) => OutputIsSteps(host, pm, io, ready, pm', io');
    case Propose(payload) => SingleStep(m, host.total, host.id, SM.NewTx(payload));
  }

  lemma ReceiptIsSteps(host: Host, pm: P.Pacemaker, io: Surroundings, from: ReplicaId, prop: TreeNode, pm': P.Pacemaker, io': Surroundings)
    requires Handles(host, pm, io, PeerProposal(from, prop), pm', io')
    ensures io'.machine == SM.Steps(io.machine, host.total, host.id, HandedIn(pm, pm'))
  {
    hide Checked, SM.Steps;
    CheckedIsSteps(host, P.RecvNewProposal(pm, P.Incoming(from, prop)), io, io.machine.storage.state.leaf.height, pm', io');
  }

  lemma PeerTimeoutIsSteps(host: Host, pm: P.Pacemaker, io: Surroundings, tc: TimeoutCertificate, pm': P.Pacemaker, io': Surroundings)
    requires Handles(host, pm, io, PeerTimeout(tc), pm', io')
    ensures io'.machine == SM.Steps(io.machine, host.total, host.id, EventsOf(host, pm, io, PeerTimeout(tc), pm'))
  {
    hide TimedOut, SM.Steps, TimeoutEvents;
    var view, m := GrantedView(io.machine.storage), io.machine;
    var more := if view > pm.view then TimeoutEvents(host, pm, Recorded(io, tc), view, pm') else [];
    SingleStep(m, host.total, host.id, SM.RecordTimeout(tc));
    StepsInTurn(m, host.total, host.id, [SM.RecordTimeout(tc)], more);
    if view > pm.view {
      TimedOutIsSteps(host, pm, Recorded(io, tc), view, pm', io');
    } else {
      NoStep(Recorded(io, tc).machine, host.total, host.id);
    }
  }
}
