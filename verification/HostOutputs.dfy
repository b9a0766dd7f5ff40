/** Nothing that a host has to say is lost: what its machine puts out is acted on or waits, its
    proposals and votes are sent, a completed set of votes moves it into the next view, and whoever
    enters a view tells its leader the highest certificate. */
module HostOutputs {
  import opened HsData
  import opened StorageModel
  import opened Voting
  import opened MachineClass
  import opened PacemakerSteps
  import opened Protocol
  import opened HostEvents
  import opened HostFetching
  import opened Network
  import opened HostLeaders
  import opened PromptHosts
  import SM = SafetyMachine
  import P = Pacing

  // ---------------------------------------------------------------- entering a view

  predicate Announcing(message: PeerEvent) {
    message.SendNewView? || message.SendTimeout?
  }

  /** The new messages, but for the two from place `a` on, are no announcements. */
  ghost predicate AnnouncesOnlyAt(outbox: seq<PeerEvent>, outbox': seq<PeerEvent>, a: nat) {
    outbox <= outbox' && forall b :: |outbox| <= b < |outbox'| && b != a && b != a + 1 ==> !Announcing(outbox'[b])
  }

  ghost predicate StaysInView(pm: P.Pacemaker, io: Surroundings, pm': P.Pacemaker, io': Surroundings) {
    pm'.view == pm.view && AnnouncesOnlyAt(io.outbox, io'.outbox, |io'.outbox|)
  }

  /** The view that is left is stored and broadcast as timed out, the leader of the one that is entered
      is told of it, and both messages carry the highest certificate of that moment. */
  ghost predicate EntersView(host: Host, pm: P.Pacemaker, io: Surroundings, pm': P.Pacemaker, io': Surroundings, a: nat) {
    && pm'.view > pm.view && |io.outbox| <= a && a + 1 < |io'.outbox| && AnnouncesOnlyAt(io.outbox, io'.outbox, a)
    && io'.outbox[a] == SendTimeout(Partial(pm.view, host.id, io.machine.storage.state.qcHigh))
    && Partial(pm.view, host.id, io.machine.storage.state.qcHigh) in io'.machine.storage.queues.partialTcs
    && io'.outbox[a + 1] == SendNewView(host.leaderOf(pm'.view), pm'.view, io.machine.storage.state.qcHigh)
  }

  lemma CheckStaysInView(host: Host, pm: P.Pacemaker, io: Surroundings, leafHeight: ViewNumber, pm': P.Pacemaker, io': Surroundings)
    requires SyncEnded(host, pm, io, leafHeight, pm', io') || Checked(host, pm, io, leafHeight, pm', io')
    ensures StaysInView(pm, io, pm', io')
  {
    hide Checked, Emitted, P.KeyOf, P.ViewOfKey, P.CheckPendingProp, HandedIn;
    var was := if Checked(host, pm, io, leafHeight, pm', io') then pm else P.BackToIdle(pm);
    if Checked(host, was, io, leafHeight, pm', io') {
      var top := CheckedHands(host, was, io, leafHeight, pm', io');
      EmittingSendsNothing(host, io, RecvProposal(top.from, top.prop));
      CheckedIsPacing(host, was, io, leafHeight, pm', io');
      P.ChecksLeaveNewViews(was, leafHeight, pm');
    }
  }

  lemma ProposalKeepsTimeouts(s: Storage, prop: TreeNode)
    ensures SM.OnRecvProposal(s, prop).queues.partialTcs == s.queues.partialTcs
  {
    hide ThreeChain, ConsecutiveThreeChain, Adopts, SM.Accepts, SM.VerifyProposal;
  }

  lemma CheckKeepsTimeouts(host: Host, pm: P.Pacemaker, io: Surroundings, leafHeight: ViewNumber, pm': P.Pacemaker, io': Surroundings)
    requires SyncEnded(host, pm, io, leafHeight, pm', io') || Checked(host, pm, io, leafHeight, pm', io')
    ensures io'.machine.storage.queues.partialTcs == io.machine.storage.queues.partialTcs
  {
    hide Checked, P.KeyOf, P.ViewOfKey, OutcomeOf, LeaderAfter, HandedIn, SM.OnRecvProposal;
    var was := if Checked(host, pm, io, leafHeight, pm', io') then pm else P.BackToIdle(pm);
    if Checked(host, was, io, leafHeight, pm', io') {
      var top := CheckedHands(host, was, io, leafHeight, pm', io');
      ProposalKeepsTimeouts(io.machine.storage, top.prop);
    }
  }

  /** A timeout of the present or a later view moves the host into the view after that one. */
  lemma TimeoutEnters(host: Host, pm: P.Pacemaker, io: Surroundings, timeoutView: ViewNumber, pm': P.Pacemaker, io': Surroundings)
    requires TimedOut(host, pm, io, timeoutView, pm', io')
    ensures if timeoutView >= pm.view then pm'.view == timeoutView + 1 && EntersView(host, pm, io, pm', io', |io.outbox|)
            else StaysInView(pm, io, pm', io')
  {
    hide SyncEnded;
    if timeoutView >= pm.view {
      var pm1, left := P.GotoNewView(pm, timeoutView + 1), Entered(host, Reported(io, TimeoutOf(host, pm, io)), timeoutView + 1);
      CheckStaysInView(host, pm1, left, io.machine.storage.state.leaf.height, pm', io');
      CheckKeepsTimeouts(host, pm1, left, io.machine.storage.state.leaf.height, pm', io');
    }
  }

  /** A timeout of a peer takes a host that is behind its own storage into the storage's view, and
      no host any further. */
  lemma PeerTimeoutCatchesUp(host: Host, pm: P.Pacemaker, io: Surroundings, tc: TimeoutCertificate, pm': P.Pacemaker, io': Surroundings)
    requires Handles(host, pm, io, PeerTimeout(tc), pm', io')
    ensures pm'.view == if io.machine.storage.state.view > pm.view + 1 then io.machine.storage.state.view else pm.view
    ensures tc.Partial? ==> tc in io'.machine.storage.queues.partialTcs
  {
    hide TimedOut;
    var view := GrantedView(io.machine.storage);
    var tcs := Recorded(io, tc).machine.storage.queues.partialTcs;
    assert tc.Partial? ==> tcs[|tcs| - 1] == tc && tc in tcs;
    if view > pm.view {
      TimeoutEnters(host, pm, Recorded(io, tc), view, pm', io');
      TimeoutKeepsTimeouts(host, pm, Recorded(io, tc), view, pm', io');
    }
  }

  lemma TimeoutKeepsTimeouts(host: Host, pm: P.Pacemaker, io: Surroundings, timeoutView: ViewNumber, pm': P.Pacemaker, io': Surroundings)
    requires TimedOut(host, pm, io, timeoutView, pm', io')
    ensures io.machine.storage.queues.partialTcs <= io'.machine.storage.queues.partialTcs
  {
    hide SyncEnded;
    if timeoutView >= pm.view {
      CheckKeepsTimeouts(host, P.GotoNewView(pm, timeoutView + 1), Entered(host, Reported(io, TimeoutOf(host, pm, io)), timeoutView + 1),
                         io.machine.storage.state.leaf.height, pm', io');
    }
  }

  /** Entering after something else was sent. */
  lemma SentBefore(host: Host, pm: P.Pacemaker, io: Surroundings, sent: Surroundings, pm': P.Pacemaker, io': Surroundings)
    requires sent.machine == io.machine && StaysInView(pm, io, pm, sent)
    ensures EntersView(host, pm, sent, pm', io', |sent.outbox|) ==> EntersView(host, pm, io, pm', io', |sent.outbox|)
    ensures StaysInView(pm, sent, pm', io') ==> StaysInView(pm, io, pm', io')
  {
  }

  lemma OutputEnters(host: Host, pm: P.Pacemaker, io: Surroundings, ready: Ready, pm': P.Pacemaker, io': Surroundings) returns (a: nat)
    requires Processed(host, pm, io, ready, pm', io')
    ensures StaysInView(pm, io, pm', io') || EntersView(host, pm, io, pm', io', a)
  {
    hide SyncEnded, TimedOut, EntersView, AnnouncesOnlyAt;
    a := |io.outbox|;
    SayingNothing(pm, io);
    match ready
    case NewProposal(prop) => SayingOneThing(pm, io, SendNewProposal(prop));
    case Signature(to, prop, kit) =>
      var sent := io.(outbox := io.outbox + [SendAcceptProposal(to, prop, kit)]);
      SayingOneThing(pm, io, SendAcceptProposal(to, prop, kit));
      if to != host.id {
        a := |sent.outbox|;
        TimeoutEnters(host, pm, sent, prop.height, pm', io');
        SentBefore(host, pm, io, sent, pm', io');
      }
    case BranchSyncDone(leaf) => CheckStaysInView(host, pm, io, leaf.height, pm', io');
    case ProposalReachConsensus(view) => TimeoutEnters(host, pm, io, view, pm', io');
    case _ => SaidNothing(pm, io, io');
  }

  lemma SayingNothing(pm: P.Pacemaker, io: Surroundings)
    ensures StaysInView(pm, io, pm, io)
  {
  }

  lemma SaidNothing(pm: P.Pacemaker, io: Surroundings, io': Surroundings)
    ensures io'.outbox == io.outbox ==> StaysInView(pm, io, pm, io')
  {
  }

  lemma SayingOneThing(pm: P.Pacemaker, io: Surroundings, message: PeerEvent)
    requires !Announcing(message)
    ensures StaysInView(pm, io, pm, io.(outbox := io.outbox + [message]))
  {
  }

  /** Every call leaves the host in its view, and then no view is announced and no timeout
      broadcast, or the host enters a later one. */
  lemma CallEnters(host: Host, pm: P.Pacemaker, io: Surroundings, call: Call, pm': P.Pacemaker, io': Surroundings) returns (a: nat)
    requires Handles(host, pm, io, call, pm', io')
    ensures StaysInView(pm, io, pm', io') || EntersView(host, pm, io, pm', io', a)
  {
    hide Checked, TimedOut, Processed, Emitted, IsBranch, EntersView, AnnouncesOnlyAt;
    a := |io.outbox|;
    SaidNothing(pm, io, io');
    match call
    case LocalTimeout(timeoutView) => TimeoutEnters(host, pm, io, timeoutView, pm', io');
    case PeerProposal(from, prop) =>
      CheckStaysInView(host, P.RecvNewProposal(pm, P.Incoming(from, prop)), io, io.machine.storage.state.leaf.height, pm', io');
    case PeerVote(from, prop, kit) =>
      if kit.Some? {
        EmittingSendsNothing(host, io, RecvSign(from, prop, kit.value));
      }
    case PeerTimeout(tc) =>
      if GrantedView(io.machine.storage) > pm.view {
        TimeoutEnters(host, pm, Recorded(io, tc), GrantedView(io.machine.storage), pm', io');
        SameCertificate(host, pm, io, tc, pm', io');
      }
    case PeerSyncRequest(from, growFrom) =>
      var branch :| IsBranch(io.machine.storage.nodes, growFrom, branch)
                    && io' == io.(outbox := io.outbox + [SendBranchSyncResponse(from, branch)]);
      SayingOneThing(pm, io, SendBranchSyncResponse(from, branch));
    case PeerSyncResponse(branch) =>
      if branch.Some? {
        EmittingSendsNothing(host, io, BranchSync(branch.value));
      }
    case PeerNewView(from, view, qc) => EmittingSendsNothing(host, io, RecvNewViewMsg(qc));
    case Output(ready) => a := OutputEnters(host, pm, io, ready, pm', io');
    case Propose(_) =>
  }

  lemma SameCertificate(host: Host, pm: P.Pacemaker, io: Surroundings, tc: TimeoutCertificate, pm': P.Pacemaker, io': Surroundings)
    ensures EntersView(host, pm, Recorded(io, tc), pm', io', |io.outbox|) ==> EntersView(host, pm, io, pm', io', |io.outbox|)
  {
  }

  // ---------------------------------------------------------------- an open synchronisation

  /** A proposal that waits is handed over if it is in time, and otherwise its branch is asked for, of
      the leader of the view that the host is in then; no synchronisation is open without one. */
  ghost predicate Resumes(host: Host, pm: P.Pacemaker, leafHeight: ViewNumber, pm': P.Pacemaker, io': Surroundings) {
    if pm.pending == multiset{} then !pm'.syncing && pm'.handed == pm.handed else
    exists top :: P.IsTop(pm.pending, top)
      && if top.prop.justify.view <= leafHeight
         then !pm'.syncing && pm'.handed == pm.handed + [top] && pm'.pending == pm.pending - multiset{top}
         else && pm'.syncing && pm'.handed == pm.handed && pm'.pending == pm.pending
              && SendBranchSyncRequest(host.leaderOf(pm'.view), leafHeight) in io'.outbox
  }

  lemma EndedSyncResumes(host: Host, pm: P.Pacemaker, io: Surroundings, leafHeight: ViewNumber, pm': P.Pacemaker, io': Surroundings)
    requires SyncEnded(host, pm, io, leafHeight, pm', io') && pm.syncing && Bounded(pm)
    ensures Resumes(host, pm, leafHeight, pm', io')
  {
    hide Emitted, P.IsTop, P.KeyOf, P.ViewOfKey;
    if pm.pending != multiset{} {
      var idle := P.BackToIdle(pm);
      var top :| P.IsTop(pm.pending, top) && pm' == P.HandOrSync(idle, leafHeight, top)
                 && io' == HandedOrAsked(host, idle, io, leafHeight, top);
      TopIsPending(pm.pending, top);
      P.ViewOfItem(top);
      if top.prop.justify.view > leafHeight {
        assert io'.outbox[|io.outbox|] == SendBranchSyncRequest(host.leaderOf(pm'.view), leafHeight);
      }
    }
  }

  /** So it is when a synchronisation has been answered. */
  lemma AnswerResumes(host: Host, pm: P.Pacemaker, io: Surroundings, leaf: TreeNode, pm': P.Pacemaker, io': Surroundings)
    requires Handles(host, pm, io, Output(BranchSyncDone(leaf)), pm', io') && pm.syncing && Bounded(pm)
    ensures Resumes(host, pm, leaf.height, pm', io') && pm'.view == pm.view
  {
    hide SyncEnded, Resumes, Bounded;
    EndedSyncResumes(host, pm, io, leaf.height, pm', io');
    CheckStaysInView(host, pm, io, leaf.height, pm', io');
  }

  /** And when the view is left while one is open: the next leader is asked. */
  lemma LeavingResumes(host: Host, pm: P.Pacemaker, io: Surroundings, timeoutView: ViewNumber, pm': P.Pacemaker, io': Surroundings)
    requires Handles(host, pm, io, LocalTimeout(timeoutView), pm', io') && timeoutView >= pm.view && pm.syncing && Bounded(pm)
    ensures Resumes(host, pm, io.machine.storage.state.leaf.height, pm', io') && pm'.view == timeoutView + 1
  {
    hide SyncEnded;
    EndedSyncResumes(host, P.GotoNewView(pm, timeoutView + 1), Entered(host, Reported(io, TimeoutOf(host, pm, io)), timeoutView + 1),
                     io.machine.storage.state.leaf.height, pm', io');
    TimeoutEnters(host, pm, io, timeoutView, pm', io');
  }

  // ---------------------------------------------------------------- what is queued

  /** A vote has something put out exactly where it completes a set that can be combined. */
  lemma VoteIsReportedIff(host: Host, pm: P.Pacemaker, io: Surroundings, from: ReplicaId, prop: TreeNode, kit: SignKit,
                          pm': P.Pacemaker, io': Surroundings)
    requires Handles(host, pm, io, PeerVote(from, prop, Some(kit)), pm', io')
    ensures pm' == pm && io'.outbox == io.outbox
    ensures io'.ready == if SM.FormsQc(io.machine, host.total, SM.RecvSign(from, prop, kit))
                         then io.ready + [ProposalReachConsensus(io.machine.storage.state.view)] else io.ready
  {
    hide Combine, ValidVote, SM.OnRecvVote;
  }

  /** The quorum of a leader with an empty queue: one output, and acting on it takes the leader into
      the next view, whose leader it tells the certificate it then holds. */
  lemma QuorumEntersNextView(host: Host, pm: P.Pacemaker, io: Surroundings, from: ReplicaId, prop: TreeNode, kit: SignKit,
                             pm1: P.Pacemaker, io1: Surroundings, pm2: P.Pacemaker, io2: Surroundings)
    requires ViewsAgree(pm, io) && io.ready == [] && SM.FormsQc(io.machine, host.total, SM.RecvSign(from, prop, kit))
    requires Handles(host, pm, io, PeerVote(from, prop, Some(kit)), pm1, io1)
    ensures |io1.ready| == 1
    ensures Handles(host, pm1, io1.(ready := []), Output(io1.ready[0]), pm2, io2) ==>
              && pm2.view == pm.view + 1
              && SendNewView(host.leaderOf(pm.view + 1), pm.view + 1, io1.machine.storage.state.qcHigh) in io2.outbox
  {
    hide Handles, SM.FormsQc;
    VoteIsReportedIff(host, pm, io, from, prop, kit, pm1, io1);
    if Handles(host, pm1, io1.(ready := []), Output(io1.ready[0]), pm2, io2) {
      ConsensusEnters(host, pm1, io1.(ready := []), pm.view, pm2, io2);
      TimeoutEnters(host, pm1, io1.(ready := []), pm.view, pm2, io2);
    }
  }

  lemma ConsensusEnters(host: Host, pm: P.Pacemaker, io: Surroundings, view: ViewNumber, pm': P.Pacemaker, io': Surroundings)
    requires Handles(host, pm, io, Output(ProposalReachConsensus(view)), pm', io')
    ensures TimedOut(host, pm, io, view, pm', io')
  {
  }

  /** A node that is handed back becomes the leaf, with its own certificate, exactly where it is higher
      than the certified node; the storage has to be flushed in any case. */
  lemma HandedBackIsLeafIff(host: Host, pm: P.Pacemaker, io: Surroundings, node: TreeNode, pm': P.Pacemaker, io': Surroundings)
    requires Handles(host, pm, io, Output(UpdateQCHigh(node)), pm', io')
    requires io.machine.storage.state.qcHigh.node in io.machine.storage.nodes
    ensures var s, t := io.machine.storage, io'.machine.storage;
            && pm' == pm && io'.outbox == io.outbox && io'.ready == io.ready && t.dirty
            && (HeightOf(s.state.qcHigh.node) < node.height ==>
                  t.state.leaf == node && t.state.qcHigh == node.justify && t.state.vheight == node.height && Has(t.nodes, node)
                  && node.justify in t.queues.justifies)
            && (HeightOf(s.state.qcHigh.node) >= node.height ==> t.state == s.state && t.nodes == s.nodes)
  {
    var s, t := io.machine.storage, io'.machine.storage;
    assert Hash(s.nodes[s.state.qcHigh.node]) == s.state.qcHigh.node;
    assert HeightOf(s.state.qcHigh.node) < node.height ==> t.queues.justifies[|s.queues.justifies|] == node.justify;
  }

  /** What acting on an output leaves for good. */
  ghost predicate Done(host: Host, pm: P.Pacemaker, outbox: seq<PeerEvent>, ready: Ready) {
    match ready
    case NewProposal(prop) => SendNewProposal(prop) in outbox
    case Signature(to, prop, kit) => SendAcceptProposal(to, prop, kit) in outbox && (to != host.id ==> pm.view > prop.height)
    case ProposalReachConsensus(view) => pm.view > view
    case _ => true
  }

  lemma ActingIsDone(host: Host, pm: P.Pacemaker, io: Surroundings, ready: Ready, pm': P.Pacemaker, io': Surroundings)
    requires Handles(host, pm, io, Output(ready), pm', io')
    ensures Done(host, pm', io'.outbox, ready)
  {
    hide SyncEnded, TimedOut;
    match ready
    case NewProposal(prop) => assert io'.outbox[|io.outbox|] == SendNewProposal(prop);
    case Signature(to, prop, kit) =>
      var sent := io.(outbox := io.outbox + [SendAcceptProposal(to, prop, kit)]);
      assert sent.outbox[|io.outbox|] == SendAcceptProposal(to, prop, kit);
      if to != host.id {
        TimeoutEnters(host, pm, sent, prop.height, pm', io');
        assert sent.outbox <= io'.outbox;
      }
    case ProposalReachConsensus(view) => TimeoutEnters(host, pm, io, view, pm', io');
    case _ =>
  }

  lemma DoneStays(host: Host, pm: P.Pacemaker, outbox: seq<PeerEvent>, pm': P.Pacemaker, outbox': seq<PeerEvent>, ready: Ready)
    requires Done(host, pm, outbox, ready) && outbox <= outbox' && pm.view <= pm'.view
    ensures Done(host, pm', outbox', ready)
  {
  }

  // ---------------------------------------------------------------- over runs

  /** What a host has put out waits in its queue or has been acted on. */
  ghost predicate Heeded(net: Setting, sys: System, i: ReplicaId, ready: Ready) {
    i < |sys| && (ready in sys[i].io.ready || Done(HostOf(net, i), sys[i].pm, sys[i].io.outbox, ready))
  }

  lemma MoveHeeds(law: Law, net: Setting, sys: System, move: Move, sys': System, i: ReplicaId, ready: Ready)
    requires Made(law, net, sys, move, sys') && Correct(net.cfg, i) && Heeded(net, sys, i, ready)
    ensures Heeded(net, sys', i, ready)
  {
    hide Handles, Demands, Done, ReplicaSteps, P.GateOpen;
    if move.host == i {
      var st, io := sys[i], Popped(sys[i].io, move.call);
      OutputIsOldest(net, sys, i, move.call);
      CallIsQuiet(HostOf(net, i), st.pm, io, move.call, move.pm, move.io);
      var a := CallEnters(HostOf(net, i), st.pm, io, move.call, move.pm, move.io);
      if Done(HostOf(net, i), st.pm, st.io.outbox, ready) {
        DoneStays(HostOf(net, i), st.pm, st.io.outbox, move.pm, move.io.outbox, ready);
      } else if move.call == Output(ready) {
        ActingIsDone(HostOf(net, i), st.pm, io, ready, move.pm, move.io);
      } else {
        StillQueued(st.io, move.call, move.io.ready, ready);
      }
    }
  }

  lemma StillQueued(io: Surroundings, call: Call, ready': seq<Ready>, ready: Ready)
    requires ready in io.ready && Popped(io, call).ready <= ready'
    requires call.Output? ==> |io.ready| > 0 && io.ready[0] == call.ready != ready
    ensures ready in ready'
  {
    var k :| 0 <= k < |io.ready| && io.ready[k] == ready;
    assert call.Output? ==> io.ready[1..][k - 1] == ready;
    assert ready in Popped(io, call).ready;
  }

  /** From the moment it is put out. */
  lemma {:induction false} OutputsAreHeeded(law: Law, net: Setting, run: Systems, moves: seq<Move>, j: nat, k: nat, i: ReplicaId, ready: Ready)
    requires TracedRun(law, net, run, moves) && j <= k < |run| && Correct(net.cfg, i) && Heeded(net, run[j], i, ready)
    ensures Heeded(net, run[k], i, ready)
    decreases k - j
  {
    hide Made, Heeded;
    if j < k {
      OutputsAreHeeded(law, net, run, moves, j, k - 1, i, ready);
      assert Made(law, net, run[k - 1], moves[k - 1], run[k]);
      MoveHeeds(law, net, run[k - 1], moves[k - 1], run[k], i, ready);
    }
  }

  // ---------------------------------------------------------------- proposals are sent

  lemma PassIsQueued(law: Law, net: Setting, sys: System, move: Move, sys': System)
    requires Made(law, net, sys, move, sys') && move.call.Propose? && P.GateOpen(sys[move.host].pm, net.cfg.n)
    ensures var s, leaf := sys[move.host].io.machine.storage, sys'[move.host].io.machine.storage.state.leaf;
            && NewProposal(leaf) in sys'[move.host].io.ready
            && leaf == TreeNode(move.call.payload, s.state.view, Hash(s.state.leaf), s.state.qcHigh)
  {
    hide P.GateOpen, Demands, ReplicaSteps;
    assert sys'[move.host].io.ready[|move.io.ready|] == NewProposal(move.io.machine.storage.state.leaf);
  }

  /** A host that passes the gate makes a node on its leaf with its highest certificate; at every
      later moment that node waits to be sent or has been sent. */
  lemma ProposalsAreSent(law: Law, net: Setting, run: Systems, moves: seq<Move>, j: nat, k: nat, view: ViewNumber)
    requires TracedRun(law, net, run, moves) && j < k < |run|
    requires PassesGate(net, run, moves, moves[j].host, j, view)
    ensures var i := moves[j].host;
            && i < |run[j]| && i < |run[k]| && i < |run[j + 1]|
            && var s, leaf := run[j][i].io.machine.storage, run[j + 1][i].io.machine.storage.state.leaf;
               && leaf == TreeNode(moves[j].call.payload, s.state.view, Hash(s.state.leaf), s.state.qcHigh)
               && (NewProposal(leaf) in run[k][i].io.ready || SendNewProposal(leaf) in run[k][i].io.outbox)
  {
    hide Handles, Demands, Moved, InitSystem, P.GateOpen;
    var i := moves[j].host;
    assert Made(law, net, run[j], moves[j], run[j + 1]);
    PassIsQueued(law, net, run[j], moves[j], run[j + 1]);
    OutputsAreHeeded(law, net, run, moves, j + 1, k, i, NewProposal(run[j + 1][i].io.machine.storage.state.leaf));
  }

  // ---------------------------------------------------------------- votes are sent

  /** Items are only added to what was handed over, one at most, and if it is signed the signature is
      put out for its sender. */
  ghost predicate HandsAndSigns(host: Host, pm: P.Pacemaker, s: Storage, pm': P.Pacemaker, io': Surroundings) {
    && pm.handed <= pm'.handed <= pm.handed + pm'.handed[|pm.handed|..]
    && (|pm'.handed| > |pm.handed| ==>
          && |pm'.handed| == |pm.handed| + 1
          && var item := pm'.handed[|pm.handed|];
             SM.Signs(s, item.prop) ==> Signature(item.from, item.prop, Sign(host.id, item.prop)) in io'.ready)
  }

  lemma HandingSigns(host: Host, pm: P.Pacemaker, io: Surroundings, top: P.Incoming, leafHeight: ViewNumber)
    requires top in pm.pending
    ensures HandsAndSigns(host, pm, io.machine.storage, P.HandOrSync(pm, leafHeight, top), HandedOrAsked(host, pm, io, leafHeight, top))
  {
    hide P.KeyOf, P.ViewOfKey, Handled, LeaderAfter;
    var item := RecvProposal(top.from, top.prop);
    if SM.Signs(io.machine.storage, top.prop) {
      SignsVerifies(io.machine.storage, top.prop);
      assert Emitted(host, io, item).ready[|io.ready|] == Signature(top.from, top.prop, Sign(host.id, top.prop));
    }
  }

  lemma CheckSigns(host: Host, pm: P.Pacemaker, io: Surroundings, leafHeight: ViewNumber, pm': P.Pacemaker, io': Surroundings)
    requires SyncEnded(host, pm, io, leafHeight, pm', io') || Checked(host, pm, io, leafHeight, pm', io')
    ensures HandsAndSigns(host, pm, io.machine.storage, pm', io')
  {
    hide P.IsTop, P.KeyOf, P.HandOrSync, HandedOrAsked, SM.Signs;
    var was := if Checked(host, pm, io, leafHeight, pm', io') then pm else P.BackToIdle(pm);
    if Checked(host, was, io, leafHeight, pm', io') && pm.pending != multiset{} {
      var top :| P.IsTop(pm.pending, top) && pm' == P.HandOrSync(was, leafHeight, top)
                 && io' == HandedOrAsked(host, was, io, leafHeight, top);
      TopIsPending(pm.pending, top);
      HandingSigns(host, was, io, top, leafHeight);
    }
  }

  lemma TopIsPending(pending: multiset<P.Incoming>, top: P.Incoming)
    requires P.IsTop(pending, top)
    ensures top in pending
  {
  }

  lemma TimeoutSigns(host: Host, pm: P.Pacemaker, io: Surroundings, timeoutView: ViewNumber, pm': P.Pacemaker, io': Surroundings)
    requires TimedOut(host, pm, io, timeoutView, pm', io')
    ensures HandsAndSigns(host, pm, io.machine.storage, pm', io')
  {
    hide SyncEnded, SM.Signs;
    if timeoutView >= pm.view {
      var left := Entered(host, Reported(io, TimeoutOf(host, pm, io)), timeoutView + 1);
      CheckSigns(host, P.GotoNewView(pm, timeoutView + 1), left, io.machine.storage.state.leaf.height, pm', io');
      forall prop ensures SM.Signs(left.machine.storage, prop) <==> SM.Signs(io.machine.storage, prop) {
        SameSigns(io.machine.storage, left.machine.storage, prop);
      }
    }
  }

  lemma SameSigns(s: Storage, t: Storage, prop: TreeNode)
    requires s.nodes == t.nodes && s.state.vheight == t.state.vheight && s.state.locked == t.state.locked
    ensures SM.Signs(s, prop) <==> SM.Signs(t, prop)
  {
  }

  lemma OutputSigns(host: Host, pm: P.Pacemaker, io: Surroundings, ready: Ready, pm': P.Pacemaker, io': Surroundings)
    requires Processed(host, pm, io, ready, pm', io')
    ensures HandsAndSigns(host, pm, io.machine.storage, pm', io')
  {
    hide SyncEnded, TimedOut, SM.Signs;
    match ready
    case Signature(to, prop, kit) =>
      if to != host.id {
        TimeoutSigns(host, pm, io.(outbox := io.outbox + [SendAcceptProposal(to, prop, kit)]), prop.height, pm', io');
      }
    case BranchSyncDone(leaf) => CheckSigns(host, pm, io, leaf.height, pm', io');
    case ProposalReachConsensus(view) => TimeoutSigns(host, pm, io, view, pm', io');
    case _ =>
  }

  lemma CallSigns(host: Host, pm: P.Pacemaker, io: Surroundings, call: Call, pm': P.Pacemaker, io': Surroundings)
    requires Handles(host, pm, io, call, pm', io')
    ensures HandsAndSigns(host, pm, io.machine.storage, pm', io')
  {
    hide Checked, TimedOut, Processed, Emitted, IsBranch, SM.Signs, P.GateOpen;
    match call
    case LocalTimeout(timeoutView) => TimeoutSigns(host, pm, io, timeoutView, pm', io');
    case PeerProposal(from, prop) =>
      CheckSigns(host, P.RecvNewProposal(pm, P.Incoming(from, prop)), io, io.machine.storage.state.leaf.height, pm', io');
    case PeerTimeout(tc) =>
      if GrantedView(io.machine.storage) > pm.view {
        TimeoutSigns(host, pm, Recorded(io, tc), GrantedView(io.machine.storage), pm', io');
        forall prop ensures SM.Signs(Recorded(io, tc).machine.storage, prop) <==> SM.Signs(io.machine.storage, prop) {
          SameSigns(io.machine.storage, Recorded(io, tc).machine.storage, prop);
        }
      }
    case Output(ready) => OutputSigns(host, pm, io, ready, pm', io');
    case _ =>
  }

  // What is signed in a call is a new leaf or what is handed over.

  lemma {:induction false} SignedInSteps(cfg: Config, i: ReplicaId, r: Replica, events: seq<SM.Event>, node: TreeNode)
    requires HandsLast(events) && forall e :: e in events ==> !e.NewTx?
    requires node in ReplicaSteps(cfg, i, r, events).signed && node !in r.signed
    ensures SM.RecvProposal(node) in events && SM.Signs(r.machine.storage, node)
    decreases |events|
  {
    hide SM.Step, SM.Signs, ExecutedBy, HandsLast;
    var event := events[0];
    var next := ReplicaStep(cfg, i, r, event);
    if node !in next.signed {
      RestHandsLast(events);
      SignedInSteps(cfg, i, next, events[1..], node);
      NotYetHanded(events, node);
      SignsAsBefore(cfg, i, r, event, node);
    }
  }

  lemma NotYetHanded(events: seq<SM.Event>, node: TreeNode)
    requires events != [] && HandsLast(events) && SM.RecvProposal(node) in events[1..]
    ensures events[0].RecordTimeout? || events[0].RaiseView?
  {
    var k :| 0 <= k < |events[1..]| && events[1..][k] == SM.RecvProposal(node);
    assert events[k + 1].RecvProposal?;
  }

  lemma SignsAsBefore(cfg: Config, i: ReplicaId, r: Replica, event: SM.Event, node: TreeNode)
    requires event.RecordTimeout? || event.RaiseView?
    ensures SM.Signs(ReplicaStep(cfg, i, r, event).machine.storage, node) <==> SM.Signs(r.machine.storage, node)
  {
    hide SM.Signs;
    SameSigns(r.machine.storage, ReplicaStep(cfg, i, r, event).machine.storage, node);
  }

  lemma HandedIsItem(host: Host, pm: P.Pacemaker, io: Surroundings, call: Call, pm': P.Pacemaker, node: TreeNode)
    requires SM.RecvProposal(node) in EventsOf(host, pm, io, call, pm')
    ensures |pm'.handed| > |pm.handed| && pm'.handed[|pm.handed|].prop == node
  {
    hide Synced;
  }

  lemma OnlyProposingSigns(host: Host, pm: P.Pacemaker, io: Surroundings, call: Call, pm': P.Pacemaker)
    requires !call.Propose?
    ensures forall e :: e in EventsOf(host, pm, io, call, pm') ==> !e.NewTx?
  {
    hide Synced;
  }

  /** The node has been or will be sent as a proposal, or its signature to who sent it. */
  ghost predicate Voiced(net: Setting, sys: System, i: ReplicaId, node: TreeNode) {
    i < |sys|
    && (|| Heeded(net, sys, i, NewProposal(node))
        || exists item :: item in sys[i].pm.handed && item.prop == node && Heeded(net, sys, i, Signature(item.from, node, Sign(i, node))))
  }

  lemma NewSignatureIsVoiced(law: Law, net: Setting, sys: System, move: Move, sys': System, node: TreeNode)
    requires Made(law, net, sys, move, sys') && node in sys'[move.host].signed && node !in sys[move.host].signed
    ensures Voiced(net, sys', move.host, node)
  {
    hide Handles, Demands, EventsOf, Done, SM.Signs, P.GateOpen;
    var i, host := move.host, HostOf(net, move.host);
    var st, io := sys[i], Popped(sys[i].io, move.call);
    var events := CallEvents(net, st, i, move.call, move.pm);
    if move.call.Propose? {
      ProposingSigns(law, net, sys, move, sys', node);
    } else {
      CallsHandLast(host, st.pm, io, move.call, move.pm);
      OnlyProposingSigns(host, st.pm, io, move.call, move.pm);
      SignedInSteps(net.cfg, i, ReplicaOf(st), events, node);
      HandedIsItem(host, st.pm, io, move.call, move.pm, node);
      CallSigns(host, st.pm, io, move.call, move.pm, move.io);
      var item := move.pm.handed[|st.pm.handed|];
      assert item in sys'[i].pm.handed && Heeded(net, sys', i, Signature(item.from, node, Sign(i, node)));
    }
  }

  lemma ProposingSigns(law: Law, net: Setting, sys: System, move: Move, sys': System, node: TreeNode)
    requires Made(law, net, sys, move, sys') && move.call.Propose?
    requires node in sys'[move.host].signed && node !in sys[move.host].signed
    ensures Heeded(net, sys', move.host, NewProposal(node))
  {
    hide P.GateOpen, Demands, Done, Handles, ReplicaSteps;
    var i := move.host;
    if P.GateOpen(sys[i].pm, net.cfg.n) {
      PassIsQueued(law, net, sys, move, sys');
      SignedByBeat(net.cfg, i, ReplicaOf(sys[i]), move.call.payload, node);
    } else {
      NothingIsSigned(net.cfg, i, ReplicaOf(sys[i]));
    }
  }

  lemma SignedByBeat(cfg: Config, i: ReplicaId, r: Replica, payload: seq<Byte>, node: TreeNode)
    requires node in ReplicaSteps(cfg, i, r, [SM.NewTx(payload)]).signed && node !in r.signed
    ensures node == SM.MakeLeaf(r.machine.storage, payload)
  {
    hide SM.Step, ExecutedBy;
    assert [SM.NewTx(payload)][1..] == [];
  }

  lemma NothingIsSigned(cfg: Config, i: ReplicaId, r: Replica)
    ensures ReplicaSteps(cfg, i, r, []) == r
  {
  }

  lemma MoveKeepsVoiced(law: Law, net: Setting, sys: System, move: Move, sys': System, i: ReplicaId, node: TreeNode)
    requires Made(law, net, sys, move, sys') && Correct(net.cfg, i) && Voiced(net, sys, i, node)
    ensures Voiced(net, sys', i, node)
  {
    hide Handles, Demands, Heeded, ReplicaSteps, Arrives, P.GateOpen;
    if Heeded(net, sys, i, NewProposal(node)) {
      MoveHeeds(law, net, sys, move, sys', i, NewProposal(node));
    } else {
      var item :| item in sys[i].pm.handed && item.prop == node && Heeded(net, sys, i, Signature(item.from, node, Sign(i, node)));
      MoveHeeds(law, net, sys, move, sys', i, Signature(item.from, node, Sign(i, node)));
      if move.host == i {
        CallSigns(HostOf(net, i), sys[i].pm, Popped(sys[i].io, move.call), move.call, move.pm, move.io);
      }
      assert item in sys'[i].pm.handed;
    }
  }

  /** Whatever a correct host signs, and at every later moment: it is its own proposal and waits to be
      sent or has been sent, or it was handed over and the signature waits to be sent or has been
      sent to the one who sent the proposal. */
  lemma {:induction false} SignaturesAreSent(law: Law, net: Setting, run: Systems, moves: seq<Move>, k: nat, i: ReplicaId, node: TreeNode)
    requires TracedRun(law, net, run, moves) && k < |run| && Correct(net.cfg, i) && i < |run[k]| && node in run[k][i].signed
    ensures Voiced(net, run[k], i, node)
    decreases k
  {
    hide Happens, Moved, Voiced;
    if k == 0 {
      NothingSignedYet(net, i);
    } else {
      assert Made(law, net, run[k - 1], moves[k - 1], run[k]);
      HostsAnnounceRising(law, net, run, moves, k - 1, i);
      if node in run[k - 1][i].signed {
        SignaturesAreSent(law, net, run, moves, k - 1, i, node);
        MoveKeepsVoiced(law, net, run[k - 1], moves[k - 1], run[k], i, node);
      } else {
        NewSignatureIsVoiced(law, net, run[k - 1], moves[k - 1], run[k], node);
      }
    }
  }

  lemma NothingSignedYet(net: Setting, i: ReplicaId)
    requires i < net.cfg.n
    ensures |InitSystem(net)| == net.cfg.n && InitSystem(net)[i].signed == map[]
  {
  }
}
