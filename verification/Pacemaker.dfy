/** The pacemaker object (pacemaker/src/pacemaker.rs) on top of a machine.  Every handler is proved
    to do what module PacemakerSteps says of it. */
module PacemakerClass {
  import opened HsData
  import opened StorageModel
  import opened Voting
  import opened MachineClass
  import opened PacemakerSteps
  import SM = SafetyMachine
  import P = Pacing

  class Pacemaker {
    const id: ReplicaId
    const machine: Machine
    const leaderOf: ViewNumber -> ReplicaId
    var view: ViewNumber
    var pending: multiset<P.Incoming>
    var syncing: bool
    var readyQueue: seq<Ready>
    var outbox: seq<PeerEvent>

    ghost var announced: seq<ViewNumber>
    ghost var received: seq<P.Incoming>
    ghost var handed: seq<P.Incoming>
    ghost var syncs: seq<bool>
    ghost var proposed: seq<ViewNumber>

    ghost function Value(): P.Pacemaker
      reads this, machine.storage
    {
      P.Pacemaker(view, machine.storage.newViews, pending, syncing, announced, received, handed, syncs, proposed)
    }

    ghost function Around(): Surroundings
      reads this, machine, machine.storage, machine.voter
    {
      Surroundings(machine.Value(), machine.leaderId, readyQueue, outbox)
    }

    predicate Configured() {
      machine.Configured() && machine.storage.total == machine.total && id == machine.selfId
    }

    function AsHost(): Host {
      Host(machine.selfId, machine.total, leaderOf)
    }

    constructor (machine: Machine, leaderOf: ViewNumber -> ReplicaId)
      requires machine.Configured() && machine.storage.total == machine.total && machine.storage.newViews == map[]
      ensures this.machine == machine && this.leaderOf == leaderOf && Configured()
      ensures Value() == P.START && readyQueue == [] && outbox == []
    {
      this.machine, this.id, this.leaderOf := machine, machine.selfId, leaderOf;
      view, pending, syncing, readyQueue, outbox := 0, multiset{}, false, [], [];
      announced, received, handed, syncs, proposed := [], [], [], [], [];
    }

    method EmitSafetyEvent(event: SafetyEvent)
      requires Configured()
      modifies `readyQueue, machine, machine.voter
      modifies machine.storage`state, machine.storage`nodes, machine.storage`queues, machine.storage`dirty
      ensures Around() == Emitted(AsHost(), old(Around()), event)
    {
      hide Handled, OutcomeOf;
      var outcome := machine.ProcessSafetyEvent(event);
      if outcome.Fine? {
        if outcome.ready.Nil? {
          return;
        }
        readyQueue := readyQueue + [outcome.ready];
      }
    }

    method UpdatePmStatus(newView: ViewNumber)
      modifies `view, machine.storage`state, machine.storage`dirty
      ensures view == Max(old(view), newView)
      ensures machine.storage.Value() == IncreaseView(old(machine.storage.Value()), view)
    {
      view := Max(view, newView);
      machine.storage.IncreaseView(view);
    }

    method GotoNewView(newView: ViewNumber)
      modifies `view, `outbox, `announced, machine.storage`state, machine.storage`dirty, machine.storage`newViews
      ensures Value() == P.GotoNewView(old(Value()), newView)
      ensures Around() == Entered(AsHost(), old(Around()), view)
    {
      UpdatePmStatus(newView);
      machine.storage.CleanNewViewSet(view);
      outbox := outbox + [SendNewView(leaderOf(view), view, machine.storage.state.qcHigh)];
      announced := announced + [view];
    }

    /** A proposal with the largest key. */
    method TopPending() returns (top: P.Incoming)
      requires pending != multiset{}
      ensures P.IsTop(pending, top)
    {
      HeapHasTop(pending);
      top :| top in pending && forall other :: other in pending ==> P.KeyOf(other) <= P.KeyOf(top);
    }

    /** Asks for the missing part of the branch unless that has been done. */
    method StartSync(growFrom: ViewNumber)
      modifies `syncing, `syncs, `outbox
      ensures syncing && syncs == if old(syncing) then old(syncs) else old(syncs) + [true]
      ensures outbox == if old(syncing) then old(outbox) else old(outbox) + [SendBranchSyncRequest(leaderOf(view), growFrom)]
    {
      if !syncing {
        syncing := true;
        syncs := syncs + [true];
        outbox := outbox + [SendBranchSyncRequest(leaderOf(view), growFrom)];
      }
    }

    method HandOver(top: P.Incoming)
      requires Configured() && top in pending
      modifies `pending, `readyQueue, `handed, machine, machine.voter
      modifies machine.storage`state, machine.storage`nodes, machine.storage`queues, machine.storage`dirty
      ensures pending == old(pending) - multiset{top} && handed == old(handed) + [top]
      ensures Around() == Emitted(AsHost(), old(Around()), RecvProposal(top.from, top.prop))
    {
      hide Emitted;
      pending := pending - multiset{top};
      EmitSafetyEvent(RecvProposal(top.from, top.prop));
      handed := handed + [top];
    }

    /** Takes `top` off the heap and hands it over, or leaves it there and waits for its justify
        node. */
    method HandOrSync(top: P.Incoming, leafHeight: ViewNumber)
      requires Configured() && top in pending
      modifies `pending, `syncing, `readyQueue, `outbox, `handed, `syncs, machine, machine.voter
      modifies machine.storage`state, machine.storage`nodes, machine.storage`queues, machine.storage`dirty
      ensures Value() == P.HandOrSync(old(Value()), leafHeight, top)
      ensures Around() == HandedOrAsked(AsHost(), old(Value()), old(Around()), leafHeight, top)
    {
      hide Emitted, P.ViewOfKey, P.KeyOf;
      var justifyView := P.ViewOfKey(P.KeyOf(top));
      if justifyView <= leafHeight {
        HandOver(top);
      } else {
        StartSync(leafHeight);
      }
    }

    method CheckPendingProp(leafHeight: ViewNumber)
      requires Configured()
      modifies `pending, `syncing, `readyQueue, `outbox, `handed, `syncs, machine, machine.voter
      modifies machine.storage`state, machine.storage`nodes, machine.storage`queues, machine.storage`dirty
      ensures Checked(AsHost(), old(Value()), old(Around()), leafHeight, Value(), Around())
    {
      if pending == multiset{} {
        return;
      }
      hide P.HandOrSync, HandedOrAsked;
      var top := TopPending();
      HandOrSync(top, leafHeight);
    }

    /** Compare-and-exchange of the synchronisation state back to idle. */
    method EndSync(leafHeight: ViewNumber)
      requires Configured()
      modifies `pending, `syncing, `readyQueue, `outbox, `handed, `syncs, machine, machine.voter
      modifies machine.storage`state, machine.storage`nodes, machine.storage`queues, machine.storage`dirty
      ensures SyncEnded(AsHost(), old(Value()), old(Around()), leafHeight, Value(), Around())
    {
      hide Checked;
      if syncing {
        syncing := false;
        syncs := syncs + [false];
        CheckPendingProp(leafHeight);
      }
    }

    /** The timeout of the current view is stored and broadcast. */
    method Report()
      requires Configured()
      modifies `outbox, machine.storage`queues, machine.storage`dirty
      ensures Value() == old(Value())
      ensures Around() == Reported(old(Around()), TimeoutOf(AsHost(), old(Value()), old(Around())))
    {
      var tc := Partial(view, id, machine.storage.state.qcHigh);
      machine.storage.AppendTc(tc);
      outbox := outbox + [SendTimeout(tc)];
    }

    method LeaveView(newView: ViewNumber)
      requires Configured() && newView > view
      modifies `view, `outbox, `announced
      modifies machine.storage`state, machine.storage`dirty, machine.storage`newViews
      ensures Value() == P.GotoNewView(old(Value()), newView)
      ensures Around() == Entered(AsHost(), old(Around()), newView)
      ensures machine.storage.state.leaf == old(machine.storage.state.leaf)
    {
      GotoNewView(newView);
      machine.storage.IncreaseView(view);
    }

    method ProcessLocalTimeout(timeoutView: ViewNumber)
      requires Configured()
      modifies this, machine, machine.voter
      modifies machine.storage`state, machine.storage`nodes, machine.storage`queues, machine.storage`dirty, machine.storage`newViews
      ensures Handles(AsHost(), old(Value()), old(Around()), LocalTimeout(timeoutView), Value(), Around())
    {
      hide TimedOut;
      LeaveAtTimeout(timeoutView);
    }

    method LeaveAtTimeout(timeoutView: ViewNumber)
      requires Configured()
      modifies this, machine, machine.voter
      modifies machine.storage`state, machine.storage`nodes, machine.storage`queues, machine.storage`dirty, machine.storage`newViews
      ensures TimedOut(AsHost(), old(Value()), old(Around()), timeoutView, Value(), Around())
    {
      hide SyncEnded, Entered, Reported, TimeoutOf, P.GotoNewView;
      if timeoutView >= view {
        Report();
        LeaveView(timeoutView + 1);
        EndSync(machine.storage.state.leaf.height);
      }
    }

    // -------------------------------------------------------------- messages of peers

    method ProcessNewProposal(from: ReplicaId, prop: TreeNode)
      requires Configured()
      modifies `pending, `syncing, `readyQueue, `outbox, `received, `handed, `syncs, machine, machine.voter
      modifies machine.storage`state, machine.storage`nodes, machine.storage`queues, machine.storage`dirty
      ensures Handles(AsHost(), old(Value()), old(Around()), PeerProposal(from, prop), Value(), Around())
    {
      hide Checked;
      pending := pending + multiset{P.Incoming(from, prop)};
      received := received + [P.Incoming(from, prop)];
      CheckPendingProp(machine.storage.state.leaf.height);
    }

    method ProcessAcceptProposal(from: ReplicaId, prop: TreeNode, kit: Option<SignKit>)
      requires Configured()
      modifies `readyQueue, machine, machine.voter
      modifies machine.storage`state, machine.storage`nodes, machine.storage`queues, machine.storage`dirty
      ensures Handles(AsHost(), old(Value()), old(Around()), PeerVote(from, prop, kit), Value(), Around())
    {
      hide Emitted;
      if kit.Some? {
        EmitSafetyEvent(RecvSign(from, prop, kit.value));
      }
    }

    /** No certificates are ever combined from timeouts of single replicas, so the view that a
        timeout of a peer is good for is the one before the storage's. */
    method ProcessTimeout(tc: TimeoutCertificate)
      requires Configured()
      modifies this, machine, machine.voter
      modifies machine.storage`state, machine.storage`nodes, machine.storage`queues, machine.storage`dirty, machine.storage`newViews
      ensures Handles(AsHost(), old(Value()), old(Around()), PeerTimeout(tc), Value(), Around())
    {
      hide TimedOut;
      machine.storage.AppendTc(tc);
      var v := if machine.storage.state.view == 0 then 0 else machine.storage.state.view - 1;
      if v > view {
        LeaveAtTimeout(v);
      }
    }

    /** Answers with all stored nodes above the height asked for, lowest first. */
    method ProcessBranchSyncRequest(from: ReplicaId, growFrom: ViewNumber)
      modifies `outbox
      ensures Handles(AsHost(), old(Value()), old(Around()), PeerSyncRequest(from, growFrom), Value(), Around())
    {
      var branch := machine.storage.FetchBranch(growFrom);
      outbox := outbox + [SendBranchSyncResponse(from, branch)];
    }

    method ProcessBranchSyncResponse(branch: Option<seq<TreeNode>>)
      requires Configured()
      modifies `readyQueue, machine, machine.voter
      modifies machine.storage`state, machine.storage`nodes, machine.storage`queues, machine.storage`dirty
      ensures Handles(AsHost(), old(Value()), old(Around()), PeerSyncResponse(branch), Value(), Around())
    {
      hide Emitted;
      if branch.Some? {
        EmitSafetyEvent(BranchSync(branch.value));
      }
    }

    method ProcessNewView(from: ReplicaId, newView: ViewNumber, qc: GenericQC)
      requires Configured()
      modifies `readyQueue, machine, machine.voter
      modifies machine.storage`state, machine.storage`nodes, machine.storage`queues, machine.storage`dirty, machine.storage`newViews
      ensures Handles(AsHost(), old(Value()), old(Around()), PeerNewView(from, newView, qc), Value(), Around())
    {
      hide Emitted;
      machine.storage.InsertNewView(newView, from, qc);
      EmitSafetyEvent(RecvNewViewMsg(qc));
    }

    // -------------------------------------------------------------- proposals and outputs

    /** A proposal is made if and only if there are more than the threshold of new-view
        messages for the current view. */
    method MakeNewProposal(payload: seq<Byte>) returns (ready: Option<Ready>)
      requires Configured()
      modifies `proposed, machine.voter`votingSet
      modifies machine.storage`state, machine.storage`nodes, machine.storage`queues, machine.storage`dirty, machine.storage`newViews
      ensures Handles(AsHost(), old(Value()), old(Around()), Propose(payload), Value(), Around())
      ensures ready == if P.GateOpen(old(Value()), machine.total) then Some(NewProposal(machine.storage.state.leaf)) else None
    {
      hide SM.OnBeat, TimedOut, Checked, Processed, Emitted, IsBranch, Recorded;
      var th := QuorumThreshold(machine.storage.total);
      var lens := machine.storage.NewViewSetSize(view);
      if lens <= th {
        return None;
      }
      machine.storage.CleanNewViewSet(view + 1);
      proposed := proposed + [view];
      var r := machine.OnBeat(payload);
      ready := Some(r);
    }

    /** A node goes back to the storage with its own certificate. */
    method HandBack(node: TreeNode)
      modifies machine.storage`state, machine.storage`nodes, machine.storage`queues, machine.storage`dirty
      ensures machine.storage.Value() == SM.OnUpdateQcHighReady(old(machine.storage.Value()), node)
    {
      machine.storage.UpdateQcHigh(node, node.justify);
      machine.storage.SetDirty();
    }

    method ProcessReadyEvent(ready: Ready)
      requires Configured()
      modifies this, machine, machine.voter
      modifies machine.storage`state, machine.storage`nodes, machine.storage`queues, machine.storage`dirty, machine.storage`newViews
      ensures Handles(AsHost(), old(Value()), old(Around()), Output(ready), Value(), Around())
    {
      hide Processed;
      ActOn(ready);
    }

    method ActOn(ready: Ready)
      requires Configured()
      modifies this, machine, machine.voter
      modifies machine.storage`state, machine.storage`nodes, machine.storage`queues, machine.storage`dirty, machine.storage`newViews
      ensures Processed(AsHost(), old(Value()), old(Around()), ready, Value(), Around())
    {
      hide SyncEnded, TimedOut, SM.OnUpdateQcHighReady;
      match ready
      case NewProposal(prop) =>
        outbox := outbox + [SendNewProposal(prop)];
      case UpdateQCHigh(node) =>
        HandBack(node);
      case Signature(to, prop, kit) =>
        outbox := outbox + [SendAcceptProposal(to, prop, kit)];
        if to != id {
          LeaveAtTimeout(prop.height);
        }
      case BranchSyncDone(leaf) =>
        EndSync(leaf.height);
      case ProposalReachConsensus(v) =>
        LeaveAtTimeout(v);
      case Nil =>
      case InternalState(_) =>
      case CommitState(_) =>
    }
  }

  lemma {:induction false} HeapHasTop(pending: multiset<P.Incoming>)
    requires pending != multiset{}
    ensures exists top :: P.IsTop(pending, top)
    decreases |pending|
  {
    var x :| x in pending;
    var rest := pending - multiset{x};
    assert pending == rest + multiset{x};
    if rest == multiset{} {
      assert forall other :: other in pending ==> other == x;
      assert P.IsTop(pending, x);
    } else {
      HeapHasTop(rest);
      var top :| P.IsTop(rest, top);
      assert P.IsTop(pending, if P.KeyOf(x) > P.KeyOf(top) then x else top);
    }
  }
}
