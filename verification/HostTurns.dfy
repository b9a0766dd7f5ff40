/** What a host does in the turns of a round: it hears announcements, leads, fetches and votes, and
    completes a set of votes.  Each turn is a few calls; the demands of lawful runs are met in all
    of them. */
module HostTurns {
  import opened HsData
  import opened StorageModel
  import opened Voting
  import opened MachineClass
  import opened PacemakerSteps
  import opened Protocol
  import opened ReplicaScripts
  import opened ChainProgress
  import opened LawfulRuns
  import opened Fetching
  import opened PacedRuns
  import opened RotatingLeaders
  import opened RoundStorages
  import opened HostEvents
  import opened HostFetching
  import opened Network
  import opened HostOutputs
  import SM = SafetyMachine
  import P = Pacing

  // ---------------------------------------------------------------- single moves

  ghost predicate Acts(net: Setting, i: ReplicaId, st: Station, call: Call, pm': P.Pacemaker, io': Surroundings) {
    && Handles(HostOf(net, i), st.pm, Popped(st.io, call), call, pm', io')
    && Demands(HandedInTime, net.cfg, i, ReplicaOf(st), CallEvents(net, st, i, call, pm'))
    && (call.Output? ==> |st.io.ready| > 0 && st.io.ready[0] == call.ready)
  }

  /** The call can take the host there. */
  ghost predicate CanMove(net: Setting, i: ReplicaId, st: Station, call: Call, st': Station) {
    exists pm', io' :: Acts(net, i, st, call, pm', io') && st' == Moved(net, st, i, call, pm', io')
  }

  lemma OneStepOnly(cfg: Config, i: ReplicaId, r: Replica, event: SM.Event)
    ensures Demand(HandedInTime, cfg, r, event) ==> Demands(HandedInTime, cfg, i, r, [event])
    ensures ReplicaSteps(cfg, i, r, [event]) == ReplicaStep(cfg, i, r, event)
  {
    hide ReplicaStep, Demand;
    var r' := ReplicaStep(cfg, i, r, event);
    assert [event][1..] == [] && ReplicaSteps(cfg, i, r', []) == r' && Demands(HandedInTime, cfg, i, r', []);
  }

  lemma TwoStepsOnly(cfg: Config, i: ReplicaId, r: Replica, a: SM.Event, b: SM.Event)
    ensures Demand(HandedInTime, cfg, r, a) && Demand(HandedInTime, cfg, ReplicaStep(cfg, i, r, a), b)
            ==> Demands(HandedInTime, cfg, i, r, [a, b])
    ensures ReplicaSteps(cfg, i, r, [a, b]) == ReplicaStep(cfg, i, ReplicaStep(cfg, i, r, a), b)
  {
    hide ReplicaStep, Demand;
    assert [a, b][1..] == [b];
    OneStepOnly(cfg, i, ReplicaStep(cfg, i, r, a), b);
  }

  /** A call that makes the machine do one thing. */
  lemma ActsOnce(net: Setting, i: ReplicaId, st: Station, call: Call, pm': P.Pacemaker, io': Surroundings, event: SM.Event)
    returns (st': Station)
    requires Handles(HostOf(net, i), st.pm, Popped(st.io, call), call, pm', io')
    requires CallEvents(net, st, i, call, pm') == [event] && Demand(HandedInTime, net.cfg, ReplicaOf(st), event)
    requires call.Output? ==> |st.io.ready| > 0 && st.io.ready[0] == call.ready
    ensures CanMove(net, i, st, call, st') && st'.pm == pm' && st'.io == Queueing(HostOf(net, i), st.pm, call, io')
    ensures var node := SignedBy(st.io.machine.storage, event);
            st'.signed.Keys == st.signed.Keys + if node.Some? then {node.value} else {}
  {
    hide Handles, CallEvents, SM.Step, SignedBy, ExecutedBy, Demand, Queueing, Demands, ReplicaSteps;
    st' := Moved(net, st, i, call, pm', io');
    OneStepOnly(net.cfg, i, ReplicaOf(st), event);
    assert Acts(net, i, st, call, pm', io');
  }

  /** A call that leaves the machine alone. */
  lemma ActsAlone(net: Setting, i: ReplicaId, st: Station, call: Call, pm': P.Pacemaker, io': Surroundings) returns (st': Station)
    requires Handles(HostOf(net, i), st.pm, Popped(st.io, call), call, pm', io') && CallEvents(net, st, i, call, pm') == []
    requires call.Output? ==> |st.io.ready| > 0 && st.io.ready[0] == call.ready
    ensures CanMove(net, i, st, call, st') && st'.pm == pm' && st'.io == Queueing(HostOf(net, i), st.pm, call, io') && st'.signed == st.signed
  {
    hide Handles, CallEvents, Queueing;
    st' := Moved(net, st, i, call, pm', io');
    assert Acts(net, i, st, call, pm', io');
  }

  /** A call that makes the machine do two things, neither of which signs. */
  lemma ActsTwice(net: Setting, i: ReplicaId, st: Station, call: Call, pm': P.Pacemaker, io': Surroundings, a: SM.Event, b: SM.Event)
    returns (st': Station)
    requires Handles(HostOf(net, i), st.pm, Popped(st.io, call), call, pm', io')
    requires CallEvents(net, st, i, call, pm') == [a, b]
    requires Demand(HandedInTime, net.cfg, ReplicaOf(st), a)
    requires Demand(HandedInTime, net.cfg, ReplicaStep(net.cfg, i, ReplicaOf(st), a), b)
    requires !a.RecvProposal? && !a.NewTx? && !b.RecvProposal? && !b.NewTx?
    requires call.Output? ==> |st.io.ready| > 0 && st.io.ready[0] == call.ready
    ensures CanMove(net, i, st, call, st') && st'.pm == pm' && st'.io == Queueing(HostOf(net, i), st.pm, call, io')
    ensures st'.signed == st.signed
  {
    hide Handles, CallEvents, SM.Step, ExecutedBy, Demand, Queueing, Demands, ReplicaSteps;
    st' := Moved(net, st, i, call, pm', io');
    TwoStepsOnly(net.cfg, i, ReplicaOf(st), a, b);
    assert Acts(net, i, st, call, pm', io');
  }

  // ---------------------------------------------------------------- between rounds

  ghost predicate Idles(st: Station, view: ViewNumber) {
    st.pm.view == view && Idle(st.pm) && st.io.ready == [] && st.io.machine.storage.state.view == view
  }

  ghost predicate VotesBelow(votes: VotingSet, k: nat) {
    forall height :: height in votes ==> height <= k
  }

  /** The host is in the view of node `k` with the certificate of node `q`. */
  ghost predicate InRound(st: Station, p: seq<TreeNode>, k: nat, q: int)
    requires k <= |p|
  {
    Idles(st, k + 1) && Stands(st.io.machine.storage, p, k, q) && st.signed.Keys == Prefix(p, k) && VotesBelow(st.io.machine.votes, k)
  }

  // ---------------------------------------------------------------- hearing an announcement

  lemma HearsAnnouncement(net: Setting, i: ReplicaId, st: Station, p: seq<TreeNode>, k: nat, q: int, from: ReplicaId, c: nat)
    returns (st1: Station, st2: Station)
    requires Chained(p) && k < |p| && InRound(st, p, k, q) && c <= k
    ensures CanMove(net, i, st, PeerNewView(from, k + 1, Cert(p, c)), st1)
    ensures |st1.io.ready| == 1 && CanMove(net, i, st1, Output(st1.io.ready[0]), st2)
    ensures InRound(st2, p, k, Max(q, c - 1)) && st1.io.outbox == st2.io.outbox == st.io.outbox
    ensures st2.pm == P.RecvNewView(st.pm, from, k + 1, Cert(p, c))
  {
    hide Stands, Chained, SM.OnNewView, SM.OnUpdateQcHighReady, Orderly, CanMove;
    var qc, s := Cert(p, c), st.io.machine.storage;
    HearsCert(s, p, k, q, c);
    var t := SM.OnNewView(s, qc);
    st1 := GetsNewView(net, i, st, from, k + 1, qc);
    HandsBackLeaf(t, p, k, Max(q, c - 1));
    st2 := HandsBack(net, i, st1, t.state.leaf);
  }

  lemma GetsNewView(net: Setting, i: ReplicaId, st: Station, from: ReplicaId, view: ViewNumber, qc: GenericQC) returns (st': Station)
    requires Orderly(st.io.machine.storage, SM.RecvNewView(qc))
    ensures CanMove(net, i, st, PeerNewView(from, view, qc), st') && st'.pm == P.RecvNewView(st.pm, from, view, qc)
    ensures st'.io.machine == st.io.machine.(storage := SM.OnNewView(st.io.machine.storage, qc)) && st'.io.outbox == st.io.outbox
    ensures st'.io.ready == st.io.ready + [UpdateQCHigh(st'.io.machine.storage.state.leaf)] && st'.signed.Keys == st.signed.Keys
  {
    hide Orderly, SM.OnNewView, CanMove;
    var io' := Emitted(HostOf(net, i), st.io, RecvNewViewMsg(qc));
    st' := ActsOnce(net, i, st, PeerNewView(from, view, qc), P.RecvNewView(st.pm, from, view, qc), io', SM.RecvNewView(qc));
  }

  lemma HandsBack(net: Setting, i: ReplicaId, st: Station, leaf: TreeNode) returns (st': Station)
    requires Orderly(st.io.machine.storage, SM.UpdateQcHighReady(leaf)) && st.io.ready == [UpdateQCHigh(leaf)]
    ensures CanMove(net, i, st, Output(UpdateQCHigh(leaf)), st') && st'.pm == st.pm
    ensures st'.io.machine == st.io.machine.(storage := SM.OnUpdateQcHighReady(st.io.machine.storage, leaf))
    ensures st'.io.outbox == st.io.outbox && st'.io.ready == [] && st'.signed.Keys == st.signed.Keys
  {
    hide Orderly, SM.OnUpdateQcHighReady, CanMove;
    var io' := st.io.(ready := [], machine := st.io.machine.(storage := SM.OnUpdateQcHighReady(st.io.machine.storage, leaf)));
    st' := ActsOnce(net, i, st, Output(UpdateQCHigh(leaf)), st.pm, io', SM.UpdateQcHighReady(leaf));
  }

  // ---------------------------------------------------------------- leading

  /** The host has proposed node `k` and holds these votes for it. */
  ghost predicate Leads(st: Station, p: seq<TreeNode>, k: nat, ballots: Ballots)
    requires k < |p|
  {
    && Idles(st, k + 1) && Led(st.io.machine.storage, p, k) && st.signed.Keys == Prefix(p, k + 1)
    && VotesBelow(st.io.machine.votes, k + 1) && VotesFor(st.io.machine.votes, k + 1) == ballots
    && forall j :: j in ballots ==> ballots[j] == Sign(j, p[k])
  }

  lemma ProposesNode(net: Setting, i: ReplicaId, st: Station, p: seq<TreeNode>, k: nat) returns (st1: Station, st2: Station)
    requires Chained(p) && k < |p| && InRound(st, p, k, k - 1) && P.GateOpen(st.pm, net.cfg.n)
    ensures CanMove(net, i, st, Propose(p[k].payload), st1)
    ensures |st1.io.ready| == 1 && CanMove(net, i, st1, Output(st1.io.ready[0]), st2) && st1.io.outbox == st.io.outbox
    ensures Leads(st2, p, k, map[i := Sign(i, p[k])]) && st2.io.outbox == st.io.outbox + [SendNewProposal(p[k])]
  {
    hide Stands, Chained, Orderly, CanMove, P.GateOpen, Led, SM.MakeLeaf, Prefix, Leads, AddVote, Higher, UpdateLeaf, P.MakeNewProposal, Cert;
    MakesNode(st.io.machine.storage, p, k);
    ChainedIsChain(p);
    NextIsHigherInChain(p, k);
    st1 := Beats(net, i, st, p, k);
    NodeIs(p, k);
    st2 := SendsProposal(net, i, st1, p[k]);
    StaysIdle(st.pm, st.io.machine.storage, net.cfg.n, p[k]);
    LeadsNow(i, st.io.machine.votes, st2, p, k);
  }

  lemma StaysIdle(pm: P.Pacemaker, s: Storage, total: nat, node: TreeNode)
    ensures var pm' := P.MakeNewProposal(pm, total); pm'.view == pm.view && (Idle(pm) ==> Idle(pm'))
    ensures UpdateLeaf(s, node).state.view == s.state.view
  {
    hide P.GateOpen;
  }

  lemma LeadsNow(i: ReplicaId, votes: VotingSet, st: Station, p: seq<TreeNode>, k: nat)
    requires k < |p| && p[k].height == k + 1 && Idles(st, k + 1) && Led(st.io.machine.storage, p, k)
    requires st.signed.Keys == Prefix(p, k) + {p[k]} && VotesBelow(votes, k)
    requires st.io.machine.votes == AddVote(votes, p[k].height, i, Sign(i, p[k]))
    ensures Leads(st, p, k, map[i := Sign(i, p[k])])
  {
    hide Led, Prefix;
    PrefixIs(p, k);
  }

  lemma NextIsHigherInChain(p: seq<TreeNode>, k: nat)
    requires IsChain(p) && k < |p|
    ensures Higher(Prefix(p, k), p[k])
  {
    hide Follows, Dated, Higher;
    NextIsHigher(p, Chain(|p|), k);
  }

  lemma Beats(net: Setting, i: ReplicaId, st: Station, p: seq<TreeNode>, k: nat) returns (st': Station)
    requires k < |p| && SM.MakeLeaf(st.io.machine.storage, p[k].payload) == p[k] && st.io.ready == []
    requires Orderly(st.io.machine.storage, SM.NewTx(p[k].payload)) && Higher(st.signed.Keys, p[k]) && P.GateOpen(st.pm, net.cfg.n)
    ensures CanMove(net, i, st, Propose(p[k].payload), st') && st'.pm == P.MakeNewProposal(st.pm, net.cfg.n)
    ensures st'.io.machine == SM.MachineState(UpdateLeaf(st.io.machine.storage, p[k]),
                                              AddVote(st.io.machine.votes, p[k].height, i, Sign(i, p[k])))
    ensures st'.io.outbox == st.io.outbox && st'.io.ready == [NewProposal(p[k])] && st'.signed.Keys == st.signed.Keys + {p[k]}
  {
    hide Orderly, CanMove, P.GateOpen, SM.MakeLeaf, Higher, AddVote;
    var payload := p[k].payload;
    var io' := st.io.(machine := SM.OnBeat(st.io.machine, i, payload));
    st' := ActsOnce(net, i, st, Propose(payload), P.MakeNewProposal(st.pm, net.cfg.n), io', SM.NewTx(payload));
  }

  lemma SendsProposal(net: Setting, i: ReplicaId, st: Station, node: TreeNode) returns (st': Station)
    requires st.io.ready == [NewProposal(node)]
    ensures CanMove(net, i, st, Output(NewProposal(node)), st') && st'.pm == st.pm && st'.io.machine == st.io.machine
    ensures st'.io.outbox == st.io.outbox + [SendNewProposal(node)] && st'.io.ready == [] && st'.signed == st.signed
  {
    hide CanMove;
    var io' := st.io.(ready := [], outbox := st.io.outbox + [SendNewProposal(node)]);
    st' := ActsAlone(net, i, st, Output(NewProposal(node)), st.pm, io');
  }

  // ---------------------------------------------------------------- voting

  /** A view is left in the ordinary way. */
  lemma EntersNext(host: Host, pm: P.Pacemaker, io: Surroundings) returns (pm': P.Pacemaker, io': Surroundings)
    requires !pm.syncing
    ensures TimedOut(host, pm, io, pm.view, pm', io')
    ensures pm' == P.GotoNewView(pm, pm.view + 1) && io' == Entered(host, Reported(io, TimeoutOf(host, pm, io)), pm.view + 1)
    ensures TimeoutEvents(host, pm, io, pm.view, pm') == [SM.RecordTimeout(TimeoutOf(host, pm, io)), SM.RaiseView(pm.view + 1)]
  {
    pm', io' := P.GotoNewView(pm, pm.view + 1), Entered(host, Reported(io, TimeoutOf(host, pm, io)), pm.view + 1);
  }

  /** What entering a view leaves of a station. */
  ghost predicate HasEntered(net: Setting, st: Station, sent: seq<PeerEvent>, st': Station) {
    && st'.pm == P.GotoNewView(st.pm, st.pm.view + 1) && st'.io.ready == [] && st'.signed == st.signed
    && st'.io.machine.votes == st.io.machine.votes && st'.io.machine.storage.nodes == st.io.machine.storage.nodes
    && st'.io.machine.storage.state
       == st.io.machine.storage.state.(view := Max(st.io.machine.storage.state.view, st.pm.view + 1))
    && sent <= st'.io.outbox
    && SendNewView(net.leaderOf(st.pm.view + 1), st.pm.view + 1, st.io.machine.storage.state.qcHigh) in st'.io.outbox
  }

  lemma VotesAndLeaves(net: Setting, i: ReplicaId, st: Station, lead: ReplicaId, node: TreeNode) returns (st': Station)
    requires lead != i && Idle(st.pm) && st.pm.view == node.height && st.io.ready == [Signature(lead, node, Sign(i, node))]
    ensures CanMove(net, i, st, Output(st.io.ready[0]), st')
    ensures HasEntered(net, st, st.io.outbox + [SendAcceptProposal(lead, node, Sign(i, node))], st')
  {
    hide CanMove;
    var host, call := HostOf(net, i), Output(st.io.ready[0]);
    var sent := Popped(st.io, call).(outbox := st.io.outbox + [SendAcceptProposal(lead, node, Sign(i, node))]);
    var pm', io' := EntersNext(host, st.pm, sent);
    st' := Leaves(net, i, st, sent, call, pm', io');
  }

  lemma Leaves(net: Setting, i: ReplicaId, st: Station, sent: Surroundings, call: Call, pm': P.Pacemaker, io': Surroundings)
    returns (st': Station)
    requires call.Output? && |st.io.ready| == 1 && st.io.ready[0] == call.ready && sent.machine == st.io.machine && sent.ready == []
    requires Handles(HostOf(net, i), st.pm, Popped(st.io, call), call, pm', io')
    requires var tc := TimeoutOf(HostOf(net, i), st.pm, sent);
             && CallEvents(net, st, i, call, pm') == [SM.RecordTimeout(tc), SM.RaiseView(st.pm.view + 1)]
             && io' == Entered(HostOf(net, i), Reported(sent, tc), st.pm.view + 1)
    requires pm' == P.GotoNewView(st.pm, st.pm.view + 1)
    ensures CanMove(net, i, st, call, st') && HasEntered(net, st, sent.outbox, st')
  {
    hide CanMove, Handles, CallEvents, P.GotoNewView;
    var tc := TimeoutOf(HostOf(net, i), st.pm, sent);
    st' := ActsTwice(net, i, st, call, pm', io', SM.RecordTimeout(tc), SM.RaiseView(st.pm.view + 1));
    var last := io'.outbox[|io'.outbox| - 1];
    assert last == SendNewView(net.leaderOf(st.pm.view + 1), st.pm.view + 1, st.io.machine.storage.state.qcHigh) && last in io'.outbox;
  }

  /** The vote for node `k` takes the host into the next round. */
  lemma NextRound(net: Setting, st: Station, sent: seq<PeerEvent>, st': Station, p: seq<TreeNode>, k: nat, q: int)
    requires Chained(p) && k < |p| && Idle(st.pm) && st.pm.view == k + 1 && st.io.machine.storage.state.view == k + 1
    requires Stands(st.io.machine.storage, p, k + 1, q) && st.signed.Keys == Prefix(p, k + 1) && VotesBelow(st.io.machine.votes, k + 1)
    requires HasEntered(net, st, sent, st')
    ensures InRound(st', p, k + 1, q) && sent <= st'.io.outbox
    ensures SendNewView(net.leaderOf(k + 2), k + 2, Cert(p, q + 1)) in st'.io.outbox
    ensures st'.io.machine.storage.state.lastCommit == st.io.machine.storage.state.lastCommit
  {
    hide Stands, Chained, Prefix;
    StandsHas(st.io.machine.storage, p, k + 1, q);
    StandsStays(st.io.machine.storage, st'.io.machine.storage, p, k + 1, q);
  }

  lemma MayVote(cfg: Config, r: Replica, p: seq<TreeNode>, k: nat)
    requires Chained(p) && k < |p| && r.signed.Keys == Prefix(p, k) && p[k].justify.view <= r.machine.storage.state.leaf.height
    requires forall j :: -1 <= j < k ==> Has(r.machine.storage.nodes, Node(p, j))
    ensures Demand(HandedInTime, cfg, r, SM.RecvProposal(p[k]))
  {
    hide Chained, Follows, Dated, Prefix, WellFormed, Higher, SafeForSigned, SM.Signs;
    ChainedIsChain(p);
    NextIsWellFormed(p, Chain(|p|), k);
    NextIsHigher(p, Chain(|p|), k);
    ChainIsSafeFor(r.machine.storage, p, k);
  }

  lemma StandsHasAll(s: Storage, p: seq<TreeNode>, k: nat, q: int)
    requires k <= |p| && Stands(s, p, k, q)
    ensures forall j :: -1 <= j < k ==> Has(s.nodes, Node(p, j))
  {
    hide Only;
  }

  /** What handing node `k` over leaves: the signature waits to be sent. */
  ghost predicate HasSigned(i: ReplicaId, st: Station, lead: ReplicaId, p: seq<TreeNode>, k: nat, st': Station)
    requires k < |p|
  {
    && st'.io.machine == st.io.machine.(storage := SM.OnRecvProposal(st.io.machine.storage, p[k]))
    && st'.io.ready == [Signature(lead, p[k], Sign(i, p[k]))] && st'.io.outbox == st.io.outbox
    && st'.pm.view == st.pm.view && Idle(st'.pm) && st'.signed.Keys == Prefix(p, k + 1)
  }

  lemma SigningIsEmitted(host: Host, io: Surroundings, from: ReplicaId, prop: TreeNode)
    requires SM.Signs(io.machine.storage, prop)
    ensures var io' := Emitted(host, io, RecvProposal(from, prop));
            && io'.machine == io.machine.(storage := SM.OnRecvProposal(io.machine.storage, prop)) && io'.outbox == io.outbox
            && io'.ready == io.ready + [Signature(from, prop, Sign(host.id, prop))]
  {
    hide SM.OnRecvProposal, SM.Signs;
    SignsVerifies(io.machine.storage, prop);
  }

  /** The proposal is in time. */
  lemma TakesProposal(net: Setting, i: ReplicaId, st: Station, p: seq<TreeNode>, k: nat, lead: ReplicaId) returns (st': Station)
    requires Chained(p) && k < |p| <= P.TWO_64 && InRound(st, p, k, k - 1)
    ensures CanMove(net, i, st, PeerProposal(lead, p[k]), st') && HasSigned(i, st, lead, p, k, st')
  {
    hide Stands, Chained, CanMove, SM.OnRecvProposal, SM.Signs, P.KeyOf, P.ViewOfKey, Prefix, Demand;
    var host, s, item := HostOf(net, i), st.io.machine.storage, P.Incoming(lead, p[k]);
    TakesNode(s, p, k);
    NodeIs(p, k);
    StandsHasAll(s, p, k, k - 1);
    MayVote(net.cfg, ReplicaOf(st), p, k);
    var more := P.RecvNewProposal(st.pm, item);
    OnlyOneIsTop(more.pending, item);
    P.ViewOfItem(item);
    var pm', io' := P.HandOrSync(more, s.state.leaf.height, item), Emitted(host, st.io, RecvProposal(lead, p[k]));
    SigningIsEmitted(host, st.io, lead, p[k]);
    hide Emitted;
    assert Checked(host, more, st.io, s.state.leaf.height, pm', io');
    SignedNext(ReplicaOf(st), p, k);
    st' := ActsOnce(net, i, st, PeerProposal(lead, p[k]), pm', io', SM.RecvProposal(p[k]));
  }

  lemma SignedNext(r: Replica, p: seq<TreeNode>, k: nat)
    requires k < |p| && SM.Signs(r.machine.storage, p[k]) && r.signed.Keys == Prefix(p, k)
    ensures SignedBy(r.machine.storage, SM.RecvProposal(p[k])) == Some(p[k]) && r.signed.Keys + {p[k]} == Prefix(p, k + 1)
  {
    hide SM.Signs, Prefix;
    PrefixIs(p, k);
  }

  // ---------------------------------------------------------------- fetching

  /** The branch that is asked for. */
  function Missing(p: seq<TreeNode>, k: nat): seq<TreeNode>
    requires 0 < k < |p|
  {
    [p[k - 1], p[k]]
  }

  /** The proposal is too far ahead. */
  lemma AsksForBranch(net: Setting, i: ReplicaId, st: Station, p: seq<TreeNode>, k: nat, lead: ReplicaId) returns (st': Station)
    requires Chained(p) && 0 < k < |p| <= P.TWO_64 && InRound(st, p, k, k - 2)
    ensures CanMove(net, i, st, PeerProposal(lead, p[k]), st') && st'.io.machine == st.io.machine && st'.io.ready == []
    ensures st'.signed == st.signed && st'.pm.view == st.pm.view && st'.pm.syncing && st'.pm.pending == multiset{P.Incoming(lead, p[k])}
    ensures st'.io.outbox == st.io.outbox + [SendBranchSyncRequest(net.leaderOf(k + 1), k - 1)]
  {
    hide Stands, Chained, CanMove, Handles, Prefix;
    NodeIs(p, k);
    NodeIs(p, k - 1);
    StandsHas(st.io.machine.storage, p, k, k - 2);
    var pm', io' := TooFarAhead(HostOf(net, i), st.pm, st.io, lead, p[k]);
    NothingHandedOver(HostOf(net, i), st.pm, st.io, lead, p[k], pm', io');
    st' := ActsAlone(net, i, st, PeerProposal(lead, p[k]), pm', io');
  }

  lemma NothingHandedOver(host: Host, pm: P.Pacemaker, io: Surroundings, from: ReplicaId, prop: TreeNode, pm': P.Pacemaker, io': Surroundings)
    requires Idle(pm) && Handles(host, pm, io, PeerProposal(from, prop), pm', io') && pm'.pending == multiset{P.Incoming(from, prop)} && pm'.syncing
    ensures HandedIn(pm, pm') == [] && pm'.view == pm.view
  {
    hide Emitted, P.KeyOf, P.ViewOfKey;
  }

  /** The leader's answer. */
  lemma AnswersRequest(net: Setting, i: ReplicaId, st: Station, p: seq<TreeNode>, k: nat, ballots: Ballots, from: ReplicaId) returns (st': Station)
    requires Chained(p) && 0 < k < |p| && Leads(st, p, k, ballots)
    ensures CanMove(net, i, st, PeerSyncRequest(from, k - 1), st') && Leads(st', p, k, ballots)
    ensures st'.io.outbox == st.io.outbox + [SendBranchSyncResponse(from, Missing(p, k))] && st'.pm == st.pm
  {
    hide Led, Chained, CanMove, IsBranch, Prefix;
    BranchIsMissing(st.io.machine.storage, p, k);
    var io' := st.io.(outbox := st.io.outbox + [SendBranchSyncResponse(from, Missing(p, k))]);
    st' := ActsAlone(net, i, st, PeerSyncRequest(from, k - 1), st.pm, io');
  }

  lemma BranchIsMissing(s: Storage, p: seq<TreeNode>, k: nat)
    requires Chained(p) && 0 < k < |p| && Led(s, p, k)
    ensures IsBranch(s.nodes, k - 1, Missing(p, k))
  {
    hide Chained, Has, Led;
    LedHas(s, p, k, k);
    LedHas(s, p, k, k - 1);
    TwoHeights(p, k);
    forall node | Has(s.nodes, node) && node.height > k - 1 ensures node in Missing(p, k) {
      NothingElseIsMissing(s, p, k, node);
    }
  }

  lemma TwoHeights(p: seq<TreeNode>, k: nat)
    requires Chained(p) && 0 < k < |p|
    ensures p[k - 1].height == k && p[k].height == k + 1 && Node(p, k - 2).height == k - 1
  {
    hide Chained;
    NodeIs(p, k);
    NodeIs(p, k - 1);
  }

  lemma NothingElseIsMissing(s: Storage, p: seq<TreeNode>, k: nat, node: TreeNode)
    requires Chained(p) && 0 < k < |p| && Led(s, p, k) && Has(s.nodes, node) && node.height > k - 1
    ensures node in Missing(p, k)
  {
    hide Only, Chained, IsChain, Has, Led;
    ChainedIsChain(p);
    TwoHeights(p, k);
    LedOnly(s, p, k);
    AboveIs(s.nodes, p, k, k - 1, node);
  }

  lemma LedHas(s: Storage, p: seq<TreeNode>, k: nat, j: nat)
    requires k < |p| && Led(s, p, k) && j <= k
    ensures Has(s.nodes, p[j])
  {
    hide Only;
    var st :| LedAt(s, p, k, st);
    assert Has(s.nodes, Node(p, j));
  }

  lemma LedOnly(s: Storage, p: seq<TreeNode>, k: nat)
    requires k < |p| && Led(s, p, k)
    ensures Only(s.nodes, p, k + 1)
  {
    hide Only, At;
  }

  /** Synchronising both nodes asks for nothing but that they are well formed. */
  lemma MaySync(cfg: Config, r: Replica, p: seq<TreeNode>, k: nat)
    requires Chained(p) && k < |p|
    ensures Demand(HandedInTime, cfg, r, SM.Sync(p[k]))
  {
    hide Chained, Follows, Dated, WellFormed, SM.Signs;
    ChainedIsChain(p);
    NextIsWellFormed(p, Chain(|p|), k);
  }

  lemma BothAreSynced(s: Storage, a: TreeNode, b: TreeNode)
    requires SM.VerifyProposal(s, a.justify) && SM.VerifyProposal(SM.SyncProposal(s, a), b.justify)
    ensures SM.Syncs([a, b][..Synced(s, [a, b])]) == [SM.Sync(a), SM.Sync(b)]
  {
    hide SM.SyncProposal, SM.VerifyProposal;
    var t := SM.SyncProposal(s, a);
    assert [b][1..] == [] && Synced(SM.SyncProposal(t, b), []) == 0 && Synced(t, [b]) == 1;
    assert [a, b][1..] == [b];
    assert [a, b][..2] == [a, b];
  }

  /** The answer arrives. */
  lemma SyncsBranch(net: Setting, i: ReplicaId, st: Station, p: seq<TreeNode>, k: nat) returns (st': Station)
    requires Chained(p) && 0 < k < |p| && Stands(st.io.machine.storage, p, k, k - 2) && st.io.ready == []
    ensures CanMove(net, i, st, PeerSyncResponse(Some(Missing(p, k))), st')
    ensures st'.pm == st.pm && st'.signed == st.signed && st'.io.outbox == st.io.outbox
    ensures st'.io.machine == st.io.machine.(storage := SM.SyncProposal(SM.SyncProposal(st.io.machine.storage, p[k - 1]), p[k]))
    ensures st'.io.ready == [BranchSyncDone(st'.io.machine.storage.state.leaf)]
  {
    hide Stands, Chained, CanMove, SM.SyncProposal, SM.VerifyProposal, SM.Signs, SM.OnRecvProposal, Handles, Demand, SM.OnBranchSync, Prefix;
    var s, a, b := st.io.machine.storage, p[k - 1], p[k];
    FetchesNode(s, p, k);
    SyncsBoth(s, a, b);
    BothAreSynced(s, a, b);
    var io' := AnswerArrives(HostOf(net, i), st.pm, st.io, Missing(p, k));
    MaySync(net.cfg, ReplicaOf(st), p, k - 1);
    MaySync(net.cfg, ReplicaStep(net.cfg, i, ReplicaOf(st), SM.Sync(a)), p, k);
    st' := ActsTwice(net, i, st, PeerSyncResponse(Some(Missing(p, k))), st.pm, io', SM.Sync(a), SM.Sync(b));
  }

  /** The synchronisation ends and the proposal is handed over. */
  lemma TakesFetched(net: Setting, i: ReplicaId, st: Station, s: Storage, p: seq<TreeNode>, k: nat, lead: ReplicaId) returns (st': Station)
    requires Chained(p) && 0 < k < |p| <= P.TWO_64 && Stands(s, p, k, k - 2)
    requires st.io.machine.storage == SM.SyncProposal(SM.SyncProposal(s, p[k - 1]), p[k])
    requires st.pm.syncing && st.pm.pending == multiset{P.Incoming(lead, p[k])} && st.signed.Keys == Prefix(p, k)
    requires st.io.ready == [BranchSyncDone(st.io.machine.storage.state.leaf)]
    ensures CanMove(net, i, st, Output(st.io.ready[0]), st') && HasSigned(i, st, lead, p, k, st')
  {
    hide Stands, Chained, CanMove, SM.OnRecvProposal, SM.SyncProposal, SM.Signs, P.KeyOf, P.ViewOfKey, Prefix, Demand, Handles, SM.VerifyProposal;
    var host, t, call := HostOf(net, i), st.io.machine.storage, Output(st.io.ready[0]);
    FetchesNode(s, p, k);
    NodeIs(p, k);
    MayVote(net.cfg, ReplicaOf(st), p, k);
    var io := Popped(st.io, call);
    SigningIsEmitted(host, io, lead, p[k]);
    SignedNext(ReplicaOf(st), p, k);
    hide Emitted;
    var pm', io' := NowInTime(host, st.pm, io, lead, p[k]);
    FetchedIsHanded(host, st.pm, io, lead, p[k], pm', io');
    st' := ActsOnce(net, i, st, call, pm', io', SM.RecvProposal(p[k]));
  }

  lemma FetchedIsHanded(host: Host, pm: P.Pacemaker, io: Surroundings, from: ReplicaId, prop: TreeNode, pm': P.Pacemaker, io': Surroundings)
    requires Handles(host, pm, io, Output(BranchSyncDone(io.machine.storage.state.leaf)), pm', io') && Idle(pm')
    requires pm.pending == multiset{P.Incoming(from, prop)} && pm.syncing
    ensures HandedIn(pm, pm') == [SM.RecvProposal(prop)] && pm'.view == pm.view
  {
    hide Emitted, P.KeyOf, P.ViewOfKey;
  }

  // ---------------------------------------------------------------- collecting votes

  lemma VoteIsCounted(m: SM.MachineState, total: nat, node: TreeNode, from: ReplicaId, ballots: Ballots)
    requires VotesFor(m.votes, node.height) == ballots && from !in ballots && forall j :: j in ballots ==> ballots[j] == Sign(j, node)
    ensures var more, event := ballots[from := Sign(from, node)], SM.RecvSign(from, node, Sign(from, node));
            && (|more| <= QuorumThreshold(total) ==>
                  && !SM.FormsQc(m, total, event)
                  && SM.OnRecvVote(m, total, from, node, Sign(from, node)) == m.(votes := m.votes[node.height := more]))
            && (|more| > QuorumThreshold(total) ==>
                  && SM.FormsQc(m, total, event)
                  && SM.OnRecvVote(m, total, from, node, Sign(from, node))
                     == SM.MachineState(UpdateQcHigh(m.storage, node, SM.LeafQc(m.storage, Threshold(node))), m.votes - {node.height}))
            && AllSign(AddVote(m.votes, node.height, from, Sign(from, node))[node.height], node)
  {
    hide UpdateQcHigh, Combine, SM.OnRecvVote, SM.FormsQc, AddVote, AllSign;
    var more := ballots[from := Sign(from, node)];
    VoteIsAdded(m.votes, node, from, ballots);
    if |more| > QuorumThreshold(total) {
      OwnVotesCombine(QuorumThreshold(total), node, more, from);
      VoteCompletes(m, total, node, from, ballots);
    } else {
      VoteIsKept(m, total, node, from, ballots);
    }
  }

  lemma VoteIsAdded(votes: VotingSet, node: TreeNode, from: ReplicaId, ballots: Ballots)
    requires VotesFor(votes, node.height) == ballots && forall j :: j in ballots ==> ballots[j] == Sign(j, node)
    ensures var added, more := AddVote(votes, node.height, from, Sign(from, node)), ballots[from := Sign(from, node)];
            added == votes[node.height := more] && added[node.height] == more && AllSign(more, node)
            && added - {node.height} == votes - {node.height}
  {
  }

  lemma VoteIsKept(m: SM.MachineState, total: nat, node: TreeNode, from: ReplicaId, ballots: Ballots)
    requires VotesFor(m.votes, node.height) == ballots && from !in ballots
    requires var added := AddVote(m.votes, node.height, from, Sign(from, node));
             node.height in added && |added[node.height]| <= QuorumThreshold(total)
    ensures !SM.FormsQc(m, total, SM.RecvSign(from, node, Sign(from, node)))
    ensures SM.OnRecvVote(m, total, from, node, Sign(from, node)) == m.(votes := AddVote(m.votes, node.height, from, Sign(from, node)))
  {
    hide UpdateQcHigh, Combine, AddVote;
  }

  lemma VoteCompletes(m: SM.MachineState, total: nat, node: TreeNode, from: ReplicaId, ballots: Ballots)
    requires VotesFor(m.votes, node.height) == ballots && from !in ballots
    requires var added := AddVote(m.votes, node.height, from, Sign(from, node));
             && node.height in added && |added[node.height]| > QuorumThreshold(total)
             && Combine(QuorumThreshold(total), added[node.height]) == Ok(Threshold(node))
    ensures SM.FormsQc(m, total, SM.RecvSign(from, node, Sign(from, node)))
    ensures SM.OnRecvVote(m, total, from, node, Sign(from, node))
            == SM.MachineState(UpdateQcHigh(m.storage, node, SM.LeafQc(m.storage, Threshold(node))),
                               AddVote(m.votes, node.height, from, Sign(from, node)) - {node.height})
  {
    hide UpdateQcHigh, Combine, AddVote;
  }

  lemma OwnVotesCombine(threshold: nat, node: TreeNode, ballots: Ballots, from: ReplicaId)
    requires |ballots| > threshold && from in ballots && forall j :: j in ballots ==> ballots[j] == Sign(j, node)
    ensures Combine(threshold, ballots) == Ok(Threshold(node))
  {
    assert AllSign(ballots, node) && DistinctSigners(ballots);
    forall other | AllSign(ballots, other) ensures other == node {
      assert ValidVote(other, ballots[from]);
    }
  }

  lemma MayCount(cfg: Config, r: Replica, p: seq<TreeNode>, k: nat, from: ReplicaId)
    requires k < |p| && r.machine.storage.state.leaf == p[k]
    requires AllSign(AddVote(r.machine.votes, p[k].height, from, Sign(from, p[k]))[p[k].height], p[k])
    ensures Demand(HandedInTime, cfg, r, SM.RecvSign(from, p[k], Sign(from, p[k])))
  {
    hide SM.FormsQc, Adopts;
  }

  lemma LedLeaf(s: Storage, p: seq<TreeNode>, k: nat)
    requires k < |p| && Led(s, p, k)
    ensures s.state.leaf == p[k]
  {
    hide At, Only;
  }

  /** A vote that does not complete the set. */
  lemma CountsVote(net: Setting, i: ReplicaId, st: Station, p: seq<TreeNode>, k: nat, ballots: Ballots, from: ReplicaId) returns (st': Station)
    requires Chained(p) && k < |p| && Leads(st, p, k, ballots) && from !in ballots
    requires |ballots[from := Sign(from, p[k])]| <= QuorumThreshold(net.cfg.n)
    ensures CanMove(net, i, st, PeerVote(from, p[k], Some(Sign(from, p[k]))), st')
    ensures Leads(st', p, k, ballots[from := Sign(from, p[k])]) && st'.io.outbox == st.io.outbox && st'.pm == st.pm
  {
    hide Leads, Chained, CanMove, Demand, SM.OnRecvVote, SM.FormsQc, AllSign, Emitted, Cert;
    var node, kit := p[k], Sign(from, p[k]);
    NodeIs(p, k);
    LeadsParts(st, p, k, ballots);
    VoteIsCounted(st.io.machine, net.cfg.n, node, from, ballots);
    MayCount(net.cfg, ReplicaOf(st), p, k, from);
    var io' := Emitted(HostOf(net, i), st.io, RecvSign(from, node, kit));
    VoteEmitted(HostOf(net, i), st.pm, st.io, from, node, kit);
    st' := ActsOnce(net, i, st, PeerVote(from, node, Some(kit)), st.pm, io', SM.RecvSign(from, node, kit));
    LeadsOn(st, st', p, k, ballots, from);
  }

  lemma LeadsParts(st: Station, p: seq<TreeNode>, k: nat, ballots: Ballots)
    requires k < |p| && Leads(st, p, k, ballots)
    ensures VotesFor(st.io.machine.votes, k + 1) == ballots && (forall j :: j in ballots ==> ballots[j] == Sign(j, p[k]))
    ensures st.io.ready == [] && st.io.machine.storage.state.leaf == p[k]
  {
    hide Led, Prefix;
    LedLeaf(st.io.machine.storage, p, k);
  }

  lemma LeadsOn(st: Station, st': Station, p: seq<TreeNode>, k: nat, ballots: Ballots, from: ReplicaId)
    requires k < |p| && Leads(st, p, k, ballots)
    requires st'.io.machine == st.io.machine.(votes := st.io.machine.votes[k + 1 := ballots[from := Sign(from, p[k])]])
    requires st'.pm == st.pm && st'.io.ready == [] && st'.signed.Keys == st.signed.Keys
    ensures Leads(st', p, k, ballots[from := Sign(from, p[k])])
  {
    hide Led, Prefix;
  }

  lemma VoteEmitted(host: Host, pm: P.Pacemaker, io: Surroundings, from: ReplicaId, node: TreeNode, kit: SignKit)
    ensures var io' := Emitted(host, io, RecvSign(from, node, kit));
            && io'.machine == SM.OnRecvVote(io.machine, host.total, from, node, kit) && io'.outbox == io.outbox
            && io'.ready == if SM.FormsQc(io.machine, host.total, SM.RecvSign(from, node, kit))
                            then io.ready + [ProposalReachConsensus(io.machine.storage.state.view)] else io.ready
  {
    hide Emitted;
    var io' := Emitted(host, io, RecvSign(from, node, kit));
    VoteIsReportedIff(host, pm, io, from, node, kit, pm, io');
    EmittedMachine(host, io, RecvSign(from, node, kit));
  }

  lemma EmittedMachine(host: Host, io: Surroundings, event: SafetyEvent)
    ensures Emitted(host, io, event).machine == Handled(io.machine, host.total, host.id, event)
  {
  }

  /** The vote that completes it, and the view that is then entered with its certificate. */
  lemma CompletesVotes(net: Setting, i: ReplicaId, st: Station, p: seq<TreeNode>, k: nat, ballots: Ballots, from: ReplicaId)
    returns (st1: Station, st2: Station)
    requires Chained(p) && k < |p| && Leads(st, p, k, ballots) && from !in ballots
    requires |ballots[from := Sign(from, p[k])]| > QuorumThreshold(net.cfg.n)
    ensures CanMove(net, i, st, PeerVote(from, p[k], Some(Sign(from, p[k]))), st1)
    ensures |st1.io.ready| == 1 && CanMove(net, i, st1, Output(st1.io.ready[0]), st2)
    ensures InRound(st2, p, k + 1, k) && st.io.outbox == st1.io.outbox <= st2.io.outbox
    ensures SendNewView(net.leaderOf(k + 2), k + 2, Cert(p, k + 1)) in st2.io.outbox
  {
    hide Led, Chained, CanMove, Stands, UpdateQcHigh, Cert;
    st1 := ReachesConsensus(net, i, st, p, k, ballots, from);
    NodeIs(p, k);
    CertifiesNode(st.io.machine.storage, p, k);
    var call := Output(st1.io.ready[0]);
    var sent := Popped(st1.io, call);
    var pm', io' := EntersNext(HostOf(net, i), st1.pm, sent);
    st2 := Leaves(net, i, st1, sent, call, pm', io');
    NextRound(net, st1, st1.io.outbox, st2, p, k, k);
  }

  lemma ReachesConsensus(net: Setting, i: ReplicaId, st: Station, p: seq<TreeNode>, k: nat, ballots: Ballots, from: ReplicaId)
    returns (st': Station)
    requires Chained(p) && k < |p| && Leads(st, p, k, ballots) && from !in ballots
    requires |ballots[from := Sign(from, p[k])]| > QuorumThreshold(net.cfg.n)
    ensures CanMove(net, i, st, PeerVote(from, p[k], Some(Sign(from, p[k]))), st')
    ensures st'.pm == st.pm && st'.io.outbox == st.io.outbox && st'.io.ready == [ProposalReachConsensus(k + 1)]
    ensures st'.signed.Keys == st.signed.Keys && VotesBelow(st'.io.machine.votes, k + 1)
    ensures st'.io.machine.storage == UpdateQcHigh(st.io.machine.storage, p[k], SM.LeafQc(st.io.machine.storage, Threshold(p[k])))
  {
    hide Led, Chained, CanMove, Demand, SM.OnRecvVote, SM.FormsQc, Prefix, AllSign, Emitted, UpdateQcHigh, Cert;
    var node, kit := p[k], Sign(from, p[k]);
    NodeIs(p, k);
    LeadsParts(st, p, k, ballots);
    VoteIsCounted(st.io.machine, net.cfg.n, node, from, ballots);
    MayCount(net.cfg, ReplicaOf(st), p, k, from);
    var io' := Emitted(HostOf(net, i), st.io, RecvSign(from, node, kit));
    VoteEmitted(HostOf(net, i), st.pm, st.io, from, node, kit);
    st' := ActsOnce(net, i, st, PeerVote(from, node, Some(kit)), st.pm, io', SM.RecvSign(from, node, kit));
  }
}
