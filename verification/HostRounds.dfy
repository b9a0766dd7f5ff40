/** Wired hosts commit.  From their first announcements on, through gates, proposals, fetched
    branches, votes and certificates, into view after view under any correct leaders: no message
    is supposed, each was sent by a correct host before, and no timer is needed. */
module HostRounds {
  import opened HsData
  import opened StorageModel
  import opened Voting
  import opened Quorums
  import opened MachineClass
  import opened PacemakerSteps
  import opened Protocol
  import opened ReplicaScripts
  import opened RoundStorages
  import opened Network
  import opened HostTurns
  import HG = HostsGenuine
  import SM = SafetyMachine
  import P = Pacing
  import HL = HostLeaders

  // ---------------------------------------------------------------- runs on what was sent

  /** A correct host has sent what the call delivers; outputs and transactions are the host's own. */
  ghost predicate Sent(cfg: Config, sys: System, i: ReplicaId, call: Call)
    requires i < |sys| == cfg.n
  {
    match call
    case PeerProposal(from, prop) => Correct(cfg, from) && SendNewProposal(prop) in sys[from].io.outbox
    case PeerVote(from, prop, kit) => Correct(cfg, from) && kit.Some? && SendAcceptProposal(i, prop, kit.value) in sys[from].io.outbox
    case PeerNewView(from, view, qc) => Correct(cfg, from) && SendNewView(i, view, qc) in sys[from].io.outbox
    case PeerSyncRequest(from, growFrom) => Correct(cfg, from) && SendBranchSyncRequest(i, growFrom) in sys[from].io.outbox
    case PeerSyncResponse(branch) =>
      branch.Some? && exists from: ReplicaId :: Correct(cfg, from) && SendBranchSyncResponse(i, branch.value) in sys[from].io.outbox
    case PeerTimeout(_) => false
    case LocalTimeout(_) => false
    case Output(_) => true
    case Propose(_) => true
  }

  /** A lawful run, in time, without timeouts and on nothing but what correct hosts have sent. */
  ghost predicate SentRun(net: Setting, run: Systems, moves: seq<Move>) {
    && TracedRun(HandedInTime, net, run, moves)
    && forall k :: 0 <= k < |moves| ==> moves[k].host < |run[k]| == net.cfg.n && Sent(net.cfg, run[k], moves[k].host, moves[k].call)
  }

  /** Such a run leads there. */
  ghost predicate CanBe(net: Setting, sys: System) {
    exists run, moves :: SentRun(net, run, moves) && HL.LastOf(run) == sys
  }

  lemma StepOn(net: Setting, sys: System, i: ReplicaId, call: Call, st': Station)
    requires CanBe(net, sys) && Correct(net.cfg, i) && |sys| == net.cfg.n && Sent(net.cfg, sys, i, call)
    requires CanMove(net, i, sys[i], call, st')
    ensures CanBe(net, sys[i := st'])
  {
    hide Handles, Demands, Moved, InitSystem, CallEvents, Sent;
    var run: Systems, moves :| SentRun(net, run, moves) && HL.LastOf(run) == sys;
    var pm', io' :| Acts(net, i, sys[i], call, pm', io') && st' == Moved(net, sys[i], i, call, pm', io');
    var move := Move(i, call, pm', io');
    SentArrives(net.cfg, sys, i, call);
    assert Made(HandedInTime, net, sys, move, sys[i := st']);
    HL.TraceGoesOn(HandedInTime, net, run, moves, move, sys[i := st']);
    var longer: Systems := run + [sys[i := st']];
    assert SentRun(net, longer, moves + [move]) && HL.LastOf(longer) == sys[i := st'];
  }

  lemma SentArrives(cfg: Config, sys: System, i: ReplicaId, call: Call)
    requires i < |sys| == cfg.n && Sent(cfg, sys, i, call)
    requires call.Output? ==> |sys[i].io.ready| > 0 && sys[i].io.ready[0] == call.ready
    ensures Arrives(cfg, sys, i, call)
  {
    hide HG.GenuineCall;
  }

  // ---------------------------------------------------------------- the start of a round

  ghost predicate Stays(st: Station, p: seq<TreeNode>, k: nat)
    requires k <= |p|
  {
    exists q :: InRound(st, p, k, q)
  }

  ghost predicate Announced(net: Setting, st: Station, p: seq<TreeNode>, k: nat, c: nat)
    requires c <= |p|
  {
    SendNewView(net.leaderOf(k + 1), k + 1, Cert(p, c)) in st.io.outbox
  }

  ghost predicate HasAnnounced(net: Setting, st: Station, p: seq<TreeNode>, k: nat)
    requires k <= |p|
  {
    exists c :: 0 <= c <= k && Announced(net, st, p, k, c)
  }

  /** All correct hosts are in the view of node `k`, which has yet to be made, and have told its
      leader what they hold; one of them told it the certificate of the node before. */
  ghost predicate Start(net: Setting, sys: System, p: seq<TreeNode>, k: nat, holder: ReplicaId)
    requires k <= |p|
  {
    && |sys| == net.cfg.n && Correct(net.cfg, holder) && Announced(net, sys[holder], p, k, k)
    && forall j: ReplicaId :: Correct(net.cfg, j) ==> Stays(sys[j], p, k) && HasAnnounced(net, sys[j], p, k)
  }

  lemma FirstStart(net: Setting, p: seq<TreeNode>, holder: ReplicaId)
    requires Correct(net.cfg, holder)
    ensures CanBe(net, InitSystem(net)) && Start(net, InitSystem(net), p, 0, holder)
  {
    var sys := InitSystem(net);
    assert SentRun(net, [sys], []) && HL.LastOf([sys]) == sys;
    forall j: ReplicaId | Correct(net.cfg, j) ensures Stays(sys[j], p, 0) && HasAnnounced(net, sys[j], p, 0) && Announced(net, sys[j], p, 0, 0) {
      FreshIsInRound(net, j, p);
    }
  }

  lemma FreshIsInRound(net: Setting, i: ReplicaId, p: seq<TreeNode>)
    requires Correct(net.cfg, i)
    ensures InRound(Fresh(net, i), p, 0, -1) && Announced(net, Fresh(net, i), p, 0, 0)
  {
    hide Stands;
    FreshStands(p);
    StandsStays(InitStorage(), Fresh(net, i).io.machine.storage, p, 0, -1);
  }

  // ---------------------------------------------------------------- the leader hears and proposes

  ghost predicate OnlyHost(sys: System, sys': System, i: ReplicaId) {
    |sys| == |sys'| && i < |sys| && forall j :: 0 <= j < |sys| && j != i ==> sys'[j] == sys[j]
  }

  ghost predicate Heard(net: Setting, st: Station, k: nat, j: nat) {
    forall i: ReplicaId :: i < j && Correct(net.cfg, i) ==> i in P.NewViewSet(st.pm.newViews, k + 1)
  }

  /** The announcements of the correct hosts below `j` are delivered and acted on. */
  lemma {:induction false} HearAll(net: Setting, sys: System, p: seq<TreeNode>, k: nat, holder: ReplicaId, lead: ReplicaId, j: nat)
    returns (sys': System)
    requires Chained(p) && k < |p| && CanBe(net, sys) && Start(net, sys, p, k, holder) && lead == net.leaderOf(k + 1) && Correct(net.cfg, lead)
    requires j <= net.cfg.n
    ensures CanBe(net, sys') && OnlyHost(sys, sys', lead) && sys'[lead].io.outbox == sys[lead].io.outbox && Heard(net, sys'[lead], k, j)
    ensures if holder < j then InRound(sys'[lead], p, k, k - 1) else Stays(sys'[lead], p, k)
    decreases j
  {
    hide InRound, Chained, CanBe, Cert;
    if j == 0 {
      sys' := sys;
    } else {
      sys' := HearAll(net, sys, p, k, holder, lead, j - 1);
      if Correct(net.cfg, j - 1) {
        sys' := HearOne(net, sys, sys', p, k, holder, lead, j - 1);
      }
    }
  }

  lemma HearOne(net: Setting, sys: System, now: System, p: seq<TreeNode>, k: nat, holder: ReplicaId, lead: ReplicaId, j: ReplicaId)
    returns (sys': System)
    requires Chained(p) && k < |p| && CanBe(net, now) && Start(net, sys, p, k, holder) && lead == net.leaderOf(k + 1)
    requires Correct(net.cfg, lead) && Correct(net.cfg, j)
    requires OnlyHost(sys, now, lead) && now[lead].io.outbox == sys[lead].io.outbox && Heard(net, now[lead], k, j)
    requires if holder < j then InRound(now[lead], p, k, k - 1) else Stays(now[lead], p, k)
    ensures CanBe(net, sys') && OnlyHost(sys, sys', lead) && sys'[lead].io.outbox == sys[lead].io.outbox && Heard(net, sys'[lead], k, j + 1)
    ensures if holder < j + 1 then InRound(sys'[lead], p, k, k - 1) else Stays(sys'[lead], p, k)
  {
    hide InRound, Chained, CanBe, Cert, CanMove;
    assert HasAnnounced(net, sys[j], p, k);
    var c := if j == holder then k else var c :| 0 <= c <= k && Announced(net, sys[j], p, k, c); c;
    var q :| InRound(now[lead], p, k, q) && (holder < j ==> q == k - 1);
    InRoundBound(now[lead], p, k, q);
    var st1, st2 := HearsAnnouncement(net, lead, now[lead], p, k, q, j, c);
    StepOn(net, now, lead, PeerNewView(j, k + 1, Cert(p, c)), st1);
    var mid := now[lead := st1];
    StepOn(net, mid, lead, Output(st1.io.ready[0]), st2);
    sys' := mid[lead := st2];
  }

  lemma InRoundBound(st: Station, p: seq<TreeNode>, k: nat, q: int)
    requires k <= |p| && InRound(st, p, k, q)
    ensures (k - 2 <= q < k) && q >= -1
  {
    hide Stands;
    StandsHas(st.io.machine.storage, p, k, q);
  }

  lemma AllHeardOpens(net: Setting, st: Station, k: nat)
    requires net.cfg.Valid() && Heard(net, st, k, net.cfg.n) && st.pm.view == k + 1
    ensures P.GateOpen(st.pm, net.cfg.n)
  {
    var heard := P.NewViewSet(st.pm.newViews, k + 1);
    CorrectAreQuorum(net.cfg, heard.Keys);
    assert |heard| == |heard.Keys|;
  }

  lemma CorrectAreQuorum(cfg: Config, ids: set<ReplicaId>)
    requires cfg.Valid() && forall i: ReplicaId :: Correct(cfg, i) ==> i in ids
    ensures |ids| > QuorumThreshold(cfg.n)
  {
    var correct := Ids(cfg.n) - cfg.faulty;
    IdsSize(cfg.n);
    ThresholdIsNMinusF(cfg.n);
    SubsetSize(correct, ids);
    assert |correct| == cfg.n - |cfg.faulty|;
  }

  /** The leader has proposed; others are as they were. */
  lemma LeaderProposes(net: Setting, sys: System, p: seq<TreeNode>, k: nat, holder: ReplicaId, lead: ReplicaId) returns (sys': System)
    requires Chained(p) && k < |p| && CanBe(net, sys) && Start(net, sys, p, k, holder) && lead == net.leaderOf(k + 1) && Correct(net.cfg, lead)
    requires net.cfg.Valid()
    ensures CanBe(net, sys') && OnlyHost(sys, sys', lead)
    ensures Leads(sys'[lead], p, k, map[lead := Sign(lead, p[k])]) && SendNewProposal(p[k]) in sys'[lead].io.outbox
  {
    hide InRound, Chained, CanBe, CanMove, Leads, P.GateOpen, Config.Valid;
    var now := HearAll(net, sys, p, k, holder, lead, net.cfg.n);
    InRoundView(now[lead], p, k, k - 1);
    AllHeardOpens(net, now[lead], k);
    var st1, st2 := ProposesNode(net, lead, now[lead], p, k);
    StepOn(net, now, lead, Propose(p[k].payload), st1);
    var mid := now[lead := st1];
    StepOn(net, mid, lead, Output(st1.io.ready[0]), st2);
    sys' := mid[lead := st2];
    assert st2.io.outbox[|st1.io.outbox|] == SendNewProposal(p[k]);
  }

  lemma InRoundView(st: Station, p: seq<TreeNode>, k: nat, q: int)
    requires k <= |p| && InRound(st, p, k, q)
    ensures st.pm.view == k + 1
  {
    hide Stands;
  }

  // ---------------------------------------------------------------- the others follow

  /** The host has voted, has told the next leader, and has committed what it should. */
  ghost predicate Followed(net: Setting, st: Station, p: seq<TreeNode>, k: nat, lead: ReplicaId, i: ReplicaId)
    requires k < |p|
  {
    && InRound(st, p, k + 1, k - 1) && SendAcceptProposal(lead, p[k], Sign(i, p[k])) in st.io.outbox && Announced(net, st, p, k + 1, k)
    && st.io.machine.storage.state.lastCommit == Node(p, k - 3)
  }

  ghost predicate LeadsAlone(sys: System, p: seq<TreeNode>, k: nat, lead: ReplicaId)
    requires k < |p|
  {
    lead < |sys| && Leads(sys[lead], p, k, map[lead := Sign(lead, p[k])]) && SendNewProposal(p[k]) in sys[lead].io.outbox
  }

  /** Correct hosts below `j` have followed. */
  ghost predicate Mid(net: Setting, sys: System, p: seq<TreeNode>, k: nat, lead: ReplicaId, j: nat)
    requires k < |p|
  {
    && |sys| == net.cfg.n && LeadsAlone(sys, p, k, lead)
    && forall i: ReplicaId :: Correct(net.cfg, i) && i != lead ==>
         if i < j then Followed(net, sys[i], p, k, lead, i) else Stays(sys[i], p, k)
  }

  /** The last two calls of a follower: it has signed, sends its vote and enters the next view. */
  lemma SendsVote(net: Setting, sys: System, p: seq<TreeNode>, k: nat, lead: ReplicaId, i: ReplicaId, before: Station)
    returns (sys': System)
    requires Chained(p) && k < |p| && CanBe(net, sys) && Correct(net.cfg, i) && |sys| == net.cfg.n && lead != i
    requires HasSigned(i, before, lead, p, k, sys[i]) && before.pm.view == k + 1 && VotesBelow(before.io.machine.votes, k)
    requires var t := SM.OnRecvProposal(before.io.machine.storage, p[k]);
             Stands(t, p, k + 1, k - 1) && t.state.view == k + 1 && t.state.lastCommit == Node(p, k - 3)
    ensures CanBe(net, sys') && OnlyHost(sys, sys', i) && Followed(net, sys'[i], p, k, lead, i)
  {
    hide Stands, Chained, CanBe, CanMove, SM.OnRecvProposal, Cert, Prefix;
    NodeIs(p, k);
    var st' := VotesAndLeaves(net, i, sys[i], lead, p[k]);
    var sent := sys[i].io.outbox + [SendAcceptProposal(lead, p[k], Sign(i, p[k]))];
    NextRound(net, sys[i], sent, st', p, k, k - 1);
    StepOn(net, sys, i, Output(sys[i].io.ready[0]), st');
    assert sent[|sys[i].io.outbox|] in sent && SendAcceptProposal(lead, p[k], Sign(i, p[k])) in st'.io.outbox;
    sys' := sys[i := st'];
  }

  lemma FollowsAtOnce(net: Setting, sys: System, p: seq<TreeNode>, k: nat, lead: ReplicaId, i: ReplicaId) returns (sys': System)
    requires Chained(p) && k < |p| <= P.TWO_64 && CanBe(net, sys) && Correct(net.cfg, i) && Correct(net.cfg, lead) && |sys| == net.cfg.n
    requires lead != i && LeadsAlone(sys, p, k, lead) && InRound(sys[i], p, k, k - 1)
    ensures CanBe(net, sys') && OnlyHost(sys, sys', i) && Followed(net, sys'[i], p, k, lead, i)
  {
    hide Stands, Chained, CanBe, CanMove, SM.OnRecvProposal, Prefix, SM.Signs, Followed, HasSigned, Leads;
    TakesNode(sys[i].io.machine.storage, p, k);
    var st1 := TakesProposal(net, i, sys[i], p, k, lead);
    StepOn(net, sys, i, PeerProposal(lead, p[k]), st1);
    sys' := SendsVote(net, sys[i := st1], p, k, lead, i, sys[i]);
  }

  /** It asks, the leader answers, it synchronises, and is then handed the proposal. */
  lemma FollowsByFetching(net: Setting, sys: System, p: seq<TreeNode>, k: nat, lead: ReplicaId, i: ReplicaId) returns (sys': System)
    requires Chained(p) && 0 < k < |p| <= P.TWO_64 && CanBe(net, sys) && Correct(net.cfg, i) && Correct(net.cfg, lead) && |sys| == net.cfg.n
    requires lead != i && lead == net.leaderOf(k + 1) && LeadsAlone(sys, p, k, lead) && InRound(sys[i], p, k, k - 2)
    ensures CanBe(net, sys') && |sys'| == |sys| && LeadsAlone(sys', p, k, lead) && Followed(net, sys'[i], p, k, lead, i)
    ensures forall j :: 0 <= j < |sys| && j != i && j != lead ==> sys'[j] == sys[j]
  {
    hide Stands, Chained, CanBe, CanMove, SM.OnRecvProposal, SM.SyncProposal, SM.VerifyProposal, Prefix, SM.Signs, Followed, HasSigned, Leads;
    var s := sys[i].io.machine.storage;
    FetchesNode(s, p, k);
    var st1 := AsksForBranch(net, i, sys[i], p, k, lead);
    StepOn(net, sys, i, PeerProposal(lead, p[k]), st1);
    var sys1 := sys[i := st1];
    assert st1.io.outbox[|sys[i].io.outbox|] == SendBranchSyncRequest(lead, k - 1);
    var sys2 := LeaderAnswers(net, sys1, p, k, lead, i);
    var sys3, st3 := Synchronises(net, sys2, s, p, k, lead, i);
    sys' := HandsOver(net, sys3, st3, s, p, k, lead, i);
  }

  lemma LeaderAnswers(net: Setting, sys: System, p: seq<TreeNode>, k: nat, lead: ReplicaId, i: ReplicaId) returns (sys': System)
    requires Chained(p) && 0 < k < |p| && CanBe(net, sys) && Correct(net.cfg, i) && Correct(net.cfg, lead) && |sys| == net.cfg.n
    requires lead != i && LeadsAlone(sys, p, k, lead) && SendBranchSyncRequest(lead, k - 1) in sys[i].io.outbox
    ensures CanBe(net, sys') && OnlyHost(sys, sys', lead) && LeadsAlone(sys', p, k, lead)
    ensures SendBranchSyncResponse(i, Missing(p, k)) in sys'[lead].io.outbox
  {
    hide Chained, CanBe, CanMove, Leads;
    var lst := AnswersRequest(net, lead, sys[lead], p, k, map[lead := Sign(lead, p[k])], i);
    StepOn(net, sys, lead, PeerSyncRequest(i, k - 1), lst);
    sys' := sys[lead := lst];
    assert lst.io.outbox[|sys[lead].io.outbox|] == SendBranchSyncResponse(i, Missing(p, k));
  }

  lemma Synchronises(net: Setting, sys: System, s: Storage, p: seq<TreeNode>, k: nat, lead: ReplicaId, i: ReplicaId)
    returns (sys': System, st': Station)
    requires Chained(p) && 0 < k < |p| && CanBe(net, sys) && Correct(net.cfg, i) && Correct(net.cfg, lead) && |sys| == net.cfg.n
    requires lead != i && SendBranchSyncResponse(i, Missing(p, k)) in sys[lead].io.outbox
    requires sys[i].io.machine.storage == s && Stands(s, p, k, k - 2) && sys[i].io.ready == []
    ensures CanBe(net, sys') && sys' == sys[i := st'] && st'.pm == sys[i].pm && st'.signed == sys[i].signed
    ensures st'.io.machine == sys[i].io.machine.(storage := SM.SyncProposal(SM.SyncProposal(s, p[k - 1]), p[k]))
    ensures st'.io.ready == [BranchSyncDone(st'.io.machine.storage.state.leaf)]
  {
    hide Stands, Chained, CanBe, CanMove, SM.SyncProposal;
    st' := SyncsBranch(net, i, sys[i], p, k);
    StepOn(net, sys, i, PeerSyncResponse(Some(Missing(p, k))), st');
    sys' := sys[i := st'];
  }

  lemma HandsOver(net: Setting, sys: System, st: Station, s: Storage, p: seq<TreeNode>, k: nat, lead: ReplicaId, i: ReplicaId)
    returns (sys': System)
    requires Chained(p) && 0 < k < |p| <= P.TWO_64 && CanBe(net, sys) && Correct(net.cfg, i) && |sys| == net.cfg.n && sys[i] == st && lead != i
    requires Stands(s, p, k, k - 2) && s.state.view == k + 1
    requires st.io.machine.storage == SM.SyncProposal(SM.SyncProposal(s, p[k - 1]), p[k]) && VotesBelow(st.io.machine.votes, k)
    requires st.pm.syncing && st.pm.pending == multiset{P.Incoming(lead, p[k])} && st.pm.view == k + 1 && st.signed.Keys == Prefix(p, k)
    requires st.io.ready == [BranchSyncDone(st.io.machine.storage.state.leaf)]
    ensures CanBe(net, sys') && OnlyHost(sys, sys', i) && Followed(net, sys'[i], p, k, lead, i)
  {
    hide Stands, Chained, CanBe, CanMove, SM.OnRecvProposal, SM.SyncProposal, SM.VerifyProposal, Prefix, SM.Signs, Followed, HasSigned;
    FetchesNode(s, p, k);
    var st1 := TakesFetched(net, i, st, s, p, k, lead);
    StepOn(net, sys, i, Output(st.io.ready[0]), st1);
    sys' := SendsVote(net, sys[i := st1], p, k, lead, i, st);
  }

  lemma {:induction false} FollowAll(net: Setting, sys: System, p: seq<TreeNode>, k: nat, lead: ReplicaId, j: nat) returns (sys': System)
    requires Chained(p) && k < |p| <= P.TWO_64 && CanBe(net, sys) && Mid(net, sys, p, k, lead, 0)
    requires lead == net.leaderOf(k + 1) && Correct(net.cfg, lead) && j <= net.cfg.n
    ensures CanBe(net, sys') && Mid(net, sys', p, k, lead, j)
    decreases j
  {
    hide Chained, CanBe, LeadsAlone, Followed, InRound;
    if j == 0 {
      sys' := sys;
    } else {
      sys' := FollowAll(net, sys, p, k, lead, j - 1);
      if Correct(net.cfg, j - 1) && j - 1 != lead {
        sys' := FollowOne(net, sys', p, k, lead, j - 1);
      }
    }
  }

  lemma FollowOne(net: Setting, sys: System, p: seq<TreeNode>, k: nat, lead: ReplicaId, j: ReplicaId) returns (sys': System)
    requires Chained(p) && k < |p| <= P.TWO_64 && CanBe(net, sys) && Mid(net, sys, p, k, lead, j)
    requires lead == net.leaderOf(k + 1) && Correct(net.cfg, lead) && Correct(net.cfg, j) && j != lead
    ensures CanBe(net, sys') && Mid(net, sys', p, k, lead, j + 1)
  {
    hide Chained, CanBe, Followed, InRound, Leads;
    assert Stays(sys[j], p, k);
    var q :| InRound(sys[j], p, k, q);
    InRoundBound(sys[j], p, k, q);
    if q == k - 1 {
      sys' := FollowsAtOnce(net, sys, p, k, lead, j);
    } else {
      sys' := FollowsByFetching(net, sys, p, k, lead, j);
    }
  }

  // ---------------------------------------------------------------- the leader collects votes

  /** The set is complete and the leader is in the next view, or it holds all votes below `j`. */
  ghost predicate Collected(net: Setting, st: Station, p: seq<TreeNode>, k: nat, lead: ReplicaId, j: nat)
    requires k < |p|
  {
    || (InRound(st, p, k + 1, k) && Announced(net, st, p, k + 1, k + 1))
    || exists ballots :: Leads(st, p, k, ballots) && HoldsVotes(net, ballots, lead, j)
  }

  ghost predicate HoldsVotes(net: Setting, ballots: Ballots, lead: ReplicaId, j: nat) {
    && |ballots| <= QuorumThreshold(net.cfg.n) && lead in ballots
    && forall i: ReplicaId :: i < j && Correct(net.cfg, i) ==> i in ballots
  }

  lemma {:induction false} CollectVotes(net: Setting, sys: System, p: seq<TreeNode>, k: nat, lead: ReplicaId, j: nat) returns (sys': System)
    requires Chained(p) && k < |p| && CanBe(net, sys) && Mid(net, sys, p, k, lead, net.cfg.n) && Correct(net.cfg, lead)
    requires net.cfg.n >= 2 && j <= net.cfg.n
    ensures CanBe(net, sys') && OnlyHost(sys, sys', lead) && Collected(net, sys'[lead], p, k, lead, j)
    decreases j
  {
    hide Chained, CanBe, Followed, Leads;
    if j == 0 {
      sys' := sys;
      assert HoldsVotes(net, map[lead := Sign(lead, p[k])], lead, 0);
    } else {
      sys' := CollectVotes(net, sys, p, k, lead, j - 1);
      sys' := CollectOne(net, sys, sys', p, k, lead, j - 1);
    }
  }

  lemma CollectOne(net: Setting, sys: System, now: System, p: seq<TreeNode>, k: nat, lead: ReplicaId, j: ReplicaId) returns (sys': System)
    requires Chained(p) && k < |p| && CanBe(net, now) && Mid(net, sys, p, k, lead, net.cfg.n) && Correct(net.cfg, lead) && j < net.cfg.n
    requires OnlyHost(sys, now, lead) && Collected(net, now[lead], p, k, lead, j)
    ensures CanBe(net, sys') && OnlyHost(sys, sys', lead) && Collected(net, sys'[lead], p, k, lead, j + 1)
  {
    hide Chained, CanBe, InRound, Leads, CanMove;
    sys' := now;
    if !(InRound(now[lead], p, k + 1, k) && Announced(net, now[lead], p, k + 1, k + 1)) {
      var ballots :| Leads(now[lead], p, k, ballots) && HoldsVotes(net, ballots, lead, j);
      if Correct(net.cfg, j) && j !in ballots {
        VoteWasSent(net, sys, p, k, lead, j, ballots);
        sys' := CountOne(net, now, p, k, lead, j, ballots);
      }
    }
  }

  lemma VoteWasSent(net: Setting, sys: System, p: seq<TreeNode>, k: nat, lead: ReplicaId, j: ReplicaId, ballots: Ballots)
    requires k < |p| && Mid(net, sys, p, k, lead, net.cfg.n) && Correct(net.cfg, j) && j != lead
    ensures SendAcceptProposal(lead, p[k], Sign(j, p[k])) in sys[j].io.outbox
  {
    hide LeadsAlone, InRound;
    assert Followed(net, sys[j], p, k, lead, j);
  }

  lemma CountOne(net: Setting, sys: System, p: seq<TreeNode>, k: nat, lead: ReplicaId, j: ReplicaId, ballots: Ballots) returns (sys': System)
    requires Chained(p) && k < |p| && CanBe(net, sys) && Correct(net.cfg, lead) && Correct(net.cfg, j) && |sys| == net.cfg.n
    requires Leads(sys[lead], p, k, ballots) && HoldsVotes(net, ballots, lead, j) && j !in ballots
    requires SendAcceptProposal(lead, p[k], Sign(j, p[k])) in sys[j].io.outbox
    ensures CanBe(net, sys') && OnlyHost(sys, sys', lead) && Collected(net, sys'[lead], p, k, lead, j + 1)
  {
    hide Chained, CanBe, InRound, Leads, CanMove, Cert;
    var call, more := PeerVote(j, p[k], Some(Sign(j, p[k]))), ballots[j := Sign(j, p[k])];
    if |more| <= QuorumThreshold(net.cfg.n) {
      var st := CountsVote(net, lead, sys[lead], p, k, ballots, j);
      StepOn(net, sys, lead, call, st);
      sys' := sys[lead := st];
      assert HoldsVotes(net, more, lead, j + 1);
    } else {
      var st1, st2 := CompletesVotes(net, lead, sys[lead], p, k, ballots, j);
      StepOn(net, sys, lead, call, st1);
      var mid := sys[lead := st1];
      StepOn(net, mid, lead, Output(st1.io.ready[0]), st2);
      sys' := mid[lead := st2];
    }
  }

  /** The votes of all correct hosts complete the set. */
  lemma AllVotesComplete(net: Setting, st: Station, p: seq<TreeNode>, k: nat, lead: ReplicaId)
    requires net.cfg.Valid() && k < |p| && Collected(net, st, p, k, lead, net.cfg.n)
    ensures InRound(st, p, k + 1, k) && Announced(net, st, p, k + 1, k + 1)
  {
    hide InRound, Leads;
    if !(InRound(st, p, k + 1, k) && Announced(net, st, p, k + 1, k + 1)) {
      var ballots :| Leads(st, p, k, ballots) && HoldsVotes(net, ballots, lead, net.cfg.n);
      assert |ballots.Keys| == |ballots|;
      CorrectAreQuorum(net.cfg, ballots.Keys);
    }
  }

  // ---------------------------------------------------------------- rounds

  /** The correct hosts other than the leader of the last round have committed what they should. */
  ghost predicate Committed(net: Setting, sys: System, p: seq<TreeNode>, k: nat)
    requires k <= |p|
  {
    forall i: ReplicaId :: Correct(net.cfg, i) && i < |sys| && k > 0 && i != net.leaderOf(k) ==>
      sys[i].io.machine.storage.state.lastCommit == Node(p, k - 4)
  }

  lemma OneRound(net: Setting, sys: System, p: seq<TreeNode>, k: nat, holder: ReplicaId) returns (sys': System)
    requires net.cfg.Valid() && net.cfg.n >= 2 && Chained(p) && k < |p| <= P.TWO_64 && CanBe(net, sys) && Start(net, sys, p, k, holder)
    requires Correct(net.cfg, net.leaderOf(k + 1))
    ensures CanBe(net, sys') && Start(net, sys', p, k + 1, net.leaderOf(k + 1)) && Committed(net, sys', p, k + 1)
  {
    hide Chained, CanBe, InRound, Leads, Followed, Announced, Collected, Config.Valid;
    var lead := net.leaderOf(k + 1);
    var proposed := LeaderProposes(net, sys, p, k, holder, lead);
    assert Mid(net, proposed, p, k, lead, 0);
    var followed := FollowAll(net, proposed, p, k, lead, net.cfg.n);
    sys' := CollectVotes(net, followed, p, k, lead, net.cfg.n);
    AllVotesComplete(net, sys'[lead], p, k, lead);
    forall i: ReplicaId | Correct(net.cfg, i)
      ensures Stays(sys'[i], p, k + 1) && HasAnnounced(net, sys'[i], p, k + 1)
      ensures i != lead ==> sys'[i].io.machine.storage.state.lastCommit == Node(p, k - 3)
    {
      if i == lead {
        assert InRound(sys'[i], p, k + 1, k);
      } else {
        FollowedIsThere(net, sys'[i], p, k, lead, i);
      }
    }
  }

  lemma FollowedIsThere(net: Setting, st: Station, p: seq<TreeNode>, k: nat, lead: ReplicaId, i: ReplicaId)
    requires k < |p| && Followed(net, st, p, k, lead, i)
    ensures Stays(st, p, k + 1) && HasAnnounced(net, st, p, k + 1) && st.io.machine.storage.state.lastCommit == Node(p, k - 3)
  {
    hide InRound, Announced;
  }

  lemma {:induction false} Rounds(net: Setting, p: seq<TreeNode>, k: nat) returns (sys: System, holder: ReplicaId)
    requires net.cfg.Valid() && net.cfg.n >= 2 && Chained(p) && k <= |p| <= P.TWO_64
    requires forall v :: 1 <= v <= |p| ==> Correct(net.cfg, net.leaderOf(v))
    ensures CanBe(net, sys) && Start(net, sys, p, k, holder) && Committed(net, sys, p, k)
    decreases k
  {
    hide Chained, CanBe, Start, Config.Valid, InitSystem;
    if k == 0 {
      holder := OneIsCorrect(net.cfg);
      FirstStart(net, p, holder);
      sys := InitSystem(net);
    } else {
      var before, h := Rounds(net, p, k - 1);
      holder := net.leaderOf(k);
      sys := OneRound(net, before, p, k - 1, h);
    }
  }

  lemma OneIsCorrect(cfg: Config) returns (i: ReplicaId)
    requires cfg.Valid()
    ensures Correct(cfg, i)
  {
    IdsSize(cfg.n);
    if Ids(cfg.n) <= cfg.faulty {
      SubsetSize(Ids(cfg.n), cfg.faulty);
      assert false;
    }
    i :| i in Ids(cfg.n) && i !in cfg.faulty;
  }

  /** Whatever is to be committed and whoever leads: n hosts of which the leaders of the first views are
      correct have a run, lawful and in time, in which nothing is received that a correct host has
      not sent, no timer goes off, all correct hosts sign a chain with these payloads, and all but
      the last leader commit it up to its last three nodes. */
  lemma HostsCommit(net: Setting, payloads: seq<seq<Byte>>) returns (run: Systems, moves: seq<Move>)
    requires net.cfg.Valid() && net.cfg.n >= 2 && |payloads| <= P.TWO_64
    requires forall view :: 1 <= view <= |payloads| ==> Correct(net.cfg, net.leaderOf(view))
    ensures SentRun(net, run, moves) && |HL.LastOf(run)| == net.cfg.n
    ensures var p := ChainOf(payloads); var m := |payloads|;
            && (forall k :: 0 <= k < m ==> p[k].payload == payloads[k] && p[k].height == k + 1 && p[k].parent == Hash(Node(p, k - 1)))
            && forall i: ReplicaId :: Correct(net.cfg, i) ==>
                 && (forall k :: 0 <= k < m ==> p[k] in HL.LastOf(run)[i].signed)
                 && (m >= 4 && i != net.leaderOf(m) ==> HL.LastOf(run)[i].io.machine.storage.state.lastCommit == p[m - 4])
  {
    hide Chained, SentRun, Config.Valid, InRound;
    var p := ChainOf(payloads);
    ChainOfIsChained(payloads);
    var sys, holder := Rounds(net, p, |p|);
    run, moves :| SentRun(net, run, moves) && HL.LastOf(run) == sys;
    forall k | 0 <= k < |p| ensures p[k].height == k + 1 && p[k].parent == Hash(Node(p, k - 1)) {
      NodeIs(p, k);
    }
    forall i: ReplicaId | Correct(net.cfg, i) ensures forall k :: 0 <= k < |p| ==> p[k] in sys[i].signed {
      assert Stays(sys[i], p, |p|);
      StayingHasSigned(sys[i], p);
    }
  }

  lemma StayingHasSigned(st: Station, p: seq<TreeNode>)
    requires Stays(st, p, |p|)
    ensures forall k :: 0 <= k < |p| ==> p[k] in st.signed
  {
    hide Stands;
    var q :| InRound(st, p, |p|, q);
    PrefixIs(p, |p|);
  }
}
