/** The pacemaker's way to a vote.  A proposal that is too far ahead is kept, a branch is asked for,
    and when the answer has been handled the proposal is handed over: the three calls together do
    to the machine what module Fetching says, and the vote is queued for the sender. */
module HostFetching {
  import opened HsData
  import opened StorageModel
  import opened Voting
  import opened MachineClass
  import opened PacemakerSteps
  import opened HotstuffStorageClass
  import opened Protocol
  import opened ReplicaScripts
  import opened ChainProgress
  import opened Fetching
  import opened RotatingLeaders
  import SM = SafetyMachine
  import P = Pacing

  /** An idle pacemaker with nothing pending. */
  predicate Idle(pm: P.Pacemaker) {
    pm.pending == multiset{} && !pm.syncing
  }

  /** The proposal is kept and the leader of the view is asked for all above the leaf. */
  lemma TooFarAhead(host: Host, pm: P.Pacemaker, io: Surroundings, from: ReplicaId, prop: TreeNode)
    returns (pm': P.Pacemaker, io': Surroundings)
    requires Idle(pm) && io.machine.storage.state.leaf.height < prop.justify.view < P.TWO_64
    ensures Handles(host, pm, io, PeerProposal(from, prop), pm', io')
    ensures pm'.pending == multiset{P.Incoming(from, prop)} && pm'.syncing
    ensures io' == io.(outbox := io.outbox + [SendBranchSyncRequest(host.leaderOf(pm.view), io.machine.storage.state.leaf.height)])
  {
    hide P.KeyOf, P.ViewOfKey, Emitted;
    var leafHeight, item := io.machine.storage.state.leaf.height, P.Incoming(from, prop);
    var more := P.RecvNewProposal(pm, item);
    OnlyOneIsTop(more.pending, item);
    P.ViewOfItem(item);
    pm', io' := P.HandOrSync(more, leafHeight, item), HandedOrAsked(host, more, io, leafHeight, item);
    assert Checked(host, more, io, leafHeight, pm', io');
  }

  lemma OnlyOneIsTop(pending: multiset<P.Incoming>, item: P.Incoming)
    requires pending == multiset{item}
    ensures P.IsTop(pending, item)
  {
    hide P.KeyOf;
  }

  /** The answer is handled and its end is queued. */
  lemma AnswerArrives(host: Host, pm: P.Pacemaker, io: Surroundings, branch: seq<TreeNode>) returns (io': Surroundings)
    ensures Handles(host, pm, io, PeerSyncResponse(Some(branch)), pm, io')
    ensures io'.machine == io.machine.(storage := SM.OnBranchSync(io.machine.storage, branch)) && io'.outbox == io.outbox
    ensures io'.ready == io.ready + [BranchSyncDone(io'.machine.storage.state.leaf)]
  {
    hide SM.OnBranchSync;
    io' := Emitted(host, io, BranchSync(branch));
  }

  /** Synchronisation ends and the proposal, in time now, is handed over. */
  lemma NowInTime(host: Host, pm: P.Pacemaker, io: Surroundings, from: ReplicaId, prop: TreeNode)
    returns (pm': P.Pacemaker, io': Surroundings)
    requires pm.pending == multiset{P.Incoming(from, prop)} && pm.syncing
    requires prop.justify.view <= io.machine.storage.state.leaf.height && prop.justify.view < P.TWO_64
    ensures Handles(host, pm, io, Output(BranchSyncDone(io.machine.storage.state.leaf)), pm', io') && Idle(pm')
    ensures io' == Emitted(host, io, RecvProposal(from, prop))
  {
    hide P.KeyOf, P.ViewOfKey, Emitted;
    var leafHeight, item := io.machine.storage.state.leaf.height, P.Incoming(from, prop);
    var idle := P.BackToIdle(pm);
    OnlyOneIsTop(idle.pending, item);
    P.ViewOfItem(item);
    pm', io' := P.HandOrSync(idle, leafHeight, item), HandedOrAsked(host, idle, io, leafHeight, item);
    assert Checked(host, idle, io, leafHeight, pm', io');
  }

  /** All three calls, for an answer that makes the leaf high enough and the proposal acceptable. */
  lemma ThreeCalls(host: Host, pm: P.Pacemaker, io: Surroundings, from: ReplicaId, prop: TreeNode, branch: seq<TreeNode>)
    returns (pm1: P.Pacemaker, io1: Surroundings, io2: Surroundings, pm3: P.Pacemaker, io3: Surroundings)
    requires Idle(pm) && io.ready == [] && io.machine.storage.state.leaf.height < prop.justify.view < P.TWO_64
    requires var t := SM.OnBranchSync(io.machine.storage, branch); prop.justify.view <= t.state.leaf.height && SM.Signs(t, prop)
    ensures Handles(host, pm, io, PeerProposal(from, prop), pm1, io1)
    ensures SendBranchSyncRequest(host.leaderOf(pm.view), io.machine.storage.state.leaf.height) in io1.outbox
    ensures Handles(host, pm1, io1, PeerSyncResponse(Some(branch)), pm1, io2) && |io2.ready| == 1
    ensures Handles(host, pm1, io2.(ready := []), Output(io2.ready[0]), pm3, io3) && Idle(pm3)
    ensures io3.machine == io.machine.(storage := SM.OnRecvProposal(SM.OnBranchSync(io.machine.storage, branch), prop))
    ensures io3.ready == [Signature(from, prop, Sign(host.id, prop))]
  {
    hide Handles, SM.OnBranchSync, SM.SyncProposal, SM.Signs, SM.OnRecvProposal, SM.VerifyProposal;
    pm1, io1 := TooFarAhead(host, pm, io, from, prop);
    io2 := AnswerArrives(host, pm1, io1, branch);
    pm3, io3 := NowInTime(host, pm1, io2.(ready := []), from, prop);
    SignsVerifies(SM.OnBranchSync(io.machine.storage, branch), prop);
  }

  lemma SignsVerifies(s: Storage, prop: TreeNode)
    requires SM.Signs(s, prop)
    ensures SM.VerifyProposal(s, prop.justify)
  {
  }

  // ---------------------------------------------------------------- what the leader answers

  /** The answer of a replica that has one node more is the last node the follower has and the one
      it lacks. */
  lemma AnswerIs(nodes: NodeMap, p: seq<TreeNode>, k: nat, growFrom: ViewNumber, branch: seq<TreeNode>)
    requires IsChain(p) && 0 < k < |p| && IsBranch(nodes, growFrom, branch)
    requires Only(nodes, p, k + 1) && forall j :: -1 <= j <= k ==> Has(nodes, Node(p, j))
    requires Node(p, k - 2).height <= growFrom < p[k - 1].height
    ensures branch == [p[k - 1], p[k]]
  {
    hide IsChain, Only, ByHeight, Has, On;
    assert Has(nodes, Node(p, k - 1)) && Has(nodes, Node(p, k));
    NextIsOnLast(p, k);
    forall node | node in branch ensures node == p[k - 1] || node == p[k] {
      AboveIs(nodes, p, k, growFrom, node);
    }
    TwoInOrder(branch, p[k - 1], p[k]);
  }

  lemma AboveIs(nodes: NodeMap, p: seq<TreeNode>, k: nat, growFrom: ViewNumber, node: TreeNode)
    requires IsChain(p) && 0 < k < |p| && Only(nodes, p, k + 1) && Has(nodes, node)
    requires Node(p, k - 2).height <= growFrom < node.height
    ensures node == p[k - 1] || node == p[k]
  {
    hide Dated, Follows, Only, Has;
    var j := IndexOf(nodes, p, k + 1, node);
    CompareHeights(p, Chain(|p|), k - 2, j);
  }

  lemma IndexOf(nodes: NodeMap, p: seq<TreeNode>, k: nat, node: TreeNode) returns (j: int)
    requires k <= |p| && Only(nodes, p, k) && Has(nodes, node)
    ensures -1 <= j < k && Node(p, j) == node
  {
    if node == INIT_NODE {
      j := -1;
    } else {
      j :| 0 <= j < k && p[..k][j] == node;
    }
  }

  lemma OneOfTwo(branch: seq<TreeNode>, i: nat, j: nat, m: nat)
    requires ByHeight(branch) && i < |branch| && j < |branch| && m < |branch|
    requires forall node :: node in branch ==> node == branch[i] || node == branch[j]
    ensures m == i || m == j
  {
    assert branch[m] in branch;
  }

  lemma TwoInOrder(branch: seq<TreeNode>, a: TreeNode, b: TreeNode)
    requires ByHeight(branch) && a in branch && b in branch && a.height < b.height
    requires forall node :: node in branch ==> node == a || node == b
    ensures branch == [a, b]
  {
    var i :| 0 <= i < |branch| && branch[i] == a;
    var j :| 0 <= j < |branch| && branch[j] == b;
    OneOfTwo(branch, i, j, 0);
    OneOfTwo(branch, i, j, 1);
    if |branch| > 2 {
      OneOfTwo(branch, i, j, 2);
    }
  }

  /** The first node of the answer is there already: it changes no certificate and no leaf. */
  lemma LastIsSynced(s: Storage, p: seq<TreeNode>, k: nat, st: Status) returns (st': Status)
    requires IsChain(p) && 0 < k < |p| && At(s, p, k, st) && st.qc == Max(k - 2, -1)
    requires st.locked <= Max(k - 3, -1) && st.committed <= Max(k - 4, -1)
    ensures var t := SM.SyncProposal(s, p[k - 1]);
            && SM.VerifyProposal(s, p[k - 1].justify) && At(t, p, k, st') && t.nodes == s.nodes && t.state.leaf == s.state.leaf
            && t.state.view == s.state.view
    ensures st'.qc == st.qc && st'.locked <= Max(k - 3, -1) && st'.committed <= Max(k - 4, -1)
  {
    hide At, Follows, Dated, SM.UpdateNodes, SM.OnRecvProposal, SM.Signs, SM.Accepts, SM.VerifyProposal;
    var l := Chain(|p|);
    LastVerifies(s, p, k, st);
    if st.voted < k - 1 {
      StoredIsHandled(s, p, l, k - 1, st);
      SignsVerifies(s, p[k - 1]);
      SM.SyncIsReceipt(s, p[k - 1]);
      SM.ProposalKeepsView(s, p[k - 1]);
      st' := Settled(l, st.(voted := k - 1), l[k - 1]);
    } else {
      NotAgain(s, p, k, st);
      ProposalIsHandled(s, p, l, k, p[k - 1], k - 2, st);
      SM.UpdateNodesKeepsView(s, p[k - 1]);
      st' := Settled(l, st, k - 2);
    }
  }

  lemma LastVerifies(s: Storage, p: seq<TreeNode>, k: nat, st: Status)
    requires IsChain(p) && 0 < k < |p| && At(s, p, k, st)
    ensures SM.VerifyProposal(s, p[k - 1].justify) && On(p[k - 1], Node(p, k - 2))
    ensures -1 <= st.voted < k
  {
    hide Follows, Dated;
    NextIsOnLast(p, k - 1);
    assert Has(s.nodes, Node(p, k - 2));
  }

  lemma NotAgain(s: Storage, p: seq<TreeNode>, k: nat, st: Status)
    requires 0 < k < |p| && At(s, p, k, st) && st.voted == k - 1
    ensures !SM.Accepts(s, p[k - 1])
  {
  }

  lemma SyncsBoth(s: Storage, a: TreeNode, b: TreeNode)
    requires SM.VerifyProposal(s, a.justify) && SM.VerifyProposal(SM.SyncProposal(s, a), b.justify)
    ensures SM.OnBranchSync(s, [a, b]) == SM.SyncProposal(SM.SyncProposal(s, a), b)
  {
    hide SM.SyncProposal, SM.VerifyProposal;
    var t := SM.SyncProposal(s, a);
    assert SM.OnBranchSync(SM.SyncProposal(t, b), []) == SM.SyncProposal(t, b);
    assert [b][1..] == [] && SM.OnBranchSync(t, [b]) == SM.SyncProposal(t, b);
    assert [a, b][1..] == [b];
  }

  /** The answer does what module Fetching says, and the proposal is acceptable then. */
  lemma AnswerWorks(r: Replica, p: seq<TreeNode>, k: nat)
    requires IsChain(p) && 0 < k < |p| && Abreast(r, p, k) && r.machine.storage.state.leaf.height < p[k].justify.view
    ensures var s := r.machine.storage; var t := SM.OnBranchSync(s, [p[k - 1], p[k]]);
            && p[k].justify.view <= t.state.leaf.height && SM.Signs(t, p[k])
            && forall r': Replica :: r'.machine.storage == SM.OnRecvProposal(t, p[k]) && r'.signed.Keys == r.signed.Keys + {p[k]} ==>
                 Abreast(r', p, k + 1) && Heard(r', p, k + 1)
  {
    hide At, Follows, Dated, SM.SyncProposal, SM.OnBranchSync, SM.OnRecvProposal, SM.Signs, SM.VerifyProposal, Abreast, Heard, Prefix, Only;
    var s := r.machine.storage;
    var st := NextOfChain(r, p, k);
    var st1 := LastIsSynced(s, p, k, st);
    var r1 := r.(machine := r.machine.(storage := SM.SyncProposal(s, p[k - 1])));
    IsInStep(r1, p, k, st1);
    NextIsVerified(r1, p, k);
    SyncsBoth(s, p[k - 1], p[k]);
    forall r': Replica | r'.machine.storage == Taken(r1.machine.storage, p[k]) && r'.signed.Keys == r.signed.Keys + {p[k]}
      ensures Abreast(r', p, k + 1) && Heard(r', p, k + 1)
    {
      NextIsHeard(r1, r', p, k);
    }
  }

  lemma NextIsVerified(r: Replica, p: seq<TreeNode>, k: nat)
    requires IsChain(p) && k < |p| && Abreast(r, p, k) && r.machine.storage.state.leaf.height < p[k].justify.view
    ensures var s := r.machine.storage; var t := SM.SyncProposal(s, p[k]);
            && SM.VerifyProposal(s, p[k].justify) && p[k].justify.view <= t.state.leaf.height && SM.Signs(t, p[k])
            && Taken(s, p[k]) == SM.OnRecvProposal(t, p[k])
  {
    hide At, Follows, Dated, SM.SyncProposal, SM.OnRecvProposal, SM.Signs, SM.VerifyProposal, Abreast;
    var st := NextOfChain(r, p, k);
    var _ := NextIsTaken(r.machine.storage, p, Chain(|p|), k, st);
    SignsVerifies(r.machine.storage, p[k]);
  }

  /** A follower that is one node behind its leader, both anywhere in a run in which leaders take
      turns: it keeps the proposal and asks, whatever the leader's handler answers is handled, the
      proposal is handed over, the vote is queued and the follower is where it should be. */
  lemma FollowerFetches(p: seq<TreeNode>, k: nat,
                        host: Host, pm: P.Pacemaker, io: Surroundings, r: Replica,
                        leader: Host, lpm: P.Pacemaker, lio: Surroundings, lr: Replica, lpm': P.Pacemaker, lio': Surroundings)
    returns (pm1: P.Pacemaker, io1: Surroundings, branch: seq<TreeNode>, io2: Surroundings, pm3: P.Pacemaker, io3: Surroundings)
    requires IsChain(p) && 0 < k < |p| && Idle(pm) && io.ready == []
    requires io.machine == r.machine && Abreast(r, p, k) && io.machine.storage.state.leaf.height < p[k].justify.view < P.TWO_64
    requires lio.machine == lr.machine && Abreast(lr, p, k + 1)
    requires Handles(leader, lpm, lio, PeerSyncRequest(host.id, io.machine.storage.state.leaf.height), lpm', lio')
    ensures Handles(host, pm, io, PeerProposal(leader.id, p[k]), pm1, io1)
    ensures SendBranchSyncRequest(host.leaderOf(pm.view), io.machine.storage.state.leaf.height) in io1.outbox
    ensures lio'.outbox == lio.outbox + [SendBranchSyncResponse(host.id, branch)]
    ensures Handles(host, pm1, io1, PeerSyncResponse(Some(branch)), pm1, io2) && |io2.ready| == 1
    ensures Handles(host, pm1, io2.(ready := []), Output(io2.ready[0]), pm3, io3) && Idle(pm3)
    ensures io3.ready == [Signature(leader.id, p[k], Sign(host.id, p[k]))]
    ensures forall r': Replica :: r'.machine == io3.machine && r'.signed.Keys == r.signed.Keys + {p[k]} ==>
              Abreast(r', p, k + 1) && Heard(r', p, k + 1)
  {
    hide IsBranch, SM.OnBranchSync, SM.OnRecvProposal, SM.Signs, Abreast, Heard, IsChain, Checked, Processed, Emitted;
    branch :| IsBranch(lio.machine.storage.nodes, io.machine.storage.state.leaf.height, branch)
              && lio' == lio.(outbox := lio.outbox + [SendBranchSyncResponse(host.id, branch)]);
    LeaderAnswers(p, k, r, lr, branch);
    AnswerWorks(r, p, k);
    pm1, io1, io2, pm3, io3 := ThreeCalls(host, pm, io, leader.id, p[k], branch);
  }

  lemma LeaderAnswers(p: seq<TreeNode>, k: nat, r: Replica, lr: Replica, branch: seq<TreeNode>)
    requires IsChain(p) && 0 < k < |p| && Abreast(r, p, k) && Abreast(lr, p, k + 1)
    requires r.machine.storage.state.leaf.height < p[k].justify.view
    requires IsBranch(lr.machine.storage.nodes, r.machine.storage.state.leaf.height, branch)
    ensures branch == [p[k - 1], p[k]]
  {
    hide IsBranch, Follows, Only;
    var st :| InStep(r, p, k, st);
    var lst :| InStep(lr, p, k + 1, lst);
    AnswerIs(lr.machine.storage.nodes, p, k, r.machine.storage.state.leaf.height, branch);
  }
}
