/** The ordinary run of the protocol: in every configuration correct replicas can lead in turn, in
    any order, and what they propose is committed.  A leader does not hear its own proposal, so
    its lock lags from then on; its later votes are safe all the same.  The others fetch what
    they are sent before it is handed to them, and sign what they have stored. */
module RotatingLeaders {
  import opened HsData
  import opened StorageModel
  import opened SafetyMachine
  import opened Protocol
  import opened ReplicaScripts
  import opened ChainProgress
  import opened LawfulRuns
  import opened Leading
  import opened Fetching
  import opened PacedRuns

  /** Nothing but the first `k` nodes of the chain and the initial node is stored. */
  ghost predicate Only(nodes: NodeMap, p: seq<TreeNode>, k: nat)
    requires k <= |p|
  {
    forall h :: h in nodes ==> nodes[h] == INIT_NODE || nodes[h] in p[..k]
  }

  lemma OnlyOneMore(nodes: NodeMap, p: seq<TreeNode>, k: nat)
    requires k < |p| && Only(nodes, p, k)
    ensures Only(nodes[Hash(p[k]) := p[k]], p, k + 1)
  {
    assert p[..k + 1] == p[..k] + [p[k]];
  }

  /** The replica has and signed the first `k` nodes of the chain, has no others, and holds the
      certificate below the last of them.  Its lock and last commit are where they should be or lag. */
  ghost predicate InStep(r: Replica, p: seq<TreeNode>, k: nat, st: Status)
    requires k <= |p|
  {
    var s := r.machine.storage;
    && At(s, p, k, st) && Only(s.nodes, p, k) && st.qc == Max(k - 2, -1) && st.locked <= Max(k - 3, -1) && st.committed <= Max(k - 4, -1)
    && s.state.leaf.height >= Node(p, st.qc).height
    && (k == 0 ==> s.state.leaf == INIT_NODE && s.state.qcHigh == INIT_QC)
    && r.signed.Keys == Prefix(p, k)
  }

  ghost predicate Abreast(r: Replica, p: seq<TreeNode>, k: nat)
    requires k <= |p|
  {
    exists st :: InStep(r, p, k, st)
  }

  /** The replica has not yet entered the view of the next node. */
  ghost predicate Waits(r: Replica, p: seq<TreeNode>, k: nat) {
    r.machine.storage.state.view <= Node(p, k - 1).height
  }

  ghost predicate Steady(r: Replica, p: seq<TreeNode>, k: nat)
    requires k <= |p|
  {
    Abreast(r, p, k) && Waits(r, p, k)
  }

  lemma AbreastHasSigned(r: Replica, p: seq<TreeNode>, k: nat)
    requires k <= |p| && Abreast(r, p, k)
    ensures r.signed.Keys == Prefix(p, k) && forall j :: 0 <= j < k ==> p[j] in r.signed
  {
    hide At, Prefix;
    PrefixIs(p, k);
  }

  /** The replica heard the last node from its leader, so that its lock does not lag. */
  ghost predicate Heard(r: Replica, p: seq<TreeNode>, k: nat) {
    r.machine.storage.state.locked == Node(p, k - 3) && r.machine.storage.state.lastCommit == Node(p, k - 4)
  }

  /** The chain, with certificates of the documented views. */
  ghost predicate IsChain(p: seq<TreeNode>) {
    Follows(p, Chain(|p|)) && Dated(p, Chain(|p|))
  }

  lemma NextOfChain(r: Replica, p: seq<TreeNode>, k: nat) returns (st: Status)
    requires IsChain(p) && k < |p| && Abreast(r, p, k)
    ensures InStep(r, p, k, st) && Ready(r.machine.storage, p, Chain(|p|), k, st)
  {
    hide At, Follows, Dated, Prefix;
    st :| InStep(r, p, k, st);
  }

  /** The next node can be taken by those who hear it, and is safe for them. */
  lemma NextIsFine(r: Replica, p: seq<TreeNode>, k: nat)
    requires IsChain(p) && k < |p| && Abreast(r, p, k)
    ensures CanTake(r.machine.storage, p[k]) && Higher(r.signed.Keys, p[k])
    ensures SafeForSigned(Fetched(r.machine.storage, p[k]), r.signed.Keys, p[k])
  {
    hide At, Follows, Dated, Prefix, Fetched, CanTake, Higher, SafeForSigned, Ready;
    var l := Chain(|p|);
    var st := NextOfChain(r, p, k);
    NextCanBeTaken(r.machine.storage, p, l, k, st);
    NextIsHigher(p, l, k);
    FetchedHasAll(r.machine.storage, p, l, k, st);
    ChainIsSafeFor(Fetched(r.machine.storage, p[k]), p, k);
  }

  lemma FetchedHasAll(s: Storage, p: seq<TreeNode>, l: Script, k: nat, st: Status)
    requires k < |p| && Ready(s, p, l, k, st)
    ensures forall i :: -1 <= i < k ==> Has(Fetched(s, p[k]).nodes, Node(p, i))
  {
    hide OnRecvProposal, SyncProposal, Signs;
    NextIsHandled(s, p, l, k, st);
    if Fetched(s, p[k]) != s {
      NextIsFetched(s, p, l, k, st);
    }
  }

  /** What a later node of a chain is on is above all that earlier ones call for. */
  lemma ChainIsSafeFor(s: Storage, p: seq<TreeNode>, k: nat)
    requires IsChain(p) && k < |p| && forall i :: -1 <= i < k ==> Has(s.nodes, Node(p, i))
    ensures SafeForSigned(s, Prefix(p, k), p[k])
  {
    hide GrandNode, Extends;
    var l := Chain(|p|);
    NextIsOnLast(p, k);
    forall a | a in Prefix(p, k) ensures SafeFor(p[k], GrandNode(s.nodes, a)) {
      var j :| 0 <= j < k && p[j] == a;
      GrandOfScript(s.nodes, p, l, k, j);
      CompareHeights(p, l, Link(l, l[j]), k - 1);
    }
  }

  lemma NextIsOnLast(p: seq<TreeNode>, k: nat)
    requires IsChain(p) && k < |p|
    ensures On(p[k], Node(p, k - 1)) && Rises(p, k)
  {
    hide Dated, On;
    assert OnLink(p, Chain(|p|), k) && Rises(p, k);
  }

  /** Who hears the next node is up to date with it. */
  lemma NextIsHeard(r: Replica, r': Replica, p: seq<TreeNode>, k: nat)
    requires IsChain(p) && k < |p| && Abreast(r, p, k)
    requires r'.machine.storage == Taken(r.machine.storage, p[k]) && r'.signed.Keys == r.signed.Keys + {p[k]}
    ensures Abreast(r', p, k + 1) && Heard(r', p, k + 1) && (Waits(r, p, k) ==> Waits(r', p, k + 1))
  {
    hide At, IsChain, Prefix, Taken, Fetched, Signs, Settled, Ready, Abreast, Heard;
    var st := NextOfChain(r, p, k);
    NextIsOnLast(p, k);
    PrefixIs(p, k);
    var st' := TakenOnChain(r.machine.storage, p, k, st);
    OnlyOneMore(r.machine.storage.nodes, p, k);
    HeardIsInStep(r', p, k + 1, st');
  }

  lemma TakenOnChain(s: Storage, p: seq<TreeNode>, k: nat, st: Status) returns (st': Status)
    requires k < |p| && Ready(s, p, Chain(|p|), k, st)
    requires st.qc == Max(k - 2, -1) && st.locked <= Max(k - 3, -1) && st.committed <= Max(k - 4, -1)
    ensures var t := Taken(s, p[k]);
            && At(t, p, k + 1, st') && t.nodes == s.nodes[Hash(p[k]) := p[k]] && t.state.view == s.state.view && t.state.leaf.height >= Node(p, st'.qc).height
            && st'.qc == k - 1 && st'.locked == Max(k - 2, -1) && st'.committed == Max(k - 3, -1)
  {
    hide At, Follows, Dated, Taken, Fetched, Signs, Settled;
    st' := NextIsTaken(s, p, Chain(|p|), k, st);
    SettledOnChain(|p|, k, st);
  }

  lemma SettledOnChain(n: nat, k: nat, st: Status)
    requires k < n && st.qc == Max(k - 2, -1) && st.locked <= Max(k - 3, -1) && st.committed <= Max(k - 4, -1)
    ensures var st' := Settled(Chain(n), st.(voted := k), k - 1);
            st'.qc == k - 1 && st'.locked == Max(k - 2, -1) && st'.committed == Max(k - 3, -1)
  {
  }

  lemma HeardIsInStep(r: Replica, p: seq<TreeNode>, k: nat, st: Status)
    requires 0 < k <= |p| && At(r.machine.storage, p, k, st) && Only(r.machine.storage.nodes, p, k)
    requires st.qc == k - 2 && st.locked == Max(k - 3, -1) && st.committed == Max(k - 4, -1)
    requires r.signed.Keys == Prefix(p, k)
    requires r.machine.storage.state.leaf.height >= Node(p, st.qc).height
    ensures Abreast(r, p, k) && Heard(r, p, k)
  {
    assert InStep(r, p, k, st);
  }

  // ---------------------------------------------------------------- one turn

  /** The leader of the turn and the correct replicas below `i` have the next node. */
  ghost predicate MidTurn(cfg: Config, w: World, p: seq<TreeNode>, k: nat, lead: ReplicaId, i: nat)
    requires k < |p|
  {
    && |w| == cfg.n
    && forall j :: 0 <= j < cfg.n && j !in cfg.faulty ==>
         && Steady(w[j], p, if j == lead || j < i then k + 1 else k)
         && (j < i && j != lead ==> Heard(w[j], p, k + 1))
  }

  ghost predicate AllAbreast(cfg: Config, w: World, p: seq<TreeNode>, k: nat)
    requires k <= |p|
  {
    |w| == cfg.n && forall j :: 0 <= j < cfg.n && j !in cfg.faulty ==> Steady(w[j], p, k)
  }

  /** All correct replicas have signed what is below the next node. */
  lemma NextIsGenuine(cfg: Config, w: World, p: seq<TreeNode>, k: nat)
    requires cfg.Valid() && |w| == cfg.n && IsChain(p) && k < |p|
    requires forall j :: 0 <= j < cfg.n && j !in cfg.faulty ==> Abreast(w[j], p, k) || Abreast(w[j], p, k + 1)
    ensures GenuineQc(cfg, w, p[k].justify)
  {
    hide Abreast, Certified, IsChain;
    NextIsOnLast(p, k);
    if k > 0 {
      forall j | 0 <= j < cfg.n && j !in cfg.faulty ensures p[k - 1] in w[j].signed {
        AbreastHasSigned(w[j], p, if Abreast(w[j], p, k) then k else k + 1);
      }
      SignedByAllIsCertified(cfg, w, p[k - 1]);
    } else {
      InitIsCertified(cfg, w);
    }
  }

  lemma InitIsCertified(cfg: Config, w: World)
    ensures Certified(cfg, w, INIT_NODE)
  {
  }

  lemma LeaderTakesTurn(cfg: Config, worlds: Worlds, p: seq<TreeNode>, k: nat, lead: ReplicaId)
    returns (longer: Worlds)
    requires cfg.Valid() && IsChain(p) && k < |p| && p[0].justify == INIT_QC && Correct(cfg, lead)
    requires Run(HandedInTime, cfg, worlds) && AllAbreast(cfg, Last(worlds), p, k)
    ensures Run(HandedInTime, cfg, longer) && worlds <= longer && MidTurn(cfg, Last(longer), p, k, lead, 0)
    ensures Proposes(cfg, longer, lead, p[k])
  {
    hide Run, IsChain, Abreast, GenuineQc, Leads, Proposes, CanLead, Higher;
    var r := Last(worlds)[lead];
    var st := LeaderIsReady(r, p, k);
    NextIsGenuine(cfg, Last(worlds), p, k);
    AbreastIsBelow(r, p, k);
    longer := LeaderProposes(HandedInTime, cfg, worlds, lead, p, Chain(|p|), k, st);
    LeaderIsAbreast(r, Last(longer)[lead], p, k);
  }

  lemma AbreastIsBelow(r: Replica, p: seq<TreeNode>, k: nat)
    requires IsChain(p) && k < |p| && Abreast(r, p, k)
    ensures Higher(r.signed.Keys, p[k])
  {
    hide At, Follows, Prefix, Higher;
    AbreastHasSigned(r, p, k);
    NextIsHigher(p, Chain(|p|), k);
  }

  lemma LeaderIsReady(r: Replica, p: seq<TreeNode>, k: nat) returns (st: Status)
    requires IsChain(p) && k < |p| && p[0].justify == INIT_QC && Abreast(r, p, k) && Waits(r, p, k)
    ensures CanLead(r.machine.storage, p, Chain(|p|), k, st) && InStep(r, p, k, st)
  {
    hide Follows, At;
    st :| InStep(r, p, k, st);
    NextIsOnLast(p, k);
  }

  lemma LeaderIsAbreast(r: Replica, r': Replica, p: seq<TreeNode>, k: nat)
    requires IsChain(p) && k < |p| && p[0].justify == INIT_QC && Abreast(r, p, k) && Waits(r, p, k)
    requires r'.machine.storage == Leads(r.machine.storage, p[k]) && r'.signed.Keys == r.signed.Keys + {p[k]}
    ensures Abreast(r', p, k + 1) && Waits(r', p, k + 1)
  {
    hide IsChain, At, Leads, CanLead, Prefix, Abreast;
    var st := LeaderIsReady(r, p, k);
    LeaderStores(r.machine.storage, p, Chain(|p|), k, st);
    OnlyOneMore(r.machine.storage.nodes, p, k);
    PrefixIs(p, k);
    NextIsOnLast(p, k);
    IsInStep(r', p, k + 1, Status(k, k - 1, st.committed, st.locked));
  }

  lemma IsInStep(r: Replica, p: seq<TreeNode>, k: nat, st: Status)
    requires k <= |p| && InStep(r, p, k, st)
    ensures Abreast(r, p, k)
  {
  }

  lemma OneHears(cfg: Config, worlds: Worlds, p: seq<TreeNode>, k: nat, lead: ReplicaId, i: ReplicaId)
    returns (longer: Worlds)
    requires cfg.Valid() && IsChain(p) && k < |p| && Correct(cfg, i) && i != lead
    requires Run(HandedInTime, cfg, worlds) && MidTurn(cfg, Last(worlds), p, k, lead, i)
    ensures Run(HandedInTime, cfg, longer) && worlds <= longer && MidTurn(cfg, Last(longer), p, k, lead, i + 1)
  {
    hide Abreast, Heard, IsChain, Run, GenuineQc, CanTake, Higher, SafeForSigned, Taken, Fetched, ExecutedBy;
    var r := Last(worlds)[i];
    assert Abreast(r, p, k);
    NextIsFine(r, p, k);
    NextIsGenuine(cfg, Last(worlds), p, k);
    longer := TakeNext(HandedInTime, cfg, worlds, i, p[k]);
    NextIsHeard(r, Last(longer)[i], p, k);
  }

  /** The other correct replicas below `i` hear the leader's proposal. */
  lemma {:induction false} OthersHear(cfg: Config, worlds: Worlds, p: seq<TreeNode>, k: nat, lead: ReplicaId, i: nat)
    returns (longer: Worlds)
    requires cfg.Valid() && IsChain(p) && k < |p| && i <= cfg.n
    requires Run(HandedInTime, cfg, worlds) && MidTurn(cfg, Last(worlds), p, k, lead, 0)
    ensures Run(HandedInTime, cfg, longer) && worlds <= longer && MidTurn(cfg, Last(longer), p, k, lead, i)
    decreases i
  {
    hide Run, IsChain, Abreast, Heard;
    if i == 0 {
      longer := worlds;
    } else {
      longer := OthersHear(cfg, worlds, p, k, lead, i - 1);
      if i - 1 !in cfg.faulty && i - 1 != lead {
        longer := OneHears(cfg, longer, p, k, lead, i - 1);
      }
    }
  }

  // ---------------------------------------------------------------- all turns

  lemma ProposedStays(cfg: Config, worlds: Worlds, longer: Worlds, i: ReplicaId, node: TreeNode)
    requires worlds <= longer && Proposes(cfg, worlds, i, node)
    ensures Proposes(cfg, longer, i, node)
  {
    hide WorldStep, MakeLeaf;
    var m :| 0 < m < |worlds| && MakesAt(cfg, worlds, i, node, m);
    assert MakesAt(cfg, longer, i, node, m);
  }

  lemma {:induction false} TurnsAreLawful(cfg: Config, p: seq<TreeNode>, leaders: seq<ReplicaId>, k: nat)
    returns (worlds: Worlds)
    requires cfg.Valid() && IsChain(p) && k <= |p| == |leaders| && (|p| > 0 ==> p[0].justify == INIT_QC)
    requires forall j :: 0 <= j < |leaders| ==> Correct(cfg, leaders[j])
    ensures Run(HandedInTime, cfg, worlds) && |Last(worlds)| == cfg.n && AllAbreast(cfg, Last(worlds), p, k)
    ensures forall j :: 0 <= j < k ==> Proposes(cfg, worlds, leaders[j], p[j])
    ensures forall i :: k > 0 && 0 <= i < cfg.n && i !in cfg.faulty && i != leaders[k - 1] ==> Heard(Last(worlds)[i], p, k)
    decreases k
  {
    hide Run, IsChain, Heard, Proposes, AllAbreast, InitWorld, Config.Valid;
    if k == 0 {
      worlds := [InitWorld(cfg)];
      FreshAreAbreast(cfg, p);
    } else {
      var before := TurnsAreLawful(cfg, p, leaders, k - 1);
      worlds := OneTurn(cfg, before, p, k - 1, leaders[k - 1]);
      forall j | 0 <= j < k - 1 ensures Proposes(cfg, worlds, leaders[j], p[j]) {
        ProposedStays(cfg, before, worlds, leaders[j], p[j]);
      }
    }
  }

  lemma OneTurn(cfg: Config, worlds: Worlds, p: seq<TreeNode>, k: nat, lead: ReplicaId) returns (longer: Worlds)
    requires cfg.Valid() && IsChain(p) && k < |p| && p[0].justify == INIT_QC && Correct(cfg, lead)
    requires Run(HandedInTime, cfg, worlds) && AllAbreast(cfg, Last(worlds), p, k)
    ensures Run(HandedInTime, cfg, longer) && worlds <= longer && AllAbreast(cfg, Last(longer), p, k + 1)
    ensures Proposes(cfg, longer, lead, p[k])
    ensures |Last(longer)| == cfg.n
    ensures forall i :: 0 <= i < cfg.n && i !in cfg.faulty && i != lead ==> Heard(Last(longer)[i], p, k + 1)
  {
    hide Run, IsChain, Abreast, Heard, Proposes;
    var led := LeaderTakesTurn(cfg, worlds, p, k, lead);
    longer := OthersHear(cfg, led, p, k, lead, cfg.n);
    ProposedStays(cfg, led, longer, lead, p[k]);
  }

  lemma FreshAreAbreast(cfg: Config, p: seq<TreeNode>)
    ensures Run(HandedInTime, cfg, [InitWorld(cfg)]) && |InitWorld(cfg)| == cfg.n && AllAbreast(cfg, InitWorld(cfg), p, 0)
  {
    var w := InitWorld(cfg);
    forall j | 0 <= j < cfg.n && j !in cfg.faulty ensures Abreast(w[j], p, 0) && Waits(w[j], p, 0) {
      assert InStep(w[j], p, 0, Status(-1, -1, -1, -1));
    }
  }

  lemma HeardAll(r: Replica, p: seq<TreeNode>)
    requires |p| >= 4 && Heard(r, p, |p|)
    ensures r.machine.storage.state.lastCommit == p[|p| - 4] && r.machine.storage.state.locked == p[|p| - 3]
  {
  }

  /** Correct replicas propose the nodes of a chain in turn, in any order; all of them sign all of
      it, and all but the last leader, who has not heard the last node, commit it up to its last
      three. */
  lemma LeadersInTurnCommit(cfg: Config, p: seq<TreeNode>, leaders: seq<ReplicaId>) returns (worlds: Worlds)
    requires cfg.Valid() && 4 <= |p| == |leaders| && IsChain(p) && p[0].justify == INIT_QC
    requires forall k :: 0 <= k < |leaders| ==> Correct(cfg, leaders[k])
    ensures Run(HandedInTime, cfg, worlds) && |Last(worlds)| == cfg.n
    ensures forall k :: 0 <= k < |p| ==> Proposes(cfg, worlds, leaders[k], p[k])
    ensures forall i: ReplicaId :: Correct(cfg, i) ==>
              var r := Last(worlds)[i];
              && (forall k :: 0 <= k < |p| ==> p[k] in r.signed)
              && (i != leaders[|p| - 1] ==>
                    r.machine.storage.state.lastCommit == p[|p| - 4] && r.machine.storage.state.locked == p[|p| - 3])
  {
    hide Run, IsChain, Proposes, Abreast, Heard;
    worlds := TurnsAreLawful(cfg, p, leaders, |p|);
    forall i: ReplicaId | Correct(cfg, i)
      ensures forall k :: 0 <= k < |p| ==> p[k] in Last(worlds)[i].signed
      ensures var st := Last(worlds)[i].machine.storage.state;
              i != leaders[|p| - 1] ==> st.lastCommit == p[|p| - 4] && st.locked == p[|p| - 3]
    {
      var r := Last(worlds)[i];
      AbreastHasSigned(r, p, |p|);
      if i != leaders[|p| - 1] {
        HeardAll(r, p);
      }
    }
  }
}
