/** A leader that learns the certificate below its next proposal from a new-view message, enters
    a view and proposes: three steps of a run, of which no law of module Protocol asks for more
    than order and a rising vote. */
module Leading {
  import opened HsData
  import opened StorageModel
  import opened Voting
  import opened SafetyMachine
  import opened Quorums
  import opened Protocol
  import opened ReplicaScripts
  import opened LawfulRuns

  /** The leader is told the certificate below `node` in a new-view message, enters the view
      and makes `node`. */
  function Leads(s: Storage, node: TreeNode): Storage {
    var t := IncreaseView(OnNewView(s, node.justify), node.height);
    UpdateLeaf(t, MakeLeaf(t, node.payload))
  }

  /** The replica has the first `k` nodes, holds the certificate below the last one and is not yet
      in the view of the next. */
  ghost predicate CanLead(s: Storage, p: seq<TreeNode>, l: Script, k: nat, st: Status) {
    && Follows(p, l) && k < |p| && At(s, p, k, st) && s.state.view < p[k].height && l[k] == k - 1
    && if k == 0 then s.state.leaf == INIT_NODE && s.state.qcHigh == p[0].justify else st.qc == k - 2
  }

  lemma LeaderIsTold(s: Storage, p: seq<TreeNode>, l: Script, k: nat, st: Status)
    requires CanLead(s, p, l, k, st)
    ensures var t := IncreaseView(OnNewView(s, p[k].justify), p[k].height);
            && MakeLeaf(t, p[k].payload) == p[k] && t.nodes == s.nodes && t.state.view == p[k].height
            && t.state.qcHigh.node == Hash(Node(p, k - 1)) && t.state.locked == s.state.locked
            && t.state.lastCommit == s.state.lastCommit && t.state.committedHeight == s.state.committedHeight
  {
    assert OnLink(p, l, k) && Has(s.nodes, Node(p, l[k]));
    if k > 0 {
      CertificateIs(s, p, l, k, p[k], l[k], st);
    }
  }

  lemma LeaderStores(s: Storage, p: seq<TreeNode>, l: Script, k: nat, st: Status)
    requires CanLead(s, p, l, k, st)
    ensures At(Leads(s, p[k]), p, k + 1, Status(k, k - 1, st.committed, st.locked))
    ensures Leads(s, p[k]).state.view == p[k].height && Leads(s, p[k]).state.leaf == p[k]
    ensures Leads(s, p[k]).nodes == s.nodes[Hash(p[k]) := p[k]]
  {
    LeaderIsTold(s, p, l, k, st);
    hide OnNewView, Follows;
    NewLeafIsAt(IncreaseView(OnNewView(s, p[k].justify), p[k].height), p, l, k, st.(qc := k - 1));
  }

  lemma NewLeafIsAt(t: Storage, p: seq<TreeNode>, l: Script, k: nat, st: Status)
    requires Follows(p, l) && k < |p| && At(t.(state := t.state.(vheight := Node(p, st.voted).height)), p, k, st)
    ensures At(UpdateLeaf(t, p[k]), p, k + 1, st.(voted := k))
  {
    CompareHeights(p, l, k - 1, k);
    assert Hash(p[k]) !in t.nodes;
    var u := UpdateLeaf(t, p[k]);
    forall j | -1 <= j < k + 1 ensures Has(u.nodes, Node(p, j)) {
      assert j < k ==> Has(t.nodes, Node(p, j));
    }
  }

  lemma LeadingIsOrderly(s: Storage, p: seq<TreeNode>, l: Script, k: nat, st: Status)
    requires CanLead(s, p, l, k, st)
    ensures var t := IncreaseView(OnNewView(s, p[k].justify), p[k].height);
            && On(p[k], Node(p, k - 1)) && Orderly(s, RecvNewView(p[k].justify))
            && Orderly(t, NewTx(p[k].payload)) && MakeLeaf(t, p[k].payload) == p[k]
            && Leads(s, p[k]) == UpdateLeaf(t, p[k])
  {
    assert OnLink(p, l, k);
    hide OnNewView, Follows, At, On, Above, UpdateLeaf;
    LeaderIsTold(s, p, l, k, st);
    TellingIsOrderly(s, p, l, k, st);
    NextIsAbove(s, p, l, k, st);
  }

  lemma TellingIsOrderly(s: Storage, p: seq<TreeNode>, l: Script, k: nat, st: Status)
    requires Follows(p, l) && k < |p| && At(s, p, k, st)
    ensures Orderly(s, RecvNewView(p[k].justify))
  {
    assert OnLink(p, l, k) && Has(s.nodes, Node(p, l[k]));
  }

  // ---------------------------------------------------------------- in a run

  lemma LeaderStep(law: Law, cfg: Config, worlds: Worlds, i: ReplicaId, event: Event) returns (longer: Worlds)
    requires Run(law, cfg, worlds) && law != FittingMessages && Correct(cfg, i) && |Last(worlds)| == cfg.n && !event.RecvProposal?
    requires InOrder(cfg, Last(worlds), Last(worlds)[i], event) && RisingVote(Last(worlds)[i], event)
    ensures Run(law, cfg, longer) && longer == worlds + [WorldStep(cfg, Last(worlds), i, event)]
    ensures OnlyMoves(Last(worlds), Last(longer), i)
    ensures Last(longer)[i] == ReplicaStep(cfg, i, Last(worlds)[i], event)
  {
    hide Run, ReplicaStep, InOrder, RisingVote, OnlyMoves;
    assert Allowed(HandedInTime, cfg, Last(worlds), i, event);
    WeakerAsksLess(law, HandedInTime, cfg, Last(worlds), i, event);
    longer := OneStep(law, cfg, worlds, i, event);
  }

  /** What the three events of leading do to a replica. */
  lemma LeadingSteps(cfg: Config, i: ReplicaId, r: Replica, qc: GenericQC, view: ViewNumber, payload: seq<Byte>)
    ensures ReplicaStep(cfg, i, r, RecvNewView(qc)).machine.storage == OnNewView(r.machine.storage, qc)
    ensures ReplicaStep(cfg, i, r, RaiseView(view)).machine.storage == IncreaseView(r.machine.storage, view)
    ensures var s := r.machine.storage; var r' := ReplicaStep(cfg, i, r, NewTx(payload));
            r'.machine.storage == UpdateLeaf(s, MakeLeaf(s, payload)) && r'.signed.Keys == r.signed.Keys + {MakeLeaf(s, payload)}
    ensures ReplicaStep(cfg, i, r, RecvNewView(qc)).signed == r.signed && ReplicaStep(cfg, i, r, RaiseView(view)).signed == r.signed
  {
    hide OnNewView, UpdateLeaf, MakeLeaf, IncreaseView;
  }

  /** At some moment of the run replica `i` proposes `node`. */
  ghost predicate Proposes(cfg: Config, worlds: Worlds, i: ReplicaId, node: TreeNode) {
    exists m :: 0 < m < |worlds| && MakesAt(cfg, worlds, i, node, m)
  }

  ghost predicate MakesAt(cfg: Config, worlds: Worlds, i: ReplicaId, node: TreeNode, m: nat)
    requires 0 < m < |worlds|
  {
    && i < |worlds[m - 1]| && MakeLeaf(worlds[m - 1][i].machine.storage, node.payload) == node
    && worlds[m] == WorldStep(cfg, worlds[m - 1], i, NewTx(node.payload))
  }

  /** The leader is told a certificate that exists, enters the view and proposes. */
  lemma LeaderProposes(law: Law, cfg: Config, worlds: Worlds, i: ReplicaId, p: seq<TreeNode>, l: Script, k: nat, st: Status)
    returns (longer: Worlds)
    requires Run(law, cfg, worlds) && law != FittingMessages && Correct(cfg, i) && |Last(worlds)| == cfg.n && k < |p|
    requires CanLead(Last(worlds)[i].machine.storage, p, l, k, st) && GenuineQc(cfg, Last(worlds), p[k].justify)
    requires Higher(Last(worlds)[i].signed.Keys, p[k])
    ensures Run(law, cfg, longer) && worlds <= longer && OnlyMoves(Last(worlds), Last(longer), i)
    ensures Last(longer)[i].machine.storage == Leads(Last(worlds)[i].machine.storage, p[k])
    ensures Last(longer)[i].signed.Keys == Last(worlds)[i].signed.Keys + {p[k]}
    ensures Proposes(cfg, longer, i, p[k])
  {
    hide OnNewView, IncreaseView, UpdateLeaf, MakeLeaf, Orderly, GenuineQc, OnlyMoves, On, Run, CanLead, Leads, ReplicaStep, Higher;
    var s, node := Last(worlds)[i].machine.storage, p[k];
    LeadingIsOrderly(s, p, l, k, st);
    var entered := LeaderEnters(law, cfg, worlds, i, node);
    MovesKeepSize(Last(worlds), Last(entered), i);
    longer := LeaderStep(law, cfg, entered, i, NewTx(node.payload));
    assert MakesAt(cfg, longer, i, node, |longer| - 1);
    LeadingSteps(cfg, i, Last(entered)[i], node.justify, node.height, node.payload);
    OnlyMovesOn(Last(worlds), Last(entered), Last(longer), i);
  }

  lemma LeaderEnters(law: Law, cfg: Config, worlds: Worlds, i: ReplicaId, node: TreeNode) returns (longer: Worlds)
    requires Run(law, cfg, worlds) && law != FittingMessages && Correct(cfg, i) && |Last(worlds)| == cfg.n
    requires GenuineQc(cfg, Last(worlds), node.justify) && Orderly(Last(worlds)[i].machine.storage, RecvNewView(node.justify))
    ensures Run(law, cfg, longer) && worlds <= longer && OnlyMoves(Last(worlds), Last(longer), i)
    ensures Last(longer)[i].machine.storage
            == IncreaseView(OnNewView(Last(worlds)[i].machine.storage, node.justify), node.height)
    ensures Last(longer)[i].signed == Last(worlds)[i].signed
  {
    hide OnNewView, IncreaseView, GenuineQc, OnlyMoves, Run, ReplicaStep;
    var told := LeaderStep(law, cfg, worlds, i, RecvNewView(node.justify));
    LeadingSteps(cfg, i, Last(worlds)[i], node.justify, node.height, node.payload);
    MovesKeepSize(Last(worlds), Last(told), i);
    longer := LeaderStep(law, cfg, told, i, RaiseView(node.height));
    LeadingSteps(cfg, i, Last(told)[i], node.justify, node.height, node.payload);
    OnlyMovesOn(Last(worlds), Last(told), Last(longer), i);
  }

  /** Four replicas, the last of them faulty. */
  const FOUR := Config(4, {3})

  lemma FourIsValid()
    ensures FOUR.Valid() && QuorumThreshold(4) == 2
  {
    assert 3 in Ids(4);
  }
}
