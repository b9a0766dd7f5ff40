/** Lawful runs exist for every configuration: all correct replicas can be taken through every
    unlocked script, proposal by proposal.  Chains are then committed everywhere. */
module LawfulRuns {
  import opened HsData
  import opened StorageModel
  import opened SafetyMachine
  import opened Quorums
  import opened Protocol
  import opened ReplicaScripts
  import opened ChainProgress
  import opened CatchUp

  // ---------------------------------------------------------------- scripts are orderly

  /** Nothing but the initial node and the proposals so far is stored. */
  lemma {:induction false} StoredIsProposed(p: seq<TreeNode>, l: Script, k: nat, h: NodeHash) returns (j: int)
    requires Follows(p, l) && Unlocked(l) && k <= |p| && h in After(p, k).nodes
    ensures -1 <= j < k && After(p, k).nodes[h] == Node(p, j)
    decreases k
  {
    if k == 0 {
      j := -1;
    } else {
      NodesAfter(p, l, k - 1);
      hide After;
      if h == Hash(p[k - 1]) {
        j := k - 1;
      } else {
        j := StoredIsProposed(p, l, k - 1, h);
      }
    }
  }

  lemma NodesAfter(p: seq<TreeNode>, l: Script, k: nat)
    requires Follows(p, l) && Unlocked(l) && k < |p|
    ensures After(p, k + 1).nodes == After(p, k).nodes[Hash(p[k]) := p[k]]
  {
    ScriptRuns(p, l, k);
    hide OnRecvProposal, At, Signs;
    assert UnlockedAt(l, k);
    NextIsHandled(After(p, k), p, l, k, StatusAfter(l, k));
  }

  /** The lock is at or above the node two links below every proposal so far. */
  lemma {:induction false} LockCoversLinks(l: Script, j: nat, k: nat)
    requires j < k <= |l|
    ensures StatusAfter(l, k).locked >= Link(l, l[j])
    decreases k
  {
    if j < k - 1 {
      LockCoversLinks(l, j, k - 1);
    }
  }

  lemma ScriptGrandNode(p: seq<TreeNode>, l: Script, k: nat, j: nat)
    requires Follows(p, l) && Unlocked(l) && j < k <= |p|
    ensures HeightOf(GrandNode(After(p, k).nodes, p[j])) == Node(p, Link(l, l[j])).height
  {
    ScriptRuns(p, l, k);
    var nodes, b3 := After(p, k).nodes, l[j];
    hide After, StatusAfter, Unlocked;
    assert Has(nodes, Node(p, b3)) && OnLink(p, l, j);
    if b3 >= 0 {
      assert OnLink(p, l, b3);
    }
  }

  lemma ScriptCatchesUp(p: seq<TreeNode>, l: Script, k: nat)
    requires Follows(p, l) && Unlocked(l) && k <= |p|
    ensures CaughtUp(After(p, k))
  {
    ScriptRuns(p, l, k);
    var s, st := After(p, k), StatusAfter(l, k);
    hide After, StatusAfter, Unlocked, GrandNode;
    forall h | h in s.nodes ensures HeightOf(GrandNode(s.nodes, s.nodes[h])) <= s.state.locked.height {
      var j := StoredIsProposed(p, l, k, h);
      if j == -1 {
        InitHasNoGrandNode(s.nodes);
      } else {
        ScriptGrandNode(p, l, k, j);
        LockCoversLinks(l, j, k);
        CompareHeights(p, l, st.locked, Link(l, l[j]));
      }
    }
  }

  lemma InitHasNoGrandNode(nodes: NodeMap)
    ensures HeightOf(GrandNode(nodes, INIT_NODE)) == 0
  {
    assert Zeroed !in nodes;
  }

  lemma ScriptIsOrderly(p: seq<TreeNode>, l: Script, k: nat)
    requires Follows(p, l) && Unlocked(l) && k < |p|
    ensures Signs(After(p, k), p[k]) && Orderly(After(p, k), RecvProposal(p[k]))
  {
    hide After, StatusAfter, Unlocked, Signs;
    ScriptRuns(p, l, k);
    NextIsAbove(After(p, k), p, l, k, StatusAfter(l, k));
    NextIsWellFormed(p, l, k);
  }

  /** The next vote of a replica that has signed what it has stored rises and is safe. */
  lemma ScriptIsSafe(r: Replica, p: seq<TreeNode>, l: Script, k: nat)
    requires Follows(p, l) && Unlocked(l) && k < |p| && Reached(r, p, k)
    ensures SafeVote(r, RecvProposal(p[k])) && RisingVote(r, RecvProposal(p[k]))
  {
    hide After, StatusAfter, Unlocked, Signs, SafeVote, CaughtUp;
    ScriptRuns(p, l, k);
    ScriptCatchesUp(p, l, k);
    forall a | a in r.signed ensures Has(After(p, k).nodes, a) && a.height < p[k].height {
      var j :| 0 <= j < k && p[j] == a;
      assert Has(After(p, k).nodes, Node(p, j));
      CompareHeights(p, l, j, k);
    }
    CaughtUpIsSafe(r, RecvProposal(p[k]));
    CompareHeights(p, l, -1, k);
  }

  lemma NextIsAbove(s: Storage, p: seq<TreeNode>, l: Script, k: nat, st: Status)
    requires Follows(p, l) && k < |p| && At(s, p, k, st)
    ensures Above(s.nodes, p[k].height)
  {
    CompareHeights(p, l, k - 1, k);
  }

  lemma NextIsWellFormed(p: seq<TreeNode>, l: Script, k: nat)
    requires Follows(p, l) && k < |p|
    ensures WellFormed(p[k])
  {
    assert OnLink(p, l, k);
    CompareHeights(p, l, l[k], k);
    assert Extends(p[k].parent, p[k].justify.node);
  }

  // ---------------------------------------------------------------- all replicas follow a script

  /** The replica has handled, and signed, the first `k` proposals and nothing else. */
  ghost predicate Reached(r: Replica, p: seq<TreeNode>, k: nat)
    requires k <= |p|
  {
    r.machine == MachineState(After(p, k), map[]) && r.signed.Keys == Prefix(p, k)
  }

  /** Correct replicas below `i` are one proposal ahead. */
  ghost predicate MidRound(cfg: Config, w: World, p: seq<TreeNode>, k: nat, i: nat)
    requires k < |p|
  {
    |w| == cfg.n && forall j :: 0 <= j < cfg.n && j !in cfg.faulty ==> Reached(w[j], p, if j < i then k + 1 else k)
  }

  ghost predicate AllReached(cfg: Config, w: World, p: seq<TreeNode>, k: nat)
    requires k <= |p|
  {
    |w| == cfg.n && forall j :: 0 <= j < cfg.n && j !in cfg.faulty ==> Reached(w[j], p, k)
  }

  lemma ReplicaMovesOn(cfg: Config, i: ReplicaId, r: Replica, p: seq<TreeNode>, k: nat)
    requires k < |p| && Reached(r, p, k) && Signs(After(p, k), p[k])
    ensures Reached(ReplicaStep(cfg, i, r, RecvProposal(p[k])), p, k + 1)
  {
    hide OnRecvProposal, Signs, ExecutedBy, Prefix;
    PrefixIs(p, k);
  }

  lemma SignedByAllIsCertified(cfg: Config, w: World, node: TreeNode)
    requires cfg.Valid() && |w| == cfg.n
    requires forall j :: 0 <= j < cfg.n && j !in cfg.faulty ==> node in w[j].signed
    ensures Certified(cfg, w, node)
  {
    forall id | id in Ids(cfg.n) ensures Backs(cfg, w, id, node) {
    }
    assert Backers(cfg, w, node) == Ids(cfg.n);
    IdsSize(cfg.n);
  }

  /** Proposals of earlier rounds are certified: all correct replicas signed them. */
  lemma EarlierIsCertified(cfg: Config, w: World, p: seq<TreeNode>, k: nat, i: nat, j: nat)
    requires cfg.Valid() && k < |p| && MidRound(cfg, w, p, k, i) && j < k
    ensures Certified(cfg, w, p[j])
  {
    hide After, Prefix;
    PrefixIs(p, k);
    PrefixIs(p, k + 1);
    forall id | 0 <= id < cfg.n && id !in cfg.faulty ensures p[j] in w[id].signed {
      assert Reached(w[id], p, if id < i then k + 1 else k);
    }
    SignedByAllIsCertified(cfg, w, p[j]);
  }

  lemma NextIsLawful(cfg: Config, w: World, p: seq<TreeNode>, l: Script, k: nat, i: ReplicaId)
    requires cfg.Valid() && Follows(p, l) && Unlocked(l) && k < |p| && MidRound(cfg, w, p, k, i) && Correct(cfg, i)
    ensures Allowed(SafeVotes, cfg, w, i, RecvProposal(p[k])) && Signs(After(p, k), p[k])
  {
    hide After, Signs, Orderly, SafeVote, RisingVote, Unlocked, Follows, GenuineQc;
    assert Reached(w[i], p, k);
    ScriptIsOrderly(p, l, k);
    ScriptIsSafe(w[i], p, l, k);
    LinkIsGenuine(cfg, w, p, l, k, i);
  }

  lemma LinkIsGenuine(cfg: Config, w: World, p: seq<TreeNode>, l: Script, k: nat, i: nat)
    requires cfg.Valid() && Follows(p, l) && k < |p| && MidRound(cfg, w, p, k, i)
    ensures GenuineQc(cfg, w, p[k].justify)
  {
    assert OnLink(p, l, k);
    if l[k] >= 0 {
      EarlierIsCertified(cfg, w, p, k, i, l[k]);
    }
  }

  /** The correct replicas below `i` handle the next proposal. */
  lemma {:induction false} RoundIsLawful(cfg: Config, worlds: Worlds, p: seq<TreeNode>, l: Script, k: nat, i: nat)
    returns (longer: Worlds)
    requires cfg.Valid() && Follows(p, l) && Unlocked(l) && k < |p| && i <= cfg.n
    requires Run(SafeVotes, cfg, worlds) && AllReached(cfg, Last(worlds), p, k)
    ensures Run(SafeVotes, cfg, longer) && worlds <= longer && MidRound(cfg, Last(longer), p, k, i)
    decreases i
  {
    hide Reached, Run, Follows, Unlocked;
    if i == 0 {
      longer := worlds;
    } else {
      longer := RoundIsLawful(cfg, worlds, p, l, k, i - 1);
      if i - 1 !in cfg.faulty {
        longer := OneMore(cfg, longer, p, l, k, i - 1);
      }
    }
  }

  lemma OneMore(cfg: Config, worlds: Worlds, p: seq<TreeNode>, l: Script, k: nat, i: ReplicaId)
    returns (longer: Worlds)
    requires cfg.Valid() && Follows(p, l) && Unlocked(l) && k < |p| && Correct(cfg, i)
    requires Run(SafeVotes, cfg, worlds) && MidRound(cfg, Last(worlds), p, k, i)
    ensures Run(SafeVotes, cfg, longer) && worlds <= longer && MidRound(cfg, Last(longer), p, k, i + 1)
  {
    hide Run, Follows, Unlocked, Reached, Allowed, ReplicaStep, Signs, After;
    assert Reached(Last(worlds)[i], p, k);
    NextIsLawful(cfg, Last(worlds), p, l, k, i);
    ReplicaMovesOn(cfg, i, Last(worlds)[i], p, k);
    longer := OneStep(SafeVotes, cfg, worlds, i, RecvProposal(p[k]));
  }

  /** For every configuration there is a lawful run that takes all correct replicas through the
      script; `marks` are the moments at which all of them have handled the same proposals. */
  lemma {:induction false} ScriptIsLawfulRun(cfg: Config, p: seq<TreeNode>, l: Script, k: nat)
    returns (worlds: Worlds, marks: seq<nat>)
    requires cfg.Valid() && Follows(p, l) && Unlocked(l) && k <= |p|
    ensures Run(SafeVotes, cfg, worlds) && |marks| == k + 1 && marks[k] == |worlds| - 1
    ensures forall j :: 0 <= j <= k ==> marks[j] < |worlds| && AllReached(cfg, worlds[marks[j]], p, j)
    decreases k
  {
    if k == 0 {
      worlds, marks := [InitWorld(cfg)], [0];
      FreshReplicas(cfg, p);
    } else {
      hide AllReached, Follows, Unlocked, NextWorld;
      var shorter, before := ScriptIsLawfulRun(cfg, p, l, k - 1);
      worlds := FullRound(cfg, shorter, p, l, k - 1);
      marks := before + [|worlds| - 1];
    }
  }

  lemma FreshReplicas(cfg: Config, p: seq<TreeNode>)
    ensures Run(SafeVotes, cfg, [InitWorld(cfg)]) && AllReached(cfg, InitWorld(cfg), p, 0)
  {
  }

  lemma FullRound(cfg: Config, worlds: Worlds, p: seq<TreeNode>, l: Script, k: nat) returns (longer: Worlds)
    requires cfg.Valid() && Follows(p, l) && Unlocked(l) && k < |p|
    requires Run(SafeVotes, cfg, worlds) && AllReached(cfg, Last(worlds), p, k)
    ensures Run(SafeVotes, cfg, longer) && worlds <= longer && AllReached(cfg, Last(longer), p, k + 1)
  {
    hide Reached;
    longer := RoundIsLawful(cfg, worlds, p, l, k, cfg.n);
  }

  // ---------------------------------------------------------------- progress

  /** Every chain of four or more proposals of rising heights is committed by all correct
      replicas in some lawful run, up to its last three. */
  lemma ChainsAreCommittedEverywhere(cfg: Config, a: seq<TreeNode>) returns (worlds: Worlds)
    requires cfg.Valid() && |a| >= 4 && Follows(a, Chain(|a|))
    ensures Run(SafeVotes, cfg, worlds) && |Last(worlds)| == cfg.n
    ensures forall i :: 0 <= i < cfg.n && i !in cfg.faulty ==>
              var r := Last(worlds)[i];
              && (forall j :: 0 <= j < |a| ==> a[j] in r.signed)
              && r.machine.storage.state.lastCommit == a[|a| - 4] && r.machine.storage.state.locked == a[|a| - 3]
  {
    hide After, Run, Follows, Unlocked, Signs, Prefix;
    ChainIsUnlocked(|a|);
    ChainMakesProgress(a);
    PrefixIs(a, |a|);
    var marks;
    worlds, marks := ScriptIsLawfulRun(cfg, a, Chain(|a|), |a|);
    var w := worlds[marks[|a|]];
    assert AllReached(cfg, w, a, |a|);
    forall i | 0 <= i < cfg.n && i !in cfg.faulty ensures Reached(w[i], a, |a|) {
    }
  }
}
