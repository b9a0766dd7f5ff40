/** Runs in which every proposal reaches the machine as the pacemaker lets it: all correct replicas
    can be taken through every unlocked script, each fetching what it has to. */
module PacedRuns {
  import opened HsData
  import opened StorageModel
  import opened SafetyMachine
  import opened Protocol
  import opened ReplicaScripts
  import opened LawfulRuns
  import opened Fetching

  function PacedAfter(p: seq<TreeNode>, k: nat): Storage
    requires k <= |p|
  {
    if k == 0 then InitStorage() else Taken(PacedAfter(p, k - 1), p[k - 1])
  }

  /** As without fetching, except that the voted height is that of the last vote. */
  function PacedStatus(l: Script, k: nat): Status
    requires k <= |l|
  {
    StatusAfter(l, k).(voted := k - 1)
  }

  ghost predicate OnPace(p: seq<TreeNode>, l: Script, k: nat)
    requires k <= |p| == |l|
  {
    At(PacedAfter(p, k), p, k, PacedStatus(l, k)) && PacedAfter(p, k).state.leaf == Node(p, PacedStatus(l, k).qc)
  }

  lemma {:induction false} ScriptPaces(p: seq<TreeNode>, l: Script, k: nat)
    requires Follows(p, l) && Dated(p, l) && Unlocked(l) && k <= |p|
    ensures OnPace(p, l, k)
    decreases k
  {
    hide OnPace, Follows, Unlocked;
    if k == 0 {
      FreshIsOnPace(p, l);
    } else {
      ScriptPaces(p, l, k - 1);
      PaceGoesOn(p, l, k - 1);
    }
  }

  lemma FreshIsOnPace(p: seq<TreeNode>, l: Script)
    requires |p| == |l|
    ensures OnPace(p, l, 0)
  {
  }

  lemma PaceGoesOn(p: seq<TreeNode>, l: Script, k: nat)
    requires Follows(p, l) && Dated(p, l) && Unlocked(l) && k < |p| && OnPace(p, l, k)
    ensures OnPace(p, l, k + 1)
  {
    hide Taken, At, Follows, Unlocked, Fetched, Signs, Ready;
    ScriptIsReady(p, l, k);
    var st := NextIsTaken(PacedAfter(p, k), p, l, k, PacedStatus(l, k));
    assert st == PacedStatus(l, k + 1);
  }

  lemma ScriptIsReady(p: seq<TreeNode>, l: Script, k: nat)
    requires Follows(p, l) && Dated(p, l) && Unlocked(l) && k < |p| && OnPace(p, l, k)
    ensures Ready(PacedAfter(p, k), p, l, k, PacedStatus(l, k))
  {
    hide At, PacedAfter;
    assert UnlockedAt(l, k);
  }

  // ---------------------------------------------------------------- votes are safe

  lemma GrandOfScript(nodes: NodeMap, p: seq<TreeNode>, l: Script, k: nat, j: nat)
    requires Follows(p, l) && j < k <= |p| && forall i :: -1 <= i < k ==> Has(nodes, Node(p, i))
    ensures HeightOf(GrandNode(nodes, p[j])) == Node(p, Link(l, l[j])).height
  {
    var b3 := l[j];
    assert Has(nodes, Node(p, b3)) && OnLink(p, l, j);
    if b3 >= 0 {
      assert OnLink(p, l, b3);
    }
  }

  lemma ScriptIsSafeFor(s: Storage, p: seq<TreeNode>, l: Script, k: nat, m: nat, st: Status)
    requires |p| == |l| && Follows(p, l) && k < |p| && k <= m <= |p| && At(s, p, m, st) && st.locked >= StatusAfter(l, k).locked
    ensures SafeForSigned(s, Prefix(p, k), p[k])
  {
    hide StatusAfter, GrandNode, SafeFor, Follows;
    forall a | a in Prefix(p, k) ensures HeightOf(GrandNode(s.nodes, a)) <= s.state.locked.height {
      var j :| 0 <= j < k && p[j] == a;
      GrandOfScript(s.nodes, p, l, m, j);
      LockCoversLinks(l, j, k);
      CompareHeights(p, l, st.locked, Link(l, l[j]));
    }
  }

  lemma FetchedIsSafe(p: seq<TreeNode>, l: Script, k: nat)
    requires Follows(p, l) && Dated(p, l) && Unlocked(l) && k < |p|
    ensures SafeForSigned(Fetched(PacedAfter(p, k), p[k]), Prefix(p, k), p[k])
  {
    hide At, PacedAfter, SafeForSigned, OnRecvProposal, SyncProposal, StatusAfter, Prefix, Signs;
    ScriptPaces(p, l, k);
    ScriptIsReady(p, l, k);
    var s, st := PacedAfter(p, k), PacedStatus(l, k);
    if Fetched(s, p[k]) == s {
      ScriptIsSafeFor(s, p, l, k, k, st);
    } else {
      NextIsHandled(s, p, l, k, st);
      NextIsFetched(s, p, l, k, st);
      ScriptIsSafeFor(Fetched(s, p[k]), p, l, k, k + 1, Settled(l, st.(voted := k), l[k]));
    }
  }

  // ---------------------------------------------------------------- all replicas follow a script

  /** The replica has taken, signed and acted on the first `k` proposals, and on nothing else. */
  ghost predicate Paced(r: Replica, p: seq<TreeNode>, k: nat)
    requires k <= |p|
  {
    && r.machine == SafetyMachine.MachineState(PacedAfter(p, k), map[]) && r.signed.Keys == Prefix(p, k)
    && forall j :: 0 <= j < k ==> ExecutedBy(PacedAfter(p, j), p[j]) <= r.executed
  }

  /** Correct replicas below `i` are one proposal ahead. */
  ghost predicate MidPaced(cfg: Config, w: World, p: seq<TreeNode>, k: nat, i: nat)
    requires k < |p|
  {
    |w| == cfg.n && forall j :: 0 <= j < cfg.n && j !in cfg.faulty ==> Paced(w[j], p, if j < i then k + 1 else k)
  }

  ghost predicate AllPaced(cfg: Config, w: World, p: seq<TreeNode>, k: nat)
    requires k <= |p|
  {
    |w| == cfg.n && forall j :: 0 <= j < cfg.n && j !in cfg.faulty ==> Paced(w[j], p, k)
  }

  lemma PacedHasSigned(r: Replica, p: seq<TreeNode>, k: nat)
    requires k <= |p| && Paced(r, p, k)
    ensures forall j :: 0 <= j < k ==> p[j] in r.signed
  {
    hide PacedAfter;
    PrefixIs(p, k);
  }

  lemma LinkIsGenuineInTime(cfg: Config, w: World, p: seq<TreeNode>, l: Script, k: nat, i: nat)
    requires cfg.Valid() && Follows(p, l) && k < |p| && MidPaced(cfg, w, p, k, i)
    ensures GenuineQc(cfg, w, p[k].justify)
  {
    hide Paced;
    assert OnLink(p, l, k);
    if l[k] >= 0 {
      forall j | 0 <= j < cfg.n && j !in cfg.faulty ensures p[l[k]] in w[j].signed {
        PacedHasSigned(w[j], p, if j < i then k + 1 else k);
      }
      SignedByAllIsCertified(cfg, w, p[l[k]]);
    }
  }

  lemma NextIsHigher(p: seq<TreeNode>, l: Script, k: nat)
    requires Follows(p, l) && k < |p|
    ensures Higher(Prefix(p, k), p[k])
  {
    CompareHeights(p, l, -1, k);
    forall a | a in Prefix(p, k) ensures a.height < p[k].height {
      var j :| 0 <= j < k && p[j] == a;
      CompareHeights(p, l, j, k);
    }
  }

  lemma OneMoreInTime(cfg: Config, worlds: Worlds, p: seq<TreeNode>, l: Script, k: nat, i: ReplicaId)
    returns (longer: Worlds)
    requires cfg.Valid() && Follows(p, l) && Dated(p, l) && Unlocked(l) && k < |p| && Correct(cfg, i)
    requires Run(HandedInTime, cfg, worlds) && MidPaced(cfg, Last(worlds), p, k, i)
    ensures Run(HandedInTime, cfg, longer) && worlds <= longer && MidPaced(cfg, Last(longer), p, k, i + 1)
  {
    hide Run, Follows, Dated, Unlocked, Paced, GenuineQc, CanTake, Higher, Taken, Fetched, SafeForSigned, ExecutedBy;
    var r := Last(worlds)[i];
    assert Paced(r, p, k);
    NextOfPaced(r, p, l, k);
    LinkIsGenuineInTime(cfg, Last(worlds), p, l, k, i);
    longer := TakeNext(HandedInTime, cfg, worlds, i, p[k]);
    PacedMovesOn(r, Last(longer)[i], p, k);
  }

  lemma NextOfPaced(r: Replica, p: seq<TreeNode>, l: Script, k: nat)
    requires Follows(p, l) && Dated(p, l) && Unlocked(l) && k < |p| && Paced(r, p, k)
    ensures CanTake(r.machine.storage, p[k]) && Higher(r.signed.Keys, p[k])
    ensures SafeForSigned(Fetched(r.machine.storage, p[k]), r.signed.Keys, p[k])
  {
    hide At, PacedAfter, Follows, Unlocked, CanTake, Higher, Fetched, SafeForSigned, Prefix, ExecutedBy;
    ScriptPaces(p, l, k);
    ScriptIsReady(p, l, k);
    NextCanBeTaken(PacedAfter(p, k), p, l, k, PacedStatus(l, k));
    NextIsHigher(p, l, k);
    FetchedIsSafe(p, l, k);
  }

  lemma PacedMovesOn(r: Replica, r': Replica, p: seq<TreeNode>, k: nat)
    requires k < |p| && Paced(r, p, k) && r'.machine == r.machine.(storage := Taken(r.machine.storage, p[k]))
    requires r'.signed.Keys == r.signed.Keys + {p[k]} && ExecutedBy(r.machine.storage, p[k]) <= r'.executed && r.executed <= r'.executed
    ensures Paced(r', p, k + 1)
  {
    hide Taken, ExecutedBy, Prefix;
    PrefixIs(p, k);
  }

  lemma {:induction false} RoundIsPaced(cfg: Config, worlds: Worlds, p: seq<TreeNode>, l: Script, k: nat, i: nat)
    returns (longer: Worlds)
    requires cfg.Valid() && Follows(p, l) && Dated(p, l) && Unlocked(l) && k < |p| && i <= cfg.n
    requires Run(HandedInTime, cfg, worlds) && AllPaced(cfg, Last(worlds), p, k)
    ensures Run(HandedInTime, cfg, longer) && worlds <= longer && MidPaced(cfg, Last(longer), p, k, i)
    decreases i
  {
    hide Paced, Run, Follows, Unlocked, Dated;
    if i == 0 {
      longer := worlds;
    } else {
      longer := RoundIsPaced(cfg, worlds, p, l, k, i - 1);
      if i - 1 !in cfg.faulty {
        longer := OneMoreInTime(cfg, longer, p, l, k, i - 1);
      }
    }
  }

  /** For every configuration there is a lawful run that takes all correct replicas through the
      script, each of them fetching what it has to and signing what it is then handed. */
  lemma {:induction false} ScriptIsPacedRun(cfg: Config, p: seq<TreeNode>, l: Script, k: nat) returns (worlds: Worlds)
    requires cfg.Valid() && Follows(p, l) && Dated(p, l) && Unlocked(l) && k <= |p|
    ensures Run(HandedInTime, cfg, worlds) && AllPaced(cfg, Last(worlds), p, k)
    decreases k
  {
    hide Run, Follows, Unlocked, Dated, AllPaced, MidPaced, InitWorld, Config.Valid;
    if k == 0 {
      worlds := [InitWorld(cfg)];
      FreshIsPaced(cfg, p);
    } else {
      worlds := ScriptIsPacedRun(cfg, p, l, k - 1);
      worlds := RoundIsPaced(cfg, worlds, p, l, k - 1, cfg.n);
      RoundIsOver(cfg, Last(worlds), p, k - 1);
    }
  }

  lemma RoundIsOver(cfg: Config, w: World, p: seq<TreeNode>, k: nat)
    requires k < |p| && MidPaced(cfg, w, p, k, cfg.n)
    ensures AllPaced(cfg, w, p, k + 1)
  {
    hide Paced;
  }

  lemma FreshIsPaced(cfg: Config, p: seq<TreeNode>)
    ensures Run(HandedInTime, cfg, [InitWorld(cfg)]) && AllPaced(cfg, InitWorld(cfg), p, 0)
  {
  }
}
