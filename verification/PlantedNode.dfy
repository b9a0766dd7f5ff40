/** What a faulty peer can plant does not take a replica out of the lawful runs.  A branch that
    nobody asked for makes a replica store a well-formed node of any height, and its voted height
    falls back; the replica then signs the genuine next proposal, far below the planted node, and
    leads in later views. */
module PlantedNode {
  import opened HsData
  import opened StorageModel
  import opened SafetyMachine
  import opened Protocol
  import opened ReplicaScripts
  import opened LawfulRuns
  import opened Fetching
  import opened PacedRuns

  const FIRST := Proposal(INIT_NODE, 1)
  const NEXT := Proposal(FIRST, 2)

  function Planted(height: ViewNumber): TreeNode {
    Proposal(FIRST, height)
  }

  const PLANT: Script := [-1, 0]

  lemma PlantFollows(height: ViewNumber)
    requires height > 2
    ensures var p := [FIRST, Planted(height)];
            Follows(p, PLANT) && Dated(p, PLANT) && Follows([FIRST], [-1]) && Dated([FIRST], [-1]) && Unlocked([-1])
  {
    var p := [FIRST, Planted(height)];
    assert OnLink(p, PLANT, 0) && OnLink(p, PLANT, 1) && Rises(p, 0) && Rises(p, 1);
    assert OnLink([FIRST], [-1], 0) && Rises([FIRST], 0);
    assert UnlockedAt([-1], 0);
  }

  /** The replica after the planted node: the first node is the leaf and all that was voted for. */
  ghost predicate Led(s: Storage, height: ViewNumber) {
    && At(s, [FIRST, Planted(height)], 2, Status(0, 0, -1, -1)) && s.state.leaf == FIRST
  }

  lemma PlantingWorks(height: ViewNumber)
    requires height > 2
    ensures var s := PacedAfter([FIRST], 1);
            Orderly(s, Sync(Planted(height))) && VerifyProposal(s, Planted(height).justify) && Led(SyncProposal(s, Planted(height)), height)
  {
    hide PacedAfter, OnRecvProposal, SyncProposal, Signs, Follows, Dated;
    var p, s := [FIRST, Planted(height)], PacedAfter([FIRST], 1);
    PlantFollows(height);
    ScriptPaces([FIRST], [-1], 1);
    FirstStatus();
    assert At(s, p, 1, Status(0, -1, -1, -1)) by {
      LongerScript(s, [FIRST], p, 1, Status(0, -1, -1, -1));
    }
    NextIsHandled(s, p, PLANT, 1, Status(0, -1, -1, -1));
    NextIsWellFormed(p, PLANT, 1);
    Handled(s, Planted(height));
  }

  lemma FirstStatus()
    ensures PacedStatus([-1], 1) == Status(0, -1, -1, -1)
  {
  }

  lemma Handled(s: Storage, node: TreeNode)
    requires Signs(s, node)
    ensures VerifyProposal(s, node.justify) && SyncProposal(s, node) == OnRecvProposal(s, node)
  {
    SyncIsReceipt(s, node);
  }

  lemma LongerScript(s: Storage, p: seq<TreeNode>, longer: seq<TreeNode>, k: nat, st: Status)
    requires k <= |p| && p <= longer && At(s, p, k, st)
    ensures At(s, longer, k, st)
  {
    assert forall j :: -1 <= j < k ==> Node(p, j) == Node(longer, j);
  }

  lemma NextIsSigned(s: Storage, height: ViewNumber)
    requires height > 2 && Led(s, height)
    ensures Signs(s, NEXT) && WellFormed(NEXT) && NEXT.justify.view <= s.state.leaf.height
    ensures SafeForSigned(s, {FIRST}, NEXT) && Has(s.nodes, Planted(height))
  {
    var p := [FIRST, Planted(height)];
    assert Has(s.nodes, Node(p, 0)) && Has(s.nodes, Node(p, 1)) && Has(s.nodes, Node(p, -1));
    assert Extends(NEXT.parent, NEXT.justify.node);
  }

  /** The replica may enter a view and propose in it. */
  ghost predicate MayLead(cfg: Config, w: World, i: ReplicaId, view: ViewNumber, payload: seq<Byte>)
    requires Correct(cfg, i) && |w| == cfg.n
  {
    && Allowed(HandedInTime, cfg, w, i, RaiseView(view))
    && Allowed(HandedInTime, cfg, WorldStep(cfg, w, i, RaiseView(view)), i, NewTx(payload))
  }

  lemma LeadingLater(cfg: Config, w: World, i: ReplicaId, view: ViewNumber, payload: seq<Byte>)
    requires Correct(cfg, i) && |w| == cfg.n && view > 2
    requires w[i].signed.Keys == {FIRST, NEXT} && w[i].machine.storage.state.leaf.height <= 2
    ensures MayLead(cfg, w, i, view, payload)
  {
  }

  /** In every configuration, for every correct replica and every height of the planted node. */
  lemma PlantedNodeIsHarmless(cfg: Config, i: ReplicaId, height: ViewNumber) returns (worlds: Worlds)
    requires cfg.Valid() && Correct(cfg, i) && height > 2
    ensures Run(HandedInTime, cfg, worlds) && |Last(worlds)| == cfg.n
    ensures Has(Last(worlds)[i].machine.storage.nodes, Planted(height)) && NEXT in Last(worlds)[i].signed && NEXT.height < height
    ensures forall view: ViewNumber, payload: seq<Byte> :: view > 2 ==> MayLead(cfg, Last(worlds), i, view, payload)
  {
    hide Run, PacedAfter, OnRecvProposal, SyncProposal, Signs, Follows, Dated, WellFormed, SafeForSigned, Led, GenuineQc, MayLead,
         ExecutedBy, Unlocked;
    PlantFollows(height);
    worlds := ScriptIsPacedRun(cfg, [FIRST], [-1], 1);
    worlds := PlantOn(cfg, worlds, i, height);
    worlds := SignNext(cfg, worlds, i, height);
    forall view: ViewNumber, payload: seq<Byte> | view > 2
      ensures MayLead(cfg, Last(worlds), i, view, payload)
    {
      LeadingLater(cfg, Last(worlds), i, view, payload);
    }
  }

  lemma FirstIsGenuine(cfg: Config, w: World, node: TreeNode)
    requires cfg.Valid() && AllPaced(cfg, w, [FIRST], 1) && node.justify == NEXT.justify
    ensures GenuineQc(cfg, w, node.justify)
  {
    hide Paced;
    forall j | 0 <= j < cfg.n && j !in cfg.faulty ensures FIRST in w[j].signed {
      PacedHasSigned(w[j], [FIRST], 1);
      assert [FIRST][0] == FIRST;
    }
    SignedByAllIsCertified(cfg, w, FIRST);
  }

  lemma PlantOn(cfg: Config, worlds: Worlds, i: ReplicaId, height: ViewNumber) returns (longer: Worlds)
    requires cfg.Valid() && Correct(cfg, i) && height > 2 && Run(HandedInTime, cfg, worlds) && AllPaced(cfg, Last(worlds), [FIRST], 1)
    ensures Run(HandedInTime, cfg, longer) && |Last(longer)| == cfg.n && GenuineQc(cfg, Last(longer), NEXT.justify)
    ensures Led(Last(longer)[i].machine.storage, height) && Last(longer)[i].signed.Keys == {FIRST}
  {
    hide Run, PacedAfter, SyncProposal, Led, GenuineQc, ExecutedBy, Signs, Orderly;
    var w := Last(worlds);
    assert Paced(w[i], [FIRST], 1);
    FirstOnly();
    FirstIsGenuine(cfg, w, Planted(height));
    FirstIsGenuine(cfg, w, NEXT);
    PlantingWorks(height);
    longer := OneStep(HandedInTime, cfg, worlds, i, Sync(Planted(height)));
    SameSignaturesSameGenuine(cfg, w, Last(longer), i, NEXT.justify);
  }

  lemma FirstOnly()
    ensures Prefix([FIRST], 1) == {FIRST}
  {
    assert [FIRST][..1] == [FIRST];
  }

  lemma SignNext(cfg: Config, worlds: Worlds, i: ReplicaId, height: ViewNumber) returns (longer: Worlds)
    requires cfg.Valid() && Correct(cfg, i) && height > 2 && Run(HandedInTime, cfg, worlds) && |Last(worlds)| == cfg.n
    requires GenuineQc(cfg, Last(worlds), NEXT.justify)
    requires Led(Last(worlds)[i].machine.storage, height) && Last(worlds)[i].signed.Keys == {FIRST}
    ensures Run(HandedInTime, cfg, longer) && |Last(longer)| == cfg.n && Last(longer)[i].signed.Keys == {FIRST, NEXT}
    ensures Has(Last(longer)[i].machine.storage.nodes, Planted(height)) && Last(longer)[i].machine.storage.state.leaf.height <= 2
  {
    hide Run, OnRecvProposal, Signs, GenuineQc, ExecutedBy, SafeForSigned, WellFormed, Led;
    var s := Last(worlds)[i].machine.storage;
    NextIsSigned(s, height);
    NextIsHandledToo(s, height);
    longer := HandOver(HandedInTime, cfg, worlds, i, NEXT);
  }

  lemma NextIsHandledToo(s: Storage, height: ViewNumber)
    requires height > 2 && Led(s, height)
    ensures var t := OnRecvProposal(s, NEXT); Has(t.nodes, Planted(height)) && t.state.leaf.height <= 2
  {
    var p := [FIRST, Planted(height)];
    assert Has(s.nodes, Node(p, 0)) && Has(s.nodes, Node(p, 1)) && Has(s.nodes, Node(p, -1));
    hide IsConflicting;
  }
}
