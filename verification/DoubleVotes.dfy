/** What a lowered voted height does to the protocol.  A replica signs a second time at a height it
    has been at exactly where its voted height is below that height.  A new-view message lowers
    it in a lawful run, and in every configuration there is a run in which all that module
    Protocol asks for holds, except that replicas accept a proposal that does not fit into their
    trees, and in which two conflicting nodes of one height are certified. */
module DoubleVotes {
  import opened HsData
  import opened StorageModel
  import opened SafetyMachine
  import opened Protocol
  import opened ProtocolInvariant
  import opened ReplicaScripts
  import opened Agreement
  import opened LawfulRuns
  import opened Fetching
  import opened PacedRuns
  import opened Gaps
  import VH = VoteHeights
  import RI = ReplicaInvariants

  // ---------------------------------------------------------------- a second signature

  /** The replica signs a node that it has not stored, at a height not above the given one. */
  ghost predicate SignsAtOrBelow(t: Storage, height: ViewNumber) {
    exists q: TreeNode :: WellFormed(q) && Hash(q) !in t.nodes && q.height <= height && Signs(t, q)
  }

  /** A length that no stored payload has. */
  lemma {:induction false} LongerPayload(hashes: set<NodeHash>) returns (length: nat)
    ensures forall h :: h in hashes && h.Digest? ==> |h.payload| < length
    decreases |hashes|
  {
    length := 0;
    if h :| h in hashes {
      var rest := LongerPayload(hashes - {h});
      length := Max(rest, if h.Digest? then |h.payload| + 1 else 0);
    }
  }

  /** Another node of a given height above the leaf, on the certificate that is held. */
  lemma SecondNode(cfg: Config, w: World, r: Replica, height: ViewNumber) returns (q: TreeNode)
    requires ReplicaInv(cfg, w, r) && height > r.machine.storage.state.vheight
    ensures var t := r.machine.storage; WellFormed(q) && Hash(q) !in t.nodes && q.height == height && Signs(t, q)
  {
    hide ReplicaInv, Core, Signs, WellFormed;
    var t := r.machine.storage;
    CoreOfReplica(cfg, w, r);
    var length := LongerPayload(t.nodes.Keys);
    var payload: seq<Byte> := seq(length, _ => 0);
    SecondNodeIsSigned(cfg, w, t, height, payload);
    q := MakeLeaf(t.(state := t.state.(view := height)), payload);
  }

  lemma SecondNodeIsSigned(cfg: Config, w: World, t: Storage, height: ViewNumber, payload: seq<Byte>)
    requires Core(cfg, w, t) && height > t.state.vheight
    ensures var q := MakeLeaf(t.(state := t.state.(view := height)), payload); WellFormed(q) && Signs(t, q)
  {
    var view := t.(state := t.state.(view := height));
    RI.SelfVoteIsSafe(view, payload);
    RI.ProposalExtendsItsJustify(view, payload);
  }

  lemma SignsAgainIff(cfg: Config, w: World, r: Replica, height: ViewNumber)
    requires ReplicaInv(cfg, w, r)
    ensures SignsAtOrBelow(r.machine.storage, height) <==> r.machine.storage.state.vheight < height
  {
    hide ReplicaInv, WellFormed, VerifyProposal, SafeNode;
    if r.machine.storage.state.vheight < height {
      var q := SecondNode(cfg, w, r, height);
    }
  }

  /** At every moment of every run with orderly messages: a correct replica would sign a new node
      at or below one that it has signed exactly where its voted height is below that one. */
  lemma SecondVoteIff(cfg: Config, worlds: Worlds, k: nat, i: ReplicaId, signed: TreeNode)
    requires cfg.Valid() && Run(OrderlyMessages, cfg, worlds) && k < |worlds| && Correct(cfg, i)
    requires i < |worlds[k]| && signed in worlds[k][i].signed
    ensures SignsAtOrBelow(worlds[k][i].machine.storage, signed.height)
            <==> worlds[k][i].machine.storage.state.vheight < signed.height
  {
    hide Run, ReplicaInv, SignsAtOrBelow;
    RunKeepsWorldInv(cfg, worlds, k);
    SignsAgainIff(cfg, worlds[k], worlds[k][i], signed.height);
  }

  // ---------------------------------------------------------------- no lowered votes, no further demand

  lemma HighestIsLawful(cfg: Config, w: World, i: ReplicaId, event: Event)
    requires WorldInv(cfg, w) && Allowed(AnyHeight, cfg, w, i, event) && VH.Highest(w[i].machine.storage)
    requires event.NewTx? ==> w[i].machine.storage.state.view > w[i].machine.storage.state.vheight
    ensures Allowed(HandedInTime, cfg, w, i, event)
  {
    var r, s := w[i], w[i].machine.storage;
    if SignedBy(s, event).Some? {
      SignatureIsAboveVotes(s, event);
      forall a | a in r.signed ensures a.height <= s.state.vheight {
        SignedIsJustified(cfg, w, i, a);
        assert Hash(s.nodes[Hash(a)]) == Hash(a);
      }
    }
    hide SignedBy, VH.Highest, InOrder, SafeVote, WorldInv;
  }

  lemma SignatureIsAboveVotes(s: Storage, event: Event)
    requires SignedBy(s, event).Some? && (event.NewTx? ==> s.state.view > s.state.vheight)
    ensures SignedBy(s, event).value.height > s.state.vheight
  {
  }

  /** The voted height of every correct replica is the greatest height at all times. */
  ghost predicate AlwaysHighest(cfg: Config, worlds: Worlds) {
    forall k, i: ReplicaId :: 0 <= k < |worlds| && i < |worlds[k]| && Correct(cfg, i) ==> VH.Highest(worlds[k][i].machine.storage)
  }

  /** A step in which a beat is above what was voted for. */
  ghost predicate HighNext(cfg: Config, w: World, w': World) {
    exists i: ReplicaId, event ::
      && Allowed(AnyHeight, cfg, w, i, event) && w' == WorldStep(cfg, w, i, event)
      && (event.NewTx? ==> w[i].machine.storage.state.view > w[i].machine.storage.state.vheight)
  }

  ghost predicate HighRun(cfg: Config, worlds: Worlds) {
    worlds[0] == InitWorld(cfg) && forall k :: 0 < k < |worlds| ==> HighNext(cfg, worlds[k - 1], worlds[k])
  }

  /** Then rising votes need not be asked for: they rise, the run is lawful. */
  lemma HighestRunsAreLawful(cfg: Config, worlds: Worlds)
    requires cfg.Valid() && HighRun(cfg, worlds) && AlwaysHighest(cfg, worlds)
    ensures Run(HandedInTime, cfg, worlds)
  {
    hide Run, AlwaysHighest, HighRun;
    HighestSoFar(cfg, worlds, |worlds| - 1);
    assert worlds[..|worlds|] == worlds;
  }

  lemma {:induction false} HighestSoFar(cfg: Config, worlds: Worlds, k: nat)
    requires cfg.Valid() && HighRun(cfg, worlds) && k < |worlds| && AlwaysHighest(cfg, worlds)
    ensures Run(HandedInTime, cfg, worlds[..k + 1])
    decreases k
  {
    hide Run, HighNext, AlwaysHighest, InitWorld;
    if k == 0 {
      OneWorldIsRun(cfg);
      assert worlds[..1] == [InitWorld(cfg)];
    } else {
      HighestSoFar(cfg, worlds, k - 1);
      assert HighNext(cfg, worlds[k - 1], worlds[k]);
      var before: Worlds := worlds[..k];
      HighestGoesOn(cfg, worlds, k, before);
      assert before + [worlds[k]] == worlds[..k + 1];
    }
  }

  lemma OneWorldIsRun(cfg: Config)
    ensures Run(HandedInTime, cfg, [InitWorld(cfg)])
  {
  }

  lemma HighestGoesOn(cfg: Config, worlds: Worlds, k: nat, before: Worlds)
    requires cfg.Valid() && 0 < k < |worlds| && AlwaysHighest(cfg, worlds) && HighNext(cfg, worlds[k - 1], worlds[k])
    requires Run(HandedInTime, cfg, before) && |before| == k && Last(before) == worlds[k - 1]
    ensures Run(HandedInTime, cfg, before + [worlds[k]])
  {
    hide Run, WorldStep, VH.Highest, WorldInv, InOrder, SafeVote, InTime;
    var w := worlds[k - 1];
    var i: ReplicaId, event :| && Allowed(AnyHeight, cfg, w, i, event) && worlds[k] == WorldStep(cfg, w, i, event)
                               && (event.NewTx? ==> w[i].machine.storage.state.view > w[i].machine.storage.state.vheight);
    RunIsWeakerRun(OrderlyMessages, HandedInTime, cfg, before);
    RunKeepsWorldInv(cfg, before, k - 1);
    HighestIsLawful(cfg, w, i, event);
    RunGoesOn(HandedInTime, cfg, before, i, event);
  }

  // ---------------------------------------------------------------- lowered by a new-view message

  const SIDE_BY_SIDE: Script := [-1, -1]

  /** Two proposals on the initial node, a certificate of the first and a node like the second. */
  ghost predicate SideBySide(p: seq<TreeNode>, qc: GenericQC, other: TreeNode) {
    && |p| == 2 && Follows(p, SIDE_BY_SIDE) && Dated(p, SIDE_BY_SIDE) && p[0].height == 1 && p[1].height == 5
    && qc == GenericQC(1, Hash(p[0]), Threshold(p[0])) && other == p[1].(payload := p[1].payload + [1])
  }

  lemma SideBySideExists() returns (p: seq<TreeNode>, qc: GenericQC, other: TreeNode)
    ensures SideBySide(p, qc, other)
  {
    p := Proposals(SIDE_BY_SIDE, [1, 5]);
    ProposalsFollow(SIDE_BY_SIDE, [1, 5]);
    ProposalsAreDated(SIDE_BY_SIDE, [1, 5]);
    qc, other := GenericQC(1, Hash(p[0]), Threshold(p[0])), p[1].(payload := p[1].payload + [1]);
  }

  lemma SideBySideStatus()
    ensures Unlocked(SIDE_BY_SIDE) && PacedStatus(SIDE_BY_SIDE, 2) == Status(1, -1, -1, -1)
  {
    assert StatusAfter(SIDE_BY_SIDE, 1) == Status(0, -1, -1, -1);
    assert UnlockedAt(SIDE_BY_SIDE, 0) && UnlockedAt(SIDE_BY_SIDE, 1);
  }

  lemma NewViewLowers(s: Storage, p: seq<TreeNode>, qc: GenericQC, other: TreeNode)
    requires SideBySide(p, qc, other) && At(s, p, 2, Status(1, -1, -1, -1))
    ensures var t := OnNewView(s, qc);
            && VH.Highest(s) && s.state.vheight == 5 && Orderly(s, RecvNewView(qc))
            && t.state.vheight == 1 && Signs(t, other) && t.nodes == s.nodes && t.state.locked == INIT_NODE
  {
    assert Has(s.nodes, Node(p, 0)) && Has(s.nodes, Node(p, 1)) && Has(s.nodes, Node(p, -1));
    assert s.nodes[Hash(p[1])].height == 5;
    assert OnLink(p, SIDE_BY_SIDE, 1);
    var t := OnNewView(s, qc);
    assert t.nodes == s.nodes && t.state.locked == INIT_NODE;
    assert StoredPath(t.nodes, Hash(other), Hash(INIT_NODE));
    WalkReachesRoot(t.nodes, other, Hash(INIT_NODE));
  }

  lemma PacedSideBySide(p: seq<TreeNode>, qc: GenericQC, other: TreeNode)
    requires SideBySide(p, qc, other)
    ensures At(PacedAfter(p, 2), p, 2, Status(1, -1, -1, -1))
  {
    hide PacedAfter, At, StatusAfter, Unlocked, Follows;
    SideBySideStatus();
    ScriptPaces(p, SIDE_BY_SIDE, 2);
  }

  /** A replica that has voted for heights 1 and 5, and was brought no higher certificate by
      either proposal, is told the certificate of the first in a new-view message.  The run is
      lawful; the voted height falls to 1 and the replica would sign another node of height 5. */
  lemma NewViewLowersVheight(cfg: Config, i: ReplicaId) returns (before: Worlds, qc: GenericQC, voted: TreeNode, other: TreeNode)
    requires cfg.Valid() && Correct(cfg, i)
    ensures Run(HandedInTime, cfg, before) && i < |Last(before)| && voted in Last(before)[i].signed
    ensures VH.Highest(Last(before)[i].machine.storage) && Last(before)[i].machine.storage.state.vheight == voted.height
    ensures Allowed(HandedInTime, cfg, Last(before), i, RecvNewView(qc))
    ensures var t := WorldStep(cfg, Last(before), i, RecvNewView(qc))[i].machine.storage;
            t.state.vheight < voted.height && WellFormed(other) && Signs(t, other)
    ensures other.height == voted.height && Conflicting(Hash(other), Hash(voted))
  {
    hide PacedAfter, Run, VH.Highest, Signs, Orderly, OnNewView, At, Follows, Dated, Conflicting, WellFormed, ExecutedBy, Prefix;
    var p;
    p, qc, other := SideBySideExists();
    voted := p[1];
    PacedSideBySide(p, qc, other);
    NewViewLowers(PacedAfter(p, 2), p, qc, other);
    OtherIsLikeIt(p, qc, other);
    before := SideBySideRun(cfg, p, qc, other);
    assert Paced(Last(before)[i], p, 2);
    PrefixIs(p, 2);
    QcOfFirst(cfg, Last(before), p, qc, other, 0);
  }

  lemma OtherIsLikeIt(p: seq<TreeNode>, qc: GenericQC, other: TreeNode)
    requires SideBySide(p, qc, other)
    ensures WellFormed(other) && Conflicting(Hash(other), Hash(p[1])) && other.height == p[1].height
    ensures other.justify.sign == p[1].justify.sign && other.justify.view == 0 && On(other, INIT_NODE)
  {
    NextIsWellFormed(p, SIDE_BY_SIDE, 1);
    assert OnLink(p, SIDE_BY_SIDE, 1);
    SiblingsConflict(other, p[1]);
    assert p[1].justify.view == Node(p, -1).height;
  }

  lemma SideBySideRun(cfg: Config, p: seq<TreeNode>, qc: GenericQC, other: TreeNode) returns (worlds: Worlds)
    requires cfg.Valid() && SideBySide(p, qc, other)
    ensures Run(HandedInTime, cfg, worlds) && AllPaced(cfg, Last(worlds), p, 2)
  {
    hide Run, Follows, Dated, AllPaced, Unlocked, StatusAfter;
    SideBySideStatus();
    worlds := ScriptIsPacedRun(cfg, p, SIDE_BY_SIDE, 2);
  }

  // ---------------------------------------------------------------- two certificates of one height

  /** Correct replicas below `i` have signed the other node as well. */
  ghost predicate MidSecond(cfg: Config, w: World, p: seq<TreeNode>, other: TreeNode, i: nat)
    requires |p| == 2
  {
    && |w| == cfg.n
    && forall j :: 0 <= j < cfg.n && j !in cfg.faulty ==>
         && p[0] in w[j].signed && p[1] in w[j].signed
         && (if j < i then other in w[j].signed else Paced(w[j], p, 2))
  }

  lemma QcOfFirst(cfg: Config, w: World, p: seq<TreeNode>, qc: GenericQC, other: TreeNode, i: nat)
    requires cfg.Valid() && SideBySide(p, qc, other) && (MidSecond(cfg, w, p, other, i) || AllPaced(cfg, w, p, 2))
    ensures GenuineQc(cfg, w, qc)
  {
    hide Paced, Follows, Dated;
    if AllPaced(cfg, w, p, 2) {
      AllPacedIsStart(cfg, w, p, other);
    }
    SignedByAllIsCertified(cfg, w, p[0]);
  }

  lemma AllPacedIsStart(cfg: Config, w: World, p: seq<TreeNode>, other: TreeNode)
    requires |p| == 2 && AllPaced(cfg, w, p, 2)
    ensures MidSecond(cfg, w, p, other, 0)
  {
    hide Paced;
    forall j | 0 <= j < cfg.n && j !in cfg.faulty ensures p[0] in w[j].signed && p[1] in w[j].signed {
      PacedHasSigned(w[j], p, 2);
    }
  }

  /** The replica is told the certificate of the first. */
  lemma Lower(cfg: Config, worlds: Worlds, p: seq<TreeNode>, qc: GenericQC, other: TreeNode, i: ReplicaId) returns (longer: Worlds)
    requires cfg.Valid() && SideBySide(p, qc, other) && Correct(cfg, i)
    requires Run(AnyHeight, cfg, worlds) && MidSecond(cfg, Last(worlds), p, other, i)
    ensures Run(AnyHeight, cfg, longer) && OnlyMoves(Last(worlds), Last(longer), i)
    ensures Last(longer)[i].machine.storage == OnNewView(PacedAfter(p, 2), qc) && Last(longer)[i].signed.Keys == Prefix(p, 2)
  {
    hide Run, PacedAfter, At, Prefix, OnNewView, GenuineQc, Follows, Dated, Orderly, ExecutedBy, VH.Highest, Signs;
    assert Paced(Last(worlds)[i], p, 2);
    QcOfFirst(cfg, Last(worlds), p, qc, other, i);
    PacedSideBySide(p, qc, other);
    NewViewLowers(PacedAfter(p, 2), p, qc, other);
    longer := OneStep(AnyHeight, cfg, worlds, i, RecvNewView(qc));
  }

  lemma OtherIsSafe(t: Storage, p: seq<TreeNode>, qc: GenericQC, other: TreeNode)
    requires SideBySide(p, qc, other) && t.state.locked == INIT_NODE
    requires forall j :: -1 <= j < 2 ==> Has(t.nodes, Node(p, j))
    ensures SafeForSigned(t, Prefix(p, 2), other)
  {
    hide GrandNode, SafeFor;
    forall a | a in Prefix(p, 2) ensures HeightOf(GrandNode(t.nodes, a)) <= 0 {
      var j :| 0 <= j < 2 && p[j] == a;
      GrandOfScript(t.nodes, p, SIDE_BY_SIDE, 2, j);
    }
  }

  /** Then it signs the other node. */
  lemma SignOther(cfg: Config, worlds: Worlds, p: seq<TreeNode>, qc: GenericQC, other: TreeNode, i: ReplicaId) returns (longer: Worlds)
    requires cfg.Valid() && SideBySide(p, qc, other) && Correct(cfg, i) && |Last(worlds)| == cfg.n && Run(AnyHeight, cfg, worlds)
    requires Last(worlds)[i].machine.storage == OnNewView(PacedAfter(p, 2), qc) && Last(worlds)[i].signed.Keys == Prefix(p, 2)
    ensures Run(AnyHeight, cfg, longer) && OnlyMoves(Last(worlds), Last(longer), i) && other in Last(longer)[i].signed
  {
    hide Run, PacedAfter, At, Prefix, OnNewView, Follows, Dated, ExecutedBy, VH.Highest, Signs, WellFormed, Step, SafeForSigned, Conflicting, On;
    var s, t := PacedAfter(p, 2), OnNewView(PacedAfter(p, 2), qc);
    PacedSideBySide(p, qc, other);
    NewViewLowers(s, p, qc, other);
    HasAll(s, p, 2, Status(1, -1, -1, -1));
    OtherIsLikeIt(p, qc, other);
    OtherIsSafe(t, p, qc, other);
    QcOfOther(cfg, Last(worlds), other);
    longer := OneStep(AnyHeight, cfg, worlds, i, RecvProposal(other));
  }

  lemma QcOfOther(cfg: Config, w: World, other: TreeNode)
    requires On(other, INIT_NODE)
    ensures GenuineQc(cfg, w, other.justify)
  {
  }

  lemma LowerAndSign(cfg: Config, worlds: Worlds, p: seq<TreeNode>, qc: GenericQC, other: TreeNode, i: ReplicaId) returns (longer: Worlds)
    requires cfg.Valid() && SideBySide(p, qc, other) && Correct(cfg, i)
    requires Run(AnyHeight, cfg, worlds) && MidSecond(cfg, Last(worlds), p, other, i)
    ensures Run(AnyHeight, cfg, longer) && MidSecond(cfg, Last(longer), p, other, i + 1)
  {
    hide Run, PacedAfter, Paced, OnNewView, Prefix, Follows, Dated, On;
    var lowered := Lower(cfg, worlds, p, qc, other, i);
    longer := SignOther(cfg, lowered, p, qc, other, i);
  }

  lemma {:induction false} SecondRound(cfg: Config, worlds: Worlds, p: seq<TreeNode>, qc: GenericQC, other: TreeNode, i: nat)
    returns (longer: Worlds)
    requires cfg.Valid() && SideBySide(p, qc, other) && i <= cfg.n
    requires Run(AnyHeight, cfg, worlds) && MidSecond(cfg, Last(worlds), p, other, 0)
    ensures Run(AnyHeight, cfg, longer) && MidSecond(cfg, Last(longer), p, other, i)
    decreases i
  {
    hide Run, Follows, Paced, Dated, On;
    if i == 0 {
      longer := worlds;
    } else {
      longer := SecondRound(cfg, worlds, p, qc, other, i - 1);
      if i - 1 !in cfg.faulty {
        longer := LowerAndSign(cfg, longer, p, qc, other, i - 1);
      }
    }
  }

  /** Certificates are not unique where votes may fall. */
  lemma LowVotesBreakUniqueness(cfg: Config) returns (worlds: Worlds, a: TreeNode, b: TreeNode)
    requires cfg.Valid()
    ensures Run(AnyHeight, cfg, worlds)
    ensures Certified(cfg, Last(worlds), a) && Certified(cfg, Last(worlds), b)
    ensures a.height == b.height && Conflicting(Hash(a), Hash(b))
  {
    hide Run, Conflicting, Certified, Follows, Dated, AllPaced, Paced, WellFormed, On;
    var p, qc, other := SideBySideExists();
    OtherIsLikeIt(p, qc, other);
    a, b := other, p[1];
    var lawful := SideBySideRun(cfg, p, qc, other);
    RunIsWeakerRun(AnyHeight, HandedInTime, cfg, lawful);
    AllPacedIsStart(cfg, Last(lawful), p, other);
    worlds := SecondRound(cfg, lawful, p, qc, other, cfg.n);
    SignedByAllIsCertified(cfg, Last(worlds), a);
    SignedByAllIsCertified(cfg, Last(worlds), b);
  }
}
