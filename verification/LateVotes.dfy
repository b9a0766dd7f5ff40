/** Votes that arrive late.  A leader of four proposes and two replicas sign.

    If the leader enters the next view before their votes arrive, the certificate it forms has
    another view than the height of its node, in a lawful run.

    If it proposes again before they arrive, they complete a certificate that is signed for the
    first proposal and names the second: leaf and certificate are torn apart, and no replica
    accepts the certificate.  Up to the votes that run is lawful as well. */
module LateVotes {
  import opened HsData
  import opened StorageModel
  import opened Voting
  import opened SafetyMachine
  import opened Protocol
  import opened ProtocolInvariant
  import opened Agreement
  import opened Leading
  import RI = ReplicaInvariants

  const FIRST := TreeNode([], 1, Hash(INIT_NODE), INIT_QC)
  const SECOND := TreeNode([], 2, Hash(FIRST), INIT_QC)

  function Made(k: nat): set<TreeNode> {
    if k == 1 then {FIRST} else {FIRST, SECOND}
  }

  function MadeHashes(k: nat): set<NodeHash> {
    if k == 1 then {Hash(INIT_NODE), Hash(FIRST)} else {Hash(INIT_NODE), Hash(FIRST), Hash(SECOND)}
  }

  /** The leader has made the first `k` proposals, and `voters` have voted for the first. */
  ghost predicate Waiting(m: MachineState, k: nat, view: ViewNumber, voters: set<ReplicaId>) {
    var s := m.storage;
    && s.state.leaf == (if k == 1 then FIRST else SECOND) && s.state.view == view && s.state.qcHigh == INIT_QC
    && s.nodes.Keys == MadeHashes(k) && Has(s.nodes, FIRST)
    && 1 in m.votes && Voters(m.votes[1], voters)
  }

  ghost predicate Voters(ballots: Ballots, voters: set<ReplicaId>) {
    ballots.Keys == voters && forall id :: id in voters ==> ballots[id] == Sign(id, FIRST)
  }

  // ---------------------------------------------------------------- what the leader does

  lemma FirstBeat()
    ensures var m1 := Step(InitMachine(), 4, 0, RaiseView(1));
            && Orderly(m1.storage, NewTx([])) && MakeLeaf(m1.storage, []) == FIRST
            && Waiting(Step(m1, 4, 0, NewTx([])), 1, 1, {0})
  {
    var m1 := Step(InitMachine(), 4, 0, RaiseView(1));
    assert Step(m1, 4, 0, NewTx([])).votes[1] == map[0 := Sign(0, FIRST)];
  }

  lemma NextView(m: MachineState)
    requires Waiting(m, 1, 1, {0})
    ensures Waiting(Step(m, 4, 0, RaiseView(2)), 1, 2, {0})
  {
    hide Voters;
  }

  lemma SecondBeat(m: MachineState)
    requires Waiting(m, 1, 2, {0})
    ensures Orderly(m.storage, NewTx([])) && MakeLeaf(m.storage, []) == SECOND
    ensures Waiting(Step(m, 4, 0, NewTx([])), 2, 2, {0})
  {
    hide Voters;
    forall h | h in m.storage.nodes ensures m.storage.nodes[h].height < 2 {
      assert Hash(m.storage.nodes[h]) == h;
    }
    assert MakeLeaf(m.storage, []) == SECOND;
  }

  lemma OneMoreVoter(ballots: Ballots, voters: set<ReplicaId>, id: ReplicaId)
    requires Voters(ballots, voters)
    ensures Voters(ballots[id := Sign(id, FIRST)], voters + {id})
  {
  }

  lemma VotersAllSign(ballots: Ballots, voters: set<ReplicaId>)
    requires Voters(ballots, voters)
    ensures AllSign(ballots, FIRST)
  {
  }

  lemma SizeOfBallots(ballots: Ballots, voters: set<ReplicaId>)
    requires Voters(ballots, voters)
    ensures |ballots| == |voters|
  {
    assert |ballots| == |ballots.Keys|;
  }

  /** The second vote is not enough. */
  lemma SecondVote(m: MachineState, k: nat)
    requires Waiting(m, k, 2, {0})
    ensures var event := RecvSign(1, FIRST, Sign(1, FIRST)); var m1 := Step(m, 4, 0, event);
            Waiting(m1, k, 2, {0, 1}) && m1.storage == m.storage && !FormsQc(m, 4, event)
  {
    var ballots := m.votes[1][1 := Sign(1, FIRST)];
    OneMoreVoter(m.votes[1], {0}, 1);
    assert {0} + {1} == {0, 1};
    SizeOfBallots(ballots, {0, 1});
    hide Voters, MadeHashes;
    assert AddVote(m.votes, 1, 1, Sign(1, FIRST))[1] == ballots;
  }

  lemma ThreeCombine(ballots: Ballots)
    requires Voters(ballots, {0, 1, 2})
    ensures Combine(2, ballots) == Ok(Threshold(FIRST))
  {
    SizeOfBallots(ballots, {0, 1, 2});
    assert AllSign(ballots, FIRST);
    assert ballots[0] == Sign(0, FIRST);
  }

  /** The third is. */
  lemma ThirdVoteForms(m: MachineState, k: nat)
    requires Waiting(m, k, 2, {0, 1})
    ensures var event := RecvSign(2, FIRST, Sign(2, FIRST));
            && FormsQc(m, 4, event)
            && Step(m, 4, 0, event).storage == UpdateQcHigh(m.storage, FIRST, LeafQc(m.storage, Threshold(FIRST)))
  {
    hide Combine, UpdateQcHigh, MadeHashes, LeafQc;
    var ballots := m.votes[1][2 := Sign(2, FIRST)];
    OneMoreVoter(m.votes[1], {0, 1}, 2);
    assert {0, 1} + {2} == {0, 1, 2};
    ThreeCombine(ballots);
    SizeOfBallots(ballots, {0, 1, 2});
    assert AddVote(m.votes, 1, 2, Sign(2, FIRST))[1] == ballots;
  }

  /** The certificate is signed for the first proposal, names the leaf and has the leader's view. */
  lemma ThirdVote(m: MachineState, k: nat)
    requires Waiting(m, k, 2, {0, 1})
    ensures var event := RecvSign(2, FIRST, Sign(2, FIRST));
            && FormsQc(m, 4, event) && Adopts(m.storage, FIRST)
            && Step(m, 4, 0, event).storage.state.qcHigh
               == GenericQC(2, Hash(if k == 1 then FIRST else SECOND), Threshold(FIRST))
  {
    hide FormsQc, Step, Voters;
    ThirdVoteForms(m, k);
    assert Hash(m.storage.nodes[Hash(INIT_NODE)]) == Hash(INIT_NODE);
  }

  // ---------------------------------------------------------------- the run

  /** Replicas 1 and 2 have signed the first proposal, and the leader waits for their votes. */
  ghost predicate Scene(w: World, k: nat, voters: set<ReplicaId>) {
    && |w| == 4 && FIRST in w[1].signed && FIRST in w[2].signed
    && Waiting(w[0].machine, k, 2, voters) && w[0].signed.Keys == Made(k)
  }

  /** A fresh replica signs the first proposal. */
  lemma FirstIsSigned(w: World, i: ReplicaId)
    requires |w| == 4 && i < 3 && w[i].machine == InitMachine() && w[i].signed == map[]
    ensures Allowed(HandedInTime, FOUR, w, i, RecvProposal(FIRST)) && FIRST in ReplicaStep(FOUR, i, w[i], RecvProposal(FIRST)).signed
  {
    hide OnRecvProposal, ExecutedBy;
    var s := InitStorage();
    assert s.nodes.Keys == {Hash(INIT_NODE)} && Zeroed !in s.nodes;
    WalkReachesRoot(s.nodes, FIRST, Hash(INIT_NODE));
    assert Extends(FIRST.parent, Hash(INIT_NODE));
  }

  lemma BothReceive(worlds: Worlds) returns (longer: Worlds)
    requires Run(HandedInTime, FOUR, worlds) && |Last(worlds)| == 4
    requires forall i :: 1 <= i < 3 ==> Last(worlds)[i].machine == InitMachine() && Last(worlds)[i].signed == map[]
    ensures Run(HandedInTime, FOUR, longer) && |Last(longer)| == 4 && Last(longer)[0] == Last(worlds)[0]
    ensures FIRST in Last(longer)[1].signed && FIRST in Last(longer)[2].signed
  {
    hide Run, Allowed, ReplicaStep, InitMachine;
    FirstIsSigned(Last(worlds), 1);
    longer := OneStep(HandedInTime, FOUR, worlds, 1, RecvProposal(FIRST));
    FirstIsSigned(Last(longer), 2);
    longer := OneStep(HandedInTime, FOUR, longer, 2, RecvProposal(FIRST));
  }

  lemma FreshFour(w: World)
    requires w == InitWorld(FOUR)
    ensures Run(HandedInTime, FOUR, [w]) && |w| == 4
    ensures forall i :: 0 <= i < 4 ==> w[i].machine == InitMachine() && w[i].signed == map[]
  {
  }

  /** The leader makes a node above all it has signed. */
  lemma LeaderMakes(worlds: Worlds, node: TreeNode) returns (longer: Worlds)
    requires Run(HandedInTime, FOUR, worlds) && |Last(worlds)| == 4 && Orderly(Last(worlds)[0].machine.storage, NewTx([]))
    requires MakeLeaf(Last(worlds)[0].machine.storage, []) == node && Higher(Last(worlds)[0].signed.Keys, node)
    ensures Run(HandedInTime, FOUR, longer) && OnlyMoves(Last(worlds), Last(longer), 0)
    ensures Last(longer)[0].machine == Step(Last(worlds)[0].machine, 4, 0, NewTx([]))
    ensures Last(longer)[0].signed.Keys == Last(worlds)[0].signed.Keys + {node}
  {
    hide Run, Step, ExecutedBy, Orderly, MakeLeaf;
    longer := LeaderStep(HandedInTime, FOUR, worlds, 0, NewTx([]));
  }

  lemma LeaderEntersView(worlds: Worlds, view: ViewNumber) returns (longer: Worlds)
    requires Run(HandedInTime, FOUR, worlds) && |Last(worlds)| == 4
    ensures Run(HandedInTime, FOUR, longer) && OnlyMoves(Last(worlds), Last(longer), 0)
    ensures Last(longer)[0].machine == Step(Last(worlds)[0].machine, 4, 0, RaiseView(view)) && Last(longer)[0].signed == Last(worlds)[0].signed
  {
    hide Run, Step, ExecutedBy;
    longer := LeaderStep(HandedInTime, FOUR, worlds, 0, RaiseView(view));
  }

  /** The leader has proposed, two replicas have signed and the leader has entered view 2. */
  lemma ProposedOnce() returns (worlds: Worlds)
    ensures Run(HandedInTime, FOUR, worlds) && Scene(Last(worlds), 1, {0})
  {
    hide Run, Step, Waiting, Orderly, InitMachine, InitWorld;
    worlds := [InitWorld(FOUR)];
    FreshFour(Last(worlds));
    FirstBeat();
    worlds := LeaderEntersView(worlds, 1);
    worlds := LeaderMakes(worlds, FIRST);
    worlds := BothReceive(worlds);
    NextView(Last(worlds)[0].machine);
    worlds := LeaderEntersView(worlds, 2);
  }

  /** And it has proposed again. */
  lemma ProposedTwice() returns (worlds: Worlds)
    ensures Run(HandedInTime, FOUR, worlds) && Scene(Last(worlds), 2, {0})
  {
    hide Run, Step, Waiting, Orderly;
    worlds := ProposedOnce();
    SecondBeat(Last(worlds)[0].machine);
    worlds := LeaderMakes(worlds, SECOND);
  }

  lemma VoteArrives(law: Law, worlds: Worlds, i: ReplicaId, k: nat, voters: set<ReplicaId>) returns (longer: Worlds)
    requires (law == HandedInTime && k == 1) || law == AnyVote
    requires Run(law, FOUR, worlds) && Scene(Last(worlds), k, voters) && 1 <= i < 3
    ensures Run(law, FOUR, longer) && worlds <= longer && OnlyMoves(Last(worlds), Last(longer), 0)
    ensures Last(longer)[0].machine == Step(Last(worlds)[0].machine, 4, 0, RecvSign(i, FIRST, Sign(i, FIRST)))
    ensures Last(longer)[0].signed == Last(worlds)[0].signed
  {
    hide Run, Step, FormsQc, Adopts, MadeHashes, AllSign;
    OneMoreVoter(Last(worlds)[0].machine.votes[1], voters, i);
    VotersAllSign(Last(worlds)[0].machine.votes[1][i := Sign(i, FIRST)], voters + {i});
    longer := OneStep(law, FOUR, worlds, 0, RecvSign(i, FIRST, Sign(i, FIRST)));
  }

  /** Both votes arrive. */
  lemma VotesArrive(law: Law, worlds: Worlds, k: nat) returns (longer: Worlds, m: MachineState)
    requires (law == HandedInTime && k == 1) || law == AnyVote
    requires Run(law, FOUR, worlds) && Scene(Last(worlds), k, {0})
    ensures Run(law, FOUR, longer) && worlds <= longer && |Last(longer)| == 4
    ensures Waiting(m, k, 2, {0, 1}) && m.storage == Last(worlds)[0].machine.storage
    ensures Last(longer)[0].machine == Step(m, 4, 0, RecvSign(2, FIRST, Sign(2, FIRST)))
  {
    hide Run, Step, Waiting;
    var one := VoteArrives(law, worlds, 1, k, {0});
    SecondVote(Last(worlds)[0].machine, k);
    m := Last(one)[0].machine;
    longer := VoteArrives(law, one, 2, k, {0, 1});
  }

  /** A certificate is documented to have its node's height for a view.  In this lawful run the
      leader holds one that does not. */
  lemma LateCertificateHasLaterView() returns (worlds: Worlds)
    ensures FOUR.Valid() && Run(HandedInTime, FOUR, worlds) && |Last(worlds)| == 4
    ensures var qc := Last(worlds)[0].machine.storage.state.qcHigh;
            qc.view == 2 && HeightOf(qc.node) == 1 && qc.sign == Threshold(FIRST) && qc.node == Hash(FIRST)
  {
    hide Run, Step, Waiting, Config.Valid;
    FourIsValid();
    var before := ProposedOnce();
    var m;
    worlds, m := VotesArrive(HandedInTime, before, 1);
    ThirdVote(m, 1);
  }

  /** The certificate that the leader forms does not fit its leaf, and nobody accepts it. */
  lemma LateVotesUncouple() returns (before: Worlds, worlds: Worlds)
    ensures FOUR.Valid() && Run(HandedInTime, FOUR, before) && Run(AnyVote, FOUR, worlds) && before <= worlds
    ensures |Last(before)| == |Last(worlds)| == 4 && RI.Inv(Last(before)[0].machine.storage)
    ensures var t := Last(worlds)[0].machine.storage;
            !RI.Coupled(t) && forall u: Storage :: !VerifyProposal(u, t.state.qcHigh)
  {
    hide Run, Step, Waiting, RI.Coupled, RI.Inv, Config.Valid;
    FourIsValid();
    before := ProposedTwice();
    RunIsWeakerRun(AnyVote, HandedInTime, FOUR, before);
    LeaderHasInv(before);
    var m;
    worlds, m := VotesArrive(AnyVote, before, 2);
    ThirdVoteUncouples(m);
  }

  lemma LeaderHasInv(worlds: Worlds)
    requires Run(HandedInTime, FOUR, worlds) && FOUR.Valid() && |Last(worlds)| == 4
    ensures RI.Inv(Last(worlds)[0].machine.storage)
  {
    hide Run, RI.Inv, ReplicaInv, Config.Valid;
    RunIsWeakerRun(OrderlyMessages, HandedInTime, FOUR, worlds);
    RunKeepsWorldInv(FOUR, worlds, |worlds| - 1);
    CoreOfReplica(FOUR, Last(worlds), Last(worlds)[0]);
  }

  lemma ThirdVoteUncouples(m: MachineState)
    requires Waiting(m, 2, 2, {0, 1}) && RI.Inv(m.storage)
    ensures var t := Step(m, 4, 0, RecvSign(2, FIRST, Sign(2, FIRST))).storage;
            !RI.Coupled(t) && forall u: Storage :: !VerifyProposal(u, t.state.qcHigh)
  {
    hide RI.Coupled, RI.Inv, FormsQc, Adopts, OnRecvVote;
    ThirdVote(m, 2);
    RI.VoteKeepsCoupledIff(m, 4, RecvSign(2, FIRST, Sign(2, FIRST)));
    var qc := Step(m, 4, 0, RecvSign(2, FIRST, Sign(2, FIRST))).storage.state.qcHigh;
    forall u: Storage ensures !VerifyProposal(u, qc) {
      if qc.node in u.nodes {
        assert Hash(u.nodes[qc.node]) == Hash(SECOND);
      }
    }
  }
}
