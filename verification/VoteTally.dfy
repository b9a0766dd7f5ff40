/** One certificate per view, although a voting set is dropped when it is combined and the
    decided flag is never read (hotstuff-rs/src/safety/voter.rs). */
module VoteTally {
  import opened HsData
  import opened StorageModel
  import opened Voting
  import opened SafetyMachine
  import opened Quorums
  import opened Tally
  import RI = ReplicaInvariants

  function Voters(votes: VotingSet): Sets {
    map view | view in votes :: votes[view].Keys
  }

  /** Whose vote an event adds, and for which view. */
  function VoteIn(s: Storage, self: ReplicaId, event: Event): Arrival {
    match event
    case RecvSign(from, prop, kit) => if ValidVote(prop, kit) then Arrival(prop.height, from) else NoArrival
    case NewTx(_) => Arrival(s.state.view, self)
    case _ => NoArrival
  }

  /** The voting set that an event has combined into a certificate. */
  function CombinedIn(m: MachineState, total: nat, event: Event): Taking {
    if event.RecvSign? && ValidVote(event.prop, event.kit) then
      var view := event.prop.height;
      var ballots := AddVote(m.votes, view, event.from, event.kit)[view];
      if event.from !in VotesFor(m.votes, view) && |ballots| > QuorumThreshold(total) then Taking(view, ballots.Keys)
      else NoTaking
    else NoTaking
  }

  ghost function VoteStep(m: MachineState, total: nat, self: ReplicaId, event: Event): TallyStep {
    TallyStep(Voters(m.votes), VoteIn(m.storage, self, event), CombinedIn(m, total, event),
              Voters(Step(m, total, self, event).votes))
  }

  lemma SetOfVoters(votes: VotingSet, view: ViewNumber)
    ensures SetOf(Voters(votes), view) == VotesFor(votes, view).Keys
  {
  }

  lemma VoteStepIsValid(m: MachineState, total: nat, self: ReplicaId, event: Event)
    ensures ValidStep(VoteStep(m, total, self, event))
  {
    var step := VoteStep(m, total, self, event);
    var votes := Step(m, total, self, event).votes;
    VotesAfterStep(m, total, self, event);
    hide Step, Voters;
    forall view ensures SetOf(step.after, view) <= Candidates(step, view) {
      SetOfVoters(m.votes, view);
      SetOfVoters(votes, view);
    }
    if step.taking.Taking? {
      SetOfVoters(m.votes, step.taking.view);
      SetOfVoters(votes, step.taking.view);
    }
  }

  /** Votes are added by votes and beats only, and a combined set is gone. */
  lemma VotesAfterStep(m: MachineState, total: nat, self: ReplicaId, event: Event)
    ensures Joins(m.votes, VoteIn(m.storage, self, event), Step(m, total, self, event).votes)
    ensures var taking := CombinedIn(m, total, event);
            taking.Taking? ==> VotesFor(Step(m, total, self, event).votes, taking.view) == map[]
                               && taking.members == VotesFor(m.votes, taking.view).Keys + {event.from}
  {
    if event.RecvSign? {
      VotesAfterRecvSign(m, total, event.from, event.prop, event.kit);
    } else {
      VotesAfterOther(m, total, self, event);
    }
  }

  /** Voters of a view afterwards were there before or arrived. */
  ghost predicate Joins(votes: VotingSet, arrival: Arrival, votes': VotingSet) {
    forall view :: VotesFor(votes', view).Keys
                   <= VotesFor(votes, view).Keys + (if arrival.Arrival? && arrival.view == view then {arrival.from} else {})
  }

  lemma VotesAfterOther(m: MachineState, total: nat, self: ReplicaId, event: Event)
    requires !event.RecvSign?
    ensures Joins(m.votes, VoteIn(m.storage, self, event), Step(m, total, self, event).votes)
  {
    hide OnRecvProposal, SyncProposal, OnNewView, OnUpdateQcHighReady, UpdateLeaf;
    if event.NewTx? {
      AddedVoters(m.votes, m.storage.state.view, self, Sign(self, MakeLeaf(m.storage, event.payload)));
    } else {
      var votes := Step(m, total, self, event).votes;
      assert votes == m.votes || votes == map[];
    }
  }

  lemma VotesAfterRecvSign(m: MachineState, total: nat, from: ReplicaId, prop: TreeNode, kit: SignKit)
    ensures var event := RecvSign(from, prop, kit); var votes := OnRecvVote(m, total, from, prop, kit).votes;
            && Joins(m.votes, VoteIn(m.storage, from, event), votes)
            && var taking := CombinedIn(m, total, event);
               taking.Taking? ==> VotesFor(votes, taking.view) == map[]
                                  && taking.members == VotesFor(m.votes, taking.view).Keys + {from}
  {
    VotesAfterVote(m, total, from, prop, kit);
    AddedVoters(m.votes, prop.height, from, kit);
    hide OnRecvVote, ValidVote, AddVote;
  }

  lemma AddedVoters(votes: VotingSet, view: ViewNumber, from: ReplicaId, kit: SignKit)
    ensures forall v :: VotesFor(AddVote(votes, view, from, kit), v).Keys
                        == VotesFor(votes, v).Keys + (if v == view then {from} else {})
  {
  }

  lemma VotesAfterVote(m: MachineState, total: nat, from: ReplicaId, prop: TreeNode, kit: SignKit)
    ensures var votes := OnRecvVote(m, total, from, prop, kit).votes; var added := AddVote(m.votes, prop.height, from, kit);
            votes == if !ValidVote(prop, kit) then m.votes
                     else if CombinedIn(m, total, RecvSign(from, prop, kit)).Taking? then added - {prop.height}
                     else added
  {
    hide UpdateQcHigh, Combine, ValidVote;
  }

  ghost function VoteSteps(total: nat, self: ReplicaId, events: seq<Event>): seq<TallyStep> {
    seq(|events|, k requires 0 <= k < |events| => VoteStep(RI.Run(total, self, events[..k]), total, self, events[k]))
  }

  /** Event `k` of a run forms a certificate for `view`. */
  ghost predicate CompletesQc(total: nat, self: ReplicaId, events: seq<Event>, k: nat, view: ViewNumber)
    requires k < |events|
  {
    var taking := CombinedIn(RI.Run(total, self, events[..k]), total, events[k]);
    taking.Taking? && taking.view == view
  }

  /** Votes come from the replicas, and correct ones vote at most once in a view. */
  ghost predicate CorrectReplicasVoteOnce(total: nat, self: ReplicaId, events: seq<Event>, faulty: set<ReplicaId>) {
    && self < total
    && (forall k :: 0 <= k < |events| && events[k].RecvSign? ==> events[k].from < total)
    && ArrivesOnce(VoteSteps(total, self, events), faulty)
  }

  lemma VotersAreReplicas(total: nat, self: ReplicaId, events: seq<Event>, k: nat)
    requires self < total && k <= |events|
    requires forall j :: 0 <= j < |events| && events[j].RecvSign? ==> events[j].from < total
    ensures forall view :: SetOf(Voters(RI.Run(total, self, events[..k]).votes), view) <= Ids(total)
    decreases k
  {
    if k > 0 {
      VotersAreReplicas(total, self, events, k - 1);
      assert events[..k][..k - 1] == events[..k - 1];
      VoteStepIsValid(RI.Run(total, self, events[..k - 1]), total, self, events[k - 1]);
      var step := VoteStep(RI.Run(total, self, events[..k - 1]), total, self, events[k - 1]);
      forall view ensures SetOf(step.after, view) <= Ids(total) {
        assert SetOf(step.before, view) <= Ids(total);
      }
    }
  }

  lemma VoteStepsAreValid(total: nat, self: ReplicaId, events: seq<Event>)
    ensures ValidSteps(VoteSteps(total, self, events))
    ensures |events| > 0 ==> VoteSteps(total, self, events)[0].before == map[]
  {
    hide Step;
    var steps := VoteSteps(total, self, events);
    forall k | 0 <= k < |steps| ensures ValidStep(steps[k]) && (k > 0 ==> steps[k].before == steps[k - 1].after) {
      VoteStepIsValid(RI.Run(total, self, events[..k]), total, self, events[k]);
      if k > 0 {
        assert events[..k][..k - 1] == events[..k - 1];
      }
    }
  }

  lemma QcTakesQuorum(total: nat, self: ReplicaId, events: seq<Event>, k: nat, view: ViewNumber)
    requires self < total && k < |events| && CompletesQc(total, self, events, k, view)
    requires forall j :: 0 <= j < |events| && events[j].RecvSign? ==> events[j].from < total
    ensures var taking := VoteSteps(total, self, events)[k].taking;
            taking.Taking? && taking.view == view && taking.members <= Ids(total) && |taking.members| > QuorumThreshold(total)
  {
    hide Step;
    var m := RI.Run(total, self, events[..k]);
    VotersAreReplicas(total, self, events, k);
    SetOfVoters(m.votes, view);
    VotesAfterStep(m, total, self, events[k]);
    assert SetOf(Voters(m.votes), view) <= Ids(total);
  }

  /** No run lets a second voting set of one view exceed the threshold. */
  lemma OneQcPerView(total: nat, self: ReplicaId, events: seq<Event>, faulty: set<ReplicaId>, i: nat, j: nat, view: ViewNumber)
    requires total >= 1 && |faulty| <= MaxFaulty(total)
    requires CorrectReplicasVoteOnce(total, self, events, faulty)
    requires i < |events| && j < |events|
    requires CompletesQc(total, self, events, i, view) && CompletesQc(total, self, events, j, view)
    ensures i == j
  {
    VoteStepsAreValid(total, self, events);
    QcTakesQuorum(total, self, events, i, view);
    QcTakesQuorum(total, self, events, j, view);
    hide CompletesQc;
    OneQuorumPerView(total, faulty, VoteSteps(total, self, events), i, j);
  }
}
