/** Which votes a leader holds, told by what arrived: a vote counts from its arrival until the set of
    its view is combined or a higher view is entered (hotstuff-rs/src/safety/voter.rs). */
module CountedVotes {
  import opened HsData
  import opened StorageModel
  import opened Voting
  import opened SafetyMachine
  import opened Tally
  import opened VoteTally
  import RI = ReplicaInvariants

  ghost function Before(total: nat, self: ReplicaId, events: seq<Event>, j: nat): MachineState
    requires j <= |events|
  {
    RI.Run(total, self, events[..j])
  }

  /** The event brings a vote in `view`. */
  function VoterIn(m: MachineState, self: ReplicaId, event: Event, view: ViewNumber): set<ReplicaId> {
    var arrival := VoteIn(m.storage, self, event);
    if arrival.Arrival? && arrival.view == view then {arrival.from} else {}
  }

  /** The event combines the set of `view` or changes to a higher view. */
  predicate Empties(m: MachineState, total: nat, event: Event, view: ViewNumber) {
    || (event.ViewChange? && event.view > m.storage.state.view)
    || (CombinedIn(m, total, event).Taking? && CombinedIn(m, total, event).view == view)
  }

  /** Event `j` brought a vote in `view`, and the set was not emptied from then on. */
  ghost predicate CountedAt(total: nat, self: ReplicaId, events: seq<Event>, j: nat, k: nat, view: ViewNumber)
    requires j < k <= |events|
  {
    && VoteIn(Before(total, self, events, j).storage, self, events[j]).Arrival?
    && VoteIn(Before(total, self, events, j).storage, self, events[j]).view == view
    && forall m :: j <= m < k ==> !Empties(Before(total, self, events, m), total, events[m], view)
  }

  ghost function Counted(total: nat, self: ReplicaId, events: seq<Event>, k: nat, view: ViewNumber): set<ReplicaId>
    requires k <= |events|
  {
    set j | 0 <= j < k && CountedAt(total, self, events, j, k, view) :: VoteIn(Before(total, self, events, j).storage, self, events[j]).from
  }

  lemma CountedGoesOn(total: nat, self: ReplicaId, events: seq<Event>, k: nat, view: ViewNumber)
    requires k < |events|
    ensures var m := Before(total, self, events, k);
            Counted(total, self, events, k + 1, view)
            == if Empties(m, total, events[k], view) then {}
               else Counted(total, self, events, k, view) + VoterIn(m, self, events[k], view)
  {
    hide Empties, VoteIn, Before;
    var next, m := k + 1, Before(total, self, events, k);
    var before, after := Counted(total, self, events, k, view), Counted(total, self, events, next, view);
    if Empties(m, total, events[k], view) {
      forall j | 0 <= j < next ensures !CountedAt(total, self, events, j, next, view) {
        assert Empties(Before(total, self, events, k), total, events[k], view);
      }
    } else {
      forall j | 0 <= j < k ensures CountedAt(total, self, events, j, next, view) <==> CountedAt(total, self, events, j, k, view) {
      }
      forall from | from in before + VoterIn(m, self, events[k], view) ensures from in after {
        if from in before {
          var j :| 0 <= j < k && CountedAt(total, self, events, j, k, view)
                   && VoteIn(Before(total, self, events, j).storage, self, events[j]).from == from;
          assert CountedAt(total, self, events, j, next, view);
        } else {
          assert CountedAt(total, self, events, k, next, view);
        }
      }
    }
  }

  /** What one event does to the voters of a view. */
  lemma VotersGoOn(m: MachineState, total: nat, self: ReplicaId, event: Event, view: ViewNumber)
    ensures VotesFor(Step(m, total, self, event).votes, view).Keys
            == if Empties(m, total, event, view) then {} else VotesFor(m.votes, view).Keys + VoterIn(m, self, event, view)
  {
    hide OnRecvProposal, SyncProposal, OnNewView, OnUpdateQcHighReady, UpdateLeaf, OnRecvVote, ValidVote, AddVote;
    if event.RecvSign? {
      VotesAfterVote(m, total, event.from, event.prop, event.kit);
      AddedVoters(m.votes, event.prop.height, event.from, event.kit);
    } else if event.NewTx? {
      AddedVoters(m.votes, m.storage.state.view, self, Sign(self, MakeLeaf(m.storage, event.payload)));
    }
  }

  /** In every run the voters of a view are exactly those whose votes arrived since the set was last
      combined or a higher view was entered. */
  lemma {:induction false} VotersAreCounted(total: nat, self: ReplicaId, events: seq<Event>, k: nat, view: ViewNumber)
    requires k <= |events|
    ensures VotesFor(Before(total, self, events, k).votes, view).Keys == Counted(total, self, events, k, view)
    decreases k
  {
    hide Step, Empties, VoterIn, CountedAt, Counted;
    if k == 0 {
      NothingCounted(total, self, events, view);
    } else {
      var m := Before(total, self, events, k - 1);
      assert events[..k][..k - 1] == events[..k - 1] && events[..k][k - 1] == events[k - 1];
      assert Before(total, self, events, k) == Step(m, total, self, events[k - 1]);
      VotersAreCounted(total, self, events, k - 1, view);
      VotersGoOn(m, total, self, events[k - 1], view);
      CountedGoesOn(total, self, events, k - 1, view);
    }
  }

  lemma NothingCounted(total: nat, self: ReplicaId, events: seq<Event>, view: ViewNumber)
    ensures VotesFor(Before(total, self, events, 0).votes, view).Keys == Counted(total, self, events, 0, view)
  {
  }
}
