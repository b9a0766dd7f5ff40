/** The gate of a leader, told by what arrived: a new-view message counts from its arrival until the
    gate of its view is passed, and however views are entered in between. */
module Announcements {
  import opened HsData
  import opened Voting
  import opened Pacing

  /** Event `j` was a new-view message for `view`, and the gate of that view was not passed since. */
  ghost predicate HeardAt(total: nat, states: seq<Pacemaker>, events: seq<Event>, j: nat, k: nat, view: ViewNumber)
    requires |states| == |events| + 1 && j < k <= |events|
  {
    && events[j].NewView? && events[j].view == view
    && forall m :: j < m < k ==> !ProposesIn(total, states, events, m, view)
  }

  /** The senders of these messages. */
  ghost function Heard(total: nat, states: seq<Pacemaker>, events: seq<Event>, k: nat, view: ViewNumber): set<ReplicaId>
    requires |states| == |events| + 1 && k <= |events|
  {
    set j | 0 <= j < k && HeardAt(total, states, events, j, k, view) :: events[j].from
  }

  /** Who has announced `view` in one event. */
  function HeardIn(event: Event, view: ViewNumber): set<ReplicaId> {
    if event.NewView? && event.view == view then {event.from} else {}
  }

  lemma HeardGoesOn(total: nat, states: seq<Pacemaker>, events: seq<Event>, k: nat, view: ViewNumber)
    requires |states| == |events| + 1 && k < |events|
    ensures Heard(total, states, events, k + 1, view)
            == if ProposesIn(total, states, events, k, view) then {}
               else Heard(total, states, events, k, view) + HeardIn(events[k], view)
  {
    hide ProposesIn;
    var before, after := Heard(total, states, events, k, view), Heard(total, states, events, k + 1, view);
    if ProposesIn(total, states, events, k, view) {
      PassingIsNoMessage(total, states, events, k, view);
      var next := k + 1;
      forall j | 0 <= j < next ensures !HeardAt(total, states, events, j, next, view) {
        assert j < k ==> ProposesIn(total, states, events, k, view);
      }
    } else {
      forall j | 0 <= j < k ensures HeardAt(total, states, events, j, k + 1, view) <==> HeardAt(total, states, events, j, k, view) {
      }
      forall from | from in before + HeardIn(events[k], view) ensures from in after {
        if from in before {
          var j :| 0 <= j < k && HeardAt(total, states, events, j, k, view) && events[j].from == from;
          assert HeardAt(total, states, events, j, k + 1, view);
        } else {
          assert HeardAt(total, states, events, k, k + 1, view);
        }
      }
    }
  }

  lemma PassingIsNoMessage(total: nat, states: seq<Pacemaker>, events: seq<Event>, k: nat, view: ViewNumber)
    requires |states| == |events| + 1 && k < |events| && ProposesIn(total, states, events, k, view)
    ensures !events[k].NewView?
  {
  }

  /** What one event does to the set of a view that is not over. */
  lemma SetGoesOn(total: nat, states: seq<Pacemaker>, events: seq<Event>, k: nat, view: ViewNumber)
    requires |states| == |events| + 1 && k < |events| && Next(total, states[k], events[k], states[k + 1])
    requires states[k + 1].view <= view
    ensures states[k].view <= view
    ensures NewViewSet(states[k + 1].newViews, view).Keys
            == if ProposesIn(total, states, events, k, view) then {}
               else NewViewSet(states[k].newViews, view).Keys + HeardIn(events[k], view)
  {
    hide CheckPendingProp, EndSync;
    var pm, pm' := states[k], states[k + 1];
    match events[k]
    case LocalTimeout(timeoutView, leafHeight) =>
      if timeoutView >= pm.view {
        ChecksLeaveNewViews(GotoNewView(pm, timeoutView + 1), leafHeight, pm');
      }
    case NewProposal(item, leafHeight) => ChecksLeaveNewViews(RecvNewProposal(pm, item), leafHeight, pm');
    case NewView(_, _, _) =>
    case BranchSyncDone(leafHeight) => ChecksLeaveNewViews(pm, leafHeight, pm');
    case Propose =>
  }

  lemma NothingHeardYet(total: nat, states: seq<Pacemaker>, events: seq<Event>, view: ViewNumber)
    requires |states| == |events| + 1 && states[0] == GotoNewView(START, 1)
    ensures NewViewSet(states[0].newViews, view).Keys == Heard(total, states, events, 0, view)
  {
  }

  /** In every run the set of a view that is not over holds exactly the senders of messages for that
      view that arrived since its gate was last passed: none is lost by entering views. */
  lemma {:induction false} SetIsHeard(total: nat, states: seq<Pacemaker>, events: seq<Event>, k: nat, view: ViewNumber)
    requires IsRun(total, states, events) && k <= |events| && states[k].view <= view
    ensures NewViewSet(states[k].newViews, view).Keys == Heard(total, states, events, k, view)
    decreases k
  {
    hide Next, HeardAt, Heard, ProposesIn, NewViewSet, START, GotoNewView;
    if k == 0 {
      NothingHeardYet(total, states, events, view);
    } else {
      SetGoesOn(total, states, events, k - 1, view);
      SetIsHeard(total, states, events, k - 1, view);
      HeardGoesOn(total, states, events, k - 1, view);
    }
  }

  /** So the gate is open exactly where enough replicas have been heard of the present view. */
  lemma GateOpenIff(total: nat, states: seq<Pacemaker>, events: seq<Event>, k: nat)
    requires IsRun(total, states, events) && k <= |events|
    ensures GateOpen(states[k], total) <==> |Heard(total, states, events, k, states[k].view)| > QuorumThreshold(total)
  {
    hide Next, Heard;
    SetIsHeard(total, states, events, k, states[k].view);
    assert |NewViewSet(states[k].newViews, states[k].view)| == |NewViewSet(states[k].newViews, states[k].view).Keys|;
  }

  /** A message that came before its view was entered counts when it is. */
  lemma EarlyMessageCounts(total: nat, states: seq<Pacemaker>, events: seq<Event>, j: nat, k: nat)
    requires IsRun(total, states, events) && j < k <= |events| && events[j].NewView? && states[k].view <= events[j].view
    requires forall m :: j < m < k ==> !ProposesIn(total, states, events, m, events[j].view)
    ensures events[j].from in NewViewSet(states[k].newViews, events[j].view)
  {
    hide Next, ProposesIn;
    SetIsHeard(total, states, events, k, events[j].view);
    assert HeardAt(total, states, events, j, k, events[j].view);
  }
}
