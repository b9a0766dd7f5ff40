/** Whom a machine takes for the leader, what it tells of itself and what it refuses
    (hotstuff-rs/src/safety/machine.rs). */
module MachineAnswers {
  import opened HsData
  import opened StorageModel
  import opened Voting
  import opened MachineClass
  import opened PacemakerSteps
  import SM = SafetyMachine
  import RI = ReplicaInvariants

  datatype Aware = Aware(machine: SM.MachineState, leader: Option<ReplicaId>)

  ghost function After(start: Aware, total: nat, self: ReplicaId, events: seq<SafetyEvent>): Aware
    decreases |events|
  {
    if events == [] then start else
    var before := After(start, total, self, events[..|events| - 1]);
    var event := events[|events| - 1];
    Aware(Handled(before.machine, total, self, event), LeaderAfter(before.machine.storage, before.leader, event))
  }

  /** The leader was named for a view that is not over. */
  predicate Names(event: SafetyEvent, view: ViewNumber) {
    event.NewLeader? && event.view >= view
  }

  lemma {:induction false} ViewStays(host: Host, start: Aware, events: seq<SafetyEvent>)
    ensures After(start, host.total, host.id, events).machine.storage.state.view == start.machine.storage.state.view
    decreases |events|
  {
    hide Handled, LeaderAfter;
    if events != [] {
      ViewStays(host, start, events[..|events| - 1]);
      MachineKeepsView(host, After(start, host.total, host.id, events[..|events| - 1]).machine, events[|events| - 1]);
    }
  }

  /** The leader is whoever was named first for a view that was not over; nothing that is handled
      later changes that. */
  lemma {:induction false} FirstNamedLeads(host: Host, start: Aware, events: seq<SafetyEvent>, k: nat)
    requires start.leader.None? && k <= |events|
    requires forall j :: 0 <= j < k ==> !Names(events[j], start.machine.storage.state.view)
    requires k < |events| ==> Names(events[k], start.machine.storage.state.view)
    ensures After(start, host.total, host.id, events).leader == if k < |events| then Some(events[k].leader) else None
    decreases |events|
  {
    hide Handled;
    if events != [] {
      var front := events[..|events| - 1];
      FirstNamedLeads(host, start, front, if k < |events| - 1 then k else |front|);
      ViewStays(host, start, front);
    }
  }

  /** What a snapshot says after a tame run: the leader that was named, and of the storage that the
      height it has committed is that of its last commit, which is not above its lock. */
  lemma SnapshotsAreRight(total: nat, self: ReplicaId, events: seq<SM.Event>, leader: Option<ReplicaId>)
    requires RI.TameRun(total, self, events)
    ensures var m := RI.Run(total, self, events); var s := m.storage;
            Handled(m, total, self, RequestSnapshot) == m
            && exists snapshot :: OutcomeOf(m, leader, total, self, RequestSnapshot) == Fine(InternalState(snapshot))
                 && snapshot.leader == leader && snapshot.view == s.state.view && snapshot.qcHigh == s.state.qcHigh
                 && snapshot.leaf == s.state.leaf && snapshot.locked == s.state.locked
                 && snapshot.lastCommitted == s.state.lastCommit.height <= snapshot.locked.height
  {
    RI.RunKeepsInv(total, self, events);
    hide RI.Run;
    var m := RI.Run(total, self, events);
    assert OutcomeOf(m, leader, total, self, RequestSnapshot) == Fine(InternalState(SnapshotOf(m.storage, leader)));
  }

  /** A vote whose share is not the sender's on the proposal. */
  predicate ForeignShare(event: SafetyEvent) {
    event.RecvSign? && event.kit.share != ShareOf(event.kit.signId, event.prop)
  }

  /** A certificate that names no stored node or is signed for another one. */
  predicate BadCertificate(s: Storage, event: SafetyEvent) {
    && event.RecvProposal?
    && var qc := event.prop.justify;
       qc.node !in s.nodes || (qc.sign != ZeroSign && qc.sign != Threshold(s.nodes[qc.node]))
  }

  /** A vote of somebody new that makes a set large enough in which two shares have one index. */
  ghost predicate RepeatedIndex(m: SM.MachineState, total: nat, event: SafetyEvent) {
    && event.RecvSign? && event.from !in VotesFor(m.votes, event.prop.height)
    && var ballots := VotesFor(m.votes, event.prop.height)[event.from := event.kit];
       |ballots| > 2 * total / 3 && exists a, b :: a in ballots && b in ballots && a != b && ballots[a].signId == ballots[b].signId
  }

  /** An event is refused in exactly these cases.  A refused proposal or foreign share changes nothing, a
      set with a repeated index is dropped. */
  lemma RefusedIff(m: SM.MachineState, leader: Option<ReplicaId>, total: nat, self: ReplicaId, event: SafetyEvent)
    ensures OutcomeOf(m, leader, total, self, event).Failed?
            <==> BadCertificate(m.storage, event) || ForeignShare(event) || RepeatedIndex(m, total, event)
    ensures BadCertificate(m.storage, event) || ForeignShare(event) ==> Handled(m, total, self, event) == m
    ensures RepeatedIndex(m, total, event) && !ForeignShare(event) ==>
              Handled(m, total, self, event) == m.(votes := m.votes - {event.prop.height})
  {
    hide SM.UpdateNodes, SM.Accepts, SM.OnBeat, SM.OnNewView, SM.OnBranchSync, SM.OnRecvVote, VoteOutcome, RepeatedIndex, ForeignShare;
    if event.RecvSign? {
      VoteRefusedIff(m, leader, total, self, event);
    } else {
      OnlyVotes(m, total, event);
    }
  }

  lemma OnlyVotes(m: SM.MachineState, total: nat, event: SafetyEvent)
    requires !event.RecvSign?
    ensures !ForeignShare(event) && !RepeatedIndex(m, total, event)
  {
  }

  lemma VoteRefusedIff(m: SM.MachineState, leader: Option<ReplicaId>, total: nat, self: ReplicaId, event: SafetyEvent)
    requires event.RecvSign?
    ensures OutcomeOf(m, leader, total, self, event).Failed? <==> ForeignShare(event) || RepeatedIndex(m, total, event)
    ensures ForeignShare(event) ==> Handled(m, total, self, event) == m
    ensures RepeatedIndex(m, total, event) && !ForeignShare(event) ==>
              Handled(m, total, self, event) == m.(votes := m.votes - {event.prop.height})
  {
    hide UpdateQcHigh, Combine;
    var ballots := VotesFor(m.votes, event.prop.height)[event.from := event.kit];
    CombineFailsIff(QuorumThreshold(total), ballots);
    DroppedAgain(m.votes, event.prop.height, ballots);
  }

  lemma CombineFailsIff(threshold: nat, ballots: Ballots)
    ensures Combine(threshold, ballots).Err?
            <==> |ballots| <= threshold || exists a, b :: a in ballots && b in ballots && a != b && ballots[a].signId == ballots[b].signId
  {
  }

  lemma DroppedAgain(votes: VotingSet, height: ViewNumber, ballots: Ballots)
    ensures votes[height := ballots] - {height} == votes - {height}
  {
  }
}
