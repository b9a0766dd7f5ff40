/** Collecting messages per view and giving the collection away once it exceeds the threshold.
    New-view sets and voting sets both work this way, and both forget who was in a set that
    was given away. */
module Tally {
  import opened HsData
  import opened Voting
  import opened Quorums

  /** Who is in the set of each view. */
  type Sets = map<ViewNumber, set<ReplicaId>>

  function SetOf(sets: Sets, view: ViewNumber): set<ReplicaId> {
    if view in sets then sets[view] else {}
  }

  datatype Arrival = NoArrival | Arrival(view: ViewNumber, from: ReplicaId)
  datatype Taking = NoTaking | Taking(view: ViewNumber, members: set<ReplicaId>)

  /** One step: perhaps somebody arrives in a set, perhaps one set is taken away. */
  datatype TallyStep = TallyStep(before: Sets, arrival: Arrival, taking: Taking, after: Sets)

  /** Members at the end of a step were there before it or arrived in it. */
  function Candidates(step: TallyStep, view: ViewNumber): set<ReplicaId> {
    SetOf(step.before, view)
    + if step.arrival.Arrival? && step.arrival.view == view then {step.arrival.from} else {}
  }

  ghost predicate ValidStep(step: TallyStep) {
    && (forall view :: SetOf(step.after, view) <= Candidates(step, view))
    && (step.taking.Taking? ==>
          && step.taking.members <= Candidates(step, step.taking.view)
          && SetOf(step.after, step.taking.view) == {})
  }

  ghost predicate ValidSteps(steps: seq<TallyStep>) {
    && (forall k :: 0 <= k < |steps| ==> ValidStep(steps[k]))
    && (forall k :: 0 < k < |steps| ==> steps[k].before == steps[k - 1].after)
  }

  /** Correct senders reach each set at most once. */
  ghost predicate ArrivesOnce(steps: seq<TallyStep>, faulty: set<ReplicaId>) {
    forall i, j :: 0 <= i < j < |steps| && steps[i].arrival.Arrival? && steps[i].arrival == steps[j].arrival
                   ==> steps[i].arrival.from in faulty
  }

  /** Who is in a set that was taken away since step `i` must have arrived since. */
  lemma {:induction false} MemberArrivedSince(steps: seq<TallyStep>, i: nat, j: nat, view: ViewNumber, member: ReplicaId)
    returns (k: nat)
    requires ValidSteps(steps) && i <= j < |steps|
    requires i == 0 ==> SetOf(steps[0].before, view) == {}
    requires i > 0 ==> SetOf(steps[i - 1].after, view) == {}
    requires member in Candidates(steps[j], view)
    ensures i <= k <= j && steps[k].arrival == Arrival(view, member)
    decreases j - i
  {
    if steps[j].arrival == Arrival(view, member) {
      k := j;
    } else {
      assert member in SetOf(steps[j].before, view);
      assert j > i;
      k := MemberArrivedSince(steps, i, j - 1, view, member);
    }
  }

  /** No second set of the same view ever exceeds the threshold. */
  lemma OneQuorumPerView(n: nat, faulty: set<ReplicaId>, steps: seq<TallyStep>, i: nat, j: nat)
    requires n >= 1 && |faulty| <= MaxFaulty(n)
    requires ValidSteps(steps) && ArrivesOnce(steps, faulty) && (|steps| > 0 ==> steps[0].before == map[])
    requires i < |steps| && j < |steps| && steps[i].taking.Taking? && steps[j].taking.Taking?
    requires steps[i].taking.view == steps[j].taking.view
    requires steps[i].taking.members <= Ids(n) && |steps[i].taking.members| > QuorumThreshold(n)
    requires steps[j].taking.members <= Ids(n) && |steps[j].taking.members| > QuorumThreshold(n)
    ensures i == j
  {
    if i < j {
      NoLaterQuorum(n, faulty, steps, i, j);
    } else if j < i {
      NoLaterQuorum(n, faulty, steps, j, i);
    }
  }

  lemma NoLaterQuorum(n: nat, faulty: set<ReplicaId>, steps: seq<TallyStep>, i: nat, j: nat)
    requires n >= 1 && |faulty| <= MaxFaulty(n)
    requires ValidSteps(steps) && ArrivesOnce(steps, faulty) && (|steps| > 0 ==> steps[0].before == map[])
    requires i < j < |steps| && steps[i].taking.Taking? && steps[j].taking.Taking?
    requires steps[i].taking.view == steps[j].taking.view
    requires steps[i].taking.members <= Ids(n) && |steps[i].taking.members| > QuorumThreshold(n)
    requires steps[j].taking.members <= Ids(n)
    ensures |steps[j].taking.members| <= QuorumThreshold(n)
  {
    if |steps[j].taking.members| > QuorumThreshold(n) {
      var view := steps[i].taking.view;
      var member := CorrectReplicaInBoth(n, faulty, steps[i].taking.members, steps[j].taking.members);
      var k1 := MemberArrivedSince(steps, 0, i, view, member);
      var k2 := MemberArrivedSince(steps, i + 1, j, view, member);
    }
  }
}
