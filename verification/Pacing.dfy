/** Views, new-view sets, pending proposals and branch synchronisation as a state machine
    (pacemaker/src/pacemaker.rs).  Timers and channels only deliver events; what the
    pacemaker sends and hands to the machine is kept as history. */
module Pacing {
  import opened HsData
  import opened Voting
  import opened Quorums
  import opened Tally

  type NewViews = map<ViewNumber, map<ReplicaId, GenericQC>>

  /** A proposal with its sender. */
  datatype Incoming = Incoming(from: ReplicaId, prop: TreeNode)

  /** `announced`: views of sent new-view messages.  `received`, `handed`: proposals that came
      in and that went to the machine.  `syncs`: sent branch-sync requests (true) and returns
      to idle (false).  `proposed`: views in which the gate for a proposal was passed. */
  datatype Pacemaker = Pacemaker(
    view: ViewNumber,
    newViews: NewViews,
    pending: multiset<Incoming>,
    syncing: bool,
    announced: seq<ViewNumber>,
    received: seq<Incoming>,
    handed: seq<Incoming>,
    syncs: seq<bool>,
    proposed: seq<ViewNumber>)

  const START := Pacemaker(0, map[], multiset{}, false, [], [], [], [], [])

  // ---------------------------------------------------------------- heap order

  const TWO_63: nat := 0x8000_0000_0000_0000
  const TWO_64: nat := 0x1_0000_0000_0000_0000

  /** Reduction to a signed 64-bit number. */
  function AsI64(x: int): int {
    var r := x % TWO_64;
    if r < TWO_63 then r else r - TWO_64
  }

  /** The heap key of a proposal whose certificate has this view. */
  function Key(view: ViewNumber): int {
    AsI64(-AsI64(view))
  }

  /** The view read back from a key. */
  function ViewOfKey(key: int): ViewNumber {
    (-key) % TWO_64
  }

  /** A number that is already in range, or one range below it. */
  lemma Reduced(x: int)
    requires 0 - TWO_64 <= x < TWO_64
    ensures x % TWO_64 == if x < 0 then x + TWO_64 else x
  {
  }

  lemma KeyValue(view: ViewNumber)
    requires view < TWO_64
    ensures Key(view) == if view <= TWO_63 then 0 - view else TWO_64 - view
  {
    Reduced(view);
    Reduced(-AsI64(view));
  }

  lemma KeyRoundTrip(view: ViewNumber)
    requires view < TWO_64
    ensures ViewOfKey(Key(view)) == view
  {
    hide Key;
    KeyValue(view);
    Reduced(-Key(view));
  }

  /** The smaller view has the larger key, and so leaves the heap first, exactly where the two
      views are not on different sides of 2^63. */
  lemma SmallerViewFirstIff(v: ViewNumber, w: ViewNumber)
    requires v < w < TWO_64
    ensures Key(v) > Key(w) <==> !(v <= TWO_63 < w)
  {
    KeyValue(v);
    KeyValue(w);
  }

  function KeyOf(item: Incoming): int {
    Key(item.prop.justify.view)
  }

  lemma ViewOfItem(item: Incoming)
    requires item.prop.justify.view < TWO_64
    ensures ViewOfKey(KeyOf(item)) == item.prop.justify.view
  {
    KeyRoundTrip(item.prop.justify.view);
  }

  /** A proposal that the heap may give out. */
  ghost predicate IsTop(pending: multiset<Incoming>, top: Incoming) {
    top in pending && forall other :: other in pending ==> KeyOf(other) <= KeyOf(top)
  }

  // ---------------------------------------------------------------- operations

  function NewViewSet(newViews: NewViews, view: ViewNumber): map<ReplicaId, GenericQC> {
    if view in newViews then newViews[view] else map[]
  }

  /** Drops every set below `view`. */
  function CleanNewViewSet(newViews: NewViews, view: ViewNumber): NewViews {
    map v | v in newViews && v >= view :: newViews[v]
  }

  function GotoNewView(pm: Pacemaker, newView: ViewNumber): Pacemaker {
    var view := Max(pm.view, newView);
    pm.(view := view, newViews := CleanNewViewSet(pm.newViews, view), announced := pm.announced + [view])
  }

  /** The top proposal goes to the machine if its justify node can be known; otherwise it stays
      and a synchronisation is started unless one is under way. */
  ghost predicate CheckPendingProp(pm: Pacemaker, leafHeight: ViewNumber, pm': Pacemaker) {
    if pm.pending == multiset{} then pm' == pm
    else exists top :: IsTop(pm.pending, top) && pm' == HandOrSync(pm, leafHeight, top)
  }

  function HandOrSync(pm: Pacemaker, leafHeight: ViewNumber, top: Incoming): Pacemaker {
    if ViewOfKey(KeyOf(top)) <= leafHeight then
      pm.(pending := pm.pending - multiset{top}, handed := pm.handed + [top])
    else if pm.syncing then pm
    else pm.(syncing := true, syncs := pm.syncs + [true])
  }

  function BackToIdle(pm: Pacemaker): Pacemaker {
    pm.(syncing := false, syncs := pm.syncs + [false])
  }

  ghost predicate EndSync(pm: Pacemaker, leafHeight: ViewNumber, pm': Pacemaker) {
    if pm.syncing then CheckPendingProp(BackToIdle(pm), leafHeight, pm') else pm' == pm
  }

  ghost predicate ProcessLocalTimeout(pm: Pacemaker, timeoutView: ViewNumber, leafHeight: ViewNumber, pm': Pacemaker) {
    if timeoutView >= pm.view then EndSync(GotoNewView(pm, timeoutView + 1), leafHeight, pm') else pm' == pm
  }

  function RecvNewProposal(pm: Pacemaker, item: Incoming): Pacemaker {
    pm.(pending := pm.pending + multiset{item}, received := pm.received + [item])
  }

  function RecvNewView(pm: Pacemaker, from: ReplicaId, view: ViewNumber, qc: GenericQC): Pacemaker {
    pm.(newViews := pm.newViews[view := NewViewSet(pm.newViews, view)[from := qc]])
  }

  /** Enough new-view messages for the current view. */
  predicate GateOpen(pm: Pacemaker, total: nat) {
    |NewViewSet(pm.newViews, pm.view)| > QuorumThreshold(total)
  }

  function MakeNewProposal(pm: Pacemaker, total: nat): Pacemaker {
    if GateOpen(pm, total) then
      pm.(newViews := CleanNewViewSet(pm.newViews, pm.view + 1), proposed := pm.proposed + [pm.view])
    else pm.(newViews := pm.newViews[pm.view := NewViewSet(pm.newViews, pm.view)])
  }

  datatype Event =
    | LocalTimeout(timeoutView: ViewNumber, leafHeight: ViewNumber)
    | NewProposal(item: Incoming, leafHeight: ViewNumber)
    | NewView(from: ReplicaId, view: ViewNumber, qc: GenericQC)
    | BranchSyncDone(leafHeight: ViewNumber)
    | Propose

  ghost predicate Next(total: nat, pm: Pacemaker, event: Event, pm': Pacemaker) {
    match event
    case LocalTimeout(timeoutView, leafHeight) => ProcessLocalTimeout(pm, timeoutView, leafHeight, pm')
    case NewProposal(item, leafHeight) => CheckPendingProp(RecvNewProposal(pm, item), leafHeight, pm')
    case NewView(from, view, qc) => pm' == RecvNewView(pm, from, view, qc)
    case BranchSyncDone(leafHeight) => EndSync(pm, leafHeight, pm')
    case Propose => pm' == MakeNewProposal(pm, total)
  }

  /** The pacemaker enters view 1 when it comes up and then handles one event after another. */
  ghost predicate IsRun(total: nat, states: seq<Pacemaker>, events: seq<Event>) {
    && |states| == |events| + 1 && states[0] == GotoNewView(START, 1)
    && forall k :: 0 <= k < |events| ==> Next(total, states[k], events[k], states[k + 1])
  }

  lemma RunGoesOn(total: nat, states: seq<Pacemaker>, events: seq<Event>, event: Event, pm: Pacemaker)
    requires IsRun(total, states, events) && Next(total, states[|states| - 1], event, pm)
    ensures IsRun(total, states + [pm], events + [event])
  {
    hide Next;
  }

  // ---------------------------------------------------------------- invariant

  predicate Rising(views: seq<ViewNumber>) {
    forall i, j :: 0 <= i < j < |views| ==> views[i] < views[j]
  }

  /** A request is sent only in idle state. */
  predicate Alternating(syncs: seq<bool>) {
    forall k :: 0 <= k < |syncs| && syncs[k] ==> k == 0 || !syncs[k - 1]
  }

  ghost predicate Inv(pm: Pacemaker) {
    && Rising(pm.announced)
    && (forall k :: 0 <= k < |pm.announced| ==> pm.announced[k] <= pm.view)
    && multiset(pm.received) == pm.pending + multiset(pm.handed)
    && Alternating(pm.syncs)
    && (pm.syncing <==> |pm.syncs| > 0 && pm.syncs[|pm.syncs| - 1])
  }

  lemma CheckKeepsInv(pm: Pacemaker, leafHeight: ViewNumber, pm': Pacemaker)
    requires Inv(pm) && CheckPendingProp(pm, leafHeight, pm')
    ensures Inv(pm')
  {
    if pm.pending != multiset{} {
      var top :| IsTop(pm.pending, top) && pm' == HandOrSync(pm, leafHeight, top);
      HandOrSyncKeepsInv(pm, leafHeight, top);
    }
  }

  lemma HandOrSyncKeepsInv(pm: Pacemaker, leafHeight: ViewNumber, top: Incoming)
    requires Inv(pm) && top in pm.pending
    ensures Inv(HandOrSync(pm, leafHeight, top))
  {
    hide ViewOfKey, KeyOf;
    if ViewOfKey(KeyOf(top)) <= leafHeight {
      HandingConserves(pm.received, pm.pending, pm.handed, top);
    } else if !pm.syncing {
      RequestAlternates(pm.syncs);
    }
  }

  lemma HandingConserves(received: seq<Incoming>, pending: multiset<Incoming>, handed: seq<Incoming>, top: Incoming)
    requires multiset(received) == pending + multiset(handed) && top in pending
    ensures multiset(received) == pending - multiset{top} + multiset(handed + [top])
  {
    assert multiset(handed + [top]) == multiset(handed) + multiset{top};
  }

  lemma RequestAlternates(syncs: seq<bool>)
    requires Alternating(syncs) && (|syncs| > 0 ==> !syncs[|syncs| - 1])
    ensures Alternating(syncs + [true])
  {
  }

  lemma ReceiptKeepsInv(pm: Pacemaker, item: Incoming)
    requires Inv(pm)
    ensures Inv(RecvNewProposal(pm, item))
  {
    assert multiset(pm.received + [item]) == multiset(pm.received) + multiset{item};
  }

  lemma NewViewsDoNotMatter(pm: Pacemaker, newViews: NewViews, proposed: seq<ViewNumber>)
    requires Inv(pm)
    ensures Inv(pm.(newViews := newViews, proposed := proposed))
  {
  }

  lemma GotoKeepsInv(pm: Pacemaker, newView: ViewNumber)
    requires Inv(pm) && newView > pm.view
    ensures Inv(GotoNewView(pm, newView))
  {
  }

  lemma EndSyncKeepsInv(pm: Pacemaker, leafHeight: ViewNumber, pm': Pacemaker)
    requires Inv(pm) && EndSync(pm, leafHeight, pm')
    ensures Inv(pm')
  {
    if pm.syncing {
      CheckKeepsInv(BackToIdle(pm), leafHeight, pm');
    }
  }

  lemma NextKeepsInv(total: nat, pm: Pacemaker, event: Event, pm': Pacemaker)
    requires Inv(pm) && Next(total, pm, event, pm')
    ensures Inv(pm')
  {
    hide Inv, GotoNewView, CheckPendingProp;
    match event
    case LocalTimeout(timeoutView, leafHeight) =>
      if timeoutView >= pm.view {
        GotoKeepsInv(pm, timeoutView + 1);
        EndSyncKeepsInv(GotoNewView(pm, timeoutView + 1), leafHeight, pm');
      }
    case NewProposal(item, leafHeight) =>
      ReceiptKeepsInv(pm, item);
      CheckKeepsInv(RecvNewProposal(pm, item), leafHeight, pm');
    case NewView(_, _, _) => NewViewsDoNotMatter(pm, pm'.newViews, pm'.proposed);
    case BranchSyncDone(leafHeight) => EndSyncKeepsInv(pm, leafHeight, pm');
    case Propose => NewViewsDoNotMatter(pm, pm'.newViews, pm'.proposed);
  }

  /** In every run new-view announcements rise, no proposal is lost or invented, and a
      synchronisation is never requested twice without a return to idle in between. */
  lemma {:induction false} RunKeepsInv(total: nat, states: seq<Pacemaker>, events: seq<Event>, k: nat)
    requires IsRun(total, states, events) && k < |states|
    ensures Inv(states[k])
    decreases k
  {
    if k == 0 {
      assert START.announced + [1] == [1];
    } else {
      RunKeepsInv(total, states, events, k - 1);
      NextKeepsInv(total, states[k - 1], events[k - 1], states[k]);
    }
  }

  /** Between two branch-sync requests of a run there is a return to idle. */
  lemma IdleBetweenRequests(total: nat, states: seq<Pacemaker>, events: seq<Event>, k: nat, i: nat, j: nat)
    requires IsRun(total, states, events) && k < |states|
    requires i < j < |states[k].syncs| && states[k].syncs[i] && states[k].syncs[j]
    ensures exists idle :: i < idle < j && !states[k].syncs[idle]
  {
    RunKeepsInv(total, states, events, k);
    assert !states[k].syncs[j - 1];
  }

  /** What is handed over has the smallest pending justify view, and the machine's leaf is at
      least that high. */
  lemma HandedIsSmallest(pm: Pacemaker, leafHeight: ViewNumber, pm': Pacemaker, other: Incoming)
    requires CheckPendingProp(pm, leafHeight, pm') && |pm'.handed| > |pm.handed|
    requires forall item :: item in pm.pending ==> item.prop.justify.view <= TWO_63
    requires other in pm.pending
    ensures |pm'.handed| == |pm.handed| + 1
    ensures var item := pm'.handed[|pm.handed|];
            && item in pm.pending && pm'.pending == pm.pending - multiset{item}
            && item.prop.justify.view <= other.prop.justify.view && item.prop.justify.view <= leafHeight
  {
    var top :| IsTop(pm.pending, top) && pm' == HandOrSync(pm, leafHeight, top);
    KeyRoundTrip(top.prop.justify.view);
    if other.prop.justify.view < top.prop.justify.view {
      SmallerViewFirstIff(other.prop.justify.view, top.prop.justify.view);
    }
  }

  // ---------------------------------------------------------------- one proposal per view

  function Senders(newViews: NewViews): Sets {
    map view | view in newViews :: newViews[view].Keys
  }

  function AnnouncedIn(event: Event): Arrival {
    if event.NewView? then Arrival(event.view, event.from) else NoArrival
  }

  function GatePassedIn(total: nat, pm: Pacemaker, event: Event): Taking {
    if event.Propose? && GateOpen(pm, total) then Taking(pm.view, NewViewSet(pm.newViews, pm.view).Keys) else NoTaking
  }

  function GateStep(total: nat, pm: Pacemaker, event: Event, pm': Pacemaker): TallyStep {
    TallyStep(Senders(pm.newViews), AnnouncedIn(event), GatePassedIn(total, pm, event), Senders(pm'.newViews))
  }

  lemma ChecksLeaveNewViews(pm: Pacemaker, leafHeight: ViewNumber, pm': Pacemaker)
    requires CheckPendingProp(pm, leafHeight, pm') || EndSync(pm, leafHeight, pm')
    ensures pm'.newViews == pm.newViews && pm'.view == pm.view
  {
    hide IsTop, KeyOf, ViewOfKey;
  }

  lemma GateStepIsValid(total: nat, pm: Pacemaker, event: Event, pm': Pacemaker)
    requires Next(total, pm, event, pm')
    ensures ValidStep(GateStep(total, pm, event, pm'))
  {
    hide CheckPendingProp, EndSync, GotoNewView, GateOpen;
    match event
    case LocalTimeout(timeoutView, leafHeight) =>
      if timeoutView >= pm.view {
        ChecksLeaveNewViews(GotoNewView(pm, timeoutView + 1), leafHeight, pm');
        GotoOnlyCleans(pm, timeoutView + 1);
      }
      CleaningIsValid(pm.newViews, pm'.newViews);
    case NewProposal(item, leafHeight) =>
      ChecksLeaveNewViews(RecvNewProposal(pm, item), leafHeight, pm');
      CleaningIsValid(pm.newViews, pm'.newViews);
    case NewView(from, view, qc) => ArrivalIsValid(pm.newViews, from, view, qc);
    case BranchSyncDone(leafHeight) =>
      ChecksLeaveNewViews(pm, leafHeight, pm');
      CleaningIsValid(pm.newViews, pm'.newViews);
    case Propose =>
      if GateOpen(pm, total) {
        TakingIsValid(pm.newViews, pm.view);
      } else {
        LookingIsValid(pm.newViews, pm.view);
      }
  }

  lemma GotoOnlyCleans(pm: Pacemaker, newView: ViewNumber)
    ensures forall view :: view in GotoNewView(pm, newView).newViews ==>
              view in pm.newViews && GotoNewView(pm, newView).newViews[view] == pm.newViews[view]
  {
  }

  /** Sets may be dropped. */
  lemma CleaningIsValid(before: NewViews, after: NewViews)
    requires forall view :: view in after ==> view in before && after[view] == before[view]
    ensures ValidStep(TallyStep(Senders(before), NoArrival, NoTaking, Senders(after)))
  {
  }

  lemma ArrivalIsValid(before: NewViews, from: ReplicaId, view: ViewNumber, qc: GenericQC)
    ensures var after := before[view := NewViewSet(before, view)[from := qc]];
            ValidStep(TallyStep(Senders(before), Arrival(view, from), NoTaking, Senders(after)))
  {
  }

  lemma TakingIsValid(before: NewViews, view: ViewNumber)
    ensures ValidStep(TallyStep(Senders(before), NoArrival, Taking(view, NewViewSet(before, view).Keys),
                                Senders(CleanNewViewSet(before, view + 1))))
  {
  }

  lemma LookingIsValid(before: NewViews, view: ViewNumber)
    ensures ValidStep(TallyStep(Senders(before), NoArrival, NoTaking, Senders(before[view := NewViewSet(before, view)])))
  {
  }

  ghost function GateSteps(total: nat, states: seq<Pacemaker>, events: seq<Event>): seq<TallyStep>
    requires |states| == |events| + 1
  {
    seq(|events|, k requires 0 <= k < |events| => GateStep(total, states[k], events[k], states[k + 1]))
  }

  /** New-view messages come from the replicas, and one of a correct replica for a view
      arrives at most once. */
  ghost predicate CorrectReplicasAnnounceOnce(total: nat, events: seq<Event>, faulty: set<ReplicaId>) {
    && (forall k :: 0 <= k < |events| && events[k].NewView? ==> events[k].from < total)
    && forall i, j :: 0 <= i < j < |events| && AnnouncedIn(events[i]).Arrival? && AnnouncedIn(events[i]) == AnnouncedIn(events[j])
                      ==> AnnouncedIn(events[i]).from in faulty
  }

  /** Event `k` makes the leader propose in `view`. */
  ghost predicate ProposesIn(total: nat, states: seq<Pacemaker>, events: seq<Event>, k: nat, view: ViewNumber)
    requires |states| == |events| + 1 && k < |events|
  {
    events[k].Propose? && GateOpen(states[k], total) && states[k].view == view
  }

  lemma {:induction false} SendersAreReplicas(total: nat, states: seq<Pacemaker>, events: seq<Event>, k: nat)
    requires IsRun(total, states, events) && k < |states|
    requires forall j :: 0 <= j < |events| && events[j].NewView? ==> events[j].from < total
    ensures forall view :: SetOf(Senders(states[k].newViews), view) <= Ids(total)
    decreases k
  {
    if k > 0 {
      SendersAreReplicas(total, states, events, k - 1);
      GateStepIsValid(total, states[k - 1], events[k - 1], states[k]);
      var step := GateStep(total, states[k - 1], events[k - 1], states[k]);
      forall view ensures SetOf(step.after, view) <= Ids(total) {
        assert SetOf(step.before, view) <= Ids(total);
      }
    }
  }

  lemma GateStepsAreValid(total: nat, states: seq<Pacemaker>, events: seq<Event>)
    requires IsRun(total, states, events)
    ensures ValidSteps(GateSteps(total, states, events))
    ensures |events| > 0 ==> GateSteps(total, states, events)[0].before == map[]
  {
    var steps := GateSteps(total, states, events);
    forall k | 0 <= k < |steps| ensures ValidStep(steps[k]) && (k > 0 ==> steps[k].before == steps[k - 1].after) {
      GateStepIsValid(total, states[k], events[k], states[k + 1]);
    }
    assert CleanNewViewSet(START.newViews, 1) == map[];
  }

  lemma GateStepsArriveOnce(total: nat, states: seq<Pacemaker>, events: seq<Event>, faulty: set<ReplicaId>)
    requires |states| == |events| + 1 && CorrectReplicasAnnounceOnce(total, events, faulty)
    ensures ArrivesOnce(GateSteps(total, states, events), faulty)
  {
    var steps := GateSteps(total, states, events);
    assert forall k :: 0 <= k < |steps| ==> steps[k].arrival == AnnouncedIn(events[k]);
    hide GateSteps, GateStep, AnnouncedIn;
  }

  lemma GatePassesQuorum(total: nat, states: seq<Pacemaker>, events: seq<Event>, k: nat, view: ViewNumber)
    requires IsRun(total, states, events) && k < |events| && ProposesIn(total, states, events, k, view)
    requires forall j :: 0 <= j < |events| && events[j].NewView? ==> events[j].from < total
    ensures var taking := GateSteps(total, states, events)[k].taking;
            taking.Taking? && taking.view == view && taking.members <= Ids(total) && |taking.members| > QuorumThreshold(total)
  {
    SendersAreReplicas(total, states, events, k);
    assert SetOf(Senders(states[k].newViews), view) == NewViewSet(states[k].newViews, view).Keys;
  }

  /** A leader proposes at most once in a view, even if faulty replicas send their new-view
      messages again after the set was cleaned. */
  lemma OneProposalPerView(total: nat, states: seq<Pacemaker>, events: seq<Event>, faulty: set<ReplicaId>,
                           i: nat, j: nat, view: ViewNumber)
    requires total >= 1 && |faulty| <= MaxFaulty(total)
    requires IsRun(total, states, events) && CorrectReplicasAnnounceOnce(total, events, faulty)
    requires i < |events| && j < |events|
    requires ProposesIn(total, states, events, i, view) && ProposesIn(total, states, events, j, view)
    ensures i == j
  {
    GateStepsAreValid(total, states, events);
    GateStepsArriveOnce(total, states, events, faulty);
    GatePassesQuorum(total, states, events, i, view);
    GatePassesQuorum(total, states, events, j, view);
    OneQuorumPerView(total, faulty, GateSteps(total, states, events), i, j);
  }

  /** A state that a pacemaker can be in. */
  ghost predicate Reachable(total: nat, pm: Pacemaker) {
    exists states, events, k :: IsRun(total, states, events) && 0 <= k < |states| && states[k] == pm
  }

  /** `origin` tells for each new-view message of a correct replica which of that replica's
      announcements it is; no announcement is delivered twice. */
  ghost predicate DeliversAnnouncements(total: nat, events: seq<Event>, faulty: set<ReplicaId>,
                                        peers: map<ReplicaId, Pacemaker>, origin: seq<nat>) {
    && |origin| == |events|
    && (forall k :: 0 <= k < |events| && events[k].NewView? ==> events[k].from < total)
    && (forall k :: 0 <= k < |events| && events[k].NewView? && events[k].from !in faulty ==>
          && events[k].from in peers && origin[k] < |peers[events[k].from].announced|
          && peers[events[k].from].announced[origin[k]] == events[k].view)
    && (forall i, j :: 0 <= i < j < |events| && SameCorrectSender(events[i], events[j], faulty) ==> origin[i] != origin[j])
  }

  predicate SameCorrectSender(a: Event, b: Event, faulty: set<ReplicaId>) {
    a.NewView? && b.NewView? && a.from == b.from && a.from !in faulty
  }

  /** Correct peers that are pacemakers of this kind do announce every view at most once. */
  lemma PeersAnnounceOnce(total: nat, events: seq<Event>, faulty: set<ReplicaId>,
                          peers: map<ReplicaId, Pacemaker>, origin: seq<nat>)
    requires DeliversAnnouncements(total, events, faulty, peers, origin)
    requires forall id :: id in peers ==> Inv(peers[id])
    ensures CorrectReplicasAnnounceOnce(total, events, faulty)
  {
    forall i, j | 0 <= i < j < |events| && AnnouncedIn(events[i]).Arrival? && AnnouncedIn(events[i]) == AnnouncedIn(events[j])
      ensures AnnouncedIn(events[i]).from in faulty
    {
      if events[i].from !in faulty {
        assert false;
      }
    }
  }

  /** With correct peers that are pacemakers themselves nothing need be supposed of what they
      announce: no leader proposes twice in a view. */
  lemma OneProposalPerViewAmongPeers(total: nat, states: seq<Pacemaker>, events: seq<Event>, faulty: set<ReplicaId>,
                                     peers: map<ReplicaId, Pacemaker>, origin: seq<nat>, i: nat, j: nat, view: ViewNumber)
    requires total >= 1 && |faulty| <= MaxFaulty(total) && IsRun(total, states, events)
    requires DeliversAnnouncements(total, events, faulty, peers, origin)
    requires forall id :: id in peers ==> Reachable(total, peers[id])
    requires i < |events| && j < |events|
    requires ProposesIn(total, states, events, i, view) && ProposesIn(total, states, events, j, view)
    ensures i == j
  {
    hide Inv, Next, DeliversAnnouncements, ProposesIn;
    forall id | id in peers ensures Inv(peers[id]) {
      var theirs, handled, k :| IsRun(total, theirs, handled) && 0 <= k < |theirs| && theirs[k] == peers[id];
      RunKeepsInv(total, theirs, handled, k);
    }
    PeersAnnounceOnce(total, events, faulty, peers, origin);
    OneProposalPerView(total, states, events, faulty, i, j, view);
  }
}
