# Verified model of hotstuff-consensus

The repository implements event-driven, chained HotStuff: a safety machine that votes, locks and
commits (`hotstuff-rs`), an in-memory storage with a write-behind backend (`hss`), a pacemaker that
drives views, new-view messages, pending proposals and branch synchronisation (`pacemaker`), and the
proposal and certificate formats (`hs-data`).  This project models those four parts and proves what
they keep over every run, up to agreement between n hosts, pacemaker and machine each, of which at most
(n-1)/3 are faulty.

`dafny verify dfyconfig.toml` checks everything.

## How the model is built

| layer | files |
|---|---|
| nodes, certificates, hashed and signed bytes | `HsData.dfy`, `Encoding.dfy` |
| storage and handlers as functions on values | `Storage.dfy`, `Voting.dfy`, `SafetyMachine.dfy` |
| the objects, methods and loops of the source, each proved to do what its function says | `HotstuffStorage.dfy`, `Machine.dfy`, `Pacemaker.dfy`, `Elector.dfy` |
| one replica over every sequence of events | `ReplicaInvariants.dfy`, `VoteHeights.dfy`, `ReplicaScripts.dfy`, `ChainProgress.dfy`, `WriteBehind.dfy`, `DurableMachine.dfy`, `MachineAnswers.dfy` |
| collecting votes and new-view messages, views | `Quorums.dfy`, `Tally.dfy`, `VoteTally.dfy`, `CountedVotes.dfy`, `Pacing.dfy`, `Announcements.dfy`, `PacemakerSteps.dfy` |
| n replicas | `Protocol.dfy`, `ProtocolInvariant.dfy`, `Preservation.dfy`, `SafeVoting.dfy`, `Agreement.dfy`, `CatchUp.dfy`, `FittingTrees.dfy` |
| n hosts that are wired to each other | `HostEvents.dfy`, `Genuine.dfy`, `HostsGenuine.dfy`, `Network.dfy`, `PromptHosts.dfy`, `HostLeaders.dfy`, `HostFetching.dfy`, `HostOutputs.dfy`, `HostViews.dfy`, `HostRequests.dfy` |
| runs that commit | `LawfulRuns.dfy`, `Fetching.dfy`, `PacedRuns.dfy`, `Leading.dfy`, `RotatingLeaders.dfy`, `PlantedNode.dfy`; of wired hosts `RoundStorages.dfy`, `HostTurns.dfy`, `HostRounds.dfy` |
| runs in which the code is not safe | `Gaps.dfy`, `LaggingLock.dfy`, `LaggingRun.dfy`, `DoubleVotes.dfy`, `LateVotes.dfy`, `StaleLeaf.dfy` |

Ideal cryptography: a digest remembers what was hashed, so hashing is injective and no node lies on
its own parent path; a combined signature remembers the node it is for and exists only where more
than the threshold of replicas can have signed that node.  Faulty replicas have no state, they back
any node and send any message that needs no forged signature.

Heights and views are unbounded naturals, except in the heap keys of pending proposals and in the
byte formats, where the 64-bit width is modelled (with wrap-around of the negation).

## Which runs the theorems are about

`Protocol.Law` names what is asked of the steps of correct replicas, and every theorem asks for what it needs:

| law | asks for | theorems |
|---|---|---|
| `DistinctVotes` | a correct replica signs no two nodes of one height, and none of height 0; nothing is asked of messages | certificates are unique |
| `Delivered` | certificates and shares in messages were not forged | every run of wired hosts is one (`Network.HostsAreWorlds`) |
| `OrderlyMessages` | and accepted proposals extend and exceed their justify node; votes that complete a certificate which is adopted are all for one node, the leaf; certificates of new-view messages that are adopted are valid (the code does not check them, `hotstuff-rs/src/safety/machine.rs:391-401`); a leader proposes above its leaf; a node that is handed back and adopted is the leaf | the invariant of the whole system, certified closure |
| `FittingMessages` | and nothing is stored below what is stored already | one signature per height, even where votes fall |
| `SafeVotes` (lawful runs) | and signatures rise, and a received proposal is signed only if it is safe also for the nodes two justify links below what the replica has signed, whatever its lock | agreement |
| `HandedInTime` | lawful, and a proposal reaches the machine only once the leaf has reached the view of its certificate, as the pacemaker has it (`pacemaker/src/pacemaker.rs:429-434`, `PromptHosts.PromptRunsAreLawful`) | runs that commit |
| `AnyHeight`, `AnyVote`, `AnyLock` | the same, but for votes that do not rise, for votes for other nodes than the leaf, or for safety under a lagging lock (`Protocol.WhatIsLeftOut`) | runs that fail |

The demand of lawful runs for safe votes exists because a leader signs its own proposal without moving
its lock.  It is nothing for a leader's own proposal, nor for any proposal whose certificate is not
below the one the replica holds, however far the lock lags (`SafeVoting.FreshCertificateIsSafe`), and
nothing where the lock does not lag (`CatchUp.CaughtUpIsSafe`).

Nothing is asked of the heights of stored nodes.  A faulty peer can make a replica store a well-formed
node of any height by a branch that was not asked for; the replica's later votes and beats, far below
that node, are lawful all the same (`PlantedNode.PlantedNodeIsHarmless`).  Agreement holds because an
accepted node is above the voted height, which is not below the highest certificate, which covers all that is
locked, certified or justified with: none of that is ever overwritten.

In the ordinary run a proposal is too far ahead when it arrives.  The pacemaker fetches the branch, which
stores the proposal and lowers the voted height, and then hands the stored proposal over, which is signed
(`HostFetching.FollowerFetches`, for the branch that the leader's own handler answers with).  In every
configuration correct replicas can lead in turn, fetch and sign each other's proposals in this way, with
locks that lag, and commit: `RotatingLeaders.LeadersInTurnCommit` is about such runs, which are lawful.
`HostRounds.HostsCommit` is about hosts, pacemaker and machine, that are wired to each other: from their first
announcements on they pass gates, broadcast, fetch, vote, form certificates, enter view after view and
commit, on nothing but what correct hosts have sent and without any timer.

## Where the code does not keep what it documents

The handlers are modelled as they are written.  Five documented or expected facts are false of them;
for each there is an exact condition and a run that shows the failure, in which proposals are handed over
as the pacemaker does.

* `vheight` is documented as the height of the last voted proposal (`hss/src/lib.rs:44`), but
  `update_leaf` assigns it (`hss/src/lib.rs:433`).  Any event that makes a node the leaf can lower it:
  a proposal that brings a higher certificate, a new-view message, a formed certificate, a handed-back
  node, a beat in an old view.  `VoteHeights.StepKeepsHighestIff` says exactly when an event takes its
  meaning away, and `VoteHeights.AlwaysHighestIff` when a run does.  A replica would sign a new node at or
  below one it has signed exactly where `vheight` is below that one, in every reachable state
  (`DoubleVotes.SecondVoteIff`).  A new-view message alone does it in a lawful run
  (`DoubleVotes.NewViewLowersVheight`), and every configuration has a run that certifies two
  conflicting nodes of one height (`DoubleVotes.LowVotesBreakUniqueness`).
* The commit rule compares parent hashes only, while heights are views and can have gaps.  Agreement holds
  for a lower chain of given heights in all lawful runs if and only if those are consecutive, in every
  configuration (`Gaps.SafeHeightsAreConsecutive`).
* A leader signs its own proposal without updating its lock.  The lock then lags exactly when the
  justify node of the highest certified node is above it (`CatchUp.BeatKeepsCaughtUpIff`), and in a
  system of four replicas with one faulty a leader can be led to commit two conflicting nodes, each
  under a chain of consecutive heights (`LaggingRun.LaggingLockBreaksAgreement`).
* "leaf.qc == qc-high" (`hotstuff-rs/src/safety/machine.rs:458-459`) is broken by a vote exactly where
  the vote completes a certificate that is adopted and is for another node than the leaf
  (`ReplicaInvariants.VoteKeepsCoupledIff`).  A leader that proposes again before the votes for its
  previous proposal arrive gets there, and nobody accepts the certificate it forms
  (`LateVotes.LateVotesUncouple`).  A stale leaf that is handed back lowers the highest certificate
  (`ReplicaInvariants.HandingBackLowersQcHighIff`, `StaleLeaf.StaleLeafLowersQcHigh`).
* The view of a certificate "equals node.height" (`hs-data/src/qc.rs:16`) for certificates formed in
  the view of the proposal only (`ReplicaInvariants.FormedQcHasItsHeightIff`); a leader that is in the next
  view when the votes arrive forms one with another view, in a lawful run
  (`LateVotes.LateCertificateHasLaterView`).

## Model

| member | source | states |
|---|---|---|
| Agreement.ExecutionsAgree | hotstuff-rs/src/safety/machine.rs:208-261 | in every lawful run of n replicas with at most (n-1)/3 faulty, of two nodes that correct replicas executed, on one replica or two and at any two times, the higher is on the branch of the lower if the lower was executed under a height-consecutive chain; so no two nodes executed under such chains conflict |
| Agreement.LastCommitsAgree | hss/src/lib.rs:554-571 | the last commit of a replica that has executed height-consecutive chains only is an ancestor of every correct replica's last commit that is not lower |
| Agreement.CertificatesAreUnique | hotstuff-rs/src/safety/machine.rs:293-302 | where no correct replica signs two nodes of one height, and with nothing else supposed, two nodes of one height that have more than the threshold of signers, at one time or at two, are the same node |
| FittingTrees.FittingRunsAreDistinct | hotstuff-rs/src/safety/machine.rs:326-331 | in every run in which nothing is stored below what is stored already correct replicas sign at most one node of each height, even where their votes fall |
| Agreement.CertifiedClosure | hotstuff-rs/src/safety/machine.rs:208-228 | in every run with orderly messages, lagging locks, falling votes, fetched proposals and stored nodes of any height included, every certified node but the initial one has a certified and lower justify node on its branch, and locked and committed nodes of correct replicas are certified |
| Agreement.CertifiedAboveExtends | hotstuff-rs/src/safety/machine.rs:238-261 | whatever is certified at or above an executed node is on that node's branch |
| Agreement.RunKeepsWorldInv | hotstuff-rs/src/safety/machine.rs:375-416 | every step of any replica on orderly messages keeps the invariant of the whole system, at every moment of every run |
| Agreement.RunKeepsLocksInv | hotstuff-rs/src/safety/machine.rs:238-261 | in every lawful run correct replicas sign at most one node of each height, and each signature, on a node that was stored before or not, was given under a lock not below the node two justify links below any lower one it gave, or is safe for that node as well |
| Preservation.EventKeepsReplicaInv | hotstuff-rs/src/safety/machine.rs:375-442 | every kind of event keeps: certified and justified stored nodes, a highest certificate not below any stored node's, signatures that were safe for the lock of their time and whose justify nodes stay stored, genuine collected votes, certified executions; accepting a node that is stored already or is below a stored one is among them |
| Preservation.CollectedQuorumCertifies | hotstuff-rs/src/safety/machine.rs:282-314 | a voting set above the threshold with distinct signers, all for one node, combines to the signature of that node, which is then certified |
| SafeVoting.FreshCertificateIsSafe | hotstuff-rs/src/safety/machine.rs:238-261 | a proposal with a certificate not below the one the replica holds, a leader's own included, is safe for all that the replica's signatures call for, however far its lock lags |
| SafeVoting.StepKeepsLockInv | hotstuff-rs/src/safety/machine.rs:264-352 | every kind of lawful event keeps the order of a replica's locks and signatures |
| LawfulRuns.ScriptIsLawfulRun | hotstuff-rs/src/safety/machine.rs:317-352 | for every configuration a lawful run takes all correct replicas through any sequence of well-placed proposals of rising heights that respects their locks |
| PacedRuns.ScriptIsPacedRun | pacemaker/src/pacemaker.rs:429-434 | the same with every proposal fetched first if it is too far ahead and handed over in time, for certificates of the documented views |
| LawfulRuns.ChainsAreCommittedEverywhere | hs-test/src/safety.rs:59-82 | in every configuration every chain of four or more is signed by all correct replicas, committed up to its last three and locked one above that |
| RotatingLeaders.LeadersInTurnCommit | hotstuff-rs/src/safety/machine.rs:264-352 | in every configuration and for every order of correct leaders there is a lawful run in which each proposes its node of a chain, hearing none of its own, all others take it as the pacemaker has it, by branch synchronisation where it is too far ahead, all correct replicas sign all of it and all but the last leader commit it up to its last three |
| HostRounds.HostsCommit | pacemaker/src/pacemaker.rs:162-576 | for any transactions and any correct leaders, two or more wired hosts have a run, lawful and in time, in which each message received was sent by a correct host before and no timer goes off; all correct hosts sign a chain with these transactions and all but the last leader commit it up to its last three nodes |
| PlantedNode.PlantedNodeIsHarmless | pacemaker/src/pacemaker.rs:328-340 | in every configuration, for every correct replica and every height above 2 there is a run, lawful and in time, in which a branch nobody asked for makes the replica store a node of that height and leaves its voted height below, it then signs the genuine next node below it, and may enter any later view and propose there |
| Fetching.NextIsTaken | hotstuff-rs/src/safety/machine.rs:418-442 | a proposal of a script that is too far ahead is in time once it has been synchronised, is then signed although it is stored, and leaves certificate, lock and commit as direct receipt would |
| HostFetching.FollowerFetches | pacemaker/src/pacemaker.rs:429-473 | a follower one node behind its leader, both anywhere in a run in which leaders take turns: a proposal too far ahead, whatever the leader's handler answers to the request that this sends, and the end of the synchronisation take the proposal to the machine, queue its vote, and leave certificate, lock and commit where the chain has them |
| Gaps.GapsBreakAgreement | hss/src/lib.rs:516-538 | for all rising heights of a chain that are not consecutive, every configuration has a lawful run in which any correct replica executes a node under a chain of those heights and a conflicting higher node |
| Gaps.SafeHeightsAreConsecutive | hss/src/lib.rs:516-538 | in every configuration: what correct replicas execute at or above a node executed under a chain of given heights is on its branch in all lawful runs if and only if the heights are consecutive |
| LaggingRun.LaggingLockBreaksAgreement | hotstuff-rs/src/safety/machine.rs:264-279 | a run of four replicas, one faulty, lawful and in time but for a lagging lock, and a correct replica that executes two conflicting nodes of height-consecutive chains in it |
| LaggingLock.LeaderGoesAstray | hotstuff-rs/src/safety/machine.rs:264-279 | the leader's storage through that run: it never locks while it leads, then signs the other branch, commits on the first and then on the second |
| DoubleVotes.LowVotesBreakUniqueness | hss/src/lib.rs:431-458 | every configuration has a run, lawful and in time but for votes that do not rise, that certifies two conflicting nodes of one height |
| DoubleVotes.SecondVoteIff | hotstuff-rs/src/safety/machine.rs:326-331 | at every moment of every run with orderly messages, a correct replica would sign a new well-formed node at or below one it has signed if and only if its voted height is below that one |
| DoubleVotes.SignsAgainIff | hotstuff-rs/src/safety/machine.rs:326-331 | the same of every state with the invariant and every height |
| DoubleVotes.HighestRunsAreLawful | hss/src/lib.rs:540-551 | runs in which the voted height is always the greatest stored height and beats are above it need no demand for rising votes to be lawful |
| DoubleVotes.NewViewLowersVheight | hotstuff-rs/src/safety/machine.rs:391-401 | in every configuration a lawful run in which a replica votes for heights 1 and 5, is told the certificate of the first in a new-view message and then signs a conflicting node of height 5 |
| CatchUp.BeatKeepsCaughtUpIff | hotstuff-rs/src/safety/machine.rs:264-279 | a leader's lock is still up to date after it proposes if and only if the justify node of its highest certified node is not above the lock |
| CatchUp.OnlyBeatsFallBehind | hotstuff-rs/src/safety/machine.rs:208-228 | no other event makes the lock lag |
| CatchUp.HearingOwnProposalCatchesUp | hotstuff-rs/src/safety/machine.rs:317-352 | a leader that handles its own proposal does not sign it again and is up to date afterwards |
| ReplicaInvariants.RunKeepsInv | hotstuff-rs/src/safety/machine.rs:205-442 | after every tame event sequence: committed height = height of last commit <= locked < highest certified (or nothing has happened), leaf <= voted height, leaf stored, on the branch of the highest certified node, and either that node or made with that certificate |
| ReplicaInvariants.RunNeverFallsBack | hss/src/lib.rs:496-571 | committed, locked, certified and view heights never decrease between any two moments of a tame run |
| ReplicaInvariants.RunKeepsCovered | hss/src/lib.rs:448-458 | after every tame run no stored node was made with a certificate for a higher node than the one that is held |
| ReplicaInvariants.EveryBeatIsSafe | hotstuff-rs/src/safety/machine.rs:264-279 | after every tame run a leader's unchecked own vote would have passed safe_node against its own lock, and its proposal extends and exceeds its justify node |
| ReplicaInvariants.HandingBackLeafKeepsQcHigh | pacemaker/src/pacemaker.rs:372-378 | handing back the current leaf, or a node that is not adopted, changes neither certificate nor leaf nor tree nor lock |
| ReplicaInvariants.HandingBackLowersQcHighIff | pacemaker/src/pacemaker.rs:372-378 | handing back any node lowers the highest certified height if and only if that height is strictly between the node's justify node and the node |
| StaleLeaf.StaleLeafLowersQcHigh | pacemaker/src/pacemaker.rs:180-188 | a tame run in which a new-view message makes the machine output a leaf that lowers the highest certificate when it is handed back after the next message |
| ReplicaInvariants.VoteKeepsCoupledIff | hotstuff-rs/src/safety/machine.rs:295-304 | a vote for any node with a usable certificate leaves leaf and highest certificate together if and only if it completes no certificate that is adopted or is for the leaf |
| LateVotes.LateVotesUncouple | hotstuff-rs/src/safety/machine.rs:293-304 | a run of four replicas, lawful until two late votes arrive, after which the leader holds a certificate that does not fit its leaf and that no storage accepts |
| ReplicaInvariants.FormedQcHasItsHeightIff | hotstuff-rs/src/safety/machine.rs:295-302 | a certificate formed from votes for the leaf names the leaf, and its view is the leaf's height if and only if the leader is still in that view |
| LateVotes.LateCertificateHasLaterView | hotstuff-rs/src/safety/machine.rs:295-302 | a lawful run of four replicas in which the leader enters view 2 before the votes for its proposal of height 1 arrive and then holds a certificate of view 2 for it |
| VoteHeights.VoteKeepsVheightIff | hss/src/lib.rs:431-437 | after a vote the voted height covers all stored nodes if and only if the proposal brought no higher certificate |
| VoteHeights.StepKeepsHighestIff | hss/src/lib.rs:431-437 | for every event, the voted height is still the greatest stored height afterwards if and only if the event makes no node the leaf that is below what was voted for |
| VoteHeights.AlwaysHighestIff | hss/src/lib.rs:431-458 | over every sequence of events whatever, it is so at all times if and only if no event lowers it |
| VoteHeights.VheightAfter | hss/src/lib.rs:431-437 | what the voted height is after every event |
| VoteHeights.SignsAgain | hotstuff-rs/src/safety/machine.rs:326-344 | where it did, every other proposal on that certificate is signed too |
| ChainProgress.ChainMakesProgress | hs-test/src/safety.rs:59-82 | a fresh replica fed any chain of k >= 4 proposals of rising heights signs all of them and ends certified on the last but one, locked on the one before, with that one's parent committed |
| ChainProgress.GappedCommitsConflict | hss/src/lib.rs:516-538 | a replica fed two interleaved branches signs every proposal, each above all before it, and commits two conflicting nodes |
| ReplicaScripts.ScriptRuns | hotstuff-rs/src/safety/machine.rs:317-352 | for every unlocked script the replica's certificate, leaf, lock, last commit and voted height after each proposal are those computed from the script |
| SafetyMachine.BranchSyncRefinesReceipt | hotstuff-rs/src/safety/machine.rs:418-442 | synchronising any list leaves the same storage, queues included, as receiving its longest verifying prefix one by one |
| SafetyMachine.LongestPrefixIsReceived | hotstuff-rs/src/safety/machine.rs:418-442 | there is one longest verifying prefix, and that is what is received |
| SafetyMachine.BranchSyncIsSteps | hotstuff-rs/src/safety/machine.rs:418-442 | and so it is a sequence of the single steps that the invariants are proved for |
| StorageModel.NotConflictingIsAncestry | hss/src/lib.rs:460-485 | a negative answer of is_conflicting always means that the lower node is an ancestor of the higher |
| StorageModel.IsConflictingDecidesAncestry | hss/src/lib.rs:460-485 | where ancestry is stored with rising heights the answer is right in both directions |
| WriteBehind.WriteBehindLosesNothing | hss/src/lib.rs:124-149 | over every run of storage operations flushed data followed by queued data is exactly what was taken in, in order; every stored node and the held certificate were taken in; not dirty means nothing queued and the current state flushed |
| WriteBehind.FlushLeavesNothingQueued | hss/src/lib.rs:300-334 | right after a flush with a backend all that was ever taken in has been flushed |
| DurableMachine.StepIsOps | hotstuff-rs/src/safety/machine.rs:375-442 | every event of the machine writes through those storage operations only |
| DurableMachine.MachineRunsLoseNothing | hss/src/lib.rs:378-458 | whatever the machine handles and whenever it is flushed, stored nodes and the held certificate are flushed or queued |
| Quorums.ThresholdIsNMinusF | hotstuff-rs/src/safety/machine.rs:446-455 | threshold + 1 = n - f for f = (n-1)/3, and 2f < n - f |
| Quorums.QuorumsShare | hotstuff-rs/src/safety/machine.rs:446-455 | two sets of replicas above the threshold share at least f + 1 members |
| Tally.OneQuorumPerView | hotstuff-rs/src/safety/voter.rs:52-67 | where sets are dropped when they are taken, no second set of a view exceeds the threshold if correct senders arrive once |
| VoteTally.OneQcPerView | hotstuff-rs/src/safety/machine.rs:282-314 | no run of the machine combines two voting sets of one view if correct replicas vote once in it and at most f resend |
| CountedVotes.VotersAreCounted | hotstuff-rs/src/safety/voter.rs:52-109 | in every run the voters of a view that a leader holds are exactly those whose valid votes, its own included, arrived since the set was last combined or a higher view was entered |
| Pacing.OneProposalPerView | pacemaker/src/pacemaker.rs:557-576 | a leader passes the new-view gate at most once in a view although the set is cleaned and up to f senders resend |
| Pacing.OneProposalPerViewAmongPeers | pacemaker/src/pacemaker.rs:514-534 | the same with nothing supposed of correct peers but that they are pacemakers of this kind |
| Announcements.SetIsHeard | hss/src/lib.rs:674-678 | in every run the new-view set of a view that is not over holds exactly the senders of messages for it that arrived since its gate was last passed, however views were entered in between |
| Announcements.GateOpenIff | pacemaker/src/pacemaker.rs:557-576 | so the gate is open exactly where more than the threshold of senders have been heard of the present view since it was last passed |
| Announcements.EarlyMessageCounts | hss/src/lib.rs:674-678 | a message that came before its view was entered counts when it is |
| Pacing.RunKeepsInv | pacemaker/src/pacemaker.rs:221-283 | in every run announced views rise, received proposals = pending + handed over as multisets, and branch-sync requests alternate with returns to idle |
| Pacing.IdleBetweenRequests | pacemaker/src/pacemaker.rs:404-459 | at every moment of every run, between two branch-sync requests there was a return to idle |
| Pacing.HandedIsSmallest | pacemaker/src/pacemaker.rs:429-434 | what is handed over has the smallest pending justify view, which is at most the leaf height, for views up to 2^63 |
| Pacing.SmallerViewFirstIff | pacemaker/src/pacemaker.rs:53-78 | of two 64-bit views the smaller leaves the heap first if and only if they are not on different sides of 2^63 |
| Pacing.KeyRoundTrip | pacemaker/src/pacemaker.rs:71-78 | the view read back from a heap key is the view it was made from |
| Election.LeadersAgree | pacemaker/src/elector.rs:11-23 | two electors that were given the same names in any order and with repeats pick the same leader, one of those names, in every view |
| Election.LeaderHasRank | pacemaker/src/elector.rs:18-23 | as many of the given names come before the leader as the hash of the view modulo their number says, and each name leads exactly the views whose hash has its rank |
| Election.StrictlySortedIsUnique | pacemaker/src/elector.rs:11-16 | a set of names has one strictly sorted listing |
| Election.Sort | pacemaker/src/elector.rs:13-13 | sorted, with the same elements |
| Election.Dedup | pacemaker/src/elector.rs:14-14 | strictly sorted, with the same elements |
| Election.RoundRobinLeaderElector.Init | pacemaker/src/elector.rs:11-16 | the mapper is the strictly sorted listing of the given names |
| Election.RoundRobinLeaderElector.GetLeader | pacemaker/src/elector.rs:18-23 | one of the names, and of a strictly sorted listing the one that as many others come before as the hash of the view modulo their number says |
| Encoding.SigningBytesFaithful | hs-data/src/tree_node.rs:77-92 | signed bytes are equal exactly when height, certificate, parent and concatenated transactions are |
| Encoding.HashedBytesFaithful | hs-data/src/tree_node.rs:28-39 | hashed bytes are equal exactly when height, parent and concatenated transactions are; the certificate is not among them |
| Encoding.QcBytesFaithful | hs-data/src/qc.rs:46-54 | certificate bytes determine view, node and signature |
| Encoding.NodeLayout | hs-data/src/tree_node.rs:77-92 | read back from their places, most significant byte first, the signed bytes are height, certificate view, node and signature, parent and transactions |
| Encoding.HashLayout | hs-data/src/tree_node.rs:28-39 | read back from the end, the hashed bytes are parent, height and transactions |
| Encoding.FlatJoins | hs-data/src/tree_node.rs:28-39 | the transactions follow each other in their order |
| Encoding.NodeToBeBytes | hs-data/src/tree_node.rs:77-92 | the loop over transactions yields the signed bytes |
| Encoding.HashInput | hs-data/src/tree_node.rs:28-39 | the loop over transactions yields the hashed bytes |
| HotstuffStorageClass.HotstuffStorage.IsConflicting | hss/src/lib.rs:460-485 | the loop up the parent links terminates on every tree and computes what the two lemmas above are about |
| HotstuffStorageClass.HotstuffStorage.FindThreeChain | hss/src/lib.rs:416-428 | the stored part of the three justify links below a node |
| HotstuffStorageClass.HotstuffStorage.UpdateQcHigh | hss/src/lib.rs:448-458 | a certificate is adopted, with leaf, voted height, tree and both queues, exactly for a higher node than the certified one |
| HotstuffStorageClass.HotstuffStorage.UpdateLeaf | hss/src/lib.rs:431-437 | leaf and voted height are assigned and the node is stored and queued |
| HotstuffStorageClass.HotstuffStorage.Commit | hss/src/lib.rs:554-571 | the loop over heights ends at the node's height; lower nodes change nothing |
| HotstuffStorageClass.HotstuffStorage.AsyncFlush | hss/src/lib.rs:300-334 | a dirty storage with a backend hands over all queues and its state and is clean; otherwise nothing changes |
| HotstuffStorageClass.HotstuffStorage.FetchBranch | hss/src/lib.rs:627-647 | exactly the stored nodes above the given height, each once, lowest first |
| Pacing.GateStepIsValid | hss/src/lib.rs:674-678 | cleaning, joining and looking up new-view sets never put a sender into a set who was not in it and did not just arrive, and passing the gate empties the set of the view |
| MachineClass.Voter.AddVote | hotstuff-rs/src/safety/voter.rs:83-98 | the vote is stored even where it is reported as a duplicate |
| MachineClass.Voter.CombinePartialSign | hotstuff-rs/src/safety/voter.rs:52-67 | too few votes are an error and change nothing; otherwise the set is gone whatever the combination yields |
| MachineClass.Machine.UpdateNodes | hotstuff-rs/src/safety/machine.rs:208-228 | certificate, lock and commit as function UpdateNodes says, of which the invariants are proved; a commit is reported exactly for a parent-consecutive chain |
| MachineClass.Machine.OnRecvProposal | hotstuff-rs/src/safety/machine.rs:317-352 | new storage and the answer: an error for a bad certificate, a signature exactly if the voting rule holds, otherwise nothing |
| MachineClass.Machine.OnBranchSync | hotstuff-rs/src/safety/machine.rs:418-442 | the loop with its early exit does what BranchSyncRefinesReceipt is about |
| MachineClass.Machine.OnBeat | hotstuff-rs/src/safety/machine.rs:264-279 | the new leaf is proposed, stored and voted for by the leader itself |
| MachineClass.Machine.OnRecvVote | hotstuff-rs/src/safety/machine.rs:282-314 | new storage, new voting sets and all four outcomes of a vote |
| MachineClass.Machine.ProcessSafetyEvent | hotstuff-rs/src/safety/machine.rs:375-416 | state, output and leader after each kind of event, snapshots included |
| MachineClass.Machine.OnViewChange | hotstuff-rs/src/safety/machine.rs:354-366 | a higher view drops all votes and is adopted, any other changes nothing |
| MachineClass.HandlingIsSteps | hotstuff-rs/src/safety/machine.rs:375-416 | every event of the object is a sequence of the single steps that the run theorems range over |
| MachineAnswers.RefusedIff | hotstuff-rs/src/safety/machine.rs:282-352 | an event fails exactly for a certificate that names no stored node or is signed for another, a share that is not the voter's on the proposal, or a completed set with a repeated index; the first two change nothing and the last drops the set |
| MachineAnswers.FirstNamedLeads | hotstuff-rs/src/safety/machine.rs:375-416 | after every sequence of events the leader is whoever was named first for a view that was not over |
| MachineAnswers.SnapshotsAreRight | hotstuff-rs/src/safety/machine.rs:368-416 | a snapshot after a tame run changes nothing and says view, certificate, leaf, lock and the height of the last commit, which is not above the lock |
| PacemakerClass.Pacemaker.CheckPendingProp | pacemaker/src/pacemaker.rs:429-473 | a top proposal goes to the machine, or it stays and one request is sent to the leader of the view if none is open; nothing else changes |
| PacemakerClass.Pacemaker.ProcessLocalTimeout | pacemaker/src/pacemaker.rs:221-264 | a timeout of the current or a later view is stored and broadcast with the highest certificate, the next view entered and announced to its leader, and an open synchronisation ended; an older one changes nothing |
| PacemakerClass.Pacemaker.ProcessReadyEvent | pacemaker/src/pacemaker.rs:360-426 | what each output of the machine makes the pacemaker do, messages and storage included |
| PacemakerClass.Pacemaker.ProcessNewProposal | pacemaker/src/pacemaker.rs:269-284 | a proposal is queued and the queue checked against the leaf height |
| PacemakerClass.Pacemaker.ProcessTimeout | pacemaker/src/pacemaker.rs:290-304 | a peer's timeout is stored and, if the storage is ahead of the pacemaker, taken as a local one |
| PacemakerClass.Pacemaker.ProcessNewView | pacemaker/src/pacemaker.rs:342-355 | the message joins the set of its view and its certificate goes to the machine |
| PacemakerClass.Pacemaker.ProcessBranchSyncRequest | pacemaker/src/pacemaker.rs:305-327 | one answer to the asker with exactly the stored nodes above the height, lowest first |
| PacemakerClass.Pacemaker.MakeNewProposal | pacemaker/src/pacemaker.rs:557-576 | a proposal is made if and only if more than the threshold of new-view messages for the current view are held |
| PacemakerSteps.RunIsPacing | pacemaker/src/pacemaker.rs:162-440 | every run of the pacemaker's handlers, on any calls and outputs, is a run of the state machine that the theorems of module Pacing range over |
| PacemakerSteps.TimedOutIsPacing | pacemaker/src/pacemaker.rs:221-264 | timeouts of the object are steps of that machine |
| PacemakerSteps.MachineKeepsView | hotstuff-rs/src/safety/machine.rs:375-442 | no event that the pacemaker gives to the machine changes the storage's view |
| PacemakerSteps.RunKeepsViews | pacemaker/src/pacemaker.rs:502-512 | pacemaker and storage agree on the view at every moment of every run of all handlers |
| PacemakerSteps.PeerTimeoutsMoveNobody | pacemaker/src/pacemaker.rs:290-304 | in every run a peer's timeout, whatever it says and whenever it comes, is recorded and nothing else happens |
| HostOutputs.PeerTimeoutCatchesUp | pacemaker/src/pacemaker.rs:290-304 | a peer's timeout is stored and takes a host that is behind its own storage into the storage's view, and no host further |
| HostEvents.HandlersAreSteps | pacemaker/src/pacemaker.rs:221-426 | every handler moves the machine by a sequence of its single steps that the call determines |
| HostsGenuine.HandlersAreGenuine | pacemaker/src/pacemaker.rs:221-426 | what a handler queues and sends contains no forged certificate or share if what it is called with contains none |
| Network.HostsAreWorlds | pacemaker/src/pacemaker.rs:168-440 | for every run of n hosts in which messages of correct hosts come from their outboxes there is a run of the replica protocol through the same states; that messages are genuine is proved, not supposed |
| Network.HostsAgree | pacemaker/src/pacemaker.rs:168-440 | so agreement holds of hosts whose machine steps are lawful, whatever heights faulty hosts make them store |
| PromptHosts.TooEarlyIff | pacemaker/src/pacemaker.rs:404-434 | a call hands a proposal over before the leaf has reached the view of its certificate if and only if it is told of the end of a synchronisation whose leaf has reached that of the top proposal while the present leaf has not |
| PromptHosts.PromptHostsAreInTime | pacemaker/src/pacemaker.rs:612-661 | in every run of hosts that act on outputs before they take up the next message, as the loop that makes proposals does, every proposal is handed over in time |
| PromptHosts.PromptRunsAreLawful | pacemaker/src/pacemaker.rs:612-661 | so their lawful runs are in time as well, and runs of the replica protocol under that law by HostsAreWorlds |
| PromptHosts.SilentHostsAreInTime | pacemaker/src/pacemaker.rs:168-202 | in every lawful run a host that never proposes, as in the loop that acts on outputs when it flushes only, hands every proposal over in time, whenever it acts on its outputs |
| HostLeaders.OnePassPerView | pacemaker/src/pacemaker.rs:557-576 | in every run of hosts, lawful or not, a host passes the gate once in a view if no announcement of a correct host is delivered to it twice; that correct hosts announce rising views is proved |
| HostLeaders.SecondDeliverySecondPass | pacemaker/src/pacemaker.rs:557-576 | in every setting with a correct leader of view 1 there is a run in which announcements are delivered to it twice and it passes the gate twice in that view |
| HostOutputs.VoteIsReportedIff | hotstuff-rs/src/safety/machine.rs:282-314 | a vote has something put out exactly where it completes a set that can be combined, and that is the end of the view |
| HostOutputs.QuorumEntersNextView | pacemaker/src/pacemaker.rs:420-423 | a completed set leaves a leader with an empty queue one output, and acting on it ends in the next view with a new-view message to that view's leader that carries the certificate held then |
| HostViews.QuorumsMoveOn | pacemaker/src/pacemaker.rs:420-423 | in every run of hosts, from the vote that completes a set on, the output waits or the host has left the view |
| HostOutputs.OutputsAreHeeded | pacemaker/src/pacemaker.rs:360-426 | in every run of hosts what was put out is at every later moment in the queue or has been acted on for good: proposals and votes are in the outbox, views are left |
| HostOutputs.ProposalsAreSent | pacemaker/src/pacemaker.rs:364-371 | in every run of hosts passing the gate makes a node of the present view on leaf and highest certificate, which at every later moment waits to be broadcast or has been |
| HostOutputs.SignaturesAreSent | pacemaker/src/pacemaker.rs:379-402 | in every run of hosts, of all that a correct host has signed: it is its own proposal and waits to be broadcast or has been, or it was handed over and the signature waits to be sent or has been sent to who sent the proposal |
| HostOutputs.HandedBackIsLeafIff | pacemaker/src/pacemaker.rs:372-378 | a node that the pacemaker hands back becomes the leaf, with its own certificate, stored and queued, exactly where it is higher than the certified node; otherwise only the mark for flushing is set |
| HostOutputs.TimeoutEnters | pacemaker/src/pacemaker.rs:221-264 | a timeout of the present or a later view ends in the view after it, with the timeout stored and broadcast and the leader told, both with the highest certificate; an earlier one announces nothing |
| HostOutputs.CallEnters | pacemaker/src/pacemaker.rs:162-440 | every call leaves the view and announces nothing, or enters a later one with both messages |
| HostOutputs.LeavingResumes | pacemaker/src/pacemaker.rs:221-264 | a timeout while a synchronisation is open ends it: a waiting proposal that is in time is handed over, otherwise the leader of the new view is asked for its branch |
| HostOutputs.AnswerResumes | pacemaker/src/pacemaker.rs:404-473 | the same when a synchronisation has been answered |
| HostRequests.RequestsAreOpenings | pacemaker/src/pacemaker.rs:429-473 | in every run of hosts a host has sent exactly as many branch-sync requests as it has opened synchronisations, and between any two it was back to idle |
| HostViews.AnnouncementsAreTruthful | pacemaker/src/pacemaker.rs:514-534 | in every run of hosts each new-view message in a correct host's outbox is for the leader of its view and carries the certificate the host held when it entered that view, and each timeout the view it left and the certificate it then held |
| HostViews.ViewsAreAnnounced | pacemaker/src/pacemaker.rs:514-534 | and the view a correct host is in has been announced to its leader |
| HostViews.LeadersProposeOnHighest | pacemaker/src/pacemaker.rs:342-355 | in every lawful run what a host proposes is on a certificate not lower than any it was told before and whose node it had, and what a correct peer told it is what that peer held when it entered the view |

## Left out

- Cryptography: key generation, SHA-256, threshold signatures and the FNV hash of views are ideal or parameters. The initial certificate is recognised by a zero signature rather than by bytes 32..64 of it.
- Voting.Combine: interpolation over exactly one share more than the threshold; where a leader's own vote makes the set larger, the library would use an arbitrary part of it.
- Recovery from MySQL and the SQL of the persistor: the backend is the sequence of tasks it was given.
- PacemakerClass.Pacemaker.ProcessTimeout: timeout-certificate compression is not modelled, because the map it reads is filled by recovery from the database only; on a storage that was not recovered it never yields a view.
- Replica identities are numbers in the pacemaker, where the elector's answer is a function of the view, and byte strings in the elector.
- Batch size of branch synchronisation, which the code ignores as well, and status codes of failed answers.
- Timers, channels and the event loops: handlers are called with what those deliver, at any time; module PromptHosts alone supposes something of the order in which the loops do so. Messages between hosts can be delayed, repeated and lost, and flushing is not among the steps of hosts.
- Liveness under asynchrony: what is proved of progress is that lawful runs which commit exist.
- The heap of pending proposals is a multiset; which of several proposals with the same key comes first is open.
- The prototype in hs-prototype, the demo and logging.
- Agreement.ExecutionsAgree: for lawful runs and where the lower chain has consecutive heights. Safe votes and consecutive heights cannot be dropped (LaggingRun.LaggingLockBreaksAgreement, Gaps.GapsBreakAgreement), and without rising votes certificates are not unique (DoubleVotes.LowVotesBreakUniqueness). Consecutive heights are exact (Gaps.SafeHeightsAreConsecutive); that a run with an unsafe vote loses agreement in every case is neither true nor stated. That the other demands of orderly messages cannot be dropped one by one is not stated.
- Network.HostsAgree: that votes rise and are safe, that accepted proposals are well formed and new-view certificates that are adopted valid, that a completed set which is adopted is for the leaf alone and beats are above the leaf is supposed of the hosts' machine steps and not derived: the handlers check none of it, and faulty hosts can send messages that break it. Of the heights of stored nodes nothing is supposed.
- HostRounds.HostsCommit: for two or more hosts, because a leader counts a set of votes only when one arrives, and a single host sends itself none. The order of events is one of many; that hosts commit in every order is not stated.
- HostLeaders.OnePassPerView: that announcements come from the n hosts is supposed; the handler files a message under the name it carries.
- PromptHosts.PromptHostsAreInTime: for certificates with views of 64 bits, as in the source, and so SilentHostsAreInTime.
- ReplicaInvariants.VoteKeepsCoupledIff: for nodes whose justify certificate is not an unusable combination of mixed shares; correct replicas sign no others.
- Pacing.HandedIsSmallest: for justify views up to 2^63; SmallerViewFirstIff says what happens beyond.
