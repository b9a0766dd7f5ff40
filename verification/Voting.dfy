/** Votes collected by a leader (hotstuff-rs/src/safety/voter.rs) and the ideal signature
    scheme under them (cryptokit/src/lib.rs). */
module Voting {
  import opened HsData

  datatype Share = ShareOf(signer: ReplicaId, node: TreeNode) | Corrupted

  datatype SignKit = SignKit(signId: ReplicaId, share: Share)

  type Ballots = map<ReplicaId, SignKit>
  type VotingSet = map<ViewNumber, Ballots>

  datatype VoteErr = DuplicateVote(from: ReplicaId) | InsufficientSigns(need: nat, got: nat)

  datatype Combination = Ok(sign: CombinedSign) | Err(error: VoteErr)

  function QuorumThreshold(total: nat): nat {
    2 * total / 3
  }

  function Sign(id: ReplicaId, node: TreeNode): SignKit {
    SignKit(id, ShareOf(id, node))
  }

  predicate ValidVote(node: TreeNode, kit: SignKit) {
    kit.share == ShareOf(kit.signId, node)
  }

  predicate ValidQc(node: TreeNode, sign: CombinedSign) {
    sign == Threshold(node)
  }

  function VotesFor(votes: VotingSet, view: ViewNumber): Ballots {
    if view in votes then votes[view] else map[]
  }

  /** The entry is overwritten even where the vote is then reported as a duplicate. */
  function AddVote(votes: VotingSet, view: ViewNumber, from: ReplicaId, kit: SignKit): VotingSet {
    votes[view := VotesFor(votes, view)[from := kit]]
  }

  /** All shares are valid shares on `node`. */
  predicate AllSign(ballots: Ballots, node: TreeNode) {
    forall from :: from in ballots ==> ValidVote(node, ballots[from])
  }

  /** No two shares have the same index. */
  predicate DistinctSigners(ballots: Ballots) {
    forall a, b :: a in ballots && b in ballots && ballots[a].signId == ballots[b].signId ==> a == b
  }

  /** Interpolation needs more shares than the threshold of the key set, with distinct indices;
      it yields the group signature on a node where all shares are on that node and an
      unusable signature where they are mixed. */
  ghost function Combine(threshold: nat, ballots: Ballots): Combination {
    if |ballots| <= threshold || !DistinctSigners(ballots) then Err(InsufficientSigns(threshold, |ballots|))
    else if exists node :: AllSign(ballots, node) then
      var node :| AllSign(ballots, node);
      Ok(Threshold(node))
    else Ok(Garbage)
  }

  function SignIds(ballots: Ballots): set<ReplicaId> {
    set from | from in ballots :: ballots[from].signId
  }
}
