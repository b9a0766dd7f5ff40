/** Why module Protocol asks for votes that are safe in spite of a lagging lock.  A leader that
    learns certificates from new-view messages and signs its own proposals never moves its lock,
    and can then be led onto another branch and commit on both, with consecutive heights on each. */
module LaggingLock {
  import opened HsData
  import opened StorageModel
  import opened SafetyMachine
  import opened Protocol
  import opened ReplicaScripts
  import opened Leading
  import opened Fetching

  /** The leader makes 0 <- 1 <- 2; then it is sent 3 <- 4 <- 5 <- 6 on the initial node. */
  const LED_ASTRAY: Script := [-1, 0, 1, -1, 3, 4, 5]

  ghost predicate Astray(p: seq<TreeNode>, late: TreeNode) {
    && |p| == 7 && Follows(p, LED_ASTRAY) && Dated(p, LED_ASTRAY) && p[0].justify == INIT_QC
    && (forall k :: 0 <= k < 3 ==> p[k].height == k + 1)
    && (forall k :: 3 <= k < 7 ==> p[k].height == k + 2)
    && On(late, p[2]) && late.height == 4 && late.justify.view == 3
  }

  /** The replica's storage after it led `p[0]`, `p[1]` and `p[2]`. */
  function Led(p: seq<TreeNode>, k: nat): Storage
    requires k <= |p|
  {
    if k == 0 then InitStorage() else Leads(Led(p, k - 1), p[k - 1])
  }

  /** Where the leader is after it led the first `k`. */
  function LedStatus(k: nat): Status {
    Status(k - 1, Max(k - 2, -1), -1, -1)
  }

  lemma {:induction false} LeaderStaysUnlocked(p: seq<TreeNode>, late: TreeNode, k: nat)
    requires Astray(p, late) && k <= 3
    ensures At(Led(p, k), p, k, LedStatus(k)) && Led(p, k).state.view == k
    ensures k == 0 ==> Led(p, k).state.leaf == INIT_NODE && Led(p, k).state.qcHigh == p[0].justify
    ensures k > 0 ==> Led(p, k).state.leaf == p[k - 1]
    decreases k
  {
    hide Leads, At, Follows, On, CanLead, Dated;
    if k == 0 {
      FreshIsAt(p);
    } else {
      LeaderStaysUnlocked(p, late, k - 1);
      LeaderCanGoOn(p, late, k - 1);
      LeaderStores(Led(p, k - 1), p, LED_ASTRAY, k - 1, LedStatus(k - 1));
    }
  }

  lemma LeaderCanGoOn(p: seq<TreeNode>, late: TreeNode, k: nat)
    requires Astray(p, late) && k < 3 && At(Led(p, k), p, k, LedStatus(k)) && Led(p, k).state.view == k
    requires k == 0 ==> Led(p, k).state.leaf == INIT_NODE && Led(p, k).state.qcHigh == p[0].justify
    ensures CanLead(Led(p, k), p, LED_ASTRAY, k, LedStatus(k))
  {
    hide Led, At, Follows, On, Dated;
  }

  lemma FreshIsAt(p: seq<TreeNode>)
    ensures At(InitStorage(), p, 0, LedStatus(0))
  {
  }

  /** A proposal that is too low to be signed is still handled. */
  lemma LateIsHandled(s: Storage, p: seq<TreeNode>, l: Script, k: nat, node: TreeNode, b3: int, st: Status)
    requires Follows(p, l) && -1 <= b3 < k <= |p| && On(node, Node(p, b3)) && At(s, p, k, st)
    requires node.height <= Node(p, st.voted).height
    ensures !Signs(s, node) && At(OnRecvProposal(s, node), p, k, Settled(l, st, b3))
    ensures OnRecvProposal(s, node).state.leaf == if b3 > st.qc then Node(p, b3) else s.state.leaf
  {
    assert Has(s.nodes, Node(p, b3));
    ProposalIsHandled(s, p, l, k, node, b3, st);
  }

  /** The storage of the leader from there on. */
  datatype Detour = Detour(s3: Storage, s4: Storage, s5: Storage, s6: Storage, s7: Storage, s8: Storage)

  /** It signs 3, commits 0 when it is shown the certificate of 2, fetches and signs 4, 5 and 6,
      and commits 3. */
  lemma LeaderGoesAstray(p: seq<TreeNode>, late: TreeNode) returns (d: Detour)
    requires Astray(p, late)
    ensures d.s3 == Led(p, 3) && Ready(d.s3, p, LED_ASTRAY, 3, Status(2, 1, -1, -1)) && !SafeForSigned(d.s3, Prefix(p, 3), p[3])
    ensures d.s4 == Taken(d.s3, p[3]) && At(d.s4, p, 4, Status(3, 1, -1, -1)) && d.s4.state.leaf == p[2] && !Signs(d.s4, late)
    ensures d.s5 == OnRecvProposal(d.s4, late) && Ready(d.s5, p, LED_ASTRAY, 4, Status(2, 2, 0, 1))
    ensures d.s6 == Taken(d.s5, p[4]) && Ready(d.s6, p, LED_ASTRAY, 5, Status(4, 3, 0, 1))
    ensures d.s7 == Taken(d.s6, p[5]) && Ready(d.s7, p, LED_ASTRAY, 6, Status(5, 4, 0, 3))
    ensures d.s8 == Taken(d.s7, p[6]) && At(d.s8, p, 7, Status(6, 5, 3, 4))
  {
    hide Led, Leads, Signs, OnRecvProposal, SafeForSigned, At, Follows, Taken, Fetched, Prefix, Dated;
    var l := LED_ASTRAY;
    LeaderStaysUnlocked(p, late, 3);
    var s3 := Led(p, 3);
    NotSafe(s3, p, late);
    var st := NextIsTaken(s3, p, l, 3, Status(2, 1, -1, -1));
    var s4 := Taken(s3, p[3]);
    LateIsHandled(s4, p, l, 4, late, 2, Status(3, 1, -1, -1));
    var s5 := OnRecvProposal(s4, late);
    st := NextIsTaken(s5, p, l, 4, Status(2, 2, 0, 1));
    var s6 := Taken(s5, p[4]);
    st := NextIsTaken(s6, p, l, 5, Status(4, 3, 0, 1));
    var s7 := Taken(s6, p[5]);
    st := NextIsTaken(s7, p, l, 6, Status(5, 4, 0, 3));
    d := Detour(s3, s4, s5, s6, s7, Taken(s7, p[6]));
  }

  /** The leader has signed 2, which calls for a lock on 0; 3 is neither on 0 nor on a higher
      certificate. */
  lemma NotSafe(s: Storage, p: seq<TreeNode>, late: TreeNode)
    requires Astray(p, late) && At(s, p, 3, Status(2, 1, -1, -1))
    ensures !SafeForSigned(s, Prefix(p, 3), p[3])
  {
    var l := LED_ASTRAY;
    PrefixIs(p, 3);
    assert p[2] in Prefix(p, 3);
    hide Prefix;
    assert Has(s.nodes, Node(p, 2)) && Has(s.nodes, Node(p, 1)) && OnLink(p, l, 2) && OnLink(p, l, 1) && OnLink(p, l, 3);
    var lock := GrandNode(s.nodes, p[2]);
    assert lock == Hash(p[0]);
    assert !Extends(Hash(INIT_NODE), lock);
    assert !SafeFor(p[3], lock);
  }

  lemma AstrayExists() returns (p: seq<TreeNode>, late: TreeNode)
    ensures Astray(p, late)
  {
    hide Proposals, Follows, Dated;
    var l, heights := LED_ASTRAY, [1, 2, 3, 5, 6, 7, 8];
    p := Proposals(l, heights);
    ProposalsFollow(l, heights);
    ProposalsAreDated(l, heights);
    ProposalIs(l, heights, 0);
    late := Proposal(p[2], 4);
  }
}
