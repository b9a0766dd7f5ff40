/** The storages of replicas that go through the views one after another, a proposal of the documented
    height in each: with which certificate they stand, and what hearing a certificate, leading,
    hearing a proposal and completing a set of votes does to them. */
module RoundStorages {
  import opened HsData
  import opened StorageModel
  import opened Voting
  import opened SafetyMachine
  import opened Protocol
  import opened ReplicaScripts
  import opened ChainProgress
  import opened LawfulRuns
  import opened Leading
  import opened Fetching
  import opened RotatingLeaders
  import opened HostFetching

  /** The certificate for the last of the first `c` nodes. */
  function Cert(p: seq<TreeNode>, c: nat): GenericQC
    requires c <= |p|
  {
    if c == 0 then INIT_QC else GenericQC(c, Hash(p[c - 1]), Threshold(p[c - 1]))
  }

  /** A node for each view from 1 on, each on the one before it. */
  ghost predicate Chained(p: seq<TreeNode>) {
    forall k {:trigger IsNext(p, k)} :: 0 <= k < |p| ==> IsNext(p, k)
  }

  predicate IsNext(p: seq<TreeNode>, k: nat)
    requires k < |p|
  {
    p[k] == TreeNode(p[k].payload, k + 1, Hash(Node(p, k - 1)), Cert(p, k))
  }

  /** There is one for all that is to be committed. */
  function ChainOf(payloads: seq<seq<Byte>>): (p: seq<TreeNode>)
    ensures |p| == |payloads|
  {
    if payloads == [] then [] else
    var k := |payloads| - 1;
    var p := ChainOf(payloads[..k]);
    p + [TreeNode(payloads[k], k + 1, Hash(Node(p, k - 1)), Cert(p, k))]
  }

  lemma {:induction false} ChainOfIsChained(payloads: seq<seq<Byte>>)
    ensures Chained(ChainOf(payloads)) && forall k :: 0 <= k < |payloads| ==> ChainOf(payloads)[k].payload == payloads[k]
    decreases |payloads|
  {
    if payloads != [] {
      var k := |payloads| - 1;
      hide Chained, Cert, Node, IsNext;
      ChainOfIsChained(payloads[..k]);
      OneMoreIsChained(ChainOf(payloads[..k]), payloads[k]);
    } else {
      NothingIsChained();
    }
  }

  lemma NothingIsChained()
    ensures Chained([])
  {
  }

  lemma OneMoreIsChained(p: seq<TreeNode>, payload: seq<Byte>)
    requires Chained(p)
    ensures Chained(p + [TreeNode(payload, |p| + 1, Hash(Node(p, |p| - 1)), Cert(p, |p|))])
  {
    var k := |p|;
    var longer := p + [TreeNode(payload, k + 1, Hash(Node(p, k - 1)), Cert(p, k))];
    forall j {:trigger IsNext(longer, j)} | 0 <= j <= k ensures IsNext(longer, j) {
      assert Node(longer, j - 1) == Node(p, j - 1) && Cert(longer, j) == Cert(p, j);
      assert j < k ==> IsNext(p, j) && longer[j] == p[j];
    }
  }

  lemma ChainedIsChain(p: seq<TreeNode>)
    requires Chained(p)
    ensures IsChain(p) && (|p| > 0 ==> p[0].justify == INIT_QC)
  {
    var l := Chain(|p|);
    hide Chained, On;
    forall k | 0 <= k < |p| ensures OnLink(p, l, k) && Rises(p, k) && p[k].justify.view == Node(p, l[k]).height {
      NodeIs(p, k);
    }
    if |p| > 0 {
      NodeIs(p, 0);
    }
  }

  lemma NodeIs(p: seq<TreeNode>, k: nat)
    requires Chained(p) && k < |p|
    ensures p[k].height == k + 1 && p[k].parent == Hash(Node(p, k - 1)) && p[k].justify == Cert(p, k)
    ensures Node(p, k - 1).height == k && On(p[k], Node(p, k - 1)) && Cert(p, k).view == k
  {
    assert IsNext(p, k) && (k > 0 ==> IsNext(p, k - 1));
  }

  // ---------------------------------------------------------------- where a replica stands

  /** The replica has the first `k` nodes and no others, holds the certificate of node `q`, and that
      node is its leaf. */
  ghost predicate StandsAt(s: Storage, p: seq<TreeNode>, k: nat, q: int, st: Status)
    requires k <= |p|
  {
    && At(s, p, k, st) && Only(s.nodes, p, k) && st.qc == q && st.locked <= Max(k - 3, -1) && st.committed <= Max(k - 4, -1)
    && s.state.leaf == Node(p, q) && Max(k - 2, -1) <= q < k && s.state.qcHigh == Cert(p, q + 1)
  }

  ghost predicate Stands(s: Storage, p: seq<TreeNode>, k: nat, q: int)
    requires k <= |p|
  {
    exists st :: StandsAt(s, p, k, q, st)
  }

  lemma StandsIf(s: Storage, p: seq<TreeNode>, k: nat, q: int, st: Status)
    requires k <= |p| && StandsAt(s, p, k, q, st)
    ensures Stands(s, p, k, q)
  {
  }

  lemma StandsWith(s: Storage, p: seq<TreeNode>, k: nat, q: int) returns (st: Status)
    requires k <= |p| && Stands(s, p, k, q)
    ensures StandsAt(s, p, k, q, st) && At(s, p, k, st) && Only(s.nodes, p, k)
    ensures st.qc == q && st.locked <= Max(k - 3, -1) && st.committed <= Max(k - 4, -1) && Max(k - 2, -1) <= q < k
    ensures s.state.leaf == Node(p, q) && s.state.qcHigh == Cert(p, q + 1)
  {
    hide At, Only, Node, Cert;
    st :| StandsAt(s, p, k, q, st);
  }

  lemma LedWith(s: Storage, p: seq<TreeNode>, k: nat) returns (st: Status)
    requires k < |p| && Led(s, p, k)
    ensures LedAt(s, p, k, st) && At(s, p, k + 1, st) && Only(s.nodes, p, k + 1)
    ensures st.qc == k - 1 && st.locked <= Max(k - 3, -1) && st.committed <= Max(k - 4, -1)
    ensures s.state.leaf == p[k] && s.state.qcHigh == Cert(p, k)
  {
    hide At, Only, Node, Cert;
    st :| LedAt(s, p, k, st);
  }

  lemma StandsHas(s: Storage, p: seq<TreeNode>, k: nat, q: int)
    requires k <= |p| && Stands(s, p, k, q)
    ensures s.state.leaf == Node(p, q) && s.state.qcHigh == Cert(p, q + 1) && Max(k - 2, -1) <= q < k
  {
    hide At, Only;
  }

  /** View, queues and the mark of unflushed data do not matter. */
  lemma StandsStays(s: Storage, t: Storage, p: seq<TreeNode>, k: nat, q: int)
    requires k <= |p| && Stands(s, p, k, q) && t.nodes == s.nodes && t.state == s.state.(view := t.state.view)
    ensures Stands(t, p, k, q)
  {
    hide Only;
    var st :| StandsAt(s, p, k, q, st);
    assert At(t, p, k, st);
    StandsIf(t, p, k, q, st);
  }

  lemma FreshStands(p: seq<TreeNode>)
    ensures Stands(InitStorage(), p, 0, -1)
  {
    assert StandsAt(InitStorage(), p, 0, -1, Status(-1, -1, -1, -1));
  }

  /** A certificate of the chain that is heard. */
  lemma HearsCert(s: Storage, p: seq<TreeNode>, k: nat, q: int, c: nat)
    requires Chained(p) && k < |p| && Stands(s, p, k, q) && c <= k
    ensures var t := OnNewView(s, Cert(p, c));
            Stands(t, p, k, Max(q, c - 1)) && t.state.view == s.state.view && Orderly(s, RecvNewView(Cert(p, c)))
  {
    hide IsChain, Only, Chained, At, OnNewView, UpdateQcHigh, Orderly, StandsAt, Stands, Cert, Node, Hash;
    ChainedIsChain(p);
    var st := StandsWith(s, p, k, q);
    HigherOnly(p, q, c - 1);
    HearingIs(s, p, k, st, c);
    if c - 1 > q {
      AdoptedStands(s, p, k, q, st, c);
    }
  }

  lemma AdoptedStands(s: Storage, p: seq<TreeNode>, k: nat, q: int, st: Status, c: nat)
    requires 0 < c <= k <= |p| && StandsAt(s, p, k, q, st) && q < c - 1 && Node(p, c - 1).height > Node(p, q).height
    ensures var t := UpdateQcHigh(s, p[c - 1], Cert(p, c)); Stands(t, p, k, c - 1) && t.state.view == s.state.view
  {
    hide Only, At, UpdateQcHigh, Cert;
    Adopted(s, p, k, st, c);
    StandsIf(UpdateQcHigh(s, p[c - 1], Cert(p, c)), p, k, c - 1, st.(voted := c - 1, qc := c - 1));
  }

  lemma HearingIs(s: Storage, p: seq<TreeNode>, k: nat, st: Status, c: nat)
    requires c <= k <= |p| && At(s, p, k, st)
    requires Node(p, c - 1).height > Node(p, st.qc).height <==> c - 1 > st.qc
    ensures Orderly(s, RecvNewView(Cert(p, c)))
    ensures OnNewView(s, Cert(p, c)) == if c - 1 > st.qc then UpdateQcHigh(s, p[c - 1], Cert(p, c)) else s
  {
    assert Has(s.nodes, Node(p, c - 1)) && Has(s.nodes, Node(p, st.qc));
  }

  lemma HigherOnly(p: seq<TreeNode>, q: int, b: int)
    requires IsChain(p) && -1 <= q < |p| && -1 <= b < |p|
    ensures Node(p, b).height > Node(p, q).height <==> b > q
    ensures Hash(Node(p, b)) == Hash(Node(p, q)) <==> b == q
  {
    hide Dated;
    CompareHeights(p, Chain(|p|), q, b);
    CompareHeights(p, Chain(|p|), b, q);
  }

  lemma Adopted(s: Storage, p: seq<TreeNode>, k: nat, st: Status, c: nat)
    requires 0 < c <= k <= |p| && At(s, p, k, st) && st.qc < c - 1 && Node(p, c - 1).height > Node(p, st.qc).height
    ensures var t := UpdateQcHigh(s, p[c - 1], Cert(p, c));
            At(t, p, k, st.(voted := c - 1, qc := c - 1)) && t.nodes == s.nodes && t.state.leaf == p[c - 1] && t.state.qcHigh == Cert(p, c)
            && t.state.view == s.state.view
  {
    hide At;
    AtCertificate(s, p, k, st);
    AtHas(s, p, k, st, st.qc);
    AtHas(s, p, k, st, c - 1);
    assert s.nodes[Hash(p[c - 1]) := p[c - 1]] == s.nodes;
    AtMoves(s, UpdateQcHigh(s, p[c - 1], Cert(p, c)), p, k, st, c - 1);
  }

  lemma AtHas(s: Storage, p: seq<TreeNode>, k: nat, st: Status, j: int)
    requires k <= |p| && At(s, p, k, st) && -1 <= j < k
    ensures Has(s.nodes, Node(p, j))
  {
  }

  lemma AtMoves(s: Storage, t: Storage, p: seq<TreeNode>, k: nat, st: Status, b: int)
    requires k <= |p| && At(s, p, k, st) && t.nodes == s.nodes && -1 <= b < k
    requires t.state.vheight == Node(p, b).height && t.state.qcHigh.node == Hash(Node(p, b)) && t.state.locked == s.state.locked
    requires t.state.lastCommit == s.state.lastCommit && t.state.committedHeight == s.state.committedHeight
    ensures At(t, p, k, st.(voted := b, qc := b))
  {
  }

  /** The leaf is handed back. */
  lemma HandsBackLeaf(s: Storage, p: seq<TreeNode>, k: nat, q: int)
    requires k <= |p| && Stands(s, p, k, q)
    ensures var t := OnUpdateQcHighReady(s, s.state.leaf); Stands(t, p, k, q) && t.state.view == s.state.view
    ensures Orderly(s, UpdateQcHighReady(s.state.leaf))
  {
    hide Only;
    var st :| StandsAt(s, p, k, q, st);
    assert Has(s.nodes, Node(p, q));
    StandsStays(s, s.(dirty := true), p, k, q);
  }

  // ---------------------------------------------------------------- leading

  /** It has just made node `k`. */
  ghost predicate LedAt(s: Storage, p: seq<TreeNode>, k: nat, st: Status)
    requires k < |p|
  {
    && At(s, p, k + 1, st) && Only(s.nodes, p, k + 1) && st.qc == k - 1 && st.locked <= Max(k - 3, -1) && st.committed <= Max(k - 4, -1)
    && s.state.leaf == p[k] && s.state.qcHigh == Cert(p, k)
  }

  ghost predicate Led(s: Storage, p: seq<TreeNode>, k: nat)
    requires k < |p|
  {
    exists st :: LedAt(s, p, k, st)
  }

  lemma LedIf(s: Storage, p: seq<TreeNode>, k: nat, st: Status)
    requires k < |p| && LedAt(s, p, k, st)
    ensures Led(s, p, k)
  {
  }

  lemma MakesNode(s: Storage, p: seq<TreeNode>, k: nat)
    requires Chained(p) && k < |p| && Stands(s, p, k, k - 1) && s.state.view == k + 1
    ensures MakeLeaf(s, p[k].payload) == p[k] && Led(UpdateLeaf(s, p[k]), p, k) && Orderly(s, NewTx(p[k].payload))
  {
    hide IsChain, Only, Chained, At, StandsAt, Stands, UpdateLeaf, Led, LedAt, Cert, On, Node;
    ChainedIsChain(p);
    var st := StandsWith(s, p, k, k - 1);
    NodeIs(p, k);
    MadeIsAt(s, p, k, st);
    OnlyOneMore(s.nodes, p, k);
    MadeIsLed(s, p, k, st);
  }

  lemma MadeIsLed(s: Storage, p: seq<TreeNode>, k: nat, st: Status)
    requires k < |p| && At(UpdateLeaf(s, p[k]), p, k + 1, st.(voted := k)) && Only(s.nodes[Hash(p[k]) := p[k]], p, k + 1)
    requires st.qc == k - 1 && st.locked <= Max(k - 3, -1) && st.committed <= Max(k - 4, -1) && s.state.qcHigh == Cert(p, k)
    ensures Led(UpdateLeaf(s, p[k]), p, k)
  {
    hide At, Only, Cert;
    LedIf(UpdateLeaf(s, p[k]), p, k, st.(voted := k));
  }

  lemma AtVheight(s: Storage, p: seq<TreeNode>, k: nat, st: Status)
    requires k <= |p| && At(s, p, k, st)
    ensures s.(state := s.state.(vheight := Node(p, st.voted).height)) == s
  {
  }

  lemma MadeIsAt(s: Storage, p: seq<TreeNode>, k: nat, st: Status)
    requires IsChain(p) && k < |p| && At(s, p, k, st)
    ensures At(UpdateLeaf(s, p[k]), p, k + 1, st.(voted := k)) && UpdateLeaf(s, p[k]).nodes == s.nodes[Hash(p[k]) := p[k]]
  {
    hide Follows, Dated, At, Chain;
    AtVheight(s, p, k, st);
    NewLeafIsAt(s, p, Chain(|p|), k, st);
  }

  /** The votes for its node are combined. */
  lemma CertifiesNode(s: Storage, p: seq<TreeNode>, k: nat)
    requires Chained(p) && k < |p| && Led(s, p, k) && s.state.view == k + 1
    ensures LeafQc(s, Threshold(p[k])) == Cert(p, k + 1)
    ensures var t := UpdateQcHigh(s, p[k], Cert(p, k + 1)); Stands(t, p, k + 1, k) && t.state.view == s.state.view
  {
    hide IsChain, Only, Chained, At, LedAt, Led, UpdateQcHigh;
    ChainedIsChain(p);
    var st := LedWith(s, p, k);
    HigherOnly(p, k - 1, k);
    Adopted(s, p, k + 1, st, k + 1);
    StandsIf(UpdateQcHigh(s, p[k], Cert(p, k + 1)), p, k + 1, k, st.(voted := k, qc := k));
  }

  // ---------------------------------------------------------------- following

  /** Handling a proposal leaves the certificate or takes that of the proposal. */
  lemma CertificateAfter(s: Storage, prop: TreeNode)
    ensures OnRecvProposal(s, prop).state.qcHigh in {s.state.qcHigh, prop.justify}
    ensures SyncProposal(s, prop).state.qcHigh in {s.state.qcHigh, prop.justify}
  {
    hide Accepts, UpdateNodes, VerifyProposal;
    CertificateAfterUpdate(s, prop);
    CertificateAfterUpdate(AppendNewQc(s, prop.justify), prop);
    CertificateAfterUpdate(Accept(s, prop), prop);
  }

  lemma CertificateAfterUpdate(s: Storage, prop: TreeNode)
    ensures UpdateNodes(s, prop).state.qcHigh in {s.state.qcHigh, prop.justify}
  {
    hide ThreeChain, Adopts, ConsecutiveThreeChain;
  }

  lemma SameNodeSameCert(p: seq<TreeNode>, qc: GenericQC, a: nat, b: nat)
    requires Chained(p) && a <= |p| && b <= |p| && qc in {Cert(p, a), Cert(p, b)} && qc.node == Hash(Node(p, b - 1))
    ensures qc == Cert(p, b)
  {
    hide Chained, IsChain;
    ChainedIsChain(p);
    HigherOnly(p, a - 1, b - 1);
  }

  /** The next node, where its certificate is held. */
  lemma TakesNode(s: Storage, p: seq<TreeNode>, k: nat)
    requires Chained(p) && k < |p| && Stands(s, p, k, k - 1)
    ensures var t := OnRecvProposal(s, p[k]);
            && p[k].justify.view <= s.state.leaf.height && Signs(s, p[k]) && Stands(t, p, k + 1, k - 1) && t.state.view == s.state.view
            && t.state.locked == Node(p, k - 2) && t.state.lastCommit == Node(p, k - 3)
  {
    hide IsChain, Only, Chained, At, Signs, OnRecvProposal, Ready, StandsAt, Stands, Cert, Node, Hash, On;
    ChainedIsChain(p);
    NodeIs(p, k);
    var st := StandsWith(s, p, k, k - 1);
    StandsIsReady(s, p, k, k - 1, st);
    var st' := TakenFrom(s, p, k, st);
    CertificateAfter(s, p[k]);
    AtCertificate(OnRecvProposal(s, p[k]), p, k + 1, st');
    SameNodeSameCert(p, OnRecvProposal(s, p[k]).state.qcHigh, k, k);
    OnlyOneMore(s.nodes, p, k);
    FetchedStands(OnRecvProposal(s, p[k]), p, k + 1, st');
  }

  lemma AtCertificate(s: Storage, p: seq<TreeNode>, k: nat, st: Status)
    requires k <= |p| && At(s, p, k, st)
    ensures s.state.qcHigh.node == Hash(Node(p, st.qc)) && -1 <= st.qc < k
    ensures s.state.locked == Node(p, st.locked) && s.state.lastCommit == Node(p, st.committed)
  {
  }

  lemma StandsIsReady(s: Storage, p: seq<TreeNode>, k: nat, q: int, st: Status)
    requires IsChain(p) && k < |p| && StandsAt(s, p, k, q, st)
    ensures Ready(s, p, Chain(|p|), k, st)
  {
    hide Follows, Dated, Only;
  }

  lemma TakenFrom(s: Storage, p: seq<TreeNode>, k: nat, st: Status) returns (st': Status)
    requires IsChain(p) && k < |p| && StandsAt(s, p, k, k - 1, st) && Ready(s, p, Chain(|p|), k, st) && p[k].justify.view <= s.state.leaf.height
    ensures var t := OnRecvProposal(s, p[k]);
            && Signs(s, p[k]) && At(t, p, k + 1, st') && t.nodes == s.nodes[Hash(p[k]) := p[k]] && t.state.view == s.state.view
            && t.state.leaf == s.state.leaf
            && st'.qc == k - 1 && st'.locked == Max(k - 2, -1) && st'.committed == Max(k - 3, -1)
  {
    hide Follows, Dated, Only, At, Signs, OnRecvProposal, SyncProposal, Ready;
    st' := NextIsTaken(s, p, Chain(|p|), k, st);
  }

  /** The next node, where its certificate is not held: it is fetched, and then handed over. */
  lemma FetchesNode(s: Storage, p: seq<TreeNode>, k: nat)
    requires Chained(p) && 0 < k < |p| && Stands(s, p, k, k - 2)
    ensures VerifyProposal(s, p[k - 1].justify) && VerifyProposal(SyncProposal(s, p[k - 1]), p[k].justify)
    ensures var t := SyncProposal(SyncProposal(s, p[k - 1]), p[k]); var u := OnRecvProposal(t, p[k]);
            && p[k].justify.view <= t.state.leaf.height && Signs(t, p[k]) && t.state.leaf == p[k - 1] && t.state.view == s.state.view
            && Stands(u, p, k + 1, k - 1) && u.state.view == s.state.view
            && u.state.locked == Node(p, k - 2) && u.state.lastCommit == Node(p, k - 3)
            && forall i :: -1 <= i < k ==> Has(t.nodes, Node(p, i))
  {
    hide IsChain, Only, Chained, At, Signs, OnRecvProposal, SyncProposal, Ready, VerifyProposal, StandsAt, Stands, Cert, Hash, On;
    ChainedIsChain(p);
    NodeIs(p, k);
    var st := StandsWith(s, p, k, k - 2);
    var st1 := LastAgain(s, p, k, st);
    var s1 := SyncProposal(s, p[k - 1]);
    var st' := FetchedFrom(s1, p, k, st1);
    var t := SyncProposal(s1, p[k]);
    var u := OnRecvProposal(t, p[k]);
    CertificateAfter(s, p[k - 1]);
    CertificateAfter(s1, p[k]);
    CertificateAfter(t, p[k]);
    NodeIs(p, k - 1);
    AtCertificate(u, p, k + 1, st');
    SameNodeSameCert(p, u.state.qcHigh, k - 1, k);
    OnlyOneMore(s1.nodes, p, k);
    FetchedStands(u, p, k + 1, st');
  }

  lemma FetchedStands(u: Storage, p: seq<TreeNode>, k: nat, st: Status)
    requires 1 <= k <= |p| && At(u, p, k, st) && Only(u.nodes, p, k) && st.qc == k - 2 && st.locked == Max(k - 3, -1) && st.committed == Max(k - 4, -1)
    requires u.state.leaf == Node(p, k - 2) && u.state.qcHigh == Cert(p, k - 1)
    ensures Stands(u, p, k, k - 2) && u.state.locked == Node(p, k - 3) && u.state.lastCommit == Node(p, k - 4)
  {
    hide Only;
    StandsIf(u, p, k, k - 2, st);
  }

  lemma LastAgain(s: Storage, p: seq<TreeNode>, k: nat, st: Status) returns (st1: Status)
    requires Chained(p) && 0 < k < |p| && StandsAt(s, p, k, k - 2, st)
    ensures VerifyProposal(s, p[k - 1].justify)
    ensures var t := SyncProposal(s, p[k - 1]);
            && At(t, p, k, st1) && Only(t.nodes, p, k) && t.state.leaf == s.state.leaf && t.state.view == s.state.view
            && st1.qc == k - 2 && st1.locked <= Max(k - 3, -1) && st1.committed <= Max(k - 4, -1)
  {
    hide IsChain, Chained, At, SyncProposal, VerifyProposal;
    ChainedIsChain(p);
    st1 := LastIsSynced(s, p, k, st);
  }

  lemma FetchedFrom(s: Storage, p: seq<TreeNode>, k: nat, st: Status) returns (st': Status)
    requires Chained(p) && 0 < k < |p| && At(s, p, k, st) && s.state.leaf == Node(p, k - 2)
    requires st.qc == k - 2 && st.locked <= Max(k - 3, -1) && st.committed <= Max(k - 4, -1)
    ensures VerifyProposal(s, p[k].justify)
    ensures var t := SyncProposal(s, p[k]); var u := OnRecvProposal(t, p[k]);
            && p[k].justify.view <= t.state.leaf.height && Signs(t, p[k]) && t.state.leaf == p[k - 1] && u.state.leaf == p[k - 1]
            && t.state.view == s.state.view && u.state.view == s.state.view
            && At(u, p, k + 1, st') && u.nodes == s.nodes[Hash(p[k]) := p[k]] && t.nodes == u.nodes
            && st'.qc == k - 1 && st'.locked == Max(k - 2, -1) && st'.committed == Max(k - 3, -1)
            && forall i :: -1 <= i < k ==> Has(t.nodes, Node(p, i))
  {
    hide Follows, Dated, Chained, At, Signs, OnRecvProposal, SyncProposal, VerifyProposal, Ready;
    ChainedIsChain(p);
    NodeIs(p, k);
    NodeIs(p, k - 1);
    ReadyToFetch(s, p, k, st);
    st' := NextIsTaken(s, p, Chain(|p|), k, st);
    SignsVerifies(s, p[k]);
    FetchedHasAll(s, p, Chain(|p|), k, st);
    NextIsHandled(s, p, Chain(|p|), k, st);
    NextIsFetched(s, p, Chain(|p|), k, st);
    ProposalKeepsView(s, p[k]);
    ProposalKeepsView(SyncProposal(s, p[k]), p[k]);
  }

  lemma ReadyToFetch(s: Storage, p: seq<TreeNode>, k: nat, st: Status)
    requires IsChain(p) && 0 < k < |p| && At(s, p, k, st) && s.state.leaf == Node(p, st.qc) && st.locked <= k - 1
    ensures Ready(s, p, Chain(|p|), k, st)
  {
    hide Follows, Dated;
  }
}
