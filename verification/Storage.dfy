/** The replica's storage as a value (hss/src/lib.rs).  Every function here is what one
    storage method does to the whole storage; class HotstuffStorage runs them in place. */
module StorageModel {
  import opened HsData

  /** The in-memory tree: every node sits under its own hash. */
  type NodeMap = m: map<NodeHash, TreeNode> | forall h :: h in m ==> Hash(m[h]) == h

  predicate Has(nodes: NodeMap, node: TreeNode) {
    Hash(node) in nodes && nodes[Hash(node)] == node
  }

  datatype InMemoryState = InMemoryState(
    leaf: TreeNode,
    qcHigh: GenericQC,
    vheight: ViewNumber,
    view: ViewNumber,
    committedHeight: ViewNumber,
    lastCommit: TreeNode,
    locked: TreeNode)

  datatype TimeoutCertificate =
    | Partial(view: ViewNumber, from: ReplicaId, qcHigh: GenericQC)
    | Combined(view: ViewNumber, qcHigh: GenericQC)

  /** Data that the backend has not been given yet. */
  datatype Queues = Queues(
    props: seq<TreeNode>,
    justifies: seq<GenericQC>,
    partialTcs: seq<TimeoutCertificate>,
    combinedTcs: seq<TimeoutCertificate>)

  const NO_QUEUES := Queues([], [], [], [])

  datatype Storage = Storage(state: InMemoryState, nodes: NodeMap, queues: Queues, dirty: bool)

  function InitStorage(): Storage {
    Storage(InMemoryState(INIT_NODE, INIT_QC, 0, 0, 0, INIT_NODE, INIT_NODE),
            map[Hash(INIT_NODE) := INIT_NODE], NO_QUEUES, false)
  }

  function Insert(s: Storage, node: TreeNode): Storage {
    s.(nodes := s.nodes[Hash(node) := node],
       queues := s.queues.(props := s.queues.props + [node]),
       dirty := true)
  }

  function AppendNewNode(s: Storage, node: TreeNode): Storage {
    Insert(s, node)
  }

  function AppendNewQc(s: Storage, qc: GenericQC): Storage {
    s.(queues := s.queues.(justifies := s.queues.justifies + [qc]), dirty := true)
  }

  /** Assigns the voted height, it does not keep the larger one. */
  function UpdateLeaf(s: Storage, leaf: TreeNode): Storage {
    Insert(s.(state := s.state.(leaf := leaf, vheight := leaf.height)), leaf)
  }

  /** The certificate that is held is replaced by one for a strictly higher node. */
  predicate Adopts(s: Storage, node: TreeNode) {
    s.state.qcHigh.node in s.nodes && node.height > s.nodes[s.state.qcHigh.node].height
  }

  function UpdateQcHigh(s: Storage, node: TreeNode, qc: GenericQC): Storage {
    if Adopts(s, node) then
      AppendNewQc(UpdateLeaf(s.(state := s.state.(qcHigh := qc)), node), qc)
    else s
  }

  function UpdateLocked(s: Storage, node: TreeNode): Storage {
    s.(state := s.state.(locked := node), dirty := true)
  }

  function IncreaseView(s: Storage, view: ViewNumber): Storage {
    s.(state := s.state.(view := Max(s.state.view, view)), dirty := true)
  }

  function UpdateVheight(s: Storage, height: ViewNumber): Storage {
    s.(state := s.state.(vheight := Max(s.state.vheight, height)), dirty := true)
  }

  function Commit(s: Storage, node: TreeNode): Storage {
    if s.state.committedHeight >= node.height then s
    else s.(state := s.state.(committedHeight := node.height, lastCommit := node), dirty := true)
  }

  function AppendTc(s: Storage, tc: TimeoutCertificate): Storage {
    s.(queues := if tc.Partial? then s.queues.(partialTcs := s.queues.partialTcs + [tc])
                 else s.queues.(combinedTcs := s.queues.combinedTcs + [tc]),
       dirty := true)
  }

  /** The chain b'' <- b' <- b of justify links below a proposal, as far as it is stored. */
  function ThreeChain(nodes: NodeMap, prop: TreeNode): seq<TreeNode> {
    if prop.justify.node !in nodes then [] else
    var b3 := nodes[prop.justify.node];
    if b3.justify.node !in nodes then [b3] else
    var b2 := nodes[b3.justify.node];
    if b2.justify.node !in nodes then [b3, b2] else
    [b3, b2, nodes[b2.justify.node]]
  }

  predicate ConsecutiveThreeChain(chain: seq<TreeNode>) {
    |chain| == 3 && chain[0].parent == Hash(chain[1]) && chain[1].parent == Hash(chain[2])
  }

  /** Where the walk up the parent links from `node` stops. */
  function WalkDown(nodes: NodeMap, node: TreeNode, floor: ViewNumber): TreeNode
    decreases node.parent
  {
    if node.height > floor && node.parent in nodes then
      assert Hash(nodes[node.parent]) == node.parent;
      WalkDown(nodes, nodes[node.parent], floor)
    else node
  }

  predicate IsConflicting(nodes: NodeMap, a: TreeNode, b: TreeNode) {
    if a.height >= b.height then Hash(WalkDown(nodes, a, b.height)) != Hash(b)
    else Hash(WalkDown(nodes, b, a.height)) != Hash(a)
  }

  /** The walk only ever moves to ancestors. */
  lemma {:induction false} WalkStaysOnBranch(nodes: NodeMap, node: TreeNode, floor: ViewNumber)
    ensures Extends(Hash(node), Hash(WalkDown(nodes, node, floor)))
    decreases node.parent
  {
    if node.height > floor && node.parent in nodes {
      var prev := nodes[node.parent];
      assert Hash(prev) == node.parent;
      WalkStaysOnBranch(nodes, prev, floor);
    }
  }

  /** A parent path from `h` down to `root` that stays above `root` and whose inner nodes
      (and `root`) are stored. */
  predicate StoredPath(nodes: NodeMap, h: NodeHash, root: NodeHash) {
    h == root
    || (h.Digest? && h.height > HeightOf(root) && h.parent in nodes && StoredPath(nodes, h.parent, root))
  }

  lemma {:induction false} WalkReachesRoot(nodes: NodeMap, node: TreeNode, root: NodeHash)
    requires StoredPath(nodes, Hash(node), root)
    ensures Hash(WalkDown(nodes, node, HeightOf(root))) == root
    decreases node.parent
  {
    if Hash(node) != root {
      var prev := nodes[node.parent];
      assert Hash(prev) == node.parent;
      WalkReachesRoot(nodes, prev, root);
    }
  }

  /** A negative answer is always right: the lower node is an ancestor of the higher one. */
  lemma NotConflictingIsAncestry(nodes: NodeMap, a: TreeNode, b: TreeNode)
    requires !IsConflicting(nodes, a, b)
    ensures a.height >= b.height ==> Extends(Hash(a), Hash(b))
    ensures a.height < b.height ==> Extends(Hash(b), Hash(a))
  {
    if a.height >= b.height {
      WalkStaysOnBranch(nodes, a, b.height);
    } else {
      WalkStaysOnBranch(nodes, b, a.height);
    }
  }

  /** A parent path from `h` down to `root` that is stored and along which heights rise. */
  predicate RisingPath(nodes: NodeMap, h: NodeHash, root: NodeHash) {
    h == root
    || (h.Digest? && h.height > HeightOf(h.parent) && h.parent in nodes && RisingPath(nodes, h.parent, root))
  }

  lemma {:induction false} RisingPathIsStored(nodes: NodeMap, h: NodeHash, root: NodeHash)
    requires RisingPath(nodes, h, root)
    ensures StoredPath(nodes, h, root)
    ensures h != root ==> HeightOf(h) > HeightOf(root)
  {
    if h != root {
      RisingPathIsStored(nodes, h.parent, root);
    }
  }

  /** Where ancestry between the two nodes, if there is any, is stored with rising heights,
      the walk decides it in both directions. */
  lemma IsConflictingDecidesAncestry(nodes: NodeMap, a: TreeNode, b: TreeNode)
    requires Extends(Hash(a), Hash(b)) ==> RisingPath(nodes, Hash(a), Hash(b))
    requires Extends(Hash(b), Hash(a)) ==> RisingPath(nodes, Hash(b), Hash(a))
    ensures IsConflicting(nodes, a, b) <==> Conflicting(Hash(a), Hash(b))
  {
    if !IsConflicting(nodes, a, b) {
      NotConflictingIsAncestry(nodes, a, b);
    }
    if Extends(Hash(a), Hash(b)) {
      RisingPathIsStored(nodes, Hash(a), Hash(b));
      WalkReachesRoot(nodes, a, Hash(b));
    }
    if Extends(Hash(b), Hash(a)) {
      RisingPathIsStored(nodes, Hash(b), Hash(a));
      WalkReachesRoot(nodes, b, Hash(a));
    }
  }
}
