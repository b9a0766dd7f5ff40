/** The storage object (hss/src/lib.rs).  Its methods update the fields in place; each is one
    operation of module WriteBehind on the whole of it. */
module HotstuffStorageClass {
  import opened HsData
  import opened StorageModel
  import opened WriteBehind
  import P = Pacing

  class HotstuffStorage {
    const total: nat
    const backend: bool

    var state: InMemoryState
    var nodes: NodeMap
    var queues: Queues
    var dirty: bool
    var newViews: P.NewViews
    ghost var tasks: seq<FlushTask>

    ghost function Value(): Storage
      reads this
    {
      Storage(state, nodes, queues, dirty)
    }

    ghost function Disk(): Durable
      reads this
    {
      Durable(Value(), backend, tasks)
    }

    constructor (total: nat, backend: bool)
      ensures this.total == total && this.backend == backend
      ensures Disk() == InitDurable(backend) && newViews == map[]
    {
      this.total, this.backend := total, backend;
      state := InMemoryState(INIT_NODE, INIT_QC, 0, 0, 0, INIT_NODE, INIT_NODE);
      nodes := map[Hash(INIT_NODE) := INIT_NODE];
      queues, dirty := NO_QUEUES, false;
      newViews := map[];
      tasks := [];
    }

    method AsyncFlush()
      modifies `queues, `dirty, `tasks
      ensures Disk() == Apply(old(Disk()), OpFlush)
    {
      if !dirty {
        return;
      }
      if backend {
        tasks := tasks + [FlushTask(queues, state)];
        queues := NO_QUEUES;
        dirty := false;
      }
    }

    method SetDirty()
      modifies `dirty
      ensures Disk() == Apply(old(Disk()), OpSetDirty)
    {
      dirty := true;
    }

    method InsertNode(hash: NodeHash, node: TreeNode)
      requires hash == Hash(node)
      modifies `nodes, `queues
      ensures nodes == old(nodes)[hash := node]
      ensures queues == old(queues).(props := old(queues).props + [node])
    {
      nodes := nodes[hash := node];
      queues := queues.(props := queues.props + [node]);
    }

    method AppendNewNode(node: TreeNode)
      modifies `nodes, `queues, `dirty
      ensures Disk() == Apply(old(Disk()), OpAppendNode(node))
    {
      InsertNode(Hash(node), node);
      dirty := true;
    }

    method AppendNewQc(qc: GenericQC)
      modifies `queues, `dirty
      ensures Disk() == Apply(old(Disk()), OpAppendQc(qc))
    {
      queues := queues.(justifies := queues.justifies + [qc]);
      dirty := true;
    }

    method AppendTc(tc: TimeoutCertificate)
      modifies `queues, `dirty
      ensures Disk() == Apply(old(Disk()), OpAppendTc(tc))
    {
      if tc.Partial? {
        queues := queues.(partialTcs := queues.partialTcs + [tc]);
      } else {
        queues := queues.(combinedTcs := queues.combinedTcs + [tc]);
      }
      dirty := true;
    }

    method FindThreeChain(node: TreeNode) returns (chain: seq<TreeNode>)
      ensures chain == ThreeChain(nodes, node)
    {
      chain := [];
      if node.justify.node in nodes {
        var b3 := nodes[node.justify.node];
        chain := chain + [b3];
        if b3.justify.node in nodes {
          var b2 := nodes[b3.justify.node];
          chain := chain + [b2];
          if b2.justify.node in nodes {
            chain := chain + [nodes[b2.justify.node]];
          }
        }
      }
    }

    method UpdateLeaf(leaf: TreeNode)
      modifies `state, `nodes, `queues, `dirty
      ensures Disk() == Apply(old(Disk()), OpUpdateLeaf(leaf))
    {
      state := state.(vheight := leaf.height);
      state := state.(leaf := leaf);
      InsertNode(Hash(leaf), leaf);
      dirty := true;
    }

    method UpdateQcHigh(node: TreeNode, qc: GenericQC)
      modifies `state, `nodes, `queues, `dirty
      ensures Disk() == Apply(old(Disk()), OpUpdateQcHigh(node, qc))
    {
      if state.qcHigh.node in nodes {
        var qcNode := nodes[state.qcHigh.node];
        if node.height > qcNode.height {
          state := state.(qcHigh := qc);
          UpdateLeaf(node);
          AppendNewQc(qc);
          dirty := true;
        }
      }
    }

    /** Walks up the parent links of the higher node. */
    method IsConflicting(a: TreeNode, b: TreeNode) returns (conflicting: bool)
      ensures conflicting == StorageModel.IsConflicting(nodes, a, b)
    {
      var high, low := a, b;
      if a.height < b.height {
        high, low := b, a;
      }
      var heightNow := high.height;
      var parentHash := high.parent;
      var node := high;
      while heightNow > low.height && parentHash in nodes
        invariant heightNow == node.height && parentHash == node.parent
        invariant WalkDown(nodes, node, low.height) == WalkDown(nodes, high, low.height)
        decreases parentHash
      {
        var prev := nodes[parentHash];
        assert Hash(prev) == parentHash;
        node := prev;
        heightNow := prev.height;
        parentHash := prev.parent;
      }
      conflicting := Hash(node) != Hash(low);
    }

    method UpdateLockedNode(node: TreeNode)
      modifies `state, `dirty
      ensures Disk() == Apply(old(Disk()), OpUpdateLocked(node))
    {
      state := state.(locked := node);
      dirty := true;
    }

    method IncreaseView(view: ViewNumber)
      modifies `state, `dirty
      ensures Disk() == Apply(old(Disk()), OpIncreaseView(view))
    {
      state := state.(view := Max(state.view, view));
      dirty := true;
    }

    method IsConsecutiveThreeChain(chain: seq<TreeNode>) returns (consecutive: bool)
      ensures consecutive == ConsecutiveThreeChain(chain)
    {
      if |chain| != 3 {
        return false;
      }
      var pred32 := chain[0].parent == Hash(chain[1]);
      var pred21 := chain[1].parent == Hash(chain[2]);
      consecutive := pred32 && pred21;
    }

    method UpdateVheight(height: ViewNumber) returns (prev: ViewNumber)
      modifies `state, `dirty
      ensures Disk() == Apply(old(Disk()), OpUpdateVheight(height))
      ensures prev == old(state).vheight
      ensures state.vheight >= height && state.vheight >= prev && (state.vheight == height || state.vheight == prev)
    {
      prev := state.vheight;
      state := state.(vheight := Max(state.vheight, height));
      dirty := true;
    }

    method Commit(node: TreeNode)
      modifies `state, `dirty
      ensures Disk() == Apply(old(Disk()), OpCommit(node))
    {
      if state.committedHeight >= node.height {
        return;
      }
      for h := state.committedHeight + 1 to node.height + 1
        invariant state == old(state).(committedHeight := h - 1)
        invariant dirty == old(dirty)
      {
        state := state.(committedHeight := h);
      }
      state := state.(lastCommit := node);
      dirty := true;
    }

    // -------------------------------------------------------------- liveness side

    method InsertNewView(view: ViewNumber, from: ReplicaId, qc: GenericQC)
      modifies `newViews
      ensures newViews == old(newViews)[view := P.NewViewSet(old(newViews), view)[from := qc]]
    {
      newViews := newViews[view := P.NewViewSet(newViews, view)[from := qc]];
    }

    /** Looking a set up creates it. */
    method NewViewSetSize(view: ViewNumber) returns (size: nat)
      modifies `newViews
      ensures newViews == old(newViews)[view := P.NewViewSet(old(newViews), view)]
      ensures size == |P.NewViewSet(old(newViews), view)|
    {
      newViews := newViews[view := P.NewViewSet(newViews, view)];
      size := |newViews[view]|;
    }

    method CleanNewViewSet(view: ViewNumber)
      modifies `newViews
      ensures newViews == P.CleanNewViewSet(old(newViews), view)
    {
      newViews := map v | v in newViews && v >= view :: newViews[v];
    }

    /** All stored nodes above a height, lowest first. */
    method FetchBranch(growFrom: ViewNumber) returns (branch: seq<TreeNode>)
      ensures forall node :: node in branch <==> Hash(node) in nodes && nodes[Hash(node)] == node && node.height > growFrom
      ensures ByHeight(branch)
    {
      branch := [];
      var todo := nodes.Keys;
      while todo != {}
        invariant todo <= nodes.Keys
        invariant forall node :: node in branch <==>
                    Hash(node) in nodes && Hash(node) !in todo && nodes[Hash(node)] == node && node.height > growFrom
        invariant ByHeight(branch)
        decreases |todo|
      {
        var h :| h in todo;
        todo := todo - {h};
        assert Hash(nodes[h]) == h;
        if nodes[h].height > growFrom {
          branch := InsertByHeight(branch, nodes[h]);
        }
      }
    }
  }

  ghost predicate ByHeight(branch: seq<TreeNode>) {
    forall i, j :: 0 <= i < j < |branch| ==> branch[i].height <= branch[j].height && branch[i] != branch[j]
  }

  method InsertByHeight(branch: seq<TreeNode>, node: TreeNode) returns (r: seq<TreeNode>)
    requires ByHeight(branch) && node !in branch
    ensures ByHeight(r)
    ensures forall x :: x in r <==> x in branch || x == node
  {
    var i := |branch|;
    while i > 0 && node.height < branch[i - 1].height
      invariant 0 <= i <= |branch|
      invariant forall k :: i <= k < |branch| ==> node.height < branch[k].height
    {
      i := i - 1;
    }
    r := branch[..i] + [node] + branch[i..];
    InsertedByHeight(branch, node, i);
    InsertedIsIn(branch, node, i);
  }

  lemma InsertedByHeight(branch: seq<TreeNode>, node: TreeNode, i: nat)
    requires ByHeight(branch) && node !in branch && i <= |branch|
    requires i > 0 ==> branch[i - 1].height <= node.height
    requires i < |branch| ==> node.height < branch[i].height
    ensures ByHeight(branch[..i] + [node] + branch[i..])
  {
    var r := branch[..i] + [node] + branch[i..];
    forall j, k | 0 <= j < k < |r| ensures r[j].height <= r[k].height && r[j] != r[k] {
      var a, b := if j < i then j else j - 1, if k < i then k else k - 1;
      if j == i {
        assert r[k] == branch[b] && branch[i].height <= branch[b].height;
      } else if k == i {
        assert r[j] == branch[a] && branch[a].height <= branch[i - 1].height;
      } else {
        assert r[j] == branch[a] && r[k] == branch[b];
      }
    }
  }

  lemma InsertedIsIn(branch: seq<TreeNode>, node: TreeNode, i: nat)
    requires i <= |branch|
    ensures forall x :: x in branch[..i] + [node] + branch[i..] <==> x in branch || x == node
  {
    assert branch == branch[..i] + branch[i..];
  }
}
