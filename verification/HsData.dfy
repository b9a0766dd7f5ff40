/** Proposals and quorum certificates (hs-data/src/tree_node.rs, hs-data/src/qc.rs).

    Transactions enter both the hash and the signed bytes only through their
    concatenation, so a node carries that concatenation as `payload`; module
    Encoding proves that nothing else of a node is lost.

    SHA-256 and threshold signatures are ideal.  A digest remembers exactly what was
    hashed, so hashing is injective and no hash can lie on its own parent path.  A
    combined signature remembers the node it was made for; who must have signed for it
    to exist is stated by module Protocol. */
module HsData {

  type Byte = b: int | 0 <= b < 256
  type ViewNumber = nat
  type ReplicaId = nat

  datatype Option<+T> = None | Some(value: T)

  function Max(a: int, b: int): int {
    if a < b then b else a
  }

  datatype NodeHash =
    | Genesis  // the 0xAB filler that the initial node has for a parent
    | Zeroed   // the node named by the zeroed certificate of the initial node
    | Digest(payload: seq<Byte>, height: ViewNumber, parent: NodeHash)

  datatype CombinedSign =
    | ZeroSign
    | Threshold(signed: TreeNode)
    | Garbage

  datatype GenericQC = GenericQC(view: ViewNumber, node: NodeHash, sign: CombinedSign)

  datatype TreeNode = TreeNode(payload: seq<Byte>, height: ViewNumber, parent: NodeHash, justify: GenericQC)

  /** The justify certificate is not hashed. */
  function Hash(node: TreeNode): NodeHash {
    Digest(node.payload, node.height, node.parent)
  }

  const INIT_NODE := TreeNode([], 0, Genesis, GenericQC(0, Zeroed, ZeroSign))
  const INIT_QC := GenericQC(0, Hash(INIT_NODE), ZeroSign)

  function HeightOf(h: NodeHash): ViewNumber {
    if h.Digest? then h.height else 0
  }

  /** `ancestor` lies on the parent path that starts at `h`, `h` included. */
  predicate Extends(h: NodeHash, ancestor: NodeHash) {
    h == ancestor || (h.Digest? && Extends(h.parent, ancestor))
  }

  ghost predicate Conflicting(a: NodeHash, b: NodeHash) {
    !Extends(a, b) && !Extends(b, a)
  }

  lemma {:induction false} ExtendsTransitive(a: NodeHash, b: NodeHash, c: NodeHash)
    requires Extends(a, b) && Extends(b, c)
    ensures Extends(a, c)
  {
    if a != b {
      ExtendsTransitive(a.parent, b, c);
    }
  }

  function Depth(h: NodeHash): nat {
    if h.Digest? then Depth(h.parent) + 1 else 0
  }

  lemma {:induction false} AncestorsAreShallower(h: NodeHash, ancestor: NodeHash)
    requires Extends(h, ancestor)
    ensures h == ancestor || Depth(h) > Depth(ancestor)
  {
    if h != ancestor {
      AncestorsAreShallower(h.parent, ancestor);
    }
  }

  /** Two different nodes on one parent conflict. */
  lemma SiblingsConflict(a: TreeNode, b: TreeNode)
    requires a.parent == b.parent && Hash(a) != Hash(b)
    ensures Conflicting(Hash(a), Hash(b))
  {
    if Extends(Hash(a), Hash(b)) {
      AncestorsAreShallower(Hash(a), Hash(b));
    }
    if Extends(Hash(b), Hash(a)) {
      AncestorsAreShallower(Hash(b), Hash(a));
    }
  }
}
