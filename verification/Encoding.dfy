/** The bytes that are hashed and signed (hs-data/src/tree_node.rs, hs-data/src/qc.rs).  They
    determine height, certificate, parent and the concatenated transactions and nothing
    more, which is what a node of module HsData consists of. */
module Encoding {
  import opened HsData

  type Bytes32 = b: seq<Byte> | |b| == 32 witness seq(32, _ => 0)
  type Bytes96 = b: seq<Byte> | |b| == 96 witness seq(96, _ => 0)
  type U64 = n: nat | n < 0x1_0000_0000_0000_0000

  datatype RawQC = RawQC(view: U64, node: Bytes32, sign: Bytes96)
  datatype RawNode = RawNode(height: U64, txs: seq<seq<Byte>>, parent: Bytes32, justify: RawQC)

  function Pow256(k: nat): nat {
    if k == 0 then 1 else 256 * Pow256(k - 1)
  }

  /** The low `k` bytes of a number, most significant first. */
  function BigEndian(n: nat, k: nat): (bytes: seq<Byte>)
    ensures |bytes| == k
    decreases k
  {
    if k == 0 then [] else BigEndian(n / 256, k - 1) + [n % 256]
  }

  function FromBigEndian(bytes: seq<Byte>): nat {
    if bytes == [] then 0 else 256 * FromBigEndian(bytes[..|bytes| - 1]) + bytes[|bytes| - 1]
  }

  lemma {:induction false} BigEndianRoundTrip(n: nat, k: nat)
    requires n < Pow256(k)
    ensures FromBigEndian(BigEndian(n, k)) == n
    decreases k
  {
    if k > 0 {
      BigEndianRoundTrip(n / 256, k - 1);
      var bytes := BigEndian(n, k);
      assert bytes[..|bytes| - 1] == BigEndian(n / 256, k - 1);
    }
  }

  function U64Bytes(n: U64): (bytes: seq<Byte>)
    ensures |bytes| == 8
  {
    BigEndian(n, 8)
  }

  lemma U64BytesFaithful(a: U64, b: U64)
    ensures U64Bytes(a) == U64Bytes(b) <==> a == b
  {
    assert Pow256(4) == 0x1_0000_0000;
    assert Pow256(8) == 256 * (256 * (256 * (256 * Pow256(4))));
    BigEndianRoundTrip(a, 8);
    BigEndianRoundTrip(b, 8);
  }

  function QcBytes(qc: RawQC): (bytes: seq<Byte>)
    ensures |bytes| == 136
  {
    U64Bytes(qc.view) + qc.node + qc.sign
  }

  /** All transactions, one after another. */
  function Flat(txs: seq<seq<Byte>>): seq<Byte> {
    if txs == [] then [] else Flat(txs[..|txs| - 1]) + txs[|txs| - 1]
  }

  /** What is signed. */
  function NodeBytes(node: RawNode): seq<Byte> {
    U64Bytes(node.height) + QcBytes(node.justify) + node.parent + Flat(node.txs)
  }

  /** What is hashed. */
  function HashedBytes(node: RawNode): seq<Byte> {
    Flat(node.txs) + U64Bytes(node.height) + node.parent
  }

  lemma OneMoreTransaction(txs: seq<seq<Byte>>, i: nat)
    requires i < |txs|
    ensures Flat(txs[..i + 1]) == Flat(txs[..i]) + txs[i]
  {
    assert txs[..i + 1][..i] == txs[..i];
  }

  lemma AppendedLater(a: seq<Byte>, b: seq<Byte>, c: seq<Byte>)
    ensures (a + b) + c == a + (b + c)
  {
  }

  method NodeToBeBytes(node: RawNode) returns (buf: seq<Byte>)
    ensures buf == NodeBytes(node)
  {
    hide Flat, U64Bytes, QcBytes;
    buf := U64Bytes(node.height) + QcBytes(node.justify) + node.parent;
    ghost var head := buf;
    NothingAppended(head);
    for i := 0 to |node.txs|
      invariant buf == head + Flat(node.txs[..i])
    {
      AppendedLater(head, Flat(node.txs[..i]), node.txs[i]);
      OneMoreTransaction(node.txs, i);
      buf := buf + node.txs[i];
    }
    assert node.txs[..|node.txs|] == node.txs;
  }

  lemma NothingAppended(head: seq<Byte>)
    ensures forall txs: seq<seq<Byte>> :: head == head + Flat(txs[..0])
  {
  }

  method HashInput(node: RawNode) returns (buf: seq<Byte>)
    ensures buf == HashedBytes(node)
  {
    buf := [];
    for i := 0 to |node.txs|
      invariant buf == Flat(node.txs[..i])
    {
      OneMoreTransaction(node.txs, i);
      buf := buf + node.txs[i];
    }
    assert node.txs[..|node.txs|] == node.txs;
    buf := buf + U64Bytes(node.height);
    buf := buf + node.parent;
  }

  /** Equal joins with equally long first parts have equal parts. */
  lemma SplitEqual(a: seq<Byte>, b: seq<Byte>, c: seq<Byte>, d: seq<Byte>)
    requires |a| == |c|
    ensures a + b == c + d <==> a == c && b == d
  {
    if a + b == c + d {
      assert a == (a + b)[..|a|] && c == (c + d)[..|a|];
      assert b == (a + b)[|a|..] && d == (c + d)[|a|..];
    }
  }

  lemma QcBytesFaithful(a: RawQC, b: RawQC)
    ensures QcBytes(a) == QcBytes(b) <==> a == b
  {
    SplitEqual(U64Bytes(a.view) + a.node, a.sign, U64Bytes(b.view) + b.node, b.sign);
    SplitEqual(U64Bytes(a.view), a.node, U64Bytes(b.view), b.node);
    U64BytesFaithful(a.view, b.view);
  }

  lemma SigningBytesFaithful(a: RawNode, b: RawNode)
    ensures NodeBytes(a) == NodeBytes(b)
            <==> a.height == b.height && a.justify == b.justify && a.parent == b.parent && Flat(a.txs) == Flat(b.txs)
  {
    var (ah, aq, bh, bq) := (U64Bytes(a.height), QcBytes(a.justify), U64Bytes(b.height), QcBytes(b.justify));
    SplitEqual(ah + aq + a.parent, Flat(a.txs), bh + bq + b.parent, Flat(b.txs));
    SplitEqual(ah + aq, a.parent, bh + bq, b.parent);
    SplitEqual(ah, aq, bh, bq);
    U64BytesFaithful(a.height, b.height);
    QcBytesFaithful(a.justify, b.justify);
  }

  /** The certificate is not hashed; all else that is signed is. */
  lemma HashedBytesFaithful(a: RawNode, b: RawNode)
    ensures HashedBytes(a) == HashedBytes(b)
            <==> a.height == b.height && a.parent == b.parent && Flat(a.txs) == Flat(b.txs)
  {
    U64BytesFaithful(a.height, b.height);
    if HashedBytes(a) == HashedBytes(b) {
      assert |HashedBytes(a)| == |Flat(a.txs)| + 40 && |HashedBytes(b)| == |Flat(b.txs)| + 40;
    }
    if |Flat(a.txs)| == |Flat(b.txs)| {
      SplitEqual(Flat(a.txs) + U64Bytes(a.height), a.parent, Flat(b.txs) + U64Bytes(b.height), b.parent);
      SplitEqual(Flat(a.txs), U64Bytes(a.height), Flat(b.txs), U64Bytes(b.height));
    }
  }

  // ---------------------------------------------------------------- where everything is

  lemma U64BytesRead(n: U64)
    ensures FromBigEndian(U64Bytes(n)) == n
  {
    assert Pow256(4) == 0x1_0000_0000;
    assert Pow256(8) == 256 * (256 * (256 * (256 * Pow256(4))));
    BigEndianRoundTrip(n, 8);
  }

  /** The transactions follow each other in their order. */
  lemma {:induction false} FlatJoins(a: seq<seq<Byte>>, b: seq<seq<Byte>>)
    ensures Flat(a + b) == Flat(a) + Flat(b) && (|b| == 1 ==> Flat(b) == b[0])
    decreases |b|
  {
    if b == [] {
      assert a + b == a;
    } else {
      var front := b[..|b| - 1];
      FlatJoins(a, front);
      assert (a + b)[..|a + b| - 1] == a + front && (a + b)[|a + b| - 1] == b[|b| - 1];
      AppendedLater(Flat(a), Flat(front), b[|b| - 1]);
    }
  }

  /** Reading the signed bytes back, most significant bytes first. */
  lemma NodeLayout(node: RawNode)
    ensures var bytes, qc := NodeBytes(node), node.justify;
            && |bytes| >= 176
            && FromBigEndian(bytes[..8]) == node.height
            && FromBigEndian(bytes[8..16]) == qc.view && bytes[16..48] == qc.node && bytes[48..144] == qc.sign
            && bytes[144..176] == node.parent && bytes[176..] == Flat(node.txs)
  {
    hide Flat, U64Bytes, FromBigEndian;
    var bytes, qc := NodeBytes(node), node.justify;
    assert bytes[..8] == U64Bytes(node.height) && bytes[8..16] == U64Bytes(qc.view);
    assert bytes[16..48] == qc.node && bytes[48..144] == qc.sign && bytes[144..176] == node.parent && bytes[176..] == Flat(node.txs);
    U64BytesRead(node.height);
    U64BytesRead(qc.view);
  }

  /** Reading the hashed bytes back. */
  lemma HashLayout(node: RawNode)
    ensures var bytes := HashedBytes(node); var n := |bytes| - 40;
            n >= 0 && bytes[..n] == Flat(node.txs) && FromBigEndian(bytes[n..n + 8]) == node.height && bytes[n + 8..] == node.parent
  {
    hide Flat, U64Bytes, FromBigEndian;
    var bytes := HashedBytes(node);
    var n := |bytes| - 40;
    assert bytes[..n] == Flat(node.txs) && bytes[n..n + 8] == U64Bytes(node.height) && bytes[n + 8..] == node.parent;
    U64BytesRead(node.height);
  }
}
