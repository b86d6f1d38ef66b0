/** Merkle trees with inclusion proofs (chain-core/src/common/merkle_tree.rs).

    Blake2s is taken to be free of collisions: a digest is a term that remembers what was hashed.
    The two prefix bytes 0 and 1 are the two constructors `LeafDigest` and `NodeDigest`. The hash of
    the empty tree is a constructor of its own; as bytes it is the hash of an empty leaf. */
module Merkle {
  import opened Wrappers

  datatype Digest<T> =
    | EmptyDigest
    | LeafDigest(value: T)
    | NodeDigest(left: Digest<T>, right: Digest<T>)

  datatype Tree<T> =
    | Empty
    | Leaf(hash: Digest<T>, value: T)
    | Node(hash: Digest<T>, left: Tree<T>, right: Tree<T>)

  function RootOf<T>(t: Tree<T>): Digest<T> {
    match t
    case Empty => EmptyDigest
    case Leaf(h, _) => h
    case Node(h, _, _) => h
  }

  function LeafTree<T>(v: T): Tree<T> {
    Leaf(LeafDigest(v), v)
  }

  function NodeTree<T>(l: Tree<T>, r: Tree<T>): Tree<T> {
    Node(NodeDigest(RootOf(l), RootOf(r)), l, r)
  }

  function Leaves<T>(t: Tree<T>): seq<T> {
    match t
    case Empty => []
    case Leaf(_, v) => [v]
    case Node(_, l, r) => Leaves(l) + Leaves(r)
  }

  /** Every stored hash is the hash of what is below it. */
  predicate Hashed<T(==)>(t: Tree<T>) {
    match t
    case Empty => false
    case Leaf(h, v) => h == LeafDigest(v)
    case Node(h, l, r) => h == NodeDigest(RootOf(l), RootOf(r)) && Hashed(l) && Hashed(r)
  }

  // ---------- The recursive tree of section 2.1 of RFC 6962 ----------

  function Pow2(e: nat): (p: nat)
    ensures p >= 1
  {
    if e == 0 then 1 else 2 * Pow2(e - 1)
  }

  function CeilLog2(n: nat): (h: nat)
    requires n >= 1
    ensures n <= Pow2(h)
    ensures h > 0 ==> Pow2(h - 1) < n
  {
    if n == 1 then 0 else 1 + CeilLog2((n + 1) / 2)
  }

  /** `checked_next_power_of_two() >> 1`: the largest power of two below n. */
  function SplitPoint(n: nat): (k: nat)
    requires n >= 2
    ensures 1 <= k < n <= 2 * k
  {
    Pow2(CeilLog2(n) - 1)
  }

  function RfcTree<T>(xs: seq<T>): Tree<T>
    requires xs != []
    decreases |xs|
  {
    if |xs| == 1 then LeafTree(xs[0])
    else
      var k := SplitPoint(|xs|);
      NodeTree(RfcTree(xs[..k]), RfcTree(xs[k..]))
  }

  lemma {:induction false} Pow2Monotone(a: nat, b: nat)
    requires a <= b
    ensures Pow2(a) <= Pow2(b)
    ensures a < b ==> 2 * Pow2(a) <= Pow2(b)
    decreases b - a
  {
    if a + 1 < b {
      Pow2Monotone(a, b - 1);
    }
  }

  lemma CeilLog2Unique(n: nat, h: nat)
    requires n >= 1 && n <= Pow2(h) && (h > 0 ==> Pow2(h - 1) < n)
    ensures CeilLog2(n) == h
  {
    var c := CeilLog2(n);
    if c < h {
      Pow2Monotone(c, h - 1);
    } else if h < c {
      Pow2Monotone(h, c - 1);
    }
  }

  lemma JoinShape<T>(l: Tree<T>, r: Tree<T>)
    requires Hashed(l) && Hashed(r)
    ensures Hashed(NodeTree(l, r)) && Leaves(NodeTree(l, r)) == Leaves(l) + Leaves(r)
  {
  }

  lemma {:induction false} RfcTreeShape<T>(xs: seq<T>)
    requires xs != []
    ensures Hashed(RfcTree(xs)) && Leaves(RfcTree(xs)) == xs
    decreases |xs|
  {
    hide SplitPoint, Pow2, CeilLog2;
    if |xs| > 1 {
      var k := SplitPoint(|xs|);
      RfcTreeShape(xs[..k]);
      RfcTreeShape(xs[k..]);
      JoinShape(RfcTree(xs[..k]), RfcTree(xs[k..]));
      assert RfcTree(xs) == NodeTree(RfcTree(xs[..k]), RfcTree(xs[k..]));
      hide RfcTree, Hashed, Leaves, NodeTree;
      assert xs == xs[..k] + xs[k..];
    }
  }

  // ---------- The bottom-up construction ----------

  /** One round of `PairIter`: neighbours are joined, a last odd tree is carried over. */
  function PairUp<T>(trees: seq<Tree<T>>): (r: seq<Tree<T>>)
    ensures |r| == (|trees| + 1) / 2
  {
    if |trees| == 0 then []
    else if |trees| == 1 then trees
    else [NodeTree(trees[0], trees[1])] + PairUp(trees[2..])
  }

  /** What the list of trees is after e rounds: the recursive trees of the blocks of length 2^e. */
  ghost function Level<T>(xs: seq<T>, e: nat): (r: seq<Tree<T>>)
    requires xs != []
    ensures r != []
    ensures |r| == 1 <==> |xs| <= Pow2(e)
    decreases |xs|
  {
    var k := Pow2(e);
    if |xs| <= k then [RfcTree(xs)] else [RfcTree(xs[..k])] + Level(xs[k..], e)
  }

  lemma JoinBlocks<T>(xs: seq<T>, e: nat)
    requires Pow2(e) < |xs| <= Pow2(e + 1)
    ensures RfcTree(xs) == NodeTree(RfcTree(xs[..Pow2(e)]), RfcTree(xs[Pow2(e)..]))
  {
    CeilLog2Unique(|xs|, e + 1);
  }

  lemma FirstTwoBlocks<T>(xs: seq<T>, e: nat)
    requires |xs| > Pow2(e + 1)
    ensures Level(xs, e) ==
            [RfcTree(xs[..Pow2(e)]), RfcTree(xs[Pow2(e)..Pow2(e + 1)])] + Level(xs[Pow2(e + 1)..], e)
  {
    hide RfcTree;
    var k := Pow2(e);
    var tail := xs[k..];
    assert tail[..k] == xs[k..2 * k] && tail[k..] == xs[2 * k..];
    assert Level(tail, e) == [RfcTree(tail[..k])] + Level(tail[k..], e);
  }

  lemma FirstTwoJoined<T>(xs: seq<T>, e: nat)
    requires |xs| > Pow2(e + 1)
    ensures RfcTree(xs[..Pow2(e + 1)]) ==
            NodeTree(RfcTree(xs[..Pow2(e)]), RfcTree(xs[Pow2(e)..Pow2(e + 1)]))
  {
    hide RfcTree, NodeTree;
    var k := Pow2(e);
    var first := xs[..2 * k];
    JoinBlocks(first, e);
    assert first[..k] == xs[..k] && first[k..] == xs[k..2 * k];
  }

  lemma {:induction false} PairUpLevel<T>(xs: seq<T>, e: nat)
    requires xs != []
    ensures PairUp(Level(xs, e)) == Level(xs, e + 1)
    decreases |xs|
  {
    var k := Pow2(e);
    if |xs| <= k {
      assert PairUp([RfcTree(xs)]) == [RfcTree(xs)];
    } else if |xs| <= 2 * k {
      JoinBlocks(xs, e);
      assert Level(xs, e) == [RfcTree(xs[..k]), RfcTree(xs[k..])];
    } else {
      FirstTwoBlocks(xs, e);
      FirstTwoJoined(xs, e);
      PairUpLevel(xs[2 * k..], e);
      assert Level(xs, e)[2..] == Level(xs[2 * k..], e);
    }
  }

  lemma {:induction false} LevelZero<T>(xs: seq<T>)
    requires xs != []
    ensures Level(xs, 0) == seq(|xs|, i requires 0 <= i < |xs| => LeafTree(xs[i]))
    decreases |xs|
  {
    if |xs| > 1 {
      LevelZero(xs[1..]);
      assert xs[..1] == [xs[0]];
    }
  }

  datatype MerkleTree<T> = MerkleTree(tree: Tree<T>, len: nat, height: nat)

  function BuiltFrom<T>(values: seq<T>): MerkleTree<T> {
    if values == [] then MerkleTree(Empty, 0, 0)
    else MerkleTree(RfcTree(values), |values|, CeilLog2(|values|))
  }

  /** `MerkleTree::new`: the pairing loop builds the tree of section 2.1 of RFC 6962, and the number
      of rounds it counts is the ceiling of log2 of the number of leaves. */
  method NewMerkleTree<T>(values: seq<T>) returns (m: MerkleTree<T>)
    ensures m == BuiltFrom(values)
  {
    if values == [] {
      return MerkleTree(Empty, 0, 0);
    }
    var trees := seq(|values|, i requires 0 <= i < |values| => LeafTree(values[i]));
    var height := 0;
    LevelZero(values);
    while |trees| > 1
      invariant trees == Level(values, height)
      invariant height > 0 ==> Pow2(height - 1) < |values|
      decreases |trees|
    {
      PairUpLevel(values, height);
      trees := PairUp(trees);
      height := height + 1;
    }
    CeilLog2Unique(|values|, height);
    m := MerkleTree(trees[0], |values|, height);
  }

  // ---------- Inclusion proofs ----------

  datatype Sibling<T> = LeftSibling(hash: Digest<T>) | RightSibling(hash: Digest<T>)

  datatype Path<T> = Path(nodeHash: Digest<T>, sibling: Option<Sibling<T>>, subPath: Option<Path<T>>)

  datatype Proof<T> = Proof(rootHash: Digest<T>, path: Path<T>, value: T)

  function GeneratePath<T(==)>(t: Tree<T>, v: T): Option<Path<T>> {
    match t
    case Empty => None
    case Leaf(h, _) => if LeafDigest(v) == h then Some(Path(h, None, None)) else None
    case Node(h, l, r) =>
      match GeneratePath(l, v)
      case Some(p) => Some(Path(h, None, Some(p.(sibling := Some(RightSibling(RootOf(r)))))))
      case None =>
        match GeneratePath(r, v)
        case Some(p) => Some(Path(h, None, Some(p.(sibling := Some(LeftSibling(RootOf(l)))))))
        case None => None
  }

  function Combine<T>(s: Sibling<T>, h: Digest<T>): Digest<T> {
    match s
    case LeftSibling(g) => NodeDigest(g, h)
    case RightSibling(g) => NodeDigest(h, g)
  }

  function CalculateHash<T>(p: Path<T>): Option<Digest<T>> {
    match p.subPath
    case None => Some(if p.sibling.None? then p.nodeHash else Combine(p.sibling.value, p.nodeHash))
    case Some(sub) =>
      match CalculateHash(sub)
      case None => None
      case Some(h) => Some(if p.sibling.None? then h else Combine(p.sibling.value, h))
  }

  predicate VerifyPath<T(==)>(p: Path<T>) {
    CalculateHash(p) == Some(p.nodeHash)
  }

  predicate VerifyProof<T(==)>(p: Proof<T>, root: Digest<T>) {
    root == p.rootHash && root == p.path.nodeHash && VerifyPath(p.path)
  }

  function GenerateProof<T(==)>(m: MerkleTree<T>, v: T): Option<Proof<T>> {
    match GeneratePath(m.tree, v)
    case None => None
    case Some(path) => Some(Proof(RootOf(m.tree), path, v))
  }

  /** A path is found exactly for the leaves, and it hashes up to the root of its tree. */
  lemma {:induction false} PathsOfLeaves<T>(t: Tree<T>, v: T)
    requires Hashed(t)
    ensures GeneratePath(t, v).Some? <==> v in Leaves(t)
    ensures GeneratePath(t, v).Some? ==>
              var p := GeneratePath(t, v).value;
              p.sibling == None && p.nodeHash == RootOf(t) && CalculateHash(p) == Some(RootOf(t))
  {
    match t
    case Leaf(_, _) =>
    case Node(_, l, r) =>
      PathsOfLeaves(l, v);
      PathsOfLeaves(r, v);
  }

  /** The proofs of a tree built from a list: one for each member of the list and for nothing else,
      each verifying against the root and carrying the value asked for. */
  lemma ProofsOfMembers<T>(values: seq<T>, v: T)
    ensures GenerateProof(BuiltFrom(values), v).Some? <==> v in values
    ensures v in values ==>
              var p := GenerateProof(BuiltFrom(values), v).value;
              VerifyProof(p, RootOf(BuiltFrom(values).tree)) && p.value == v
  {
    if values != [] {
      RfcTreeShape(values);
      PathsOfLeaves(RfcTree(values), v);
    }
  }

  lemma {:induction false} HashBindsTree<T>(a: Tree<T>, b: Tree<T>)
    requires Hashed(a) && Hashed(b) && RootOf(a) == RootOf(b)
    ensures a == b
  {
    match a
    case Leaf(_, _) =>
    case Node(_, l, r) =>
      HashBindsTree(l, b.left);
      HashBindsTree(r, b.right);
  }

  /** The root of values that are not empty commits to the whole list: its members, their order and
      their number. */
  lemma RootBindsValues<T>(xs: seq<T>, ys: seq<T>)
    requires RootOf(BuiltFrom(xs).tree) == RootOf(BuiltFrom(ys).tree)
    ensures xs == ys
  {
    if xs != [] { RfcTreeShape(xs); }
    if ys != [] { RfcTreeShape(ys); }
    if xs != [] && ys != [] {
      HashBindsTree(RfcTree(xs), RfcTree(ys));
    }
  }

  type Bytes = seq<nat>

  /** The digest as it is stored: the empty tree has the hash of a leaf with an empty slice. */
  function AsBytes(d: Digest<Bytes>): Digest<Bytes> {
    if d == EmptyDigest then LeafDigest([]) else d
  }

  lemma SoleLeaf(xs: seq<Bytes>)
    requires xs != []
    ensures RootOf(RfcTree(xs)) == LeafDigest([]) <==> xs == [[]]
  {
    RfcTreeShape(xs);
    if xs == [[]] {
      assert |xs| == 1 && xs[0] == [];
    }
  }

  /** Byte strings, empty ones included: equal stored roots mean equal lists, except that the empty
      list and the list of one empty string have the same root. */
  lemma StoredRootsEqual(xs: seq<Bytes>, ys: seq<Bytes>)
    ensures AsBytes(RootOf(BuiltFrom(xs).tree)) == AsBytes(RootOf(BuiltFrom(ys).tree)) <==>
            xs == ys || (xs == [] && ys == [[]]) || (xs == [[]] && ys == [])
  {
    if xs != [] {
      RfcTreeShape(xs);
      SoleLeaf(xs);
    }
    if ys != [] {
      RfcTreeShape(ys);
      SoleLeaf(ys);
    }
    if RootOf(BuiltFrom(xs).tree) == RootOf(BuiltFrom(ys).tree) { RootBindsValues(xs, ys); }
  }
}
