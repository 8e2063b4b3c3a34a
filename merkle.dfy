/** Merkle roots and authentication paths over integer leaves.
    A level is reduced by hashing consecutive pairs; a lone last node is
    carried up to the next level unhashed. */
module Merkle {
  import opened HashFunctions

  /** One sibling entry of a path: the sibling's value, and whether the
      current node is the left child (so the sibling is the right operand). */
  type PathEntry = (int, bool)

  /** One level reduction. */
  function Step(hash: HashFunction, nodes: seq<int>): (next: seq<int>)
    ensures |next| == (|nodes| + 1) / 2
    ensures forall k :: 0 <= k < |next| ==>
              next[k] == if 2 * k + 1 < |nodes| then hash(nodes[2 * k], nodes[2 * k + 1]) else nodes[2 * k]
    decreases |nodes|
  {
    if |nodes| < 2 then nodes
    else [hash(nodes[0], nodes[1])] + Step(hash, nodes[2..])
  }

  /** The root by direct recursive reduction. */
  function Root(hash: HashFunction, nodes: seq<int>): int
    requires |nodes| > 0
    decreases |nodes|
  {
    if |nodes| == 1 then nodes[0] else Root(hash, Step(hash, nodes))
  }

  /** The authentication path of the node at `index`, leaf level first:
      at each level a sibling is recorded only when it exists. */
  function PathOf(hash: HashFunction, nodes: seq<int>, index: nat): seq<PathEntry>
    decreases |nodes|
  {
    if |nodes| <= 1 then []
    else
      var sibling := if index % 2 == 0 then index + 1 else index - 1;
      var here := if sibling < |nodes| then [(nodes[sibling], index % 2 == 0)] else [];
      here + PathOf(hash, Step(hash, nodes), index / 2)
  }

  /** Folds a path from a leaf value towards the root. */
  function Replay(hash: HashFunction, current: int, path: seq<PathEntry>): int
    decreases |path|
  {
    if path == [] then current
    else
      var (sibling, isLeft) := path[0];
      Replay(hash, if isLeft then hash(current, sibling) else hash(sibling, current), path[1..])
  }

  /** Number of level reductions until one node remains. */
  function Levels(n: nat): nat
  {
    if n <= 1 then 0 else 1 + Levels((n + 1) / 2)
  }

  function Pow2(k: nat): nat
  {
    if k == 0 then 1 else 2 * Pow2(k - 1)
  }

  /** A single leaf is its own root. */
  lemma RootOfOne(hash: HashFunction, leaf: int)
    ensures Root(hash, [leaf]) == leaf
  {
  }

  /** Two leaves are hashed once. */
  lemma RootOfTwo(hash: HashFunction, a: int, b: int)
    ensures Root(hash, [a, b]) == hash(a, b)
  {
    assert Step(hash, [a, b]) == [hash(a, b)];
  }

  /** Four leaves form a full two-level tree. */
  lemma RootOfFour(hash: HashFunction, a: int, b: int, c: int, d: int)
    ensures Root(hash, [a, b, c, d]) == hash(hash(a, b), hash(c, d))
  {
    assert Step(hash, [a, b, c, d]) == [hash(a, b), hash(c, d)];
    assert Step(hash, [hash(a, b), hash(c, d)]) == [hash(hash(a, b), hash(c, d))];
    assert Root(hash, [a, b, c, d]) == Root(hash, [hash(a, b), hash(c, d)]);
  }

  /** The odd tail is carried up unhashed: [a, b, c] gives hash(hash(a, b), c). */
  lemma RootOfThree(hash: HashFunction, a: int, b: int, c: int)
    ensures Root(hash, [a, b, c]) == hash(hash(a, b), c)
  {
    assert Step(hash, [a, b, c]) == [hash(a, b), c];
    assert Step(hash, [hash(a, b), c]) == [hash(hash(a, b), c)];
    assert Root(hash, [a, b, c]) == Root(hash, [hash(a, b), c]);
    assert Root(hash, [hash(a, b), c]) == Root(hash, [hash(hash(a, b), c)]);
  }

  /** Replaying the authentication path from the leaf reproduces the root. */
  lemma {:induction false} ReplayReproducesRoot(hash: HashFunction, nodes: seq<int>, index: nat)
    requires index < |nodes|
    ensures Replay(hash, nodes[index], PathOf(hash, nodes, index)) == Root(hash, nodes)
    decreases |nodes|
  {
    if |nodes| > 1 {
      var next := Step(hash, nodes);
      var sibling := if index % 2 == 0 then index + 1 else index - 1;
      var rest := PathOf(hash, next, index / 2);
      assert index / 2 < |next|;
      if sibling < |nodes| {
        var entry := (nodes[sibling], index % 2 == 0);
        assert PathOf(hash, nodes, index) == [entry] + rest;
        assert ([entry] + rest)[1..] == rest;
        if index % 2 == 0 {
          assert 2 * (index / 2) == index;
          assert next[index / 2] == hash(nodes[index], nodes[sibling]);
        } else {
          assert 2 * (index / 2) + 1 == index;
          assert next[index / 2] == hash(nodes[sibling], nodes[index]);
        }
        assert Replay(hash, nodes[index], [entry] + rest) == Replay(hash, next[index / 2], rest);
      } else {
        assert index % 2 == 0 && 2 * (index / 2) == index;
        assert PathOf(hash, nodes, index) == rest;
        assert next[index / 2] == nodes[index];
      }
      ReplayReproducesRoot(hash, next, index / 2);
    }
  }

  /** Replay reads the flags only through the operand order, so with a
      commutative hash any choice of flags gives the same result. */
  lemma {:induction false} ReplayIgnoresFlagsWhenCommutative(
    hash: HashFunction, current: int, p: seq<PathEntry>, q: seq<PathEntry>)
    requires Commutative(hash)
    requires |p| == |q|
    requires forall i :: 0 <= i < |p| ==> p[i].0 == q[i].0
    ensures Replay(hash, current, p) == Replay(hash, current, q)
    decreases |p|
  {
    if p != [] {
      var next := hash(current, p[0].0);
      assert hash(p[0].0, current) == next;
      ReplayIgnoresFlagsWhenCommutative(hash, next, p[1..], q[1..]);
    }
  }

  /** The path has at most one entry per level. */
  lemma {:induction false} PathLengthAtMostLevels(hash: HashFunction, nodes: seq<int>, index: nat)
    ensures |PathOf(hash, nodes, index)| <= Levels(|nodes|)
    decreases |nodes|
  {
    if |nodes| > 1 {
      PathLengthAtMostLevels(hash, Step(hash, nodes), index / 2);
    }
  }

  /** Each round of the reduction loop uses up exactly one level. */
  lemma LevelsStep(hash: HashFunction, nodes: seq<int>)
    requires |nodes| > 1
    ensures Levels(|nodes|) == 1 + Levels(|Step(hash, nodes)|)
  {
  }

  /** Levels(n) is the ceiling of log2(n). */
  lemma {:induction false} LevelsIsCeilLog2(n: nat)
    requires n >= 2
    ensures Pow2(Levels(n) - 1) < n <= Pow2(Levels(n))
    decreases n
  {
    var m := (n + 1) / 2;
    if m >= 2 {
      LevelsIsCeilLog2(m);
      assert Levels(n) == 1 + Levels(m);
      assert Pow2(Levels(n)) == 2 * Pow2(Levels(m));
      assert Pow2(Levels(n) - 1) == Pow2(Levels(m)) == 2 * Pow2(Levels(m) - 1);
    } else {
      assert n == 2 && Levels(n) == 1;
    }
  }

  /** When the leaf count is a power of two, no level has a lone node and the
      path has exactly one entry per level. */
  lemma {:induction false} PathLengthPowerOfTwo(hash: HashFunction, nodes: seq<int>, index: nat, k: nat)
    requires |nodes| == Pow2(k)
    requires index < |nodes|
    ensures |PathOf(hash, nodes, index)| == k
    decreases k
  {
    if k > 0 {
      var next := Step(hash, nodes);
      assert |next| == Pow2(k - 1);
      assert index % 2 == 0 ==> index + 1 < |nodes|;
      PathLengthPowerOfTwo(hash, next, index / 2, k - 1);
    }
  }

  /** With an odd tail a level can contribute no entry: for three leaves the
      path of the last is one entry long, although there are two levels. */
  lemma PathShorterThanLevelsWithOddTail(hash: HashFunction, a: int, b: int, c: int)
    ensures PathOf(hash, [a, b, c], 2) == [(hash(a, b), false)]
    ensures Levels(3) == 2
  {
    assert Step(hash, [a, b, c]) == [hash(a, b), c];
    assert Step(hash, [hash(a, b), c]) == [hash(hash(a, b), c)];
    assert PathOf(hash, [hash(hash(a, b), c)], 0) == [];
    assert PathOf(hash, [hash(a, b), c], 1) == [(hash(a, b), false)];
    assert PathOf(hash, [a, b, c], 2) == PathOf(hash, [hash(a, b), c], 1);
  }

  /** A tree: its leaves, its root and the hash that built it. */
  datatype MerkleTree = MerkleTree(root: int, leaves: seq<int>, hashFunction: HashFunction)

  /** Reduces the leaves level by level until one node remains. */
  method ComputeRoot(leaves: seq<int>, hash: HashFunction) returns (root: int)
    requires |leaves| > 0
    ensures root == Root(hash, leaves)
  {
    var nodes := leaves;
    while |nodes| > 1
      invariant |nodes| > 0
      invariant Root(hash, nodes) == Root(hash, leaves)
      decreases |nodes|
    {
      nodes := Step(hash, nodes);
    }
    root := nodes[0];
  }

  /** Builds a tree: keeps the leaves and hash, and computes the root. */
  method NewTree(leaves: seq<int>, hash: HashFunction) returns (tree: MerkleTree)
    requires |leaves| > 0
    ensures tree.leaves == leaves
    ensures tree.root == Root(hash, leaves)
    ensures tree.hashFunction == hash
  {
    var root := ComputeRoot(leaves, hash);
    tree := MerkleTree(root, leaves, hash);
  }

  /** The authentication path for `index`, built by simulating the level
      reduction on a copy of the leaves; the tree itself is a value and is
      left as it was. */
  method MerklePath(tree: MerkleTree, index: nat) returns (path: seq<PathEntry>)
    ensures path == PathOf(tree.hashFunction, tree.leaves, index)
  {
    var hash := tree.hashFunction;
    path := [];
    var currentIndex := index;
    var nodes := tree.leaves;
    while |nodes| > 1
      invariant path + PathOf(hash, nodes, currentIndex) == PathOf(hash, tree.leaves, index)
      decreases |nodes|
    {
      var nextLevel := Step(hash, nodes);
      var siblingIndex := if currentIndex % 2 == 0 then currentIndex + 1 else currentIndex - 1;
      ghost var rest := PathOf(hash, nextLevel, currentIndex / 2);
      if siblingIndex < |nodes| {
        var entry := (nodes[siblingIndex], currentIndex % 2 == 0);
        assert PathOf(hash, nodes, currentIndex) == [entry] + rest;
        assert path + ([entry] + rest) == (path + [entry]) + rest;
        path := path + [entry];
      } else {
        assert PathOf(hash, nodes, currentIndex) == rest;
      }
      currentIndex := currentIndex / 2;
      nodes := nextLevel;
    }
  }

  /** For a leaf of the tree, replaying the path built for it yields the tree's root. */
  lemma PathOfTreeReplaysToRoot(tree: MerkleTree, index: nat)
    requires |tree.leaves| > 0 && tree.root == Root(tree.hashFunction, tree.leaves)
    requires index < |tree.leaves|
    ensures Replay(tree.hashFunction, tree.leaves[index], PathOf(tree.hashFunction, tree.leaves, index)) == tree.root
  {
    ReplayReproducesRoot(tree.hashFunction, tree.leaves, index);
  }
}
