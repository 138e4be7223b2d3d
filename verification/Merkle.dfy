/**
 The Merkle fold of apps/worker/src/live-runtime.ts: calculateMerkleRoot and the check
 verifyProof makes of it. Hex strings stand as bytes, which is what their lower-cased
 order compares; the hash is a parameter.
*/
module Merkle {
  import opened Wrappers

  type Bytes = seq<Byte>

  type Hash = Bytes -> Bytes

  predicate Less(a: Bytes, b: Bytes) {
    if b == [] then false
    else if a == [] then true
    else a[0] < b[0] || (a[0] == b[0] && Less(a[1..], b[1..]))
  }

  /** The two values in order, concatenated. */
  function Pair(a: Bytes, b: Bytes): Bytes { if Less(a, b) then a + b else b + a }

  /** The node after the siblings of a proof, the one nearest the leaf first. */
  function Fold(hash: Hash, node: Bytes, proof: seq<Bytes>): Bytes {
    if proof == [] then node
    else hash(Pair(Fold(hash, node, proof[..|proof| - 1]), proof[|proof| - 1]))
  }

  method CalculateMerkleRoot(hash: Hash, response: Bytes, proof: seq<Bytes>) returns (node: Bytes)
    ensures node == Fold(hash, hash(response), proof)
  {
    node := hash(response);
    for i := 0 to |proof|
      invariant node == Fold(hash, hash(response), proof[..i])
    {
      assert proof[..i + 1][..i] == proof[..i];
      var sibling := proof[i];
      var (first, second) := if Less(node, sibling) then (node, sibling) else (sibling, node);
      node := hash(first + second);
    }
    assert proof[..|proof|] == proof;
  }

  datatype Tree = Leaf(response: Bytes) | Node(left: Tree, right: Tree)

  function Root(hash: Hash, t: Tree): Bytes {
    match t
    case Leaf(response) => hash(response)
    case Node(left, right) => hash(Pair(Root(hash, left), Root(hash, right)))
  }

  /** A position in a tree: at each node, to the left or not. */
  predicate Reaches(t: Tree, route: seq<bool>) {
    route == [] || (t.Node? && Reaches(if route[0] then t.left else t.right, route[1..]))
  }

  function At(t: Tree, route: seq<bool>): Tree
    requires Reaches(t, route)
  {
    if route == [] then t else At(if route[0] then t.left else t.right, route[1..])
  }

  /** The sibling roots along a route, from its end upwards. */
  function Siblings(hash: Hash, t: Tree, route: seq<bool>): seq<Bytes>
    requires Reaches(t, route)
  {
    if route == [] then []
    else Siblings(hash, if route[0] then t.left else t.right, route[1..]) +
         [Root(hash, if route[0] then t.right else t.left)]
  }

  lemma {:induction false} LessTotal(a: Bytes, b: Bytes)
    ensures !(Less(a, b) && Less(b, a)) && (a == b || Less(a, b) || Less(b, a))
  {
    if a != [] && b != [] {
      LessTotal(a[1..], b[1..]);
      assert a == [a[0]] + a[1..] && b == [b[0]] + b[1..];
    }
  }

  /** The order is that of the first difference, a proper prefix coming first. */
  lemma {:induction false} LessIff(a: Bytes, b: Bytes)
    ensures Less(a, b) <==>
      (a <= b && |a| < |b|) || exists i: nat :: i < |a| && i < |b| && a[..i] == b[..i] && a[i] < b[i]
  {
    if a != [] && b != [] {
      LessIff(a[1..], b[1..]);
      if a[0] == b[0] {
        if exists i: nat :: i < |a[1..]| && i < |b[1..]| && a[1..][..i] == b[1..][..i] && a[1..][i] < b[1..][i] {
          var i: nat :| i < |a[1..]| && i < |b[1..]| && a[1..][..i] == b[1..][..i] && a[1..][i] < b[1..][i];
          assert a[..i + 1] == [a[0]] + a[1..][..i] && b[..i + 1] == [b[0]] + b[1..][..i];
          assert a[i + 1] < b[i + 1];
        }
        if exists i: nat :: i < |a| && i < |b| && a[..i] == b[..i] && a[i] < b[i] {
          var i: nat :| i < |a| && i < |b| && a[..i] == b[..i] && a[i] < b[i];
          assert a[1..][..i - 1] == a[..i][1..] && b[1..][..i - 1] == b[..i][1..];
          assert a[1..][i - 1] < b[1..][i - 1];
        }
      } else {
        assert a[..0] == b[..0];
        forall i: nat | 0 < i < |a| && i < |b| ensures a[..i] != b[..i] {
          assert a[..i][0] == a[0] && b[..i][0] == b[0];
        }
      }
    }
  }

  /** A pair is its two values with the smaller one first. */
  lemma {:induction false} PairIsSorted(a: Bytes, b: Bytes)
    ensures Less(a, b) ==> Pair(a, b) == a + b == Pair(b, a)
    ensures a == b ==> Pair(a, b) == a + b
  {
    LessTotal(a, b);
  }

  lemma {:induction false} PairCommutes(a: Bytes, b: Bytes)
    ensures Pair(a, b) == Pair(b, a)
  {
    LessTotal(a, b);
  }

  /** Folding the genuine siblings of any node of any tree gives the root. */
  lemma {:induction false} GenuinePathFolds(hash: Hash, t: Tree, route: seq<bool>)
    requires Reaches(t, route)
    ensures Fold(hash, Root(hash, At(t, route)), Siblings(hash, t, route)) == Root(hash, t)
    decreases |route|
  {
    if route != [] {
      var inner, other := if route[0] then t.left else t.right, if route[0] then t.right else t.left;
      GenuinePathFolds(hash, inner, route[1..]);
      var path := Siblings(hash, t, route);
      assert path[..|path| - 1] == Siblings(hash, inner, route[1..]);
      PairCommutes(Root(hash, inner), Root(hash, other));
    }
  }

  // ------------------------------------------------------------------ converse

  /** Everything hashed to build the tree, and to fold the path. */
  function TreeInputs(hash: Hash, t: Tree): set<Bytes> {
    match t
    case Leaf(response) => {response}
    case Node(left, right) =>
      TreeInputs(hash, left) + TreeInputs(hash, right) + {Pair(Root(hash, left), Root(hash, right))}
  }

  function PathInputs(hash: Hash, node: Bytes, proof: seq<Bytes>): set<Bytes> {
    if proof == [] then {}
    else
      PathInputs(hash, node, proof[..|proof| - 1]) +
      {Pair(Fold(hash, node, proof[..|proof| - 1]), proof[|proof| - 1])}
  }

  function Responses(t: Tree): set<Bytes> {
    match t
    case Leaf(response) => {response}
    case Node(left, right) => Responses(left) + Responses(right)
  }

  /** No two different inputs among these have the same hash. */
  ghost predicate CollisionFree(hash: Hash, inputs: set<Bytes>) {
    forall x, y :: x in inputs && y in inputs && hash(x) == hash(y) ==> x == y
  }

  predicate Digests(hash: Hash, inputs: set<Bytes>) {
    forall x :: x in inputs ==> |hash(x)| == 32
  }

  lemma {:induction false} SplitPair(a: Bytes, b: Bytes, c: Bytes, d: Bytes)
    requires |a| == 32 && |c| == 32 && |d| == 32 && Pair(a, b) == Pair(c, d)
    ensures (a == c && b == d) || (a == d && b == c)
  {
    var p := Pair(a, b);
    assert |b| == 32;
    assert p[..32] + p[32..] == p;
    assert (p[..32] == a && p[32..] == b) || (p[..32] == b && p[32..] == a);
    assert (p[..32] == c && p[32..] == d) || (p[..32] == d && p[32..] == c);
  }

  lemma {:induction false} RootIsHash(hash: Hash, t: Tree)
    ensures exists x :: x in TreeInputs(hash, t) && Root(hash, t) == hash(x)
  {
    if t.Leaf? {
      assert t.response in TreeInputs(hash, t);
    } else {
      assert Pair(Root(hash, t.left), Root(hash, t.right)) in TreeInputs(hash, t);
    }
  }

  lemma {:induction false} FoldIsDigest(hash: Hash, node: Bytes, proof: seq<Bytes>, inputs: set<Bytes>)
    requires |node| == 32 && PathInputs(hash, node, proof) <= inputs && Digests(hash, inputs)
    ensures |Fold(hash, node, proof)| == 32
  {
    if proof != [] {
      assert Pair(Fold(hash, node, proof[..|proof| - 1]), proof[|proof| - 1]) in PathInputs(hash, node, proof);
    }
  }

  lemma {:induction false} PairIsNode(hash: Hash, t: Tree, p: Bytes, inputs: set<Bytes>)
    requires Root(hash, t) == hash(p) && p in inputs && p !in Responses(t)
    requires TreeInputs(hash, t) <= inputs && CollisionFree(hash, inputs)
    ensures t.Node?
  {
    LeafInput(hash, t);
  }

  lemma {:induction false} LeafInput(hash: Hash, t: Tree)
    ensures t.Leaf? ==>
      t.response in TreeInputs(hash, t) && t.response in Responses(t) && Root(hash, t) == hash(t.response)
  {
  }

  /** Conversely, a path that folds to the root is the genuine path of a node of the tree:
      unless the hash collides on what was hashed, or a leaf's response is the very pair
      hashed on the path. */
  lemma {:induction false} FoldingPathIsGenuine(hash: Hash, t: Tree, node: Bytes, proof: seq<Bytes>, inputs: set<Bytes>)
      returns (route: seq<bool>)
    requires |node| == 32 && Fold(hash, node, proof) == Root(hash, t)
    requires TreeInputs(hash, t) + PathInputs(hash, node, proof) <= inputs
    requires CollisionFree(hash, inputs) && Digests(hash, inputs)
    requires Responses(t) !! PathInputs(hash, node, proof)
    ensures Reaches(t, route) && |route| == |proof|
    ensures node == Root(hash, At(t, route)) && proof == Siblings(hash, t, route)
    decreases |proof|
  {
    hide Pair, Less, CollisionFree, Digests;
    if proof == [] {
      route := [];
    } else {
      var front, last := proof[..|proof| - 1], proof[|proof| - 1];
      var below := Fold(hash, node, front);
      FoldIsDigest(hash, node, front, inputs);
      PairIsNode(hash, t, Pair(below, last), inputs);
      SamePair(hash, t, below, last, inputs);
      var left := below == Root(hash, t.left) && last == Root(hash, t.right);
      var rest := FoldingPathIsGenuine(hash, if left then t.left else t.right, node, front, inputs);
      route := [left] + rest;
      assert route[1..] == rest;
      assert proof == front + [last];
    }
  }

  /** A pair that hashes to an inner node is the pair of its children. */
  lemma {:induction false} SamePair(hash: Hash, t: Tree, below: Bytes, last: Bytes, inputs: set<Bytes>)
    requires t.Node? && Root(hash, t) == hash(Pair(below, last)) && |below| == 32
    requires TreeInputs(hash, t) + {Pair(below, last)} <= inputs && CollisionFree(hash, inputs) && Digests(hash, inputs)
    ensures (below == Root(hash, t.left) && last == Root(hash, t.right)) ||
            (below == Root(hash, t.right) && last == Root(hash, t.left))
  {
    hide Pair, Less;
    RootIsHash(hash, t.left);
    RootIsHash(hash, t.right);
    SplitPair(below, last, Root(hash, t.left), Root(hash, t.right));
  }

  datatype Verdict = InvalidProof | RootMismatch | AskContract

  /** verifyProof up to the contract call: a persisted proof has siblings of one digest each. */
  function Judge(hash: Hash, response: Bytes, proof: seq<Bytes>, relayRoot: Bytes): Verdict {
    if exists i :: 0 <= i < |proof| && |proof[i]| != 32 then InvalidProof
    else if Fold(hash, hash(response), proof) != relayRoot then RootMismatch
    else AskContract
  }

  lemma {:induction false} PathPairsAreLong(hash: Hash, node: Bytes, proof: seq<Bytes>, inputs: set<Bytes>)
    requires |node| == 32 && PathInputs(hash, node, proof) <= inputs && Digests(hash, inputs)
    requires forall i :: 0 <= i < |proof| ==> |proof[i]| == 32
    ensures forall p :: p in PathInputs(hash, node, proof) ==> |p| == 64
    decreases |proof|
  {
    if proof != [] {
      var front := proof[..|proof| - 1];
      PathPairsAreLong(hash, node, front, inputs);
      FoldIsDigest(hash, node, front, inputs);
    }
  }

  lemma {:induction false} NodeInput(hash: Hash, t: Tree, inputs: set<Bytes>)
    requires TreeInputs(hash, t) <= inputs && Digests(hash, inputs)
    ensures t.Node? ==>
      var p := Pair(Root(hash, t.left), Root(hash, t.right));
      p in TreeInputs(hash, t) && Root(hash, t) == hash(p) && |p| == 64
  {
    if t.Node? {
      RootIsHash(hash, t.left);
      RootIsHash(hash, t.right);
    }
  }

  lemma {:induction false} SubtreeInputs(hash: Hash, t: Tree, route: seq<bool>)
    requires Reaches(t, route)
    ensures TreeInputs(hash, At(t, route)) <= TreeInputs(hash, t)
    decreases |route|
  {
    if route != [] {
      SubtreeInputs(hash, if route[0] then t.left else t.right, route[1..]);
    }
  }

  predicate LeafAt(hash: Hash, t: Tree, route: seq<bool>, response: Bytes, proof: seq<Bytes>) {
    Reaches(t, route) && At(t, route) == Leaf(response) && proof == Siblings(hash, t, route)
  }

  lemma {:induction false} SiblingsAreDigests(hash: Hash, t: Tree, route: seq<bool>, inputs: set<Bytes>)
    requires Reaches(t, route) && TreeInputs(hash, t) <= inputs && Digests(hash, inputs)
    ensures forall i :: 0 <= i < |Siblings(hash, t, route)| ==> |Siblings(hash, t, route)[i]| == 32
    decreases |route|
  {
    if route != [] {
      SiblingsAreDigests(hash, if route[0] then t.left else t.right, route[1..], inputs);
      RootIsHash(hash, if route[0] then t.right else t.left);
    }
  }

  /** Against the root of a tree, the contract is asked about a proof exactly when the
      response is at a leaf and the proof is that leaf's own path; unless the hash collides
      on what was hashed, or a response is as long as a pair of digests. */
  lemma {:induction false} AskedExactlyForLeaves(hash: Hash, t: Tree, response: Bytes, proof: seq<Bytes>,
      inputs: set<Bytes>)
    requires TreeInputs(hash, t) + PathInputs(hash, hash(response), proof) + {response} <= inputs
    requires CollisionFree(hash, inputs) && Digests(hash, inputs)
    requires |response| != 64 && forall x :: x in Responses(t) ==> |x| != 64
    ensures Judge(hash, response, proof, Root(hash, t)).AskContract? <==>
      exists route :: LeafAt(hash, t, route, response, proof)
    ensures Judge(hash, response, proof, Root(hash, t)).InvalidProof? <==>
      exists sibling :: sibling in proof && |sibling| != 32
  {
    assert response in inputs;
    if Judge(hash, response, proof, Root(hash, t)).AskContract? {
      PathPairsAreLong(hash, hash(response), proof, inputs);
      var route := FoldingPathIsGenuine(hash, t, hash(response), proof, inputs);
      SubtreeInputs(hash, t, route);
      NodeInput(hash, At(t, route), inputs);
      LeafFound(hash, At(t, route), response, inputs);
      assert LeafAt(hash, t, route, response, proof);
    }
    if exists route :: LeafAt(hash, t, route, response, proof) {
      var route :| LeafAt(hash, t, route, response, proof);
      GenuinePathFolds(hash, t, route);
      SiblingsAreDigests(hash, t, route, inputs);
    }
  }

  lemma {:induction false} LeafFound(hash: Hash, t: Tree, response: Bytes, inputs: set<Bytes>)
    requires Root(hash, t) == hash(response) && response in inputs && |response| != 64
    requires TreeInputs(hash, t) <= inputs && CollisionFree(hash, inputs) && Digests(hash, inputs)
    ensures t == Leaf(response)
  {
    NodeInput(hash, t, inputs);
    assert t.Leaf? ==> t.response in TreeInputs(hash, t);
  }
}
