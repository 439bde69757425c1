/**
 Hashes, the Merkle tree over a roster's leaves, and inclusion proofs (src/server/crypto.js). A digest is
 represented by what it digests: two digests are equal exactly when their preimages are, and the prefixes of leaves
 and nodes keep the two apart.
 */
module Merkle {
  import opened Prelude
  import opened Canonical

  datatype Digest =
    | OfText(text: Text)                   // SHA-256 of a text
    | OfPair(left: Digest, right: Digest)  // SHA-256 of the node prefix and two digests
    | Other(id: nat)                       // a well-formed digest of something else
    | Malformed(id: nat)                   // a string that is not a lower-case 32-byte hexadecimal

  const LEAF_PREFIX: Text := [ZERO, ZERO]

  /** A string is hashed as it stands, everything else as its canonical text. */
  function Hash(v: Value): Result<Digest, Refusal> {
    if v.Str? then Ok(OfText(v.s))
    else
      match CanonicalJson(v)
      case Ok(text) => Ok(OfText(text))
      case Err(refusal) => Err(refusal)
  }

  function LeafHash(leaf: Value): Result<Digest, Refusal> {
    match CanonicalJson(leaf)
    case Ok(text) => Ok(OfText(LEAF_PREFIX + text))
    case Err(refusal) => Err(refusal)
  }

  datatype Side = Left | Right | Neither
  datatype Sibling = Sibling(side: Side, hash: Digest)
  datatype Tree = Tree(root: Digest, proofs: seq<seq<Sibling>>)
  datatype TreeError = EmptyRoster | Refused(refusal: Refusal)

  const MAX_PROOF := 32

  // ---------------------------------------------------------------------------------------------
  // The tree

  function NextLevel(level: seq<Digest>): (next: seq<Digest>)
    ensures |next| == (|level| + 1) / 2
    ensures forall i :: 0 <= i < |next| ==>
      next[i] == OfPair(level[2 * i], if 2 * i + 1 < |level| then level[2 * i + 1] else level[2 * i])
  {
    seq((|level| + 1) / 2, i requires 0 <= i < (|level| + 1) / 2 =>
      OfPair(level[2 * i], if 2 * i + 1 < |level| then level[2 * i + 1] else level[2 * i]))
  }

  function Root(level: seq<Digest>): Digest
    requires level != []
    decreases |level|
  {
    if |level| == 1 then level[0] else Root(NextLevel(level))
  }

  function SiblingOf(level: seq<Digest>, index: nat): Sibling
    requires index < |level|
  {
    if index % 2 == 1 then Sibling(Left, level[index - 1])
    else Sibling(Right, if index + 1 < |level| then level[index + 1] else level[index])
  }

  function ProofOf(level: seq<Digest>, index: nat): seq<Sibling>
    requires index < |level|
    decreases |level|
  {
    if |level| == 1 then [] else [SiblingOf(level, index)] + ProofOf(NextLevel(level), index / 2)
  }

  function Depth(n: nat): nat
    requires n > 0
  {
    if n == 1 then 0 else 1 + Depth((n + 1) / 2)
  }

  function Climb(current: Digest, sibling: Sibling): Digest {
    if sibling.side == Left then OfPair(sibling.hash, current) else OfPair(current, sibling.hash)
  }

  function ClimbAll(current: Digest, proof: seq<Sibling>): Digest
    decreases |proof|
  {
    if proof == [] then current else ClimbAll(Climb(current, proof[0]), proof[1..])
  }

  predicate WellFormedProof(proof: seq<Sibling>) {
    forall i :: 0 <= i < |proof| ==> proof[i].side != Neither && !proof[i].hash.Malformed?
  }

  predicate Verifies(leaf: Value, proof: seq<Sibling>, root: Digest) {
    && LeafHash(leaf).Ok?
    && |proof| <= MAX_PROOF && WellFormedProof(proof)
    && ClimbAll(LeafHash(leaf).value, proof) == root
  }

  /** The leaf hashes of a roster, or the refusal of the first leaf that has none. */
  function LeafHashes(leaves: seq<Value>): Result<seq<Digest>, Refusal> {
    if leaves == [] then Ok([])
    else
      match LeafHash(leaves[0])
      case Err(refusal) => Err(refusal)
      case Ok(first) =>
        match LeafHashes(leaves[1..])
        case Err(refusal) => Err(refusal)
        case Ok(rest) => Ok([first] + rest)
  }

  function TreeOf(leaves: seq<Value>): Result<Tree, TreeError> {
    if leaves == [] then Err(EmptyRoster)
    else
      match LeafHashes(leaves)
      case Err(refusal) => Err(Refused(refusal))
      case Ok(hashes) =>
        if hashes == [] then Err(EmptyRoster)
        else Ok(Tree(Root(hashes), seq(|hashes|, i requires 0 <= i < |hashes| => ProofOf(hashes, i))))
  }

  lemma {:induction false} LeafHashesAre(leaves: seq<Value>)
    requires LeafHashes(leaves).Ok?
    ensures |LeafHashes(leaves).value| == |leaves|
    ensures forall i :: 0 <= i < |leaves| ==> LeafHash(leaves[i]) == Ok(LeafHashes(leaves).value[i])
  {
    hide LeafHash;
    if leaves != [] {
      LeafHashesAre(leaves[1..]);
    }
  }

  // ---------------------------------------------------------------------------------------------
  // The loops

  method HashLeaves(leaves: seq<Value>) returns (hashes: Result<seq<Digest>, Refusal>)
    ensures hashes == LeafHashes(leaves)
  {
    hide LeafHash;
    var level: seq<Digest> := [];
    var i := 0;
    AllBefore(leaves);
    while i < |leaves|
      invariant 0 <= i <= |leaves|
      invariant LeafHashes(leaves) == match LeafHashes(leaves[i..])
                                      case Err(refusal) => Err(refusal)
                                      case Ok(rest) => Ok(level + rest)
    {
      var h := LeafHash(leaves[i]);
      if h.Err? {
        return Err(h.error);
      }
      if LeafHashes(leaves[i + 1..]).Ok? {
        assert level + ([h.value] + LeafHashes(leaves[i + 1..]).value)
            == level + [h.value] + LeafHashes(leaves[i + 1..]).value;
      }
      level := level + [h.value];
      i := i + 1;
    }
    assert leaves[i..] == [] && level + [] == level;
    return Ok(level);
  }

  lemma AllBefore(leaves: seq<Value>)
    ensures leaves[0..] == leaves
    ensures LeafHashes(leaves).Ok? ==> [] + LeafHashes(leaves).value == LeafHashes(leaves).value
  {
  }

  method PairUp(current: seq<Digest>) returns (next: seq<Digest>)
    ensures next == NextLevel(current)
  {
    next := [];
    var i := 0;
    while i < |current|
      invariant i % 2 == 0 && i <= |current| + 1 && |next| == i / 2
      invariant |next| <= |NextLevel(current)| && next == NextLevel(current)[..|next|]
    {
      next := next + [OfPair(current[i], if i + 1 < |current| then current[i + 1] else current[i])];
      i := i + 2;
    }
  }

  ghost predicate AreLevels(levels: seq<seq<Digest>>) {
    && levels != []
    && (forall k :: 0 <= k < |levels| ==> levels[k] != [])
    && (forall k :: 0 <= k < |levels| - 1 ==> |levels[k]| > 1 && levels[k + 1] == NextLevel(levels[k]))
  }

  method MerkleTree(leaves: seq<Value>) returns (tree: Result<Tree, TreeError>)
    ensures tree == TreeOf(leaves)
  {
    hide LeafHashes, NextLevel;
    if leaves == [] {
      return Err(EmptyRoster);
    }
    var hashes := HashLeaves(leaves);
    if hashes.Err? {
      return Err(Refused(hashes.error));
    }
    LeafHashesAre(leaves);
    var levels := [hashes.value];
    while |levels[|levels| - 1]| > 1
      invariant AreLevels(levels) && levels[0] == hashes.value
      invariant Root(levels[|levels| - 1]) == Root(hashes.value)
      decreases |levels[|levels| - 1]|
    {
      var next := PairUp(levels[|levels| - 1]);
      levels := levels + [next];
    }
    var proofs: seq<seq<Sibling>> := [];
    var leaf := 0;
    while leaf < |leaves|
      invariant 0 <= leaf <= |leaves| && |proofs| == leaf
      invariant forall i :: 0 <= i < leaf ==> proofs[i] == ProofOf(hashes.value, i)
    {
      var proof := ProveLeaf(levels, leaf);
      proofs := proofs + [proof];
      leaf := leaf + 1;
    }
    assert proofs == seq(|hashes.value|, i requires 0 <= i < |hashes.value| => ProofOf(hashes.value, i));
    tree := Ok(Tree(levels[|levels| - 1][0], proofs));
  }

  /** One step of a proof: `index ^ 1` is the neighbour, and the last node of an odd level is its own. */
  method Neighbour(level: seq<Digest>, index: nat) returns (sibling: Sibling)
    requires index < |level|
    ensures sibling == SiblingOf(level, index)
  {
    var other := if index % 2 == 1 then index - 1 else index + 1;
    var hash := if other < |level| then level[other] else level[index];
    sibling := Sibling(if index % 2 == 1 then Left else Right, hash);
  }

  lemma ProofStep(level: seq<Digest>, index: nat, proof: seq<Sibling>)
    requires |level| > 1 && index < |level|
    ensures index / 2 < |NextLevel(level)|
    ensures proof + ProofOf(level, index) == proof + [SiblingOf(level, index)] + ProofOf(NextLevel(level), index / 2)
  {
    hide NextLevel, SiblingOf;
    HalfBelow(index, |level|);
    var s, rest := [SiblingOf(level, index)], ProofOf(NextLevel(level), index / 2);
    assert proof + (s + rest) == proof + s + rest;
  }

  lemma HalfBelow(index: nat, n: nat)
    requires index < n
    ensures index / 2 < (n + 1) / 2
  {
  }

  method ProveLeaf(levels: seq<seq<Digest>>, leaf: nat) returns (proof: seq<Sibling>)
    requires AreLevels(levels) && leaf < |levels[0]| && |levels[|levels| - 1]| == 1
    ensures proof == ProofOf(levels[0], leaf)
  {
    hide NextLevel, SiblingOf;
    proof := [];
    var index: nat, level: nat := leaf, 0;
    while level < |levels| - 1
      invariant 0 <= level <= |levels| - 1 && index < |levels[level]|
      invariant proof + ProofOf(levels[level], index) == ProofOf(levels[0], leaf)
    {
      hide ProofOf;
      var sibling := Neighbour(levels[level], index);
      ProofStep(levels[level], index, proof);
      proof := proof + [sibling];
      index, level := index / 2, level + 1;
    }
  }

  method VerifyInclusion(leaf: Value, proof: seq<Sibling>, root: Digest) returns (ok: bool)
    ensures ok <==> Verifies(leaf, proof, root)
  {
    hide LeafHash;
    if |proof| > MAX_PROOF {
      return false;
    }
    var hashed := LeafHash(leaf);
    if hashed.Err? {
      return false;
    }
    var current, i := hashed.value, 0;
    while i < |proof|
      invariant 0 <= i <= |proof|
      invariant WellFormedProof(proof[..i])
      invariant ClimbAll(current, proof[i..]) == ClimbAll(hashed.value, proof)
    {
      if proof[i].side == Neither || proof[i].hash.Malformed? {
        return false;
      }
      current := Climb(current, proof[i]);
      i := i + 1;
    }
    return current == root;
  }
}
