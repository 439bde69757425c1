/** What inclusion proofs prove: round trip, exact position, and how far a root binds its leaves. */
module MerkleLaws {
  import opened Prelude
  import opened Canonical
  import opened CanonicalLaws
  import opened Merkle
  import Masks

  // ---------------------------------------------------------------------------------------------
  // Round trip

  lemma {:induction false} ProofClimbs(level: seq<Digest>, index: nat)
    requires index < |level|
    ensures ClimbAll(level[index], ProofOf(level, index)) == Root(level)
    ensures |ProofOf(level, index)| == Depth(|level|)
    decreases |level|
  {
    hide NextLevel;
    if |level| > 1 {
      var next, proof := NextLevel(level), ProofOf(level, index);
      assert proof[1..] == ProofOf(next, index / 2);
      ClimbsToParent(level, index);
      ProofClimbs(next, index / 2);
    }
  }

  lemma ClimbsToParent(level: seq<Digest>, index: nat)
    requires index < |level|
    ensures Climb(level[index], SiblingOf(level, index)) == NextLevel(level)[index / 2]
  {
    if index % 2 == 1 {
      assert 2 * (index / 2) == index - 1;
    }
  }

  ghost predicate NoneMalformed(level: seq<Digest>) {
    forall i :: 0 <= i < |level| ==> !level[i].Malformed?
  }

  lemma {:induction false} ProofIsWellFormed(level: seq<Digest>, index: nat)
    requires index < |level| && NoneMalformed(level)
    ensures WellFormedProof(ProofOf(level, index))
    decreases |level|
  {
    if |level| > 1 {
      ProofIsWellFormed(NextLevel(level), index / 2);
    }
  }

  lemma {:induction false} DepthIff(n: nat, d: nat)
    requires n > 0
    ensures Depth(n) <= d <==> n <= Masks.Power(d)
  {
    if n > 1 && d > 0 {
      DepthIff((n + 1) / 2, d - 1);
    }
  }

  /** A generated proof verifies exactly when the roster is no larger than a proof of 32 steps can reach. */
  lemma RoundTrip(leaves: seq<Value>, i: nat)
    requires i < |leaves| && TreeOf(leaves).Ok?
    ensures i < |TreeOf(leaves).value.proofs|
    ensures Verifies(leaves[i], TreeOf(leaves).value.proofs[i], TreeOf(leaves).value.root)
      <==> |leaves| <= Masks.Power(MAX_PROOF)
  {
    hide LeafHashes, ProofOf, ClimbAll, WellFormedProof;
    var hashes := LeafHashes(leaves).value;
    LeafHashesAre(leaves);
    LeavesAreTexts(leaves);
    ProofClimbs(hashes, i);
    ProofIsWellFormed(hashes, i);
    DepthIff(|leaves|, MAX_PROOF);
  }

  ghost predicate AllTexts(level: seq<Digest>) {
    forall i :: 0 <= i < |level| ==> level[i].OfText?
  }

  lemma LeavesAreTexts(leaves: seq<Value>)
    requires LeafHashes(leaves).Ok?
    ensures AllTexts(LeafHashes(leaves).value)
  {
    hide LeafHashes, CanonicalJson;
    LeafHashesAre(leaves);
    forall i | 0 <= i < |LeafHashes(leaves).value| ensures LeafHashes(leaves).value[i].OfText? {
      assert LeafHash(leaves[i]).Ok?;
    }
  }

  // ---------------------------------------------------------------------------------------------
  // What a verified proof says

  /** Every text below `d` is exactly `k` nodes down. */
  predicate Uniform(d: Digest, k: nat) {
    if k == 0 then d.OfText? else d.OfPair? && Uniform(d.left, k - 1) && Uniform(d.right, k - 1)
  }

  /** `c` occurs `m` nodes below `d`. */
  predicate Occurs(c: Digest, d: Digest, m: nat) {
    if m == 0 then c == d else d.OfPair? && (Occurs(c, d.left, m - 1) || Occurs(c, d.right, m - 1))
  }

  lemma {:induction false} OccursUniform(c: Digest, d: Digest, m: nat, k: nat)
    requires Occurs(c, d, m) && Uniform(d, k) && c.OfText?
    ensures m == k
  {
    if m > 0 && k > 0 {
      if Occurs(c, d.left, m - 1) {
        OccursUniform(c, d.left, m - 1, k - 1);
      } else {
        OccursUniform(c, d.right, m - 1, k - 1);
      }
    }
  }

  lemma {:induction false} OccursDeeper(c: Digest, x: Digest, d: Digest, m: nat)
    requires Occurs(x, d, m) && x.OfPair? && (c == x.left || c == x.right)
    ensures Occurs(c, d, m + 1)
  {
    if m > 0 {
      if Occurs(x, d.left, m - 1) {
        OccursDeeper(c, x, d.left, m - 1);
      } else {
        OccursDeeper(c, x, d.right, m - 1);
      }
    }
  }

  lemma {:induction false} ClimbedOccurs(c: Digest, proof: seq<Sibling>)
    ensures Occurs(c, ClimbAll(c, proof), |proof|)
    decreases |proof|
  {
    if proof != [] {
      ClimbedOccurs(Climb(c, proof[0]), proof[1..]);
      OccursDeeper(c, Climb(c, proof[0]), ClimbAll(c, proof), |proof| - 1);
    }
  }

  lemma {:induction false} RootIsUniform(level: seq<Digest>, k: nat)
    requires level != [] && forall i :: 0 <= i < |level| ==> Uniform(level[i], k)
    ensures Uniform(Root(level), k + Depth(|level|))
    decreases |level|
  {
    if |level| > 1 {
      var next := NextLevel(level);
      forall i | 0 <= i < |next| ensures Uniform(next[i], k + 1) {
      }
      RootIsUniform(next, k + 1);
    }
  }

  /** The position the sides of a proof spell out; the copy of a last odd node counts as the node. */
  function PositionOf(n: nat, proof: seq<Sibling>): (i: nat)
    requires n > 0
    ensures i < n
    decreases |proof|
  {
    if n == 1 || proof == [] then 0
    else
      var i := 2 * PositionOf((n + 1) / 2, proof[1..]) + if proof[0].side == Left then 1 else 0;
      if i < n then i else n - 1
  }

  lemma {:induction false} ClimbsFrom(level: seq<Digest>, c: Digest, proof: seq<Sibling>)
    requires level != [] && |proof| == Depth(|level|)
    requires ClimbAll(c, proof) == Root(level)
    ensures c == level[PositionOf(|level|, proof)]
    decreases |level|
  {
    if |level| > 1 {
      ClimbsFrom(NextLevel(level), Climb(c, proof[0]), proof[1..]);
    }
  }

  /** A proof that verifies has the depth of the tree and proves the very leaf at the position its sides spell. */
  lemma VerifiedNamesLeaf(leaves: seq<Value>, leaf: Value, proof: seq<Sibling>)
    requires TreeOf(leaves).Ok? && Verifies(leaf, proof, TreeOf(leaves).value.root)
    ensures |proof| == Depth(|leaves|)
    ensures LeafHash(leaf) == LeafHash(leaves[PositionOf(|leaves|, proof)])
  {
    hide LeafHashes, ProofOf, ClimbAll, WellFormedProof, CanonicalJson, Root, Depth;
    var hashes := LeafHashes(leaves).value;
    LeafHashesAre(leaves);
    LeavesAreTexts(leaves);
    var c := LeafHash(leaf).value;
    ClimbedOccurs(c, proof);
    RootIsUniform(hashes, 0);
    OccursUniform(c, Root(hashes), |proof|, Depth(|leaves|));
    ClimbsFrom(hashes, c, proof);
  }

  /** One step up: the sibling is a digest, on the side it says. */
  ghost predicate IsStep(below: Digest, s: Sibling, above: Digest) {
    && !s.hash.Malformed?
    && match s.side
       case Left => above == OfPair(s.hash, below)
       case Right => above == OfPair(below, s.hash)
       case Neither => false
  }

  /** A path of nodes from a leaf to a root, one sibling at each step. */
  ghost predicate IsPath(leaf: Digest, proof: seq<Sibling>, root: Digest, nodes: seq<Digest>) {
    && |nodes| == |proof| + 1 && nodes[0] == leaf && nodes[|proof|] == root
    && forall i :: 0 <= i < |proof| ==> IsStep(nodes[i], proof[i], nodes[i + 1])
  }

  lemma {:induction false} PathIff(leaf: Digest, proof: seq<Sibling>, root: Digest)
    ensures WellFormedProof(proof) && ClimbAll(leaf, proof) == root <==> exists nodes :: IsPath(leaf, proof, root, nodes)
    decreases |proof|
  {
    hide IsStep;
    if proof == [] {
      assert leaf == root ==> IsPath(leaf, proof, root, [leaf]);
    } else {
      var above, rest := Climb(leaf, proof[0]), proof[1..];
      StepIff(leaf, proof[0]);
      PathIff(above, rest, root);
      WellFormedSplit(proof);
      if nodes :| IsPath(leaf, proof, root, nodes) {
        assert IsStep(nodes[0], proof[0], nodes[1]);
        PathTail(leaf, proof, root, nodes);
      }
      if IsStep(leaf, proof[0], above) {
        if nodes :| IsPath(above, rest, root, nodes) {
          PathPrepend(leaf, proof, root, nodes);
        }
      }
    }
  }

  lemma WellFormedSplit(proof: seq<Sibling>)
    requires proof != []
    ensures WellFormedProof(proof) <==> WellFormedProof([proof[0]]) && WellFormedProof(proof[1..])
  {
    assert [proof[0]][0] == proof[0] && forall i :: 0 < i < |proof| ==> proof[i] == proof[1..][i - 1];
    assert forall i :: 0 <= i < |proof[1..]| ==> proof[1..][i] == proof[i + 1];
  }

  lemma StepIff(below: Digest, s: Sibling)
    ensures WellFormedProof([s]) <==> IsStep(below, s, Climb(below, s))
    ensures forall above :: IsStep(below, s, above) ==> above == Climb(below, s)
  {
    assert [s][0] == s;
  }

  lemma PathTail(leaf: Digest, proof: seq<Sibling>, root: Digest, nodes: seq<Digest>)
    requires proof != [] && IsPath(leaf, proof, root, nodes)
    ensures IsPath(nodes[1], proof[1..], root, nodes[1..])
  {
    hide IsStep;
    forall i | 0 <= i < |proof[1..]| ensures IsStep(nodes[1..][i], proof[1..][i], nodes[1..][i + 1]) {
      assert IsStep(nodes[i + 1], proof[i + 1], nodes[i + 2]);
    }
  }

  lemma PathPrepend(leaf: Digest, proof: seq<Sibling>, root: Digest, nodes: seq<Digest>)
    requires proof != [] && nodes != [] && IsStep(leaf, proof[0], nodes[0]) && IsPath(nodes[0], proof[1..], root, nodes)
    ensures IsPath(leaf, proof, root, [leaf] + nodes)
  {
    hide IsStep;
    var all := [leaf] + nodes;
    forall i | 0 <= i < |proof| ensures IsStep(all[i], proof[i], all[i + 1]) {
      if i > 0 {
        assert IsStep(nodes[i - 1], proof[1..][i - 1], nodes[i]);
      }
    }
  }

  /** A proof verifies exactly when it is a path of at most 32 steps from the hash of the leaf to the root. */
  lemma VerifiesIff(leaf: Value, proof: seq<Sibling>, root: Digest)
    ensures Verifies(leaf, proof, root) <==>
      LeafHash(leaf).Ok? && |proof| <= 32 && exists nodes :: IsPath(LeafHash(leaf).value, proof, root, nodes)
  {
    hide LeafHash, WellFormedProof, IsPath;
    if LeafHash(leaf).Ok? {
      PathIff(LeafHash(leaf).value, proof, root);
    }
  }

  /** Leaves with one hash are one leaf, up to the order of keys. */
  lemma LeafHashBinds(v: Value, w: Value)
    requires WellFormed(v) && WellFormed(w)
    requires LeafHash(v).Ok? && LeafHash(v) == LeafHash(w)
    ensures Same(v, w)
  {
    hide CanonicalJson, WellFormed, Same;
    var a, b := CanonicalJson(v).value, CanonicalJson(w).value;
    Split(LEAF_PREFIX, LEAF_PREFIX, a, b);
    PrintsAlikeIff(v, w);
  }

  /** The text whose hash a value gets: a string's own, or the canonical one. */
  function HashedText(v: Value): Text
    requires Hash(v).Ok?
  {
    if v.Str? then v.s else CanonicalJson(v).value
  }

  /**
   Two documents share a hash exactly when they are one document up to the order of keys. A string shares its hash
   with every document it is the canonical text of, and with the leaf hash of every document it is the leaf text of.
   */
  lemma HashedAlikeIff(v: Value, w: Value)
    requires WellFormed(v) && WellFormed(w) && Hash(v).Ok? && Hash(w).Ok?
    ensures !v.Str? && !w.Str? ==> (Hash(v) == Hash(w) <==> Same(v, w))
    ensures v.Str? ==> (Hash(v) == Hash(w) <==> v.s == HashedText(w))
    ensures v.Str? && !w.Str? ==> (Hash(v) == LeafHash(w) <==> v.s == LEAF_PREFIX + HashedText(w))
  {
    hide CanonicalJson, WellFormed, Same;
    if !v.Str? && !w.Str? {
      PrintsAlikeIff(v, w);
    }
  }

  // ---------------------------------------------------------------------------------------------
  // What a root is

  /** The `i`-th node from the left, `depth` nodes below `d`. */
  function NodeAt(d: Digest, depth: nat, i: nat): Option<Digest> {
    if depth == 0 then Some(d)
    else
      match NodeAt(d, depth - 1, i / 2)
      case Some(OfPair(left, right)) => Some(if i % 2 == 0 then left else right)
      case _ => None
  }

  lemma {:induction false} NodesInOrder(level: seq<Digest>, i: nat)
    requires i < |level|
    ensures NodeAt(Root(level), Depth(|level|), i) == Some(level[i])
    decreases |level|
  {
    if |level| > 1 {
      var next := NextLevel(level);
      NodesInOrder(next, i / 2);
      assert next[i / 2] == OfPair(level[2 * (i / 2)],
                                   if 2 * (i / 2) + 1 < |level| then level[2 * (i / 2) + 1] else level[2 * (i / 2)]);
    }
  }

  /** A root holds the hashes of its leaves from left to right, all at the depth of the tree. */
  lemma RootReadsInOrder(leaves: seq<Value>, i: nat)
    requires i < |leaves| && TreeOf(leaves).Ok?
    ensures LeafHash(leaves[i]).Ok?
    ensures NodeAt(TreeOf(leaves).value.root, Depth(|leaves|), i) == Some(LeafHash(leaves[i]).value)
  {
    hide LeafHashes, ProofOf, LeafHash, NodeAt, Root, Depth;
    LeafHashesAre(leaves);
    NodesInOrder(LeafHashes(leaves).value, i);
  }

  // ---------------------------------------------------------------------------------------------
  // What a root binds

  lemma {:induction false} RootBinds(a: seq<Digest>, b: seq<Digest>)
    requires a != [] && |a| == |b| && Root(a) == Root(b)
    ensures a == b
    decreases |a|
  {
    if |a| > 1 {
      RootBinds(NextLevel(a), NextLevel(b));
      NextLevelBinds(a, b);
    }
  }

  lemma NextLevelBinds(a: seq<Digest>, b: seq<Digest>)
    requires |a| == |b| && NextLevel(a) == NextLevel(b)
    ensures a == b
  {
    var n := NextLevel(a);
    forall i | 0 <= i < |a| ensures a[i] == b[i] {
      assert n[i / 2] == NextLevel(b)[i / 2];
      assert i == 2 * (i / 2) || i == 2 * (i / 2) + 1;
    }
  }

  /** Rosters of one length with one root have the same leaves, up to the order of keys. */
  lemma SameRootSameLeaves(a: seq<Value>, b: seq<Value>, i: nat)
    requires i < |a| == |b| && WellFormed(a[i]) && WellFormed(b[i])
    requires TreeOf(a).Ok? && TreeOf(b).Ok? && TreeOf(a).value.root == TreeOf(b).value.root
    ensures Same(a[i], b[i])
  {
    hide LeafHashes, WellFormed, Same, Root, ProofOf, LeafHash;
    LeafHashesAre(a);
    LeafHashesAre(b);
    RootBinds(LeafHashes(a).value, LeafHashes(b).value);
    LeafHashBinds(a[i], b[i]);
  }

  /** The length matters: repeating the last leaf of an odd roster keeps the root. */
  lemma OddTailIsAmbiguous(leaves: seq<Value>)
    requires |leaves| > 1 && |leaves| % 2 == 1 && TreeOf(leaves).Ok?
    ensures var longer := TreeOf(leaves + [leaves[|leaves| - 1]]);
      longer.Ok? && longer.value.root == TreeOf(leaves).value.root
  {
    hide LeafHash, NextLevel, ProofOf;
    var last, level := leaves[|leaves| - 1], LeafHashes(leaves).value;
    LeafHashesAre(leaves);
    HashesConcat(leaves, last);
    PairedAlike(level, level + [level[|level| - 1]]);
  }

  lemma {:induction false} HashesConcat(leaves: seq<Value>, last: Value)
    requires LeafHashes(leaves).Ok? && LeafHash(last).Ok?
    ensures LeafHashes(leaves + [last]) == Ok(LeafHashes(leaves).value + [LeafHash(last).value])
  {
    hide LeafHash;
    if leaves == [] {
      assert [] + [last] == [last] && [last][1..] == [];
      assert LeafHashes([]) == Ok([]) && [LeafHash(last).value] + [] == [LeafHash(last).value];
      assert leaves + [last] == [last] && [] + [LeafHash(last).value] == [LeafHash(last).value];
    } else {
      assert (leaves + [last])[1..] == leaves[1..] + [last];
      HashesConcat(leaves[1..], last);
      var first, rest, h := LeafHash(leaves[0]).value, LeafHashes(leaves[1..]).value, LeafHash(last).value;
      assert [first] + (rest + [h]) == [first] + rest + [h];
    }
  }

  lemma PairedAlike(level: seq<Digest>, longer: seq<Digest>)
    requires |level| % 2 == 1 && longer == level + [level[|level| - 1]]
    ensures NextLevel(level) == NextLevel(longer)
  {
    var n, m := NextLevel(level), NextLevel(longer);
    forall i | 0 <= i < |n| ensures n[i] == m[i] {
      assert level[2 * i] == longer[2 * i];
      assert 2 * i + 1 < |longer|;
    }
    assert |n| == |m|;
  }

  /** Rosters of different lengths share a root only if their trees are equally deep. */
  lemma SameRootSameDepth(a: seq<Value>, b: seq<Value>)
    requires TreeOf(a).Ok? && TreeOf(b).Ok? && TreeOf(a).value.root == TreeOf(b).value.root
    ensures Depth(|a|) == Depth(|b|)
    ensures forall d :: |a| <= Masks.Power(d) <==> |b| <= Masks.Power(d)
  {
    hide LeafHashes, ProofOf, Root, Depth, Masks.Power, AllTexts, TreeOf;
    TreeIsUniform(a);
    TreeIsUniform(b);
    UniformIsUnique(TreeOf(a).value.root, Depth(|a|), Depth(|b|));
    forall d: nat ensures |a| <= Masks.Power(d) <==> |b| <= Masks.Power(d) {
      DepthIff(|a|, d);
      DepthIff(|b|, d);
    }
  }

  lemma TreeIsUniform(leaves: seq<Value>)
    requires TreeOf(leaves).Ok?
    ensures leaves != [] && Uniform(TreeOf(leaves).value.root, Depth(|leaves|))
  {
    hide LeafHashes, ProofOf, Root, Depth;
    LeafHashesAre(leaves);
    LeavesAreTexts(leaves);
    RootIsUniform(LeafHashes(leaves).value, 0);
  }

  lemma {:induction false} UniformIsUnique(d: Digest, j: nat, k: nat)
    requires Uniform(d, j) && Uniform(d, k)
    ensures j == k
  {
    if j > 0 && k > 0 {
      UniformIsUnique(d.left, j - 1, k - 1);
    }
  }
}
