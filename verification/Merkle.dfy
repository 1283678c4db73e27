/** Merkle trees over hexadecimal digests, with an odd last node paired with itself. Digests are
    strings and a parent is the hash of its children's concatenation, exactly as in the source. */
module Merkle {

  const DIGEST_LENGTH: nat := 64

  type HashFunction = string -> string

  /** Every hash is a digest of fixed length. Nothing else is assumed of the hash function. */
  ghost predicate Digests(h: HashFunction) {
    forall s :: |h(s)| == DIGEST_LENGTH
  }

  predicate AllDigests(level: seq<string>) {
    forall i :: 0 <= i < |level| ==> |level[i]| == DIGEST_LENGTH
  }

  datatype Pair = Pair(x: string, y: string) {
    /** Two different strings with the same hash. */
    predicate Collides(h: HashFunction) { x != y && h(x) == h(y) }
  }

  /** What is hashed for parent `p` of a level. */
  function Children(level: seq<string>, p: nat): string
    requires 2 * p < |level|
  {
    level[2 * p] + (if 2 * p + 1 < |level| then level[2 * p + 1] else level[2 * p])
  }

  function NextLevel(h: HashFunction, level: seq<string>): (next: seq<string>)
    ensures |next| == (|level| + 1) / 2
    ensures forall p :: 0 <= p < |next| ==> next[p] == h(Children(level, p))
  {
    seq((|level| + 1) / 2, p requires 0 <= p < (|level| + 1) / 2 => h(Children(level, p)))
  }

  function Root(h: HashFunction, level: seq<string>): string
    requires level != []
    decreases |level|
  {
    if |level| == 1 then level[0] else Root(h, NextLevel(h, level))
  }

  function Depth(n: nat): nat
    requires n > 0
  {
    if n == 1 then 0 else 1 + Depth((n + 1) / 2)
  }

  /** The other child of the node's parent; a last node without a partner is its own. */
  function Sibling(level: seq<string>, i: nat): string
    requires i < |level|
  {
    if i % 2 == 1 then level[i - 1] else if i + 1 < |level| then level[i + 1] else level[i]
  }

  function Proof(h: HashFunction, level: seq<string>, i: nat): seq<string>
    requires i < |level|
    decreases |level|
  {
    if |level| == 1 then [] else [Sibling(level, i)] + Proof(h, NextLevel(h, level), i / 2)
  }

  /** What a verifier hashes when it joins a node with its sibling: the index says which side. */
  function Joined(node: string, sibling: string, i: nat): string {
    if i % 2 == 0 then node + sibling else sibling + node
  }

  function Fold(h: HashFunction, node: string, proof: seq<string>, i: nat): string
    decreases proof
  {
    if proof == [] then node else Fold(h, h(Joined(node, proof[0], i)), proof[1..], i / 2)
  }

  predicate Accepts(h: HashFunction, leaf: string, proof: seq<string>, root: string, i: nat) {
    Fold(h, leaf, proof, i) == root
  }

  /** What the roots of the smallest trees are hashes of: left before right, and an odd last node twice. */
  lemma SmallestTrees(h: HashFunction, a: string, b: string, c: string)
    ensures Root(h, [a]) == a && Root(h, [a, b]) == h(a + b) && Root(h, [a, b, c]) == h(h(a + b) + h(c + c))
  {
    TwoLeaves(h, a, b);
    TwoLeaves(h, h(a + b), h(c + c));
    assert NextLevel(h, [a, b, c]) == [h(a + b), h(c + c)];
    assert Root(h, [a, b, c]) == Root(h, [h(a + b), h(c + c)]);
  }

  lemma TwoLeaves(h: HashFunction, a: string, b: string)
    ensures Root(h, [a, b]) == h(a + b)
  {
    assert NextLevel(h, [a, b]) == [h(a + b)];
  }

  // Completeness

  /** Every generated proof has the tree's depth and is accepted, odd levels included. */
  lemma {:induction false} Complete(h: HashFunction, leaves: seq<string>, i: nat)
    requires i < |leaves|
    ensures |Proof(h, leaves, i)| == Depth(|leaves|)
    ensures Accepts(h, leaves[i], Proof(h, leaves, i), Root(h, leaves), i)
    decreases |leaves|
  {
    if |leaves| > 1 {
      var next := NextLevel(h, leaves);
      assert 2 * (i / 2) == i - i % 2;
      assert Joined(leaves[i], Sibling(leaves, i), i) == Children(leaves, i / 2);
      Complete(h, next, i / 2);
    }
  }

  // Binding

  /** The leaf that an index, of any size, leads down to in a tree of `n` leaves. */
  function Slot(n: nat, i: nat): (s: nat)
    requires n > 0
    ensures s < n
    ensures i < n ==> s == i
    decreases n
  {
    if n == 1 then 0 else
      var p := Slot((n + 1) / 2, i / 2);
      if 2 * p + i % 2 < n then 2 * p + i % 2 else 2 * p
  }

  /** The first place, from the root down, where an accepted path and the tree hash different strings
      to the same digest. */
  function FindCollision(h: HashFunction, level: seq<string>, node: string, proof: seq<string>, i: nat): Pair
    requires level != [] && |proof| == Depth(|level|)
    decreases proof
  {
    if proof == [] then Pair(node, node) else
      var above := FindCollision(h, NextLevel(h, level), h(Joined(node, proof[0], i)), proof[1..], i / 2);
      if above.Collides(h) then above
      else Pair(Joined(node, proof[0], i), Children(level, Slot((|level| + 1) / 2, i / 2)))
  }

  /** The children of a node determine it: with digests on both sides, one string splits one way. */
  lemma SplitsOneWay(a: string, b: string, c: string, d: string)
    requires a + b == c + d && (|a| == |c| || |b| == |d|)
    ensures a == c && b == d
  {
    assert a == (a + b)[..|a|] && b == (a + b)[|a|..];
    assert c == (c + d)[..|c|] && d == (c + d)[|c|..];
  }

  lemma NextLevelIsDigests(h: HashFunction, level: seq<string>)
    requires Digests(h)
    ensures AllDigests(NextLevel(h, level))
  {
  }

  lemma JoinedOneWay(leaves: seq<string>, leaf: string, sibling: string, i: nat)
    requires |leaves| >= 2 && AllDigests(leaves) && |leaf| == DIGEST_LENGTH
    requires Joined(leaf, sibling, i) == Children(leaves, Slot((|leaves| + 1) / 2, i / 2))
    ensures leaf == leaves[Slot(|leaves|, i)] && sibling == Sibling(leaves, Slot(|leaves|, i))
    ensures Slot(|leaves|, i) / 2 == Slot((|leaves| + 1) / 2, i / 2)
  {
    var p := Slot((|leaves| + 1) / 2, i / 2);
    SlotOfChild(|leaves|, i);
    SplitsInto(leaves, p, leaf, sibling, i);
    SiblingOfChild(leaves, p, i);
  }

  /** The two children of parent `p`. */
  function LeftOf(level: seq<string>, p: nat): string
    requires 2 * p < |level|
  {
    level[2 * p]
  }

  function RightOf(level: seq<string>, p: nat): string
    requires 2 * p < |level|
  {
    if 2 * p + 1 < |level| then level[2 * p + 1] else level[2 * p]
  }

  lemma SplitsInto(level: seq<string>, p: nat, node: string, sibling: string, i: nat)
    requires 2 * p < |level| && AllDigests(level) && |node| == DIGEST_LENGTH
    requires Joined(node, sibling, i) == Children(level, p)
    ensures node == (if i % 2 == 0 then LeftOf(level, p) else RightOf(level, p))
    ensures sibling == (if i % 2 == 0 then RightOf(level, p) else LeftOf(level, p))
  {
    var left, right := LeftOf(level, p), RightOf(level, p);
    assert |left| == |right| == DIGEST_LENGTH;
    if i % 2 == 0 { SplitsOneWay(node, sibling, left, right); } else { SplitsOneWay(sibling, node, left, right); }
  }

  lemma SiblingOfChild(level: seq<string>, p: nat, i: nat)
    requires 2 * p < |level|
    ensures var slot := if 2 * p + i % 2 < |level| then 2 * p + i % 2 else 2 * p;
            && level[slot] == (if i % 2 == 0 then LeftOf(level, p) else RightOf(level, p))
            && Sibling(level, slot) == (if i % 2 == 0 then RightOf(level, p) else LeftOf(level, p))
  {
  }

  lemma SlotOfChild(n: nat, i: nat)
    requires n >= 2
    ensures var p := Slot((n + 1) / 2, i / 2);
            Slot(n, i) == (if 2 * p + i % 2 < n then 2 * p + i % 2 else 2 * p) && Slot(n, i) / 2 == p
  {
  }

  /** Binding: a proof of the tree's depth that is accepted at an index is the generated proof, and its
      leaf is the tree's leaf there; otherwise it hands over a collision of the hash function. */
  lemma {:induction false} Binding(h: HashFunction, leaves: seq<string>, leaf: string, proof: seq<string>, i: nat)
    requires Digests(h) && leaves != [] && AllDigests(leaves) && |leaf| == DIGEST_LENGTH
    requires |proof| == Depth(|leaves|) && Accepts(h, leaf, proof, Root(h, leaves), i)
    ensures FindCollision(h, leaves, leaf, proof, i).Collides(h)
            || (leaf == leaves[Slot(|leaves|, i)] && proof == Proof(h, leaves, Slot(|leaves|, i)))
    decreases proof
  {
    if proof != [] {
      var next, joined := NextLevel(h, leaves), Joined(leaf, proof[0], i);
      NextLevelIsDigests(h, leaves);
      Binding(h, next, h(joined), proof[1..], i / 2);
      if joined == Children(leaves, Slot(|next|, i / 2)) {
        if proof[1..] == Proof(h, next, Slot(|next|, i / 2)) { BoundBelow(h, leaves, leaf, proof, i); }
      }
    }
  }

  /** One level down: the children tell which leaf and which sibling. */
  lemma BoundBelow(h: HashFunction, leaves: seq<string>, leaf: string, proof: seq<string>, i: nat)
    requires |leaves| >= 2 && AllDigests(leaves) && |leaf| == DIGEST_LENGTH && proof != []
    requires Joined(leaf, proof[0], i) == Children(leaves, Slot((|leaves| + 1) / 2, i / 2))
    requires proof[1..] == Proof(h, NextLevel(h, leaves), Slot((|leaves| + 1) / 2, i / 2))
    ensures leaf == leaves[Slot(|leaves|, i)] && proof == Proof(h, leaves, Slot(|leaves|, i))
  {
    var slot := Slot(|leaves|, i);
    JoinedOneWay(leaves, leaf, proof[0], i);
    assert Proof(h, leaves, slot) == [Sibling(leaves, slot)] + Proof(h, NextLevel(h, leaves), slot / 2);
    assert proof == [proof[0]] + proof[1..];
  }

  /** The level `k` steps up from the leaves. */
  function Up(h: HashFunction, level: seq<string>, k: nat): (above: seq<string>)
    ensures (level == []) == (above == [])
    decreases k
  {
    if k == 0 then level else Up(h, NextLevel(h, level), k - 1)
  }

  lemma {:induction false} UpKeepsRoot(h: HashFunction, level: seq<string>, k: nat)
    requires level != [] && AllDigests(level) && Digests(h) && k <= Depth(|level|)
    ensures Root(h, Up(h, level, k)) == Root(h, level) && AllDigests(Up(h, level, k))
    ensures Depth(|Up(h, level, k)|) == Depth(|level|) - k
    decreases k
  {
    if k > 0 {
      NextLevelIsDigests(h, level);
      UpKeepsRoot(h, NextLevel(h, level), k - 1);
    }
  }

  /** Binding for shorter proofs: one that lacks `k` nodes of the tree's depth shows the inner node `k` levels
      above the leaves that the index leads to, and is that node's own proof. */
  lemma ShorterProofShowsInnerNode(h: HashFunction, leaves: seq<string>, node: string, proof: seq<string>, i: nat)
    requires Digests(h) && leaves != [] && AllDigests(leaves) && |node| == DIGEST_LENGTH
    requires |proof| <= Depth(|leaves|) && Accepts(h, node, proof, Root(h, leaves), i)
    ensures var level := Up(h, leaves, Depth(|leaves|) - |proof|);
            && Depth(|level|) == |proof|
            && (FindCollision(h, level, node, proof, i).Collides(h)
                || (node == level[Slot(|level|, i)] && proof == Proof(h, level, Slot(|level|, i))))
  {
    var k := Depth(|leaves|) - |proof|;
    UpKeepsRoot(h, leaves, k);
    Binding(h, Up(h, leaves, k), node, proof, i);
  }

  lemma {:induction false} FoldInTwo(h: HashFunction, node: string, a: seq<string>, b: seq<string>, i: nat)
    ensures Fold(h, node, a + b, i) == Fold(h, Fold(h, node, a, i), b, Halved(i, |a|))
    decreases a
  {
    if a == [] {
      assert a + b == b;
    } else {
      assert (a + b)[1..] == a[1..] + b;
      FoldInTwo(h, h(Joined(node, a[0], i)), a[1..], b, i / 2);
    }
  }

  function Halved(i: nat, k: nat): nat { if k == 0 then i else Halved(i / 2, k - 1) }

  lemma {:induction false} FoldIsDigest(h: HashFunction, node: string, proof: seq<string>, i: nat)
    requires Digests(h) && proof != []
    ensures |Fold(h, node, proof, i)| == DIGEST_LENGTH
    decreases proof
  {
    if |proof| == 1 {
      assert proof[1..] == [];
    } else {
      FoldIsDigest(h, h(Joined(node, proof[0], i)), proof[1..], i / 2);
    }
  }

  /** Binding for longer proofs: what is shown then hashes, along the extra nodes, to the leaf that the rest of
      the index leads to, and the rest of the proof is that leaf's own. */
  lemma LongerProofOpensLeaf(h: HashFunction, leaves: seq<string>, leaf: string, proof: seq<string>, i: nat)
    requires Digests(h) && leaves != [] && AllDigests(leaves)
    requires |proof| > Depth(|leaves|) && Accepts(h, leaf, proof, Root(h, leaves), i)
    ensures var k := |proof| - Depth(|leaves|);
            var node, slot := Fold(h, leaf, proof[..k], i), Slot(|leaves|, Halved(i, k));
            FindCollision(h, leaves, node, proof[k..], Halved(i, k)).Collides(h)
            || (node == leaves[slot] && proof[k..] == Proof(h, leaves, slot))
  {
    var k := |proof| - Depth(|leaves|);
    assert proof == proof[..k] + proof[k..];
    FoldInTwo(h, leaf, proof[..k], proof[k..], i);
    FoldIsDigest(h, leaf, proof[..k], i);
    Binding(h, leaves, Fold(h, leaf, proof[..k], i), proof[k..], Halved(i, k));
  }

  /** Short of a collision, an accepted proof of the tree's depth is genuine exactly when its leaf has
      the length of a digest. */
  lemma GenuineIffDigest(h: HashFunction, leaves: seq<string>, leaf: string, proof: seq<string>, i: nat)
    requires Digests(h) && AllDigests(leaves) && i < |leaves|
    requires |proof| == Depth(|leaves|) && Accepts(h, leaf, proof, Root(h, leaves), i)
    requires !FindCollision(h, leaves, leaf, proof, i).Collides(h)
    ensures (leaf == leaves[i] && proof == Proof(h, leaves, i)) <==> |leaf| == DIGEST_LENGTH
  {
    if |leaf| == DIGEST_LENGTH { Binding(h, leaves, leaf, proof, i); }
  }

  /** Why the length matters: the verifier does not check it, and in any tree of two or more leaves it
      accepts a leaf that runs on into its sibling. */
  lemma ShiftedLeafIsAccepted(h: HashFunction, leaves: seq<string>, k: nat)
    requires |leaves| >= 2 && AllDigests(leaves) && 0 < k <= DIGEST_LENGTH
    ensures var proof := Proof(h, leaves, 0);
            var leaf' := leaves[0] + leaves[1][..k];
            var proof' := [leaves[1][k..]] + proof[1..];
            && |proof'| == Depth(|leaves|) && leaf' !in leaves
            && Accepts(h, leaf', proof', Root(h, leaves), 0)
  {
    var proof := Proof(h, leaves, 0);
    var leaf' := leaves[0] + leaves[1][..k];
    var proof' := [leaves[1][k..]] + proof[1..];
    Complete(h, leaves, 0);
    assert proof[0] == leaves[1] && proof'[1..] == proof[1..];
    assert leaf' + proof'[0] == leaves[0] + leaves[1] by {
      assert leaves[1] == leaves[1][..k] + leaves[1][k..];
      assert (leaves[0] + leaves[1][..k]) + leaves[1][k..] == leaves[0] + (leaves[1][..k] + leaves[1][k..]);
    }
    assert Joined(leaf', proof'[0], 0) == Joined(leaves[0], proof[0], 0);
  }

  /** Why the depth matters: the root itself is accepted as a leaf, with an empty proof. */
  lemma RootIsAcceptedAsLeaf(h: HashFunction, leaves: seq<string>, i: nat)
    requires leaves != []
    ensures Accepts(h, Root(h, leaves), [], Root(h, leaves), i)
  {
  }

  function Pow2(n: nat): nat {
    if n == 0 then 1 else 2 * Pow2(n - 1)
  }

  /** Only as many low bits of the index count as the proof is long. */
  lemma {:induction false} HighIndexBitsAreIgnored(h: HashFunction, node: string, proof: seq<string>, i: nat, k: nat)
    ensures Fold(h, node, proof, i + k * Pow2(|proof|)) == Fold(h, node, proof, i)
    decreases proof
  {
    if proof != [] {
      var j := i + k * Pow2(|proof|);
      assert k * Pow2(|proof|) == 2 * (k * Pow2(|proof| - 1));
      assert j % 2 == i % 2 && j / 2 == i / 2 + k * Pow2(|proof[1..]|);
      HighIndexBitsAreIgnored(h, h(Joined(node, proof[0], i)), proof[1..], i / 2, k);
    }
  }

  // Roots

  /** What every index below a power of two leads to, were the tree filled up to it. */
  predicate SameFilled(a: seq<string>, b: seq<string>, depth: nat)
    requires a != [] && b != []
  {
    forall i :: 0 <= i < Pow2(depth) ==> a[Slot(|a|, i)] == b[Slot(|b|, i)]
  }

  /** A parent's two children in the filled tree. */
  lemma ChildrenBySlot(level: seq<string>, p: nat, i: nat)
    requires |level| >= 2 && p == (|level| + 1) / 2
    ensures Children(level, Slot(p, i)) == level[Slot(|level|, 2 * i)] + level[Slot(|level|, 2 * i + 1)]
  {
    var n, k := |level|, Slot(p, i);
    assert 2 * i / 2 == i && (2 * i + 1) / 2 == i;
    SlotOfChild(n, 2 * i);
    SlotOfChild(n, 2 * i + 1);
    assert Slot(n, 2 * i) == 2 * k && Slot(n, 2 * i + 1) == if 2 * k + 1 < n then 2 * k + 1 else 2 * k;
  }

  lemma SameFilledAbove(h: HashFunction, a: seq<string>, b: seq<string>, depth: nat)
    requires |a| >= 2 && |b| >= 2 && depth > 0 && SameFilled(a, b, depth)
    ensures SameFilled(NextLevel(h, a), NextLevel(h, b), depth - 1)
  {
    var a', b' := NextLevel(h, a), NextLevel(h, b);
    forall i | 0 <= i < Pow2(depth - 1) ensures a'[Slot(|a'|, i)] == b'[Slot(|b'|, i)] {
      ChildrenBySlot(a, |a'|, i);
      ChildrenBySlot(b, |b'|, i);
      assert 2 * i + 1 < Pow2(depth);
    }
  }

  lemma {:induction false} SameFilledSameRoot(h: HashFunction, a: seq<string>, b: seq<string>)
    requires a != [] && b != [] && Depth(|a|) == Depth(|b|) && SameFilled(a, b, Depth(|a|))
    ensures Root(h, a) == Root(h, b)
    decreases |a|
  {
    if |a| == 1 {
      assert 0 < Pow2(0) && a[Slot(|a|, 0)] == b[Slot(|b|, 0)];
    } else {
      SameFilledAbove(h, a, b, Depth(|a|));
      SameFilledSameRoot(h, NextLevel(h, a), NextLevel(h, b));
    }
  }

  /** A collision between two lists of leaves of one depth, if their roots agree although the filled trees
      differ. */
  ghost function FindRootCollision(h: HashFunction, a: seq<string>, b: seq<string>): Pair
    requires a != [] && b != [] && Depth(|a|) == Depth(|b|)
    decreases |a|
  {
    if |a| == 1 then Pair(a[0], a[0]) else
      var above := FindRootCollision(h, NextLevel(h, a), NextLevel(h, b));
      var p, q := (|a| + 1) / 2, (|b| + 1) / 2;
      if above.Collides(h) then above
      else if i: nat :| i < Pow2(Depth(|a|) - 1) && Children(a, Slot(p, i)) != Children(b, Slot(q, i))
        then Pair(Children(a, Slot(p, i)), Children(b, Slot(q, i)))
      else Pair(a[0], a[0])
  }

  lemma {:induction false} SameRootSameFilled(h: HashFunction, a: seq<string>, b: seq<string>)
    requires Digests(h) && a != [] && b != [] && AllDigests(a) && AllDigests(b)
    requires Depth(|a|) == Depth(|b|) && Root(h, a) == Root(h, b) && !FindRootCollision(h, a, b).Collides(h)
    ensures SameFilled(a, b, Depth(|a|))
    decreases |a|
  {
    if |a| > 1 {
      var a', b', d := NextLevel(h, a), NextLevel(h, b), Depth(|a|);
      NextLevelIsDigests(h, a);
      NextLevelIsDigests(h, b);
      SameRootSameFilled(h, a', b');
      forall i: nat | i < Pow2(d - 1) ensures Children(a, Slot(|a'|, i)) == Children(b, Slot(|b'|, i)) {
        assert a'[Slot(|a'|, i)] == b'[Slot(|b'|, i)];
      }
      forall i | 0 <= i < Pow2(d) ensures a[Slot(|a|, i)] == b[Slot(|b|, i)] {
        SameChildren(a, b, |a'|, |b'|, i, d);
      }
    }
  }

  lemma SameChildren(a: seq<string>, b: seq<string>, p: nat, q: nat, i: nat, d: nat)
    requires |a| >= 2 && |b| >= 2 && AllDigests(a) && AllDigests(b) && d > 0 && i < Pow2(d)
    requires p == (|a| + 1) / 2 && q == (|b| + 1) / 2
    requires forall k: nat :: k < Pow2(d - 1) ==> Children(a, Slot(p, k)) == Children(b, Slot(q, k))
    ensures a[Slot(|a|, i)] == b[Slot(|b|, i)]
  {
    var k := i / 2;
    assert k < Pow2(d - 1) && (i == 2 * k || i == 2 * k + 1);
    ChildrenBySlot(a, p, k);
    ChildrenBySlot(b, q, k);
    SplitsOneWay(a[Slot(|a|, 2 * k)], a[Slot(|a|, 2 * k + 1)], b[Slot(|b|, 2 * k)], b[Slot(|b|, 2 * k + 1)]);
  }

  /** Exactly which lists share a root: barring a collision, lists of digests of one depth do if and only if
      they fill up to the same leaves, the last of an odd level being repeated with all that is below it. */
  lemma SameRootIffSameFilled(h: HashFunction, a: seq<string>, b: seq<string>)
    requires Digests(h) && a != [] && b != [] && AllDigests(a) && AllDigests(b) && Depth(|a|) == Depth(|b|)
    requires !FindRootCollision(h, a, b).Collides(h)
    ensures Root(h, a) == Root(h, b) <==> SameFilled(a, b, Depth(|a|))
  {
    if Root(h, a) == Root(h, b) {
      SameRootSameFilled(h, a, b);
    } else if SameFilled(a, b, Depth(|a|)) {
      SameFilledSameRoot(h, a, b);
    }
  }

  lemma {:induction false} WithinDepth(n: nat)
    requires n > 0
    ensures n <= Pow2(Depth(n))
  {
    if n > 1 { WithinDepth((n + 1) / 2); }
  }

  /** So lists of the same length with the same root are the same, or yield a collision. */
  lemma SameRootSameLeaves(h: HashFunction, a: seq<string>, b: seq<string>)
    requires Digests(h) && |a| == |b| > 0 && AllDigests(a) && AllDigests(b) && Root(h, a) == Root(h, b)
    ensures a == b || FindRootCollision(h, a, b).Collides(h)
  {
    if !FindRootCollision(h, a, b).Collides(h) {
      SameRootSameFilled(h, a, b);
      WithinDepth(|a|);
      forall i | 0 <= i < |a| ensures a[i] == b[i] {
        assert Slot(|a|, i) == i && a[Slot(|a|, i)] == b[Slot(|b|, i)];
      }
    }
  }

  /** And the length is not bound: repeating the last of an odd number of leaves leaves the root alone. */
  lemma RepeatedLastLeafKeepsRoot(h: HashFunction, leaves: seq<string>, m: nat)
    requires m > 0 && |leaves| == 2 * m + 1
    ensures Root(h, leaves + [leaves[2 * m]]) == Root(h, leaves)
  {
    var more := leaves + [leaves[2 * m]];
    var next, next' := NextLevel(h, leaves), NextLevel(h, more);
    assert |next| == m + 1 && |next'| == m + 1;
    forall p | 0 <= p < m + 1 ensures next'[p] == next[p] {
      assert Children(more, p) == Children(leaves, p);
    }
    assert next' == next;
    assert Root(h, more) == Root(h, next') && Root(h, leaves) == Root(h, next);
  }
}
