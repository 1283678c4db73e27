/** The decision log's prover: the tree is rebuilt level by level, and a proof is checked against an index. */
module CryptographicVerifier {
  import opened Merkle

  method BuildMerkleTree(h: HashFunction, entryHashes: seq<string>) returns (root: string, leaves: seq<string>)
    ensures leaves == entryHashes
    ensures root == if entryHashes == [] then h("EMPTY_TREE") else Root(h, entryHashes)
  {
    if |entryHashes| == 0 { return h("EMPTY_TREE"), []; }
    var currentLevel := entryHashes;
    leaves := currentLevel;
    while |currentLevel| > 1
      invariant currentLevel != [] && Root(h, currentLevel) == Root(h, entryHashes)
      decreases |currentLevel|
    {
      currentLevel := Reduce(h, currentLevel);
    }
    root := currentLevel[0];
  }

  /** The inner loop: pairs from left to right, a last odd node with itself. */
  method Reduce(h: HashFunction, currentLevel: seq<string>) returns (nextLevel: seq<string>)
    ensures nextLevel == NextLevel(h, currentLevel)
  {
    nextLevel := [];
    var i := 0;
    while i < |currentLevel|
      invariant i == 2 * |nextLevel| && |nextLevel| <= (|currentLevel| + 1) / 2
      invariant nextLevel == NextLevel(h, currentLevel)[..|nextLevel|]
    {
      var left := currentLevel[i];
      var right := if i + 1 < |currentLevel| then currentLevel[i + 1] else left;
      assert left + right == Children(currentLevel, |nextLevel|);
      nextLevel := nextLevel + [h(left + right)];
      i := i + 2;
    }
  }

  method GenerateProof(h: HashFunction, leaves: seq<string>, targetIndex: int) returns (proof: seq<string>)
    ensures proof == if 0 <= targetIndex < |leaves| then Proof(h, leaves, targetIndex) else []
  {
    proof := [];
    if targetIndex < 0 || targetIndex >= |leaves| { return; }
    var currentLevel := leaves;
    var index: nat := targetIndex;
    while |currentLevel| > 1
      invariant index < |currentLevel|
      invariant proof + Proof(h, currentLevel, index) == Proof(h, leaves, targetIndex)
      decreases |currentLevel|
    {
      var isEven := index % 2 == 0;
      var pairIndex := if isEven then index + 1 else index - 1;
      var sibling := if pairIndex < |currentLevel| then currentLevel[pairIndex] else currentLevel[index];
      TakeSibling(h, currentLevel, index, proof, Proof(h, leaves, targetIndex));
      proof := proof + [sibling];
      currentLevel := Reduce(h, currentLevel);
      index := index / 2;
    }
  }

  lemma TakeSibling(h: HashFunction, level: seq<string>, i: nat, taken: seq<string>, proof: seq<string>)
    requires i < |level| && |level| > 1 && taken + Proof(h, level, i) == proof
    ensures taken + [Sibling(level, i)] + Proof(h, NextLevel(h, level), i / 2) == proof
  {
  }

  method VerifyProof(h: HashFunction, leaf: string, proof: seq<string>, root: string, leafIndex: nat) returns (ok: bool)
    ensures ok == Accepts(h, leaf, proof, root, leafIndex)
  {
    var currentHash := leaf;
    var index := leafIndex;
    var k := 0;
    while k < |proof|
      invariant 0 <= k <= |proof|
      invariant Fold(h, currentHash, proof[k..], index) == Fold(h, leaf, proof, leafIndex)
    {
      assert proof[k..][1..] == proof[k + 1..];
      var sibling := proof[k];
      var isEven := index % 2 == 0;
      currentHash := if isEven then h(currentHash + sibling) else h(sibling + currentHash);
      index := index / 2;
      k := k + 1;
    }
    return currentHash == root;
  }
}

/** The proof-of-solvency prover: the tree is kept whole, and each step of a proof names its side. */
module SolvencyProver {
  import opened Wrappers
  import opened Merkle
  import CryptographicVerifier

  datatype Position = Left | Right

  datatype Step = Step(position: Position, hash: string)

  /** A depositor, with the text its leaf is the hash of: address, shares and value. */
  datatype Depositor = Depositor(address: string, text: string)

  function Leaves(h: HashFunction, depositors: seq<Depositor>): (leaves: seq<string>)
    ensures |leaves| == |depositors|
    ensures forall i :: 0 <= i < |leaves| ==> leaves[i] == h(depositors[i].text)
  {
    seq(|depositors|, i requires 0 <= i < |depositors| => h(depositors[i].text))
  }

  /** A level and all the levels above it. */
  function Levels(h: HashFunction, level: seq<string>): seq<seq<string>>
    decreases |level|, 1
  {
    [level] + Above(h, level)
  }

  function Above(h: HashFunction, level: seq<string>): seq<seq<string>>
    decreases |level|, 0
  {
    if |level| <= 1 then [] else Levels(h, NextLevel(h, level))
  }

  function Steps(h: HashFunction, level: seq<string>, i: nat): seq<Step>
    requires i < |level|
    decreases |level|
  {
    if |level| == 1 then [] else
      [Step(if i % 2 == 1 then Left else Right, Sibling(level, i))] + Steps(h, NextLevel(h, level), i / 2)
  }

  function FoldSteps(h: HashFunction, node: string, steps: seq<Step>): string
    decreases steps
  {
    if steps == [] then node
    else FoldSteps(h, h(if steps[0].position == Left then steps[0].hash + node else node + steps[0].hash), steps[1..])
  }

  predicate Includes(h: HashFunction, leaf: string, steps: seq<Step>, root: string) {
    FoldSteps(h, leaf, steps) == root
  }

  function Hashes(steps: seq<Step>): (hashes: seq<string>)
    ensures |hashes| == |steps|
  {
    if steps == [] then [] else [steps[0].hash] + Hashes(steps[1..])
  }

  /** The leaf index that the named sides spell out, lowest bit first. */
  function IndexOf(steps: seq<Step>): nat {
    if steps == [] then 0 else (if steps[0].position == Left then 1 else 0) + 2 * IndexOf(steps[1..])
  }

  /** Naming the sides and giving the index come to the same check, whatever the proof. */
  lemma {:induction false} SidesSpellTheIndex(h: HashFunction, node: string, steps: seq<Step>)
    ensures FoldSteps(h, node, steps) == Fold(h, node, Hashes(steps), IndexOf(steps))
    decreases steps
  {
    if steps != [] {
      var next := h(if steps[0].position == Left then steps[0].hash + node else node + steps[0].hash);
      SidesSpellTheIndex(h, next, steps[1..]);
      assert Hashes(steps)[1..] == Hashes(steps[1..]);
      assert IndexOf(steps) / 2 == IndexOf(steps[1..]);
    }
  }

  /** The two provers agree: the same sibling hashes, for the same index. */
  lemma {:induction false} ProversAgree(h: HashFunction, leaves: seq<string>, i: nat)
    requires i < |leaves|
    ensures Hashes(Steps(h, leaves, i)) == Proof(h, leaves, i)
    ensures IndexOf(Steps(h, leaves, i)) == i
    decreases |leaves|
  {
    if |leaves| > 1 {
      var steps := Steps(h, leaves, i);
      ProversAgree(h, NextLevel(h, leaves), i / 2);
      assert steps[1..] == Steps(h, NextLevel(h, leaves), i / 2);
    }
  }

  /** And on the root: the last level of the kept tree is the root the other prover computes. */
  lemma {:induction false} RootsAgree(h: HashFunction, leaves: seq<string>)
    requires leaves != []
    ensures |Levels(h, leaves)| == Depth(|leaves|) + 1
    ensures Levels(h, leaves)[|Levels(h, leaves)| - 1] == [Root(h, leaves)]
    decreases |leaves|
  {
    if |leaves| > 1 { RootsAgree(h, NextLevel(h, leaves)); }
  }

  /** Soundness of inclusion: a proof of the tree's depth that is accepted for a digest shows a leaf of
      the tree, or a collision. */
  lemma InclusionIsSound(h: HashFunction, leaves: seq<string>, leaf: string, steps: seq<Step>)
    requires Digests(h) && leaves != [] && AllDigests(leaves) && |leaf| == DIGEST_LENGTH
    requires |steps| == Depth(|leaves|) && Includes(h, leaf, steps, Root(h, leaves))
    ensures leaf in leaves || FindCollision(h, leaves, leaf, Hashes(steps), IndexOf(steps)).Collides(h)
  {
    SidesSpellTheIndex(h, leaf, steps);
    Binding(h, leaves, leaf, Hashes(steps), IndexOf(steps));
  }

  lemma InclusionIsComplete(h: HashFunction, leaves: seq<string>, i: nat)
    requires i < |leaves|
    ensures Includes(h, leaves[i], Steps(h, leaves, i), Root(h, leaves))
  {
    ProversAgree(h, leaves, i);
    SidesSpellTheIndex(h, leaves[i], Steps(h, leaves, i));
    Complete(h, leaves, i);
  }

  method ComputeMerkleTree(h: HashFunction, depositors: seq<Depositor>)
    returns (root: string, leaves: seq<string>, tree: seq<seq<string>>)
    requires Digests(h)
    ensures leaves == Leaves(h, depositors) && tree == Levels(h, leaves)
    ensures root == if depositors == [] then h("EMPTY_TREE") else Root(h, leaves)
  {
    leaves := Leaves(h, depositors);
    var currentLevel := leaves;
    tree := [currentLevel];
    while |currentLevel| > 1
      invariant if leaves == [] then currentLevel == []
                else currentLevel != [] && Root(h, currentLevel) == Root(h, leaves)
      invariant AllDigests(currentLevel)
      invariant tree + Above(h, currentLevel) == Levels(h, leaves)
      decreases |currentLevel|
    {
      var nextLevel := CryptographicVerifier.Reduce(h, currentLevel);
      NextLevelIsDigests(h, currentLevel);
      assert tree + ([nextLevel] + Above(h, nextLevel)) == (tree + [nextLevel]) + Above(h, nextLevel);
      currentLevel := nextLevel;
      tree := tree + [currentLevel];
    }
    root := if |currentLevel| > 0 && currentLevel[0] != "" then currentLevel[0] else h("EMPTY_TREE");
  }

  /** The first depositor of that address, letter case aside. */
  function IndexOfAddress(lower: string -> string, depositors: seq<Depositor>, target: string): (i: int)
    ensures -1 <= i < |depositors|
    ensures i >= 0 ==> lower(depositors[i].address) == lower(target)
    ensures forall j :: 0 <= j < |depositors| && (i < 0 || j < i) ==> lower(depositors[j].address) != lower(target)
  {
    if depositors == [] then -1
    else if lower(depositors[0].address) == lower(target) then 0
    else
      var rest := IndexOfAddress(lower, depositors[1..], target);
      assert forall j :: 0 < j < |depositors| ==> depositors[j] == depositors[1..][j - 1];
      if rest < 0 then -1 else rest + 1
  }

  /** The loop of `GetInclusionProof` over the levels below the root. */
  method CollectSteps(h: HashFunction, leaves: seq<string>, tree: seq<seq<string>>, depIndex: nat)
      returns (proof: seq<Step>)
    requires depIndex < |leaves| && tree == Levels(h, leaves)
    ensures proof == Steps(h, leaves, depIndex)
  {
    proof := [];
    var currentIndex: nat := depIndex;
    var level: nat := 0;
    while level < |tree| - 1
      invariant level < |tree| && tree[level..] == Levels(h, tree[level])
      invariant currentIndex < |tree[level]|
      invariant proof + Steps(h, tree[level], currentIndex) == Steps(h, leaves, depIndex)
    {
      var currentLevel := tree[level];
      NextOf(h, tree, level);
      var isRight := currentIndex % 2 == 1;
      var siblingIndex: int := if isRight then currentIndex - 1 else currentIndex + 1;
      var step := if siblingIndex < |currentLevel|
        then Step(if isRight then Left else Right, currentLevel[siblingIndex])
        else Step(Right, currentLevel[currentIndex]);
      TakeStep(h, currentLevel, currentIndex, proof, Steps(h, leaves, depIndex));
      proof := proof + [step];
      currentIndex := currentIndex / 2;
      level := level + 1;
    }
    LastOf(h, tree[level]);
  }

  /** The root's level is the only one with nothing above it. */
  lemma LastOf(h: HashFunction, level: seq<string>)
    requires level != []
    ensures |Levels(h, level)| == 1 <==> |level| == 1
  {
    if |level| > 1 { assert |Levels(h, NextLevel(h, level))| >= 1; }
  }

  lemma TakeStep(h: HashFunction, level: seq<string>, i: nat, taken: seq<Step>, steps: seq<Step>)
    requires i < |level| && |level| > 1 && taken + Steps(h, level, i) == steps
    ensures taken + [Step(if i % 2 == 1 then Left else Right, Sibling(level, i))]
         + Steps(h, NextLevel(h, level), i / 2) == steps
  {
  }

  /** A level below the last one is followed by its parents. */
  lemma NextOf(h: HashFunction, tree: seq<seq<string>>, level: nat)
    requires level + 1 < |tree| && tree[level..] == Levels(h, tree[level])
    ensures |tree[level]| > 1 && tree[level + 1] == NextLevel(h, tree[level])
    ensures tree[level + 1..] == Levels(h, tree[level + 1])
  {
    var rest := tree[level + 1..];
    assert rest == tree[level..][1..] == Above(h, tree[level]);
    assert tree[level + 1] == rest[0];
    assert Above(h, tree[level]) == Levels(h, NextLevel(h, tree[level]));
    assert rest[0] == NextLevel(h, tree[level]);
  }

  datatype InclusionProof = InclusionProof(leafHash: string, merkleRoot: string, proof: seq<Step>, isVerified: bool)

  /** A registered address always gets a proof, and the proof it gets always verifies. */
  method GetInclusionProof(h: HashFunction, lower: string -> string, depositors: seq<Depositor>, target: string)
    returns (r: Option<InclusionProof>)
    requires Digests(h)
    ensures var i := IndexOfAddress(lower, depositors, target);
            var leaves := Leaves(h, depositors);
            r == if i < 0 then None
                 else Some(InclusionProof(leaves[i], Root(h, leaves), Steps(h, leaves, i), true))
  {
    var depIndex := IndexOfAddress(lower, depositors, target);
    if depIndex == -1 { return None; }
    var root, leaves, tree := ComputeMerkleTree(h, depositors);
    var proof := CollectSteps(h, leaves, tree, depIndex);
    var isVerified := VerifyInclusion(h, leaves[depIndex], proof, root);
    InclusionIsComplete(h, leaves, depIndex);
    return Some(InclusionProof(leaves[depIndex], root, proof, isVerified));
  }

  method VerifyInclusion(h: HashFunction, leafHash: string, proof: seq<Step>, expectedRoot: string) returns (ok: bool)
    ensures ok == Includes(h, leafHash, proof, expectedRoot)
  {
    var currentHash := leafHash;
    var k := 0;
    while k < |proof|
      invariant 0 <= k <= |proof|
      invariant FoldSteps(h, currentHash, proof[k..]) == FoldSteps(h, leafHash, proof)
    {
      assert proof[k..][1..] == proof[k + 1..];
      var step := proof[k];
      if step.position == Left {
        currentHash := h(step.hash + currentHash);
      } else {
        currentHash := h(currentHash + step.hash);
      }
      k := k + 1;
    }
    return currentHash == expectedRoot;
  }
}
