/**
 The Merkle tree of an anchored batch and its inclusion proofs (internal/protocol/sub3/merkle.go).
 SHA-256 is a parameter; hex text is decoded and encoded digit by digit.
 */
module Merkle {
  import opened Wrappers

  type Byte = b: int | 0 <= b < 256

  /** SHA-256. */
  type Hash = seq<Byte> -> seq<Byte>

  const DIGEST: nat := 32

  // ---- hex --------------------------------------------------------------

  function Nibble(c: char): (n: Option<nat>)
    ensures n.Some? ==> n.value < 16
  {
    if '0' <= c <= '9' then Some((c - '0') as nat)
    else if 'a' <= c <= 'f' then Some((c - 'a') as nat + 10)
    else if 'A' <= c <= 'F' then Some((c - 'A') as nat + 10)
    else None
  }

  function Digit(n: nat): (c: char)
    requires n < 16
    ensures Nibble(c) == Some(n) && !('A' <= c <= 'F')
  {
    if n < 10 then '0' + n as char else 'a' + (n - 10) as char
  }

  function Decode(s: string): (b: Option<seq<Byte>>)
    ensures b.Some? ==> |s| == 2 * |b.value|
  {
    if s == "" then Some([])
    else if |s| == 1 || Nibble(s[0]).None? || Nibble(s[1]).None? then None
    else
      var rest := Decode(s[2..]);
      if rest.None? then None else Some([16 * Nibble(s[0]).value + Nibble(s[1]).value] + rest.value)
  }

  function Encode(b: seq<Byte>): (s: string)
    ensures |s| == 2 * |b|
  {
    if b == [] then "" else [Digit(b[0] / 16), Digit(b[0] % 16)] + Encode(b[1..])
  }

  predicate LowerCase(s: string) {
    forall i :: 0 <= i < |s| ==> !('A' <= s[i] <= 'F')
  }

  lemma DecodeByte(b: Byte, s: string, rest: seq<Byte>)
    requires Decode(s) == Some(rest)
    ensures Decode([Digit(b / 16), Digit(b % 16)] + s) == Some([b] + rest)
  {
    hide Nibble, Digit;
    var t := [Digit(b / 16), Digit(b % 16)] + s;
    assert t[2..] == s;
    assert 16 * (b / 16) + b % 16 == b;
  }

  lemma LowerCaseByte(b: Byte, s: string)
    requires LowerCase(s)
    ensures LowerCase([Digit(b / 16), Digit(b % 16)] + s)
  {
    hide Nibble, Digit;
  }

  lemma {:induction false} DecodeEncode(b: seq<Byte>)
    ensures Decode(Encode(b)) == Some(b) && LowerCase(Encode(b))
  {
    hide Nibble, Digit, Decode, LowerCase;
    if b == [] {
      EmptyText();
    } else {
      DecodeEncode(b[1..]);
      DecodeByte(b[0], Encode(b[1..]), b[1..]);
      LowerCaseByte(b[0], Encode(b[1..]));
      assert b == [b[0]] + b[1..];
    }
  }

  lemma EmptyText()
    ensures Decode("") == Some([]) && LowerCase("")
  {
  }

  lemma DigitNibble(c: char)
    requires Nibble(c).Some? && !('A' <= c <= 'F')
    ensures Digit(Nibble(c).value) == c
  {
  }

  lemma {:induction false} EncodeDecode(s: string)
    requires LowerCase(s) && Decode(s).Some?
    ensures Encode(Decode(s).value) == s
  {
    hide Nibble, Digit;
    if s != "" {
      var b := Decode(s).value;
      EncodeDecode(s[2..]);
      DigitNibble(s[0]);
      DigitNibble(s[1]);
      assert b[1..] == Decode(s[2..]).value;
      assert s == [s[0], s[1]] + s[2..];
    }
  }

  // ---- the tree ---------------------------------------------------------

  function MerkleParent(h: Hash, left: string, right: string): (p: Option<string>) {
    var l, r := Decode(left), Decode(right);
    if l.None? || r.None? then None else Some(Encode(h(l.value + r.value)))
  }

  function Half(n: nat): (m: nat)
    ensures n > 1 ==> 1 <= m < n
  {
    (n + 1) / 2
  }

  /** The right child of node j of the next level: an odd level's last node is its own sibling. */
  function RightChild(n: nat, j: nat): (i: nat)
    requires j < Half(n)
    ensures i < n && 2 * j < n
  {
    if 2 * j + 1 < n then 2 * j + 1 else 2 * j
  }

  function ParentAt(h: Hash, level: seq<string>, j: nat): Option<string>
    requires j < Half(|level|)
  {
    MerkleParent(h, level[2 * j], level[RightChild(|level|, j)])
  }

  /** The next level, unless some node is not hex. */
  function Up(h: Hash, level: seq<string>): (u: Option<seq<string>>)
    ensures u.Some? ==> |u.value| == Half(|level|)
    ensures u.Some? ==> forall j :: 0 <= j < Half(|level|) ==> ParentAt(h, level, j) == Some(u.value[j])
    ensures u.None? ==> exists j :: 0 <= j < Half(|level|) && ParentAt(h, level, j).None?
  {
    if exists j :: 0 <= j < Half(|level|) && ParentAt(h, level, j).None? then None
    else
      Some(seq(Half(|level|), j requires 0 <= j < Half(|level|) => ParentAt(h, level, j).value))
  }

  function Root(h: Hash, level: seq<string>): (r: Option<string>)
    requires level != []
    decreases |level|
  {
    if |level| == 1 then Some(level[0])
    else
      var u := Up(h, level);
      if u.None? then None else Root(h, u.value)
  }

  datatype ProofNode = ProofNode(sibling: string, position: string)

  /** The proof step of node i of a level. */
  function StepAt(level: seq<string>, i: nat): ProofNode
    requires i < |level|
  {
    if i % 2 == 1 then ProofNode(level[i - 1], "left")
    else ProofNode(level[if i + 1 < |level| then i + 1 else i], "right")
  }

  function Proof(h: Hash, level: seq<string>, i: nat): (p: seq<ProofNode>)
    requires i < |level|
    decreases |level|
  {
    if |level| == 1 || Up(h, level).None? then []
    else [StepAt(level, i)] + Proof(h, Up(h, level).value, i / 2)
  }

  /** The parent that a proof step computes; None for any other position than left or right. */
  function Stepped(h: Hash, current: string, node: ProofNode): Option<string> {
    if node.position == "left" then MerkleParent(h, node.sibling, current)
    else if node.position == "right" then MerkleParent(h, current, node.sibling)
    else None
  }

  function Verifies(h: Hash, root: string, current: string, proof: seq<ProofNode>): bool
    decreases |proof|
  {
    if proof == [] then current == root
    else
      var parent := Stepped(h, current, proof[0]);
      parent.Some? && Verifies(h, root, parent.value, proof[1..])
  }

  method VerifyProof(h: Hash, root: string, leaf: string, proof: seq<ProofNode>) returns (ok: bool)
    ensures ok == Verifies(h, root, leaf, proof)
  {
    var current := leaf;
    for k := 0 to |proof|
      invariant Verifies(h, root, leaf, proof) == Verifies(h, root, current, proof[k..])
    {
      var parent := None;
      match proof[k].position {
        case "left" => parent := MerkleParent(h, proof[k].sibling, current);
        case "right" => parent := MerkleParent(h, current, proof[k].sibling);
        case _ => return false;
      }
      if parent.None? {
        return false;
      }
      current := parent.value;
      assert proof[k..][1..] == proof[k + 1..];
    }
    ok := current == root;
  }

  // ---- building ---------------------------------------------------------

  datatype LevelNode = LevelNode(hash: string, leafIdxs: seq<nat>)

  datatype Tree = Tree(root: string, proofs: seq<seq<ProofNode>>)

  function Hashes(level: seq<LevelNode>): (s: seq<string>)
    ensures |s| == |level|
  {
    seq(|level|, i requires 0 <= i < |level| => level[i].hash)
  }

  predicate Distinct(s: seq<nat>) {
    forall i, j :: 0 <= i < j < |s| ==> s[i] != s[j]
  }

  /** idxs are the leaves that flow through node j, each once. */
  ghost predicate OwnedBy(idxs: seq<nat>, owner: seq<nat>, j: nat) {
    Distinct(idxs) && forall li :: li in idxs <==> 0 <= li < |owner| && owner[li] == j
  }

  /** owner names the node of the level that each leaf flows through. */
  ghost predicate Owned(level: seq<LevelNode>, owner: seq<nat>) {
    && (forall li :: 0 <= li < |owner| ==> owner[li] < |level|)
    && (forall j :: 0 <= j < |level| ==> OwnedBy(level[j].leafIdxs, owner, j))
  }

  ghost function Halved(owner: seq<nat>): (up: seq<nat>)
    ensures |up| == |owner|
  {
    seq(|owner|, li requires 0 <= li < |owner| => owner[li] / 2)
  }

  lemma LeftOnly(left: seq<nat>, owner: seq<nat>, p: nat)
    requires OwnedBy(left, owner, 2 * p) && forall li :: 0 <= li < |owner| ==> owner[li] <= 2 * p
    ensures OwnedBy(left, Halved(owner), p)
  {
  }

  lemma Merged(left: seq<nat>, right: seq<nat>, owner: seq<nat>, p: nat)
    requires OwnedBy(left, owner, 2 * p) && OwnedBy(right, owner, 2 * p + 1)
    ensures OwnedBy(left + right, Halved(owner), p)
  {
    forall i, j | 0 <= i < j < |left + right|
      ensures (left + right)[i] != (left + right)[j]
    {
      if i < |left| <= j {
        assert left[i] in left && right[j - |left|] in right;
      }
    }
    forall li
      ensures li in left + right <==> 0 <= li < |owner| && Halved(owner)[li] == p
    {
      assert 0 <= li < |owner| ==> (owner[li] / 2 == p <==> owner[li] == 2 * p || owner[li] == 2 * p + 1);
    }
  }

  /** Every leaf that flows through node j gets the step. */
  method AddStep(proofs: seq<seq<ProofNode>>, idxs: seq<nat>, node: ProofNode, ghost owner: seq<nat>, ghost j: nat)
    returns (out: seq<seq<ProofNode>>)
    requires |owner| == |proofs| && OwnedBy(idxs, owner, j)
    ensures |out| == |proofs|
    ensures forall li :: 0 <= li < |proofs| ==> out[li] == if owner[li] == j then proofs[li] + [node] else proofs[li]
  {
    out := proofs;
    for k := 0 to |idxs|
      invariant |out| == |proofs|
      invariant forall li :: 0 <= li < |proofs| ==>
                  out[li] == if li in idxs[..k] then proofs[li] + [node] else proofs[li]
    {
      var li := idxs[k];
      assert li in idxs && li !in idxs[..k];
      assert idxs[..k + 1] == idxs[..k] + [li];
      out := out[li := out[li] + [node]];
    }
    assert idxs[..|idxs|] == idxs;
  }

  /** The proofs after p nodes of the next level: leaves below them have the step of their node. */
  ghost predicate Extended(level: seq<string>, owner: seq<nat>, proofs: seq<seq<ProofNode>>, p: nat,
                           out: seq<seq<ProofNode>>)
    requires |proofs| == |owner|
  {
    && |out| == |proofs|
    && forall li :: 0 <= li < |owner| && owner[li] < |level| ==>
         out[li] == if owner[li] < 2 * p then proofs[li] + [StepAt(level, owner[li])] else proofs[li]
  }

  lemma UpIs(h: Hash, level: seq<string>, u: seq<string>)
    requires |u| == Half(|level|) && forall j :: 0 <= j < |u| ==> ParentAt(h, level, j) == Some(u[j])
    ensures Up(h, level) == Some(u)
  {
    hide ParentAt;
    var v := Up(h, level);
    assert v.Some?;
    assert v.value == u;
  }

  lemma UpFails(h: Hash, level: seq<string>, j: nat)
    requires j < Half(|level|) && ParentAt(h, level, j).None?
    ensures Up(h, level).None?
  {
  }

  lemma NothingExtended(level: seq<string>, owner: seq<nat>, proofs: seq<seq<ProofNode>>)
    requires |proofs| == |owner|
    ensures Extended(level, owner, proofs, 0, proofs)
  {
  }

  /** Node p of the next level adds the steps of its children. */
  lemma ExtendedNext(level: seq<string>, owner: seq<nat>, proofs: seq<seq<ProofNode>>, p: nat,
                     out: seq<seq<ProofNode>>, after: seq<seq<ProofNode>>)
    requires |proofs| == |owner| && Extended(level, owner, proofs, p, out) && 2 * p < |level| && |after| == |out|
    requires forall li :: 0 <= li < |owner| && owner[li] < |level| ==>
               after[li] == if owner[li] in {2 * p, 2 * p + 1} then out[li] + [StepAt(level, owner[li])] else out[li]
    ensures Extended(level, owner, proofs, p + 1, after)
  {
    hide StepAt;
  }

  lemma StepsOfPair(current: seq<LevelNode>, p: nat)
    requires 2 * p < |current|
    ensures 2 * p + 1 < |current| ==>
              && StepAt(Hashes(current), 2 * p) == ProofNode(current[2 * p + 1].hash, "right")
              && StepAt(Hashes(current), 2 * p + 1) == ProofNode(current[2 * p].hash, "left")
    ensures 2 * p + 1 == |current| ==>
              StepAt(Hashes(current), 2 * p) == ProofNode(current[2 * p].hash, "right")
  {
  }

  /** The leaves below node p of the next level get their steps. */
  method AddSteps(current: seq<LevelNode>, p: nat, proofs: seq<seq<ProofNode>>, ghost owner: seq<nat>)
    returns (idxs: seq<nat>, out: seq<seq<ProofNode>>)
    requires p < Half(|current|) && |proofs| == |owner| && Owned(current, owner)
    ensures OwnedBy(idxs, Halved(owner), p) && |out| == |proofs|
    ensures forall li :: 0 <= li < |owner| && owner[li] < |current| ==>
              out[li] == if owner[li] in {2 * p, 2 * p + 1} then proofs[li] + [StepAt(Hashes(current), owner[li])]
                         else proofs[li]
  {
    hide OwnedBy, StepAt, Hashes;
    var left := current[2 * p];
    StepsOfPair(current, p);
    if 2 * p + 1 < |current| {
      var right := current[2 * p + 1];
      out := AddStep(proofs, left.leafIdxs, ProofNode(right.hash, "right"), owner, 2 * p);
      out := AddStep(out, right.leafIdxs, ProofNode(left.hash, "left"), owner, 2 * p + 1);
      idxs := left.leafIdxs + right.leafIdxs;
      Merged(left.leafIdxs, right.leafIdxs, owner, p);
    } else {
      out := AddStep(proofs, left.leafIdxs, ProofNode(left.hash, "right"), owner, 2 * p);
      idxs := left.leafIdxs;
      LeftOnly(left.leafIdxs, owner, p);
    }
  }

  /** One level up: every leaf gets the step of the node it flows through. */
  method Climb(h: Hash, current: seq<LevelNode>, proofs: seq<seq<ProofNode>>, ghost owner: seq<nat>)
    returns (up: Option<(seq<LevelNode>, seq<seq<ProofNode>>)>)
    requires |current| > 1 && |proofs| == |owner| && Owned(current, owner)
    ensures up.None? <==> Up(h, Hashes(current)).None?
    ensures up.Some? ==>
              && Some(Hashes(up.value.0)) == Up(h, Hashes(current))
              && Owned(up.value.0, Halved(owner))
              && |up.value.1| == |proofs|
              && Extended(Hashes(current), owner, proofs, Half(|current|), up.value.1)
  {
    hide MerkleParent, OwnedBy, Up, Extended, StepAt;
    ghost var hashes := Hashes(current);
    var next: seq<LevelNode>, out := [], proofs;
    NothingExtended(hashes, owner, proofs);
    for p := 0 to Half(|current|)
      invariant |next| == p && |out| == |proofs| && Extended(hashes, owner, proofs, p, out)
      invariant forall q :: 0 <= q < p ==>
                  ParentAt(h, hashes, q) == Some(next[q].hash) && OwnedBy(next[q].leafIdxs, Halved(owner), q)
    {
      var left := current[2 * p];
      var right := if 2 * p + 1 < |current| then current[2 * p + 1] else left;
      var parent := MerkleParent(h, left.hash, right.hash);
      assert parent == ParentAt(h, hashes, p);
      if parent.None? {
        UpFails(h, hashes, p);
        return None;
      }
      var idxs, after := AddSteps(current, p, out, owner);
      ExtendedNext(hashes, owner, proofs, p, out, after);
      next, out := next + [LevelNode(parent.value, idxs)], after;
    }
    UpIs(h, hashes, Hashes(next));
    up := Some((next, out));
  }

  /** What each leaf has so far, and the proof of its node in the present level, make its whole proof. */
  ghost predicate OnTrack(h: Hash, leaves: seq<string>, level: seq<string>, owner: seq<nat>,
                          proofs: seq<seq<ProofNode>>)
    requires |proofs| == |owner| == |leaves|
  {
    forall i :: 0 <= i < |leaves| ==>
      owner[i] < |level| && proofs[i] + Proof(h, level, owner[i]) == Proof(h, leaves, i)
  }

  lemma ProofClimbs(h: Hash, level: seq<string>, u: seq<string>, i: nat, before: seq<ProofNode>)
    requires |level| > 1 && Up(h, level) == Some(u) && i < |level|
    ensures (before + [StepAt(level, i)]) + Proof(h, u, i / 2) == before + Proof(h, level, i)
  {
    hide Up, StepAt;
    assert Proof(h, level, i) == [StepAt(level, i)] + Proof(h, u, i / 2);
  }

  lemma StaysOnTrack(h: Hash, leaves: seq<string>, level: seq<string>, u: seq<string>, owner: seq<nat>,
                     before: seq<seq<ProofNode>>, after: seq<seq<ProofNode>>)
    requires |level| > 1 && Up(h, level) == Some(u) && |before| == |owner| == |leaves|
    requires OnTrack(h, leaves, level, owner, before) && Extended(level, owner, before, Half(|level|), after)
    ensures OnTrack(h, leaves, u, Halved(owner), after)
  {
    hide Up, StepAt, Proof;
    forall i | 0 <= i < |leaves|
      ensures after[i] + Proof(h, u, Halved(owner)[i]) == Proof(h, leaves, i)
    {
      ProofClimbs(h, level, u, owner[i], before[i]);
    }
  }

  lemma StartsOnTrack(h: Hash, leaves: seq<string>, level: seq<LevelNode>, owner: seq<nat>,
                      proofs: seq<seq<ProofNode>>)
    requires |owner| == |level| == |proofs| == |leaves| && Hashes(level) == leaves
    requires forall i :: 0 <= i < |level| ==> owner[i] == i && level[i].leafIdxs == [i] && proofs[i] == []
    ensures Owned(level, owner) && OnTrack(h, leaves, leaves, owner, proofs)
  {
  }

  /** The tree and every leaf's proof, unless there are no leaves or a leaf to be hashed is not hex. */
  method BuildMerkleTree(h: Hash, leaves: seq<string>) returns (r: Option<Tree>)
    ensures r.Some? <==> leaves != [] && Root(h, leaves).Some?
    ensures r.Some? ==>
              && r.value.root == Root(h, leaves).value && |r.value.proofs| == |leaves|
              && forall i :: 0 <= i < |leaves| ==> r.value.proofs[i] == Proof(h, leaves, i)
  {
    hide Up, Owned, Extended, OnTrack, Halved;
    if |leaves| == 0 {
      return None;
    }
    var current := seq(|leaves|, i requires 0 <= i < |leaves| => LevelNode(leaves[i], [i]));
    var proofs: seq<seq<ProofNode>> := seq(|leaves|, _ => []);
    ghost var owner: seq<nat> := seq(|leaves|, i requires i >= 0 => i);
    assert Hashes(current) == leaves;
    StartsOnTrack(h, leaves, current, owner, proofs);
    while |current| > 1
      invariant current != [] && |proofs| == |owner| && |owner| == |leaves| && Owned(current, owner)
      invariant Root(h, Hashes(current)) == Root(h, leaves)
      invariant OnTrack(h, leaves, Hashes(current), owner, proofs)
      decreases |current|
    {
      var up := Climb(h, current, proofs, owner);
      if up.None? {
        return None;
      }
      StaysOnTrack(h, leaves, Hashes(current), Hashes(up.value.0), owner, proofs, up.value.1);
      current, proofs, owner := up.value.0, up.value.1, Halved(owner);
    }
    Finished(h, leaves, Hashes(current), owner, proofs);
    r := Some(Tree(current[0].hash, proofs));
  }

  lemma Finished(h: Hash, leaves: seq<string>, level: seq<string>, owner: seq<nat>, proofs: seq<seq<ProofNode>>)
    requires |level| == 1 && |proofs| == |owner| == |leaves| && OnTrack(h, leaves, level, owner, proofs)
    ensures forall i :: 0 <= i < |leaves| ==> proofs[i] == Proof(h, leaves, i)
  {
    hide Up, StepAt;
    forall i | 0 <= i < |leaves|
      ensures proofs[i] == Proof(h, leaves, i)
    {
      assert Proof(h, level, owner[i]) == [];
    }
  }

  // ---- what the tree proves ---------------------------------------------

  function Depth(n: nat): (d: nat) {
    if n <= 1 then 0 else 1 + Depth(Half(n))
  }

  ghost predicate AllHex(level: seq<string>) {
    forall i :: 0 <= i < |level| ==> Decode(level[i]).Some?
  }

  lemma UpOfHex(h: Hash, level: seq<string>)
    ensures Up(h, level).Some? <==> AllHex(level)
    ensures Up(h, level).Some? ==> AllHex(Up(h, level).value)
  {
    hide Decode;
    forall b {
      DecodeEncode(b);
    }
    forall i | 0 <= i < |level| && Decode(level[i]).None?
      ensures Up(h, level).None?
    {
      assert i == 2 * (i / 2) || i == RightChild(|level|, i / 2);
      UpFails(h, level, i / 2);
    }
  }

  /** A tree is built exactly from one leaf of any text, or from several that are all hex. */
  lemma {:induction false} BuiltIff(h: Hash, leaves: seq<string>)
    requires leaves != []
    ensures Root(h, leaves).Some? <==> |leaves| == 1 || AllHex(leaves)
    decreases |leaves|
  {
    hide AllHex, Up;
    UpOfHex(h, leaves);
    if |leaves| > 1 && Up(h, leaves).Some? {
      BuiltIff(h, Up(h, leaves).value);
    }
  }

  lemma StepIsParent(h: Hash, level: seq<string>, i: nat)
    requires i < |level| && Up(h, level).Some?
    ensures Stepped(h, level[i], StepAt(level, i)) == Some(Up(h, level).value[i / 2])
  {
    hide MerkleParent;
    assert ParentAt(h, level, i / 2) == Some(Up(h, level).value[i / 2]);
  }

  /** Every proof has the depth of the tree, and passes for its leaf. */
  lemma {:induction false} ProofsVerify(h: Hash, leaves: seq<string>, i: nat)
    requires i < |leaves| && Root(h, leaves).Some?
    ensures |Proof(h, leaves, i)| == Depth(|leaves|)
    ensures Verifies(h, Root(h, leaves).value, leaves[i], Proof(h, leaves, i))
    decreases |leaves|
  {
    hide MerkleParent, Up, StepAt, Stepped;
    if |leaves| > 1 {
      var u, proof := Up(h, leaves).value, Proof(h, leaves, i);
      ProofsVerify(h, u, i / 2);
      StepIsParent(h, leaves, i);
      assert proof[1..] == Proof(h, u, i / 2);
    }
  }

  /** The next level of a list is made of the same parents as that of another. */
  lemma SameParents(h: Hash, a: seq<string>, b: seq<string>)
    requires Half(|a|) == Half(|b|) && forall j :: 0 <= j < Half(|a|) ==> ParentAt(h, a, j) == ParentAt(h, b, j)
    ensures Up(h, a) == Up(h, b)
  {
    hide ParentAt;
    if Up(h, b).Some? {
      UpIs(h, a, Up(h, b).value);
    }
  }

  /** An odd level and the level with its last node repeated have the same root. */
  lemma OddLevelRepeatsLast(h: Hash, leaves: seq<string>)
    requires |leaves| > 1 && |leaves| % 2 == 1
    ensures Root(h, leaves + [leaves[|leaves| - 1]]) == Root(h, leaves)
  {
    hide MerkleParent, Up;
    SameParents(h, leaves + [leaves[|leaves| - 1]], leaves);
  }

  // ---- which leaves a root commits to -----------------------------------

  /** Lower-case hex of 32 bytes, as chain hashes are stored. */
  predicate IsDigest(s: string) {
    LowerCase(s) && |s| == 2 * DIGEST && Decode(s).Some?
  }

  ghost predicate AllDigests(level: seq<string>) {
    forall i :: 0 <= i < |level| ==> IsDigest(level[i])
  }

  /** SHA-256 values have 32 bytes. */
  ghost predicate Fixed(h: Hash) {
    forall b :: |h(b)| == DIGEST
  }

  function Input(left: string, right: string): seq<Byte>
    requires Decode(left).Some? && Decode(right).Some?
  {
    Decode(left).value + Decode(right).value
  }

  /** The inputs hashed for the next level. */
  ghost function LevelInputs(level: seq<string>): set<seq<Byte>>
    requires AllDigests(level)
  {
    set j | 0 <= j < Half(|level|) :: Input(level[2 * j], level[RightChild(|level|, j)])
  }

  /** The inputs hashed for the whole tree. */
  ghost function TreeInputs(h: Hash, level: seq<string>): set<seq<Byte>>
    requires Fixed(h) && AllDigests(level)
    decreases |level|
  {
    if |level| <= 1 then {}
    else
      UpOfDigests(h, level);
      LevelInputs(level) + TreeInputs(h, Up(h, level).value)
  }

  ghost predicate CollisionFree(h: Hash, inputs: set<seq<Byte>>) {
    forall x, y :: x in inputs && y in inputs && h(x) == h(y) ==> x == y
  }

  lemma UpOfDigests(h: Hash, level: seq<string>)
    requires Fixed(h) && AllDigests(level)
    ensures Up(h, level).Some? && AllDigests(Up(h, level).value)
  {
    UpOfHex(h, level);
    var u := Up(h, level).value;
    forall j | 0 <= j < |u|
      ensures IsDigest(u[j])
    {
      DecodeEncode(h(Input(level[2 * j], level[RightChild(|level|, j)])));
    }
  }

  /** Nodes with the same parent have the same bytes, without a collision, when their halves are digests. */
  lemma {:induction false} ParentInjective(h: Hash, a: string, b: string, c: string, d: string)
    requires Decode(a).Some? && Decode(b).Some? && Decode(c).Some? && Decode(d).Some?
    requires (IsDigest(a) && IsDigest(c)) || (IsDigest(b) && IsDigest(d))
    requires h(Input(a, b)) == h(Input(c, d)) ==> Input(a, b) == Input(c, d)
    ensures MerkleParent(h, a, b) == MerkleParent(h, c, d) ==> Decode(a) == Decode(c) && Decode(b) == Decode(d)
  {
    hide Decode, Encode;
    if MerkleParent(h, a, b) == MerkleParent(h, c, d) {
      DecodeEncode(h(Input(a, b)));
      DecodeEncode(h(Input(c, d)));
      assert |Input(a, b)| == |Input(c, d)|;
      SplitsAlike(Decode(a).value, Decode(b).value, Decode(c).value, Decode(d).value);
    }
  }

  lemma DigestEq(a: string, b: string)
    requires IsDigest(a) && IsDigest(b) && Decode(a) == Decode(b)
    ensures a == b
  {
    EncodeDecode(a);
    EncodeDecode(b);
  }

  lemma SplitsAlike(a: seq<Byte>, b: seq<Byte>, c: seq<Byte>, d: seq<Byte>)
    requires |a| == |c| && a + b == c + d
    ensures a == c && b == d
  {
    assert (a + b)[..|a|] == a && (c + d)[..|a|] == c;
    assert (a + b)[|a|..] == b && (c + d)[|a|..] == d;
  }

  /** The children of some nodes of the level above n nodes, pair by pair. */
  function Children(up: seq<nat>, n: nat): (ps: seq<nat>)
    requires forall k :: 0 <= k < |up| ==> up[k] < Half(n)
    ensures |ps| == 2 * |up| && forall i :: 0 <= i < |ps| ==> ps[i] < n
  {
    if up == [] then []
    else
      var j := up[|up| - 1];
      Children(up[..|up| - 1], n) + [2 * j, RightChild(n, j)]
  }

  /** Which leaf stands at each place of the complete tree: odd levels repeat their last node. */
  function Places(n: nat): (ps: seq<nat>)
    requires n >= 1
    ensures forall k :: 0 <= k < |ps| ==> ps[k] < n
  {
    if n == 1 then [0] else Children(Places(Half(n)), n)
  }

  /** The leaves of the complete tree. */
  function Complete(level: seq<string>): (s: seq<string>)
    requires level != []
    ensures |s| == |Places(|level|)|
  {
    var ps := Places(|level|);
    seq(|ps|, k requires 0 <= k < |ps| => level[ps[k]])
  }

  lemma {:induction false} SameDepthSameWidth(m: nat, n: nat)
    requires m >= 1 && n >= 1 && Depth(m) == Depth(n)
    ensures |Places(m)| == |Places(n)|
  {
    if m > 1 && n > 1 {
      SameDepthSameWidth(Half(m), Half(n));
    }
  }

  lemma {:induction false} ChildPair(up: seq<nat>, n: nat, k: nat)
    requires (forall i :: 0 <= i < |up| ==> up[i] < Half(n)) && k < |up|
    ensures Children(up, n)[2 * k] == 2 * up[k] && Children(up, n)[2 * k + 1] == RightChild(n, up[k])
  {
    hide Half, RightChild;
    if k < |up| - 1 {
      ChildPair(up[..|up| - 1], n, k);
    }
  }

  lemma PlacesUp(n: nat, k: nat)
    requires n > 1 && k < |Places(Half(n))|
    ensures var ps, j := Places(n), Places(Half(n))[k];
            2 * k + 1 < |ps| && ps[2 * k] == 2 * j && ps[2 * k + 1] == RightChild(n, j)
  {
    hide Half, RightChild, Children;
    ChildPair(Places(Half(n)), n, k);
  }

  /** Node k of the completed next level is the parent of nodes 2k and 2k + 1 of the completed level. */
  lemma {:induction false} CompleteUp(h: Hash, level: seq<string>, k: nat)
    requires |level| > 1 && AllDigests(level) && Up(h, level).Some?
    requires k < |Places(Half(|level|))|
    ensures var c := Complete(level);
            && 2 * k + 1 < |c| && IsDigest(c[2 * k]) && IsDigest(c[2 * k + 1])
            && MerkleParent(h, c[2 * k], c[2 * k + 1]) == Some(Complete(Up(h, level).value)[k])
            && Input(c[2 * k], c[2 * k + 1]) in LevelInputs(level)
  {
    hide MerkleParent, Places, RightChild, IsDigest, Input;
    var j := Places(Half(|level|))[k];
    PlacesUp(|level|, k);
    assert ParentAt(h, level, j) == Some(Up(h, level).value[j]);
  }

  /** Completed levels of one width are the same exactly when the completed next levels are. */
  lemma {:induction false} CompleteUpIff(h: Hash, a: seq<string>, b: seq<string>)
    requires Fixed(h) && AllDigests(a) && AllDigests(b) && |a| > 1 && |b| > 1 && Depth(|a|) == Depth(|b|)
    requires CollisionFree(h, LevelInputs(a) + LevelInputs(b))
    ensures Up(h, a).Some? && Up(h, b).Some?
    ensures Complete(a) == Complete(b) <==> Complete(Up(h, a).value) == Complete(Up(h, b).value)
  {
    hide MerkleParent, LevelInputs, AllDigests, Input, Up, IsDigest;
    UpOfDigests(h, a);
    UpOfDigests(h, b);
    SameDepthSameWidth(Half(|a|), Half(|b|));
    var ca, cb, ua, ub := Complete(a), Complete(b), Complete(Up(h, a).value), Complete(Up(h, b).value);
    assert |ca| == 2 * |ua| && |cb| == 2 * |ub| && |ua| == |ub|;
    forall k | 0 <= k < |ua|
      ensures ua[k] == ub[k] <==> ca[2 * k] == cb[2 * k] && ca[2 * k + 1] == cb[2 * k + 1]
    {
      PairsEqual(h, a, b, k);
    }
    Interleaved(ca, cb, ua, ub);
  }

  /** Sequences that agree pair by pair exactly where two others do are the same exactly when those are. */
  lemma Interleaved(ca: seq<string>, cb: seq<string>, ua: seq<string>, ub: seq<string>)
    requires |ca| == |cb| == 2 * |ua| && |ua| == |ub|
    requires forall k :: 0 <= k < |ua| ==>
               (ua[k] == ub[k] <==> ca[2 * k] == cb[2 * k] && ca[2 * k + 1] == cb[2 * k + 1])
    ensures ca == cb <==> ua == ub
  {
    if ua == ub {
      forall i | 0 <= i < |ca|
        ensures ca[i] == cb[i]
      {
        assert ua[i / 2] == ub[i / 2] && (i == 2 * (i / 2) || i == 2 * (i / 2) + 1);
      }
    }
  }

  lemma {:induction false} PairsEqual(h: Hash, a: seq<string>, b: seq<string>, k: nat)
    requires AllDigests(a) && AllDigests(b) && |a| > 1 && |b| > 1 && Up(h, a).Some? && Up(h, b).Some?
    requires CollisionFree(h, LevelInputs(a) + LevelInputs(b))
    requires k < |Complete(Up(h, a).value)| && k < |Complete(Up(h, b).value)|
    ensures var ca, cb := Complete(a), Complete(b);
            && 2 * k + 1 < |ca| && 2 * k + 1 < |cb|
            && (Complete(Up(h, a).value)[k] == Complete(Up(h, b).value)[k] <==>
                ca[2 * k] == cb[2 * k] && ca[2 * k + 1] == cb[2 * k + 1])
  {
    hide MerkleParent, LevelInputs, AllDigests, Up, Complete, Places, Encode, Decode;
    CompleteUp(h, a, k);
    CompleteUp(h, b, k);
    var ca, cb := Complete(a), Complete(b);
    ParentInjective(h, ca[2 * k], ca[2 * k + 1], cb[2 * k], cb[2 * k + 1]);
    if Complete(Up(h, a).value)[k] == Complete(Up(h, b).value)[k] {
      DigestEq(ca[2 * k], cb[2 * k]);
      DigestEq(ca[2 * k + 1], cb[2 * k + 1]);
    }
  }

  lemma {:induction false} SameDepthRootIff(h: Hash, a: seq<string>, b: seq<string>)
    requires Fixed(h) && AllDigests(a) && AllDigests(b) && a != [] && b != [] && Depth(|a|) == Depth(|b|)
    requires CollisionFree(h, TreeInputs(h, a) + TreeInputs(h, b))
    ensures Root(h, a) == Root(h, b) <==> Complete(a) == Complete(b)
    decreases |a|
  {
    hide LevelInputs, AllDigests, Up;
    if |a| > 1 && |b| > 1 {
      CompleteUpIff(h, a, b);
      UpOfDigests(h, a);
      UpOfDigests(h, b);
      SameDepthRootIff(h, Up(h, a).value, Up(h, b).value);
    } else {
      assert Complete(a)[0] == a[0] && Complete(b)[0] == b[0];
    }
  }

  /** The level d above a tree's leaves. */
  function LevelAt(h: Hash, level: seq<string>, d: nat): (r: seq<string>)
    requires level != []
    ensures r != []
    decreases |level|
  {
    if d == 0 || |level| == 1 || Up(h, level).None? then level else LevelAt(h, Up(h, level).value, d - 1)
  }

  /** A tree of some depth is the tree of its next level, one deeper. */
  lemma DeeperTree(h: Hash, level: seq<string>)
    requires Fixed(h) && AllDigests(level) && Depth(|level|) > 0
    ensures Up(h, level).Some?
    ensures var u := Up(h, level).value;
            && AllDigests(u) && u != [] && |u| < |level| && |level| > 1
            && Depth(|level|) == Depth(|u|) + 1 && Root(h, level) == Root(h, u)
            && TreeInputs(h, u) <= TreeInputs(h, level)
  {
    hide AllDigests;
    UpOfDigests(h, level);
  }

  /** A level of a tree is the tree above it. */
  lemma {:induction false} LevelIsTree(h: Hash, level: seq<string>, d: nat)
    requires Fixed(h) && AllDigests(level) && level != [] && d <= Depth(|level|)
    ensures var t := LevelAt(h, level, d);
            && AllDigests(t) && Depth(|t|) == Depth(|level|) - d && Root(h, t) == Root(h, level)
            && TreeInputs(h, t) <= TreeInputs(h, level)
    decreases d
  {
    hide TreeInputs, AllDigests, Up, Root, Half;
    if d > 0 {
      DeeperTree(h, level);
      LevelIsTree(h, Up(h, level).value, d - 1);
    }
  }

  lemma FewerInputs(h: Hash, a: set<seq<Byte>>, b: set<seq<Byte>>)
    requires CollisionFree(h, b) && a <= b
    ensures CollisionFree(h, a)
  {
  }

  /**
   Two lists of digests share a root exactly when the shallower one, completed, is the completed level of
   that depth in the other's tree: for trees of one depth, when they differ only in repeated last nodes.
   */
  lemma {:induction false} SameRootIff(h: Hash, a: seq<string>, b: seq<string>)
    requires Fixed(h) && AllDigests(a) && AllDigests(b) && a != [] && b != [] && Depth(|a|) <= Depth(|b|)
    requires CollisionFree(h, TreeInputs(h, a) + TreeInputs(h, b))
    ensures Root(h, a) == Root(h, b) <==> Complete(a) == Complete(LevelAt(h, b, Depth(|b|) - Depth(|a|)))
  {
    hide TreeInputs, AllDigests, Complete, Root, Depth, LevelAt, CollisionFree;
    var d := Depth(|b|) - Depth(|a|);
    LevelIsTree(h, b, d);
    FewerInputs(h, TreeInputs(h, a) + TreeInputs(h, LevelAt(h, b, d)), TreeInputs(h, a) + TreeInputs(h, b));
    SameDepthRootIff(h, a, LevelAt(h, b, d));
  }

  // ---- which texts a proof can be given for -----------------------------

  /** The input hashed by a proof step. */
  function StepInput(h: Hash, current: string, node: ProofNode): seq<Byte>
    requires Stepped(h, current, node).Some?
  {
    if node.position == "left" then Input(node.sibling, current) else Input(current, node.sibling)
  }

  /** The inputs hashed to verify a proof. */
  ghost function ProofInputs(h: Hash, current: string, proof: seq<ProofNode>): set<seq<Byte>>
    decreases |proof|
  {
    if proof == [] || Stepped(h, current, proof[0]).None? then {}
    else
      {StepInput(h, current, proof[0])} + ProofInputs(h, Stepped(h, current, proof[0]).value, proof[1..])
  }

  /** A step to node j of the next level starts at one of its children. */
  lemma {:induction false} StepFromChild(h: Hash, level: seq<string>, x: string, node: ProofNode, j: nat)
    requires Fixed(h) && AllDigests(level) && IsDigest(x) && j < Half(|level|)
    requires Stepped(h, x, node).Some? && Stepped(h, x, node) == ParentAt(h, level, j)
    requires CollisionFree(h, LevelInputs(level) + ProofInputs(h, x, [node]))
    ensures x in level
  {
    hide Encode, Decode;
    var l, r := level[2 * j], level[RightChild(|level|, j)];
    assert Input(l, r) in LevelInputs(level);
    if node.position == "left" {
      ParentInjective(h, node.sibling, x, l, r);
      DigestEq(x, r);
    } else {
      ParentInjective(h, x, node.sibling, l, r);
      DigestEq(x, l);
    }
  }

  /** Only a leaf has a proof of the tree's depth, without a collision. */
  lemma {:induction false} OnlyLeavesVerify(h: Hash, leaves: seq<string>, x: string, proof: seq<ProofNode>)
    requires Fixed(h) && AllDigests(leaves) && leaves != [] && IsDigest(x) && Root(h, leaves).Some?
    requires |proof| == Depth(|leaves|) && Verifies(h, Root(h, leaves).value, x, proof)
    requires CollisionFree(h, TreeInputs(h, leaves) + ProofInputs(h, x, proof))
    ensures x in leaves
    decreases |proof|
  {
    hide LevelInputs, AllDigests, Up, MerkleParent, Input, IsDigest, Stepped;
    if |leaves| > 1 {
      UpOfDigests(h, leaves);
      var u, y := Up(h, leaves).value, Stepped(h, x, proof[0]).value;
      SteppedIsDigest(h, x, proof[0]);
      OnlyLeavesVerify(h, u, y, proof[1..]);
      var j :| 0 <= j < |u| && u[j] == y;
      assert ParentAt(h, leaves, j) == Some(u[j]);
      assert ProofInputs(h, x, [proof[0]]) <= ProofInputs(h, x, proof);
      StepFromChild(h, leaves, x, proof[0], j);
    }
  }

  lemma SteppedIsDigest(h: Hash, x: string, node: ProofNode)
    requires Fixed(h) && Stepped(h, x, node).Some?
    ensures IsDigest(Stepped(h, x, node).value)
  {
    forall b {
      DecodeEncode(b);
    }
  }

  lemma {:induction false} StepHashesLevelInput(h: Hash, level: seq<string>, i: nat)
    requires AllDigests(level) && |level| > 1 && i < |level| && Up(h, level).Some?
    ensures Stepped(h, level[i], StepAt(level, i)) == Some(Up(h, level).value[i / 2])
    ensures StepInput(h, level[i], StepAt(level, i)) in LevelInputs(level)
  {
    hide Up, Encode, Decode;
    StepIsParent(h, level, i);
    var j := i / 2;
    assert Input(level[2 * j], level[RightChild(|level|, j)]) in LevelInputs(level);
  }

  /** Verifying a proof of the tree hashes nothing that building it did not. */
  lemma {:induction false} ProofHashesTreeInputs(h: Hash, leaves: seq<string>, i: nat)
    requires Fixed(h) && AllDigests(leaves) && i < |leaves|
    ensures ProofInputs(h, leaves[i], Proof(h, leaves, i)) <= TreeInputs(h, leaves)
    decreases |leaves|
  {
    hide AllDigests, Up, Stepped, StepInput, StepAt, LevelInputs;
    if |leaves| > 1 {
      UpOfDigests(h, leaves);
      var u, proof := Up(h, leaves).value, Proof(h, leaves, i);
      ProofHashesTreeInputs(h, u, i / 2);
      StepHashesLevelInput(h, leaves, i);
      assert proof[1..] == Proof(h, u, i / 2);
    }
  }

  /** The proof passes for the text, and nothing hashed for it or for the tree collides. */
  ghost predicate Proves(h: Hash, leaves: seq<string>, x: string, proof: seq<ProofNode>)
    requires Fixed(h) && AllDigests(leaves) && leaves != []
  {
    && Root(h, leaves).Some? && Verifies(h, Root(h, leaves).value, x, proof)
    && CollisionFree(h, TreeInputs(h, leaves) + ProofInputs(h, x, proof))
  }

  /** Only a node at the height where a proof ends passes with it. */
  lemma {:induction false} OnlyNodesVerify(h: Hash, leaves: seq<string>, x: string, proof: seq<ProofNode>)
    requires Fixed(h) && AllDigests(leaves) && leaves != [] && IsDigest(x)
    requires |proof| <= Depth(|leaves|) && Proves(h, leaves, x, proof)
    ensures x in LevelAt(h, leaves, Depth(|leaves|) - |proof|)
  {
    hide TreeInputs, AllDigests, Root, Depth, LevelAt, CollisionFree, ProofInputs, Verifies, IsDigest;
    var t := LevelAt(h, leaves, Depth(|leaves|) - |proof|);
    LevelIsTree(h, leaves, Depth(|leaves|) - |proof|);
    FewerInputs(h, TreeInputs(h, t) + ProofInputs(h, x, proof), TreeInputs(h, leaves) + ProofInputs(h, x, proof));
    OnlyLeavesVerify(h, t, x, proof);
  }

  /** A node's proof in the tree above its level proves it in the whole tree. */
  lemma {:induction false} NodeHasProof(h: Hash, leaves: seq<string>, d: nat, i: nat)
    requires Fixed(h) && AllDigests(leaves) && leaves != [] && CollisionFree(h, TreeInputs(h, leaves))
    requires d <= Depth(|leaves|) && i < |LevelAt(h, leaves, d)|
    ensures var t := LevelAt(h, leaves, d);
            Proves(h, leaves, t[i], Proof(h, t, i)) && |Proof(h, t, i)| == Depth(|leaves|) - d
  {
    hide TreeInputs, AllDigests, Root, Depth, LevelAt, ProofInputs, Verifies, Proof;
    var t := LevelAt(h, leaves, d);
    LevelIsTree(h, leaves, d);
    DigestsBuild(h, t);
    ProofsVerify(h, t, i);
    ProofHashesTreeInputs(h, t, i);
    assert TreeInputs(h, leaves) + ProofInputs(h, t[i], Proof(h, t, i)) == TreeInputs(h, leaves);
  }

  /** A digest has a proof of n steps exactly when it is a node n levels below the root, a leaf or not. */
  lemma {:induction false} ProvenIffNode(h: Hash, leaves: seq<string>, x: string, n: nat)
    requires Fixed(h) && AllDigests(leaves) && leaves != [] && IsDigest(x)
    requires CollisionFree(h, TreeInputs(h, leaves)) && n <= Depth(|leaves|)
    ensures x in LevelAt(h, leaves, Depth(|leaves|) - n) <==>
            exists proof :: |proof| == n && Proves(h, leaves, x, proof)
  {
    hide Proves, TreeInputs, AllDigests, Depth, LevelAt, IsDigest, CollisionFree;
    var t := LevelAt(h, leaves, Depth(|leaves|) - n);
    if x in t {
      var i :| 0 <= i < |t| && t[i] == x;
      NodeHasProof(h, leaves, Depth(|leaves|) - n, i);
    }
    if proof :| |proof| == n && Proves(h, leaves, x, proof) {
      OnlyNodesVerify(h, leaves, x, proof);
    }
  }

  /** So it has a proof of the tree's depth exactly when it is a leaf. */
  lemma {:induction false} ProvenIffLeaf(h: Hash, leaves: seq<string>, x: string)
    requires Fixed(h) && AllDigests(leaves) && leaves != [] && IsDigest(x)
    requires CollisionFree(h, TreeInputs(h, leaves))
    ensures Root(h, leaves).Some?
    ensures x in leaves <==> exists proof :: |proof| == Depth(|leaves|) && Proves(h, leaves, x, proof)
  {
    hide Proves, TreeInputs, AllDigests, Depth, IsDigest, CollisionFree, Root;
    DigestsBuild(h, leaves);
    ProvenIffNode(h, leaves, x, Depth(|leaves|));
  }

  /** A proof longer than the tree is deep passes only by hashing its text into a leaf first. */
  lemma {:induction false} LongProofsEnterAtLeaves(h: Hash, leaves: seq<string>, x: string, proof: seq<ProofNode>)
    requires Fixed(h) && AllDigests(leaves) && leaves != []
    requires |proof| > Depth(|leaves|) && Proves(h, leaves, x, proof)
    ensures exists leaf :: leaf in leaves && Verifies(h, leaf, x, proof[..|proof| - Depth(|leaves|)])
    decreases |proof|
  {
    hide TreeInputs, AllDigests, Root, Depth, CollisionFree, IsDigest, Stepped, StepInput;
    var y, rest := Stepped(h, x, proof[0]).value, proof[1..];
    SteppedIsDigest(h, x, proof[0]);
    FewerInputs(h, TreeInputs(h, leaves) + ProofInputs(h, y, rest), TreeInputs(h, leaves) + ProofInputs(h, x, proof));
    var m := |proof| - Depth(|leaves|);
    assert proof[..m][0] == proof[0] && proof[..m][1..] == rest[..m - 1];
    if m == 1 {
      OnlyLeavesVerify(h, leaves, y, rest);
      assert Verifies(h, y, y, rest[..0]);
      assert Verifies(h, y, x, proof[..1]);
    } else {
      LongProofsEnterAtLeaves(h, leaves, y, rest);
      var leaf :| leaf in leaves && Verifies(h, leaf, y, rest[..m - 1]);
      assert Verifies(h, leaf, x, proof[..m]);
    }
  }

  /** The root of a tree of two leaves passes with the empty proof, and is no leaf. */
  lemma InnerNodePasses() returns (h: Hash, leaves: seq<string>, x: string)
    ensures Fixed(h) && AllDigests(leaves) && |leaves| == 2 && IsDigest(x)
    ensures x !in leaves && Proves(h, leaves, x, [])
  {
    var zeros: seq<Byte>, ones: seq<Byte> := seq(DIGEST, _ => 0), seq(DIGEST, _ => 1);
    h := _ => zeros;
    var leaf := Encode(ones);
    leaves, x := [leaf, leaf], Encode(zeros);
    DecodeEncode(ones);
    DecodeEncode(zeros);
    UpIs(h, leaves, [x]);
    assert TreeInputs(h, [x]) == {};
  }

  lemma DigestsBuild(h: Hash, leaves: seq<string>)
    requires AllDigests(leaves) && leaves != []
    ensures Root(h, leaves).Some?
  {
    hide Decode;
    BuiltIff(h, leaves);
  }
}
