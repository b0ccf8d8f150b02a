/** The Merkle tree of a file's chunk hashes, its per-leaf proofs and their verification.

    A layer is reduced pairwise to the hash of left‖right; an odd last node is promoted
    unchanged. A proof is the list of siblings from the leaf upwards; at a promoted node there is
    none. Which levels have a sibling depends only on the leaf index and the leaf count. */
module Merkle {
  import opened Bytes

  /** What is hashed for the parent of node `i` and its sibling. */
  function Joined(i: nat, node: Digest, sibling: Digest): Bytes {
    if i % 2 == 0 then node + sibling else sibling + node
  }

  function Parent(h: Hash, layer: seq<Digest>, j: nat): Digest
    requires j < (|layer| + 1) / 2
  {
    if 2 * j + 1 < |layer| then h(Joined(2 * j, layer[2 * j], layer[2 * j + 1])) else layer[2 * j]
  }

  function NextLayer(h: Hash, layer: seq<Digest>): seq<Digest> {
    seq((|layer| + 1) / 2, j requires 0 <= j < (|layer| + 1) / 2 => Parent(h, layer, j))
  }

  function TreeRoot(h: Hash, layer: seq<Digest>): Digest
    requires |layer| > 0
    decreases |layer|
  {
    if |layer| == 1 then layer[0] else TreeRoot(h, NextLayer(h, layer))
  }

  /** The root of a tree: absent exactly for a file without chunks. */
  function Root(h: Hash, leaves: seq<Digest>): Option<Digest> {
    if leaves == [] then None else Some(TreeRoot(h, leaves))
  }

  function Sibling(i: nat): nat {
    if i % 2 == 0 then i + 1 else i - 1
  }

  function Proof(h: Hash, layer: seq<Digest>, i: nat): seq<Digest>
    requires i < |layer|
    decreases |layer|
  {
    if |layer| == 1 then []
    else
      (if Sibling(i) < |layer| then [layer[Sibling(i)]] else [])
      + Proof(h, NextLayer(h, layer), i / 2)
  }

  /** The root recomputed from one leaf and its siblings; siblings left over are ignored, and
      too few give no root. */
  function Climb(h: Hash, n: nat, i: nat, node: Digest, path: seq<Digest>): Option<Digest>
    requires i < n
    decreases n
  {
    if n == 1 then Some(node)
    else if Sibling(i) < n then
      if path == [] then None
      else Climb(h, (n + 1) / 2, i / 2, h(Joined(i, node, path[0])), path[1..])
    else Climb(h, (n + 1) / 2, i / 2, node, path)
  }

  lemma ParentOf(h: Hash, layer: seq<Digest>, i: nat)
    requires i < |layer| && |layer| > 1
    ensures NextLayer(h, layer)[i / 2]
            == if Sibling(i) < |layer| then h(Joined(i, layer[i], layer[Sibling(i)])) else layer[i]
  {
    assert NextLayer(h, layer)[i / 2] == Parent(h, layer, i / 2);
    assert i % 2 == 0 ==> 2 * (i / 2) == i;
    assert i % 2 == 1 ==> 2 * (i / 2) == i - 1;
  }

  /** Completeness: the proof of leaf `i` leads back to the root, for every tree shape. */
  lemma {:induction false} ClimbProof(h: Hash, layer: seq<Digest>, i: nat)
    requires i < |layer|
    ensures Climb(h, |layer|, i, layer[i], Proof(h, layer, i)) == Some(TreeRoot(h, layer))
    decreases |layer|
  {
    if |layer| > 1 {
      ParentOf(h, layer, i);
      ClimbProof(h, NextLayer(h, layer), i / 2);
      assert Proof(h, layer, i)[if Sibling(i) < |layer| then 1 else 0..] == Proof(h, NextLayer(h, layer), i / 2);
    }
  }

  // ----- which tree it is -----

  function Pow2(e: nat): nat {
    if e == 0 then 1 else 2 * Pow2(e - 1)
  }

  /** More than one leaf can be split so. */
  lemma {:induction false} LargestPower(n: nat) returns (e: nat)
    requires n > 1
    ensures Pow2(e) < n <= 2 * Pow2(e)
    decreases n
  {
    if n == 2 {
      e := 0;
    } else {
      var half := LargestPower((n + 1) / 2);
      e := half + 1;
    }
  }

  lemma NextLayerSplits(h: Hash, layer: seq<Digest>, k: nat)
    requires k % 2 == 0 && k < |layer|
    ensures NextLayer(h, layer)[..k / 2] == NextLayer(h, layer[..k])
    ensures NextLayer(h, layer)[k / 2..] == NextLayer(h, layer[k..])
  {
    var next := NextLayer(h, layer);
    forall j | 0 <= j < k / 2
      ensures next[j] == NextLayer(h, layer[..k])[j]
    {
      assert next[j] == Parent(h, layer, j);
    }
    assert |next| - k / 2 == |NextLayer(h, layer[k..])|;
    forall j | 0 <= j < |next| - k / 2
      ensures next[k / 2 + j] == NextLayer(h, layer[k..])[j]
    {
      assert next[k / 2 + j] == Parent(h, layer, k / 2 + j);
      assert NextLayer(h, layer[k..])[j] == Parent(h, layer[k..], j);
    }
  }

  lemma RootOfNext(h: Hash, layer: seq<Digest>)
    requires |layer| > 0
    ensures TreeRoot(h, NextLayer(h, layer)) == TreeRoot(h, layer)
  {
    if |layer| == 1 { assert NextLayer(h, layer)[0] == Parent(h, layer, 0); }
  }

  /** The root of more than one leaf is the hash of left‖right, where on the left are as many leaves as
      the largest power of two below their number, and on the right the others; the root of one leaf
      is the leaf. */
  lemma {:induction false} RootSplits(h: Hash, leaves: seq<Digest>, e: nat)
    requires Pow2(e) < |leaves| <= 2 * Pow2(e)
    ensures TreeRoot(h, leaves) == h(TreeRoot(h, leaves[..Pow2(e)]) + TreeRoot(h, leaves[Pow2(e)..]))
    ensures forall leaf :: TreeRoot(h, [leaf]) == leaf
    decreases e
  {
    if e == 0 {
      assert NextLayer(h, leaves)[0] == Parent(h, leaves, 0);
    } else {
      HalvesOfNext(h, leaves, e);
      RootSplits(h, NextLayer(h, leaves), e - 1);
    }
  }

  function FirstSibling(layer: seq<Digest>, i: nat): seq<Digest> {
    if Sibling(i) < |layer| then [layer[Sibling(i)]] else []
  }

  lemma ProofStep(h: Hash, layer: seq<Digest>, i: nat)
    requires i < |layer|
    ensures Proof(h, layer, i) == FirstSibling(layer, i) + Proof(h, NextLayer(h, layer), i / 2)
  {
    if |layer| == 1 { assert |NextLayer(h, layer)| == 1; }
  }

  lemma SiblingBelow(k: nat, i: nat)
    requires k % 2 == 0 && i < k
    ensures Sibling(i) < k
  {
    if i % 2 == 0 { assert i + 1 != k; }
  }

  lemma ProofLeft(h: Hash, leaves: seq<Digest>, k: nat, i: nat)
    requires k % 2 == 0 && i < k < |leaves|
    ensures Proof(h, leaves[..k], i) == FirstSibling(leaves, i) + Proof(h, NextLayer(h, leaves[..k]), i / 2)
  {
    SiblingBelow(k, i);
    assert FirstSibling(leaves[..k], i) == FirstSibling(leaves, i);
    ProofStep(h, leaves[..k], i);
  }

  /** Node `i` of a layer is node `j` of the part from `k` on. */
  lemma HalfIndex(k: nat, i: nat, j: nat)
    requires k % 2 == 0 && i == k + j
    ensures i / 2 == k / 2 + j / 2 && Sibling(i) == k + Sibling(j)
  {
    var half := k / 2;
    assert k == 2 * half && (2 * half + j) / 2 == half + j / 2 && (2 * half + j) % 2 == j % 2;
  }

  lemma ProofRight(h: Hash, leaves: seq<Digest>, k: nat, i: nat, j: nat)
    requires k % 2 == 0 && i == k + j && i < |leaves|
    ensures Proof(h, leaves[k..], j) == FirstSibling(leaves, i) + Proof(h, NextLayer(h, leaves[k..]), j / 2)
  {
    HalfIndex(k, i, j);
    assert FirstSibling(leaves[k..], j) == FirstSibling(leaves, i);
    ProofStep(h, leaves[k..], j);
  }

  /** What is below the top of a tree of more than two leaves. */
  lemma HalvesOfNext(h: Hash, leaves: seq<Digest>, e: nat)
    requires e > 0 && Pow2(e) < |leaves| <= 2 * Pow2(e)
    ensures
      var k, next := Pow2(e), NextLayer(h, leaves);
      && k / 2 == Pow2(e - 1) && k / 2 < |next| <= k
      && next[..k / 2] == NextLayer(h, leaves[..k]) && next[k / 2..] == NextLayer(h, leaves[k..])
      && TreeRoot(h, next[..k / 2]) == TreeRoot(h, leaves[..k])
      && TreeRoot(h, next[k / 2..]) == TreeRoot(h, leaves[k..])
  {
    NextLayerSplits(h, leaves, Pow2(e));
    RootOfNext(h, leaves[..Pow2(e)]);
    RootOfNext(h, leaves[Pow2(e)..]);
  }

  lemma {:induction false} LeftProof(h: Hash, leaves: seq<Digest>, e: nat, i: nat)
    requires Pow2(e) < |leaves| <= 2 * Pow2(e) && i < Pow2(e)
    ensures Proof(h, leaves, i) == Proof(h, leaves[..Pow2(e)], i) + [TreeRoot(h, leaves[Pow2(e)..])]
    decreases e
  {
    if e > 0 {
      HalvesOfNext(h, leaves, e);
      LeftProof(h, NextLayer(h, leaves), e - 1, i / 2);
      ProofStep(h, leaves, i);
      ProofLeft(h, leaves, Pow2(e), i);
      Regroup(FirstSibling(leaves, i), Proof(h, NextLayer(h, leaves[..Pow2(e)]), i / 2),
        TreeRoot(h, leaves[Pow2(e)..]));
    }
  }

  lemma RightOfTwo(h: Hash, leaves: seq<Digest>)
    requires |leaves| == 2
    ensures Proof(h, leaves, 1) == Proof(h, leaves[1..], 0) + [TreeRoot(h, leaves[..1])]
  {
    ProofStep(h, leaves, 1);
    assert |NextLayer(h, leaves)| == 1;
  }

  lemma {:induction false} RightProof(h: Hash, leaves: seq<Digest>, e: nat, i: nat, j: nat)
    requires Pow2(e) < |leaves| <= 2 * Pow2(e) && i == Pow2(e) + j && i < |leaves|
    ensures Proof(h, leaves, i) == Proof(h, leaves[Pow2(e)..], j) + [TreeRoot(h, leaves[..Pow2(e)])]
    decreases e
  {
    if e == 0 {
      RightOfTwo(h, leaves);
    } else {
      HalvesOfNext(h, leaves, e);
      HalfIndex(Pow2(e), i, j);
      RightProof(h, NextLayer(h, leaves), e - 1, i / 2, j / 2);
      ProofStep(h, leaves, i);
      ProofRight(h, leaves, Pow2(e), i, j);
      Regroup(FirstSibling(leaves, i), Proof(h, NextLayer(h, leaves[Pow2(e)..]), j / 2),
        TreeRoot(h, leaves[..Pow2(e)]));
    }
  }

  lemma Regroup(a: seq<Digest>, b: seq<Digest>, c: Digest)
    ensures a + (b + [c]) == (a + b) + [c]
  {
  }

  /** The proof of a leaf is its proof in its half, and then the root of the other half. */
  lemma ProofSplits(h: Hash, leaves: seq<Digest>, e: nat, i: nat)
    requires Pow2(e) < |leaves| <= 2 * Pow2(e) && i < |leaves|
    ensures
      var k := Pow2(e);
      Proof(h, leaves, i) ==
        if i < k then Proof(h, leaves[..k], i) + [TreeRoot(h, leaves[k..])]
        else Proof(h, leaves[k..], i - k) + [TreeRoot(h, leaves[..k])]
  {
    if i < Pow2(e) { LeftProof(h, leaves, e, i); } else { RightProof(h, leaves, e, i, i - Pow2(e)); }
  }

  /** A path leads to some root exactly if it has as many siblings as the proof; what is left over does
      not matter. */
  lemma {:induction false} ClimbNeeds(h: Hash, layer: seq<Digest>, i: nat, node: Digest, path: seq<Digest>)
    requires i < |layer|
    ensures
      var n, proof := |layer|, Proof(h, layer, i);
      && (Climb(h, n, i, node, path).Some? <==> |proof| <= |path|)
      && (|proof| <= |path| ==> Climb(h, n, i, node, path) == Climb(h, n, i, node, path[..|proof|]))
    decreases |layer|
  {
    if |layer| > 1 {
      var next := NextLayer(h, layer);
      if Sibling(i) < |layer| {
        if path != [] {
          ClimbNeeds(h, next, i / 2, h(Joined(i, node, path[0])), path[1..]);
          var n := |Proof(h, next, i / 2)|;
          assert n + 1 <= |path| ==> path[..n + 1][1..] == path[1..][..n] && path[..n + 1][0] == path[0];
        }
      } else {
        ClimbNeeds(h, next, i / 2, node, path);
      }
    }
  }

  /** Soundness, constructively: a path that leads a foreign node in place `i` to the tree's root
      contains a collision, and this is where it is. */
  ghost function Clash(h: Hash, layer: seq<Digest>, i: nat, node: Digest, path: seq<Digest>): (pair: (Bytes, Bytes))
    requires i < |layer| && node != layer[i]
    requires Climb(h, |layer|, i, node, path) == Some(TreeRoot(h, layer))
    ensures Collision(h, pair)
    decreases |layer|
  {
    var above := NextLayer(h, layer);
    ParentOf(h, layer, i);
    if Sibling(i) < |layer| then
      var seen, genuine := Joined(i, node, path[0]), Joined(i, layer[i], layer[Sibling(i)]);
      assert seen != genuine by {
        if seen == genuine {
          if i % 2 == 0 { ConcatInjective(node, path[0], layer[i], layer[Sibling(i)]); }
          else { ConcatInjective(path[0], node, layer[Sibling(i)], layer[i]); }
        }
      }
      if h(seen) == h(genuine) then (seen, genuine)
      else Clash(h, above, i / 2, h(seen), path[1..])
    else Clash(h, above, i / 2, node, path)
  }

  /** And one that leads the node itself to the root without starting with its proof does so too. */
  ghost function ProofClash(h: Hash, layer: seq<Digest>, i: nat, path: seq<Digest>): (pair: (Bytes, Bytes))
    requires i < |layer| && !(Proof(h, layer, i) <= path)
    requires Climb(h, |layer|, i, layer[i], path) == Some(TreeRoot(h, layer))
    ensures Collision(h, pair)
    decreases |layer|
  {
    var above := NextLayer(h, layer);
    ParentOf(h, layer, i);
    if Sibling(i) < |layer| then
      var seen, genuine := Joined(i, layer[i], path[0]), Joined(i, layer[i], layer[Sibling(i)]);
      if path[0] == layer[Sibling(i)] then
        PrefixCons(path[0], Proof(h, above, i / 2), path);
        ProofClash(h, above, i / 2, path[1..])
      else
        assert seen != genuine by {
          if seen == genuine {
            if i % 2 == 0 { ConcatInjective(layer[i], path[0], layer[i], layer[Sibling(i)]); }
            else { ConcatInjective(path[0], layer[i], layer[Sibling(i)], layer[i]); }
          }
        }
        if h(seen) == h(genuine) then (seen, genuine)
        else Clash(h, above, i / 2, h(seen), path[1..])
    else ProofClash(h, above, i / 2, path)
  }

  lemma PrefixCons(first: Digest, rest: seq<Digest>, path: seq<Digest>)
    requires path != [] && path[0] == first
    ensures [first] + rest <= path <==> rest <= path[1..]
  {
    assert path == [first] + path[1..];
    if rest <= path[1..] { assert path == [first] + rest + path[1..][|rest|..]; }
  }

  // ----- proofs as bytes -----

  /** A proof is stored as its digests one after the other. */
  function EncodeProof(path: seq<Digest>): Bytes {
    if path == [] then [] else path[0] + EncodeProof(path[1..])
  }

  function DecodeProof(b: Bytes): Option<seq<Digest>>
  {
    if b == [] then Some([])
    else if |b| < DIGEST_SIZE then None
    else
      match DecodeProof(b[DIGEST_SIZE..])
      case None => None
      case Some(rest) => Some([b[..DIGEST_SIZE]] + rest)
  }

  lemma {:induction false} DecodeEncodeProof(path: seq<Digest>)
    ensures DecodeProof(EncodeProof(path)) == Some(path)
  {
    if path != [] {
      DecodeEncodeProof(path[1..]);
      var b := EncodeProof(path);
      assert b[..DIGEST_SIZE] == path[0] && b[DIGEST_SIZE..] == EncodeProof(path[1..]);
      assert [path[0]] + path[1..] == path;
    }
  }

  /** The bytes are the digests one after the other. */
  lemma {:induction false} EncodeProofAt(path: seq<Digest>, i: nat)
    requires i < |path|
    ensures |EncodeProof(path)| == DIGEST_SIZE * |path|
    ensures EncodeProof(path)[DIGEST_SIZE * i..DIGEST_SIZE * (i + 1)] == path[i]
  {
    EncodeProofLength(path);
    var b, rest := EncodeProof(path), EncodeProof(path[1..]);
    if i > 0 {
      EncodeProofAt(path[1..], i - 1);
      assert b[DIGEST_SIZE * i..DIGEST_SIZE * (i + 1)] == rest[DIGEST_SIZE * (i - 1)..DIGEST_SIZE * i];
    }
  }

  lemma {:induction false} EncodeProofLength(path: seq<Digest>)
    ensures |EncodeProof(path)| == DIGEST_SIZE * |path|
  {
    if path != [] { EncodeProofLength(path[1..]); }
  }

  /** Proof bytes decode exactly when their length is a multiple of the digest size. */
  lemma {:induction false} DecodableIff(b: Bytes)
    ensures DecodeProof(b).Some? <==> |b| % DIGEST_SIZE == 0
  {
    if |b| >= DIGEST_SIZE {
      DecodableIff(b[DIGEST_SIZE..]);
    }
  }

  lemma {:induction false} EncodeDecodeProof(b: Bytes)
    requires DecodeProof(b).Some?
    ensures EncodeProof(DecodeProof(b).value) == b
  {
    if b != [] {
      EncodeDecodeProof(b[DIGEST_SIZE..]);
      assert DecodeProof(b).value[1..] == DecodeProof(b[DIGEST_SIZE..]).value;
      assert b == b[..DIGEST_SIZE] + b[DIGEST_SIZE..];
    }
  }

  lemma {:induction false} EncodeProofAppend(a: seq<Digest>, b: seq<Digest>)
    ensures EncodeProof(a + b) == EncodeProof(a) + EncodeProof(b)
  {
    if a == [] {
      assert a + b == b;
    } else {
      EncodeProofAppend(a[1..], b);
      assert (a + b)[1..] == a[1..] + b;
    }
  }

  /** Proof bytes start with the bytes of a path exactly if what they decode to starts with the path. */
  lemma PrefixDecodes(path: seq<Digest>, b: Bytes)
    requires |b| % DIGEST_SIZE == 0
    ensures DecodeProof(b).Some? && (EncodeProof(path) <= b <==> path <= DecodeProof(b).value)
  {
    DecodableIff(b);
    EncodeDecodeProof(b);
    var all := DecodeProof(b).value;
    if path <= all {
      assert all == path + all[|path|..];
      EncodeProofAppend(path, all[|path|..]);
    }
    if EncodeProof(path) <= b { EncodedPrefix(path, all); }
  }

  lemma {:induction false} EncodedPrefix(path: seq<Digest>, all: seq<Digest>)
    requires EncodeProof(path) <= EncodeProof(all)
    ensures path <= all
  {
    if path != [] {
      var a, b := EncodeProof(path[1..]), EncodeProof(all[1..]);
      var rest := EncodeProof(all)[|EncodeProof(path)|..];
      assert (path[0] + a) + rest == path[0] + (a + rest);
      ConcatInjective(path[0], a + rest, all[0], b);
      assert a <= b;
      EncodedPrefix(path[1..], all[1..]);
      PrefixCons(path[0], path[1..], all);
      assert path == [path[0]] + path[1..];
    }
  }

  // ----- chunk verification -----

  /** `Panicked` is the failing unwrap of undecodable proof bytes. */
  datatype Verdict = Accepted | Rejected | Panicked

  function VerifyChunk(h: Hash, chunk: Bytes, index: nat, proofBytes: Bytes, root: Digest, total: nat): Verdict {
    match DecodeProof(proofBytes)
    case None => Panicked
    case Some(path) =>
      if index < total && Climb(h, total, index, h(chunk), path) == Some(root) then Accepted else Rejected
  }

  function Leaves(h: Hash, chunks: seq<Bytes>): (leaves: seq<Digest>)
    ensures |leaves| == |chunks|
    ensures forall k :: 0 <= k < |chunks| ==> leaves[k] == h(chunks[k])
  {
    seq(|chunks|, k requires 0 <= k < |chunks| => h(chunks[k]))
  }

  /** Every chunk passes verification with the proof stored for it, whatever the chunk count. */
  lemma Completeness(h: Hash, chunks: seq<Bytes>, i: nat)
    requires i < |chunks|
    ensures var leaves := Leaves(h, chunks);
            VerifyChunk(h, chunks[i], i, EncodeProof(Proof(h, leaves, i)), TreeRoot(h, leaves), |chunks|) == Accepted
  {
    var leaves := Leaves(h, chunks);
    DecodeEncodeProof(Proof(h, leaves, i));
    ClimbProof(h, leaves, i);
  }

  /** The proofs with which a genuine chunk is accepted: the stored one, whatever digests come after it, and
      no other, unless `ProofClash` is a collision. Only bytes that are not digests are not judged at all. */
  lemma ProofsAccepted(h: Hash, chunks: seq<Bytes>, i: nat, proofBytes: Bytes)
    requires i < |chunks|
    ensures
      var leaves := Leaves(h, chunks);
      var stored, root := Proof(h, leaves, i), TreeRoot(h, leaves);
      var verdict := VerifyChunk(h, chunks[i], i, proofBytes, root, |chunks|);
      && (verdict == Panicked <==> |proofBytes| % DIGEST_SIZE != 0)
      && (verdict != Panicked && EncodeProof(stored) <= proofBytes ==> verdict == Accepted)
      && (verdict == Accepted ==>
            || EncodeProof(stored) <= proofBytes
            || (&& DecodeProof(proofBytes).Some? && !(stored <= DecodeProof(proofBytes).value)
                && Climb(h, |chunks|, i, leaves[i], DecodeProof(proofBytes).value) == Some(root)
                && Collision(h, ProofClash(h, leaves, i, DecodeProof(proofBytes).value))))
  {
    var leaves := Leaves(h, chunks);
    var stored := Proof(h, leaves, i);
    DecodableIff(proofBytes);
    if |proofBytes| % DIGEST_SIZE == 0 {
      PrefixDecodes(stored, proofBytes);
      var path := DecodeProof(proofBytes).value;
      ClimbNeeds(h, leaves, i, leaves[i], path);
      ClimbProof(h, leaves, i);
      assert stored <= path ==> path[..|stored|] == stored;
    }
  }

  /** The collision hidden in an accepted chunk that is not the published one. */
  ghost function ChunkClash(h: Hash, chunks: seq<Bytes>, i: nat, chunk: Bytes, proofBytes: Bytes): (Bytes, Bytes)
    requires i < |chunks| && chunk != chunks[i]
    requires VerifyChunk(h, chunk, i, proofBytes, TreeRoot(h, Leaves(h, chunks)), |chunks|) == Accepted
  {
    if h(chunk) == h(chunks[i]) then (chunk, chunks[i])
    else Clash(h, Leaves(h, chunks), i, h(chunk), DecodeProof(proofBytes).value)
  }

  /** An accepted chunk is the published chunk, or `ChunkClash` is a collision; for every proof
      whatsoever, not only the stored one. */
  lemma Soundness(h: Hash, chunks: seq<Bytes>, i: nat, chunk: Bytes, proofBytes: Bytes)
    requires i < |chunks|
    requires VerifyChunk(h, chunk, i, proofBytes, TreeRoot(h, Leaves(h, chunks)), |chunks|) == Accepted
    ensures chunk == chunks[i] || Collision(h, ChunkClash(h, chunks, i, chunk, proofBytes))
  {
  }
}
