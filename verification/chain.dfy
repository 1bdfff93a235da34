/** The hashing primitives the chain relies on. SHA-256, hex encoding,
    UTF-8 encoding and the rendering of a timestamp are not modelled: they
    are functions supplied by the caller, about which nothing is assumed. */
module Hashing {

  type Bytes = seq<bv8>

  datatype Primitives = Primitives(
    sha256: Bytes -> Bytes,
    hex: Bytes -> string,
    utf8: string -> Bytes,
    timeText: int -> string)

  /** `hex(sha256([]byte(s)))`. */
  function HashString(p: Primitives, s: string): string {
    p.hex(p.sha256(p.utf8(s)))
  }
}

/** The Merkle root of a block's transactions: one leaf per transaction,
    then rounds that hash neighbouring pairs until one node is left. */
module Merkle {
  import opened Ledger
  import opened Hashing

  /** Leaf of a transaction: the digest of its id, sender and receiver
      concatenated. */
  function Leaf(p: Primitives, tx: Tx): Bytes {
    p.sha256(p.utf8(tx.id + tx.sender + tx.receiver))
  }

  function Leaves(p: Primitives, txs: seq<Tx>): (r: seq<Bytes>)
    ensures |r| == |txs|
    ensures forall i :: 0 <= i < |txs| ==> r[i] == p.sha256(p.utf8(txs[i].id + txs[i].sender + txs[i].receiver))
  {
    seq(|txs|, i requires 0 <= i < |txs| => Leaf(p, txs[i]))
  }

  /** One reduction round: nodes are hashed pairwise left to right; an odd
      last node is carried up unchanged, not hashed with itself. */
  function Round(p: Primitives, nodes: seq<Bytes>): (r: seq<Bytes>)
    ensures |r| == (|nodes| + 1) / 2
    ensures forall k :: 0 <= k < |r| ==>
      r[k] == (if 2 * k + 1 < |nodes| then p.sha256(nodes[2 * k] + nodes[2 * k + 1]) else nodes[2 * k])
    decreases |nodes|
  {
    if |nodes| == 0 then []
    else if |nodes| == 1 then [nodes[0]]
    else [p.sha256(nodes[0] + nodes[1])] + Round(p, nodes[2..])
  }

  /** Repeat rounds until one node is left. Each round of two or more nodes
      strictly shrinks the list, so this terminates. */
  function Reduce(p: Primitives, nodes: seq<Bytes>): Bytes
    requires |nodes| >= 1
    decreases |nodes|
  {
    if |nodes| == 1 then nodes[0] else Reduce(p, Round(p, nodes))
  }

  /** The hex-encoded root; the empty string for no transactions. */
  function MerkleRoot(p: Primitives, txs: seq<Tx>): (root: string)
    ensures |txs| == 0 ==> root == ""
    ensures |txs| == 1 ==> root == p.hex(Leaf(p, txs[0]))
  {
    if |txs| == 0 then "" else p.hex(Reduce(p, Leaves(p, txs)))
  }

  /** With three transactions the third leaf is carried into the second
      round as it is: the root is `H(H(l0 ++ l1) ++ l2)`, where a
      duplicate-last tree would have used `H(l2 ++ l2)`. */
  lemma OddLeafCarried(p: Primitives, txs: seq<Tx>)
    requires |txs| == 3
    ensures MerkleRoot(p, txs)
         == p.hex(p.sha256(p.sha256(Leaf(p, txs[0]) + Leaf(p, txs[1])) + Leaf(p, txs[2])))
  {
    var l := Leaves(p, txs);
    var r1 := Round(p, l);
    assert r1 == [p.sha256(l[0] + l[1]), l[2]];
    var r2 := Round(p, r1);
    assert r2 == [p.sha256(r1[0] + r1[1])];
    assert Reduce(p, l) == Reduce(p, r1) == Reduce(p, r2) == r2[0];
  }

  /** The root commits only to each transaction's id, sender and receiver:
      two lists that agree on those, position by position, share a root
      whatever their amounts, statuses or outputs. */
  lemma RootIgnoresAmounts(p: Primitives, a: seq<Tx>, b: seq<Tx>)
    requires |a| == |b|
    requires forall i :: 0 <= i < |a| ==>
      a[i].id == b[i].id && a[i].sender == b[i].sender && a[i].receiver == b[i].receiver
    ensures MerkleRoot(p, a) == MerkleRoot(p, b)
  {
    assert Leaves(p, a) == Leaves(p, b);
  }
}

/** Proof of work: the block hash, the leading-zero difficulty rule and the
    nonce search. */
module Pow {
  import opened Ledger
  import opened Text
  import opened Hashing

  /** The hashed text: index, timestamp, previous hash, nonce and Merkle
      root, separated by `|`. */
  function Preimage(p: Primitives, b: Block): string {
    IntToString(b.index) + "|" + p.timeText(b.timestamp) + "|" + b.previousHash + "|"
      + IntToString(b.nonce) + "|" + b.merkleRoot
  }

  function BlockHash(p: Primitives, b: Block): string {
    HashString(p, Preimage(p, b))
  }

  /** The hash starts with `difficulty` zero characters. */
  predicate HasRequiredDifficulty(hash: string, difficulty: nat) {
    Repeat('0', difficulty) <= hash
  }

  lemma DifficultyMeaning(hash: string, difficulty: nat)
    ensures HasRequiredDifficulty(hash, difficulty)
        <==> difficulty <= |hash| && forall i :: 0 <= i < difficulty ==> hash[i] == '0'
  {
    if difficulty <= |hash| && forall i :: 0 <= i < difficulty ==> hash[i] == '0' {
      assert Repeat('0', difficulty) == hash[..difficulty];
    }
  }

  /** Difficulty zero accepts every hash, the empty one included. */
  lemma DifficultyZero(hash: string)
    ensures HasRequiredDifficulty(hash, 0)
  {
  }

  /** Two blocks that agree on index, timestamp, previous hash, nonce and
      Merkle root have the same hash: the transactions and the stored hash
      field take no part in it. */
  lemma HashCoversHeaderOnly(p: Primitives, a: Block, b: Block)
    requires a.index == b.index && a.timestamp == b.timestamp
    requires a.previousHash == b.previousHash && a.nonce == b.nonce && a.merkleRoot == b.merkleRoot
    ensures BlockHash(p, a) == BlockHash(p, b)
  {
  }

  /** Some nonce satisfies the difficulty rule for this block. */
  ghost predicate Solvable(p: Primitives, b: Block, difficulty: nat) {
    exists n: nat :: HasRequiredDifficulty(BlockHash(p, b.(nonce := n)), difficulty)
  }

  /** Try nonces 0, 1, 2, ... and stop at the first whose hash meets the
      difficulty; record that nonce and hash in the block. The source loops
      forever when no nonce works, so the search is only called on a block
      for which one exists. */
  method MineBlock(p: Primitives, b: Block, difficulty: nat) returns (mined: Block)
    requires Solvable(p, b, difficulty)
    ensures mined == b.(nonce := mined.nonce, hash := mined.hash)
    ensures mined.nonce >= 0
    ensures mined.hash == BlockHash(p, mined)
    ensures HasRequiredDifficulty(mined.hash, difficulty)
    ensures forall n :: 0 <= n < mined.nonce ==>
      !HasRequiredDifficulty(BlockHash(p, b.(nonce := n)), difficulty)
  {
    ghost var bound: nat :| HasRequiredDifficulty(BlockHash(p, b.(nonce := bound)), difficulty);
    var nonce := 0;
    while true
      invariant 0 <= nonce <= bound
      invariant forall n :: 0 <= n < nonce ==> !HasRequiredDifficulty(BlockHash(p, b.(nonce := n)), difficulty)
      decreases bound - nonce
    {
      var candidate := b.(nonce := nonce);
      var h := BlockHash(p, candidate);
      if HasRequiredDifficulty(h, difficulty) {
        return candidate.(hash := h);
      }
      nonce := nonce + 1;
    }
  }

  /** With difficulty zero the very first nonce is taken. */
  lemma SolvableAtZero(p: Primitives, b: Block)
    ensures Solvable(p, b, 0)
  {
    assert HasRequiredDifficulty(BlockHash(p, b.(nonce := 0)), 0);
  }
}

/** Linkage check of a block against its predecessor. */
module Validation {
  import opened Wrappers
  import opened Ledger

  const InvalidPreviousHash := "invalid previous hash"
  const InvalidIndex := "invalid index"

  /** `None` accepts the block; `Some(msg)` rejects it. The previous hash
      is checked before the index, and a block with no predecessor is
      always accepted. */
  function ValidateBlock(b: Block, prev: Option<Block>): (r: Option<string>)
    ensures r.None? <==> prev.None? || (b.previousHash == prev.value.hash && b.index == prev.value.index + 1)
    ensures r.Some? ==> r.value in {InvalidPreviousHash, InvalidIndex}
    ensures r == Some(InvalidIndex) ==> b.previousHash == prev.value.hash
  {
    match prev
    case None => None
    case Some(pb) =>
      if b.previousHash != pb.hash then Some(InvalidPreviousHash)
      else if b.index != pb.index + 1 then Some(InvalidIndex)
      else None
  }
}
