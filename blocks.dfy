/** Blocks of the observer chain and the block store the chain persists them
    in. The block layout, its hash and the database are defined outside the
    chain; here they are reduced to what the chain relies on. */
module Blocks {
  import opened Wrappers

  /** A 32-byte digest (`common.Hash`): trie roots and block hashes. */
  const HashLength := 32
  type Hash = h: seq<bv8> | |h| == HashLength witness seq(HashLength, _ => 0)

  /** A sealed block. `number`, `parentHash` and `trieRoot` are what the chain
      reads or relies on; the timestamp and signature are kept as opaque bytes. */
  datatype Block = Block(number: nat, parentHash: Hash, trieRoot: Hash, seal: seq<bv8>)

  /** Errors surfacing from the chain: `ErrNoBlock` is the chain's own, the
      others are whatever the trie or the database reports. */
  datatype Error = ErrNoBlock | TrieError(reason: string) | DbError(reason: string)

  /** Every stored block sits under its own number. */
  ghost predicate Numbered(blocks: map<nat, Block>)
  {
    forall n :: n in blocks ==> blocks[n].number == n
  }

  /** The stored numbers are exactly 0, 1, ..., top. */
  ghost predicate Contiguous(blocks: map<nat, Block>, top: nat)
  {
    forall n: nat :: n in blocks <==> n <= top
  }

  /** Block n + 1 names block n as its parent, by hash. */
  ghost predicate ParentLinked(blocks: map<nat, Block>, blockHash: Block -> Hash, n: nat)
  {
    n in blocks && n + 1 in blocks ==> blocks[n + 1].parentHash == blockHash(blocks[n])
  }

  ghost predicate Linked(blocks: map<nat, Block>, blockHash: Block -> Hash)
  {
    forall n: nat :: ParentLinked(blocks, blockHash, n)
  }

  /** What a database written only by this chain looks like: numbered, linked,
      and either holding at most a genesis and no head, or holding 0..head
      with the head block stored at its number. */
  ghost predicate StoreConsistent(blocks: map<nat, Block>, head: Option<Block>, blockHash: Block -> Hash)
  {
    && Numbered(blocks)
    && Linked(blocks, blockHash)
    && (head.None? ==> forall n :: n in blocks ==> n == 0)
    && (head.Some? ==> Contiguous(blocks, head.value.number)
                       && blocks[head.value.number] == head.value)
  }

  /** The property `CreateSuccessor` is assumed to have (its body is outside
      the chain): the successor of `b` sealed over `root` is numbered one
      higher, points at `b` by hash and commits to `root`. */
  ghost predicate SuccessorLinks(successor: (Block, Hash) -> Block, blockHash: Block -> Hash)
  {
    forall b, root ::
      && successor(b, root).number == b.number + 1
      && successor(b, root).parentHash == blockHash(b)
      && successor(b, root).trieRoot == root
  }

  /** The database as the chain sees it: blocks by number and a head block.
      Each access takes the collaborator's outcome as a parameter where the
      real database could fail. */
  class Store {
    var blocks: map<nat, Block>
    var head: Option<Block>

    constructor (blocks: map<nat, Block>, head: Option<Block>)
      ensures this.blocks == blocks && this.head == head
    {
      this.blocks := blocks;
      this.head := head;
    }

    /** `GetBlock`: the block stored under `n`, or nothing. */
    method GetBlock(n: nat) returns (b: Option<Block>)
      ensures b.Some? <==> n in blocks
      ensures b.Some? ==> b.value == blocks[n]
    {
      b := if n in blocks then Some(blocks[n]) else None;
    }

    /** `GetHeadBlock`: the recorded head block, or nothing. */
    method GetHeadBlock() returns (b: Option<Block>)
      ensures b == head
    {
      b := head;
    }

    /** `WriteBlock`: on success the block is stored under its number and
        becomes the head; a failure (`outcome` is the database's error)
        changes nothing. */
    method WriteBlock(b: Block, outcome: Option<Error>) returns (err: Option<Error>)
      modifies this
      ensures err == outcome
      ensures outcome.None? ==> blocks == old(blocks)[b.number := b] && head == Some(b)
      ensures outcome.Some? ==> blocks == old(blocks) && head == old(head)
    {
      err := outcome;
      if outcome.None? {
        blocks := blocks[b.number := b];
        head := Some(b);
      }
    }
  }
}
