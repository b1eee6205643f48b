/** The observer chain: a single writer that seals the state of a trie into
    an append-only sequence of blocks. Each method runs under the chain's
    lock in the Go code, so each is one atomic step here, specified by the
    matching function of `ChainSpec`. */
module Observer {
  import opened Wrappers
  import opened Blocks
  import opened ChainSpec

  class Chain {
    /** The database the blocks are persisted in. */
    const db: Store
    /** `CreateSuccessor` with the chain's private key: the signed successor
        of a block over a trie root. */
    const successor: (Block, Hash) -> Block

    var genesisBlock: Block
    var currentBlock: Block
    /** `trie.Hash()`: the hash of the live trie, uncommitted changes included. */
    var working: Hash
    /** The root returned by the last successful commit. */
    var trieRoot: Hash
    /** `closeC != nil`. */
    var looping: bool

    /** The chain and its database as one value. */
    function State(): ChainState
      reads this, db
    {
      ChainState(genesisBlock, currentBlock, working, trieRoot, looping, db.blocks, db.head)
    }

    constructor (db: Store, successor: (Block, Hash) -> Block, genesis: Block, current: Block, root: Hash)
      ensures this.db == db && this.successor == successor
      ensures genesisBlock == genesis && currentBlock == current
      ensures working == root && trieRoot == root && !looping
    {
      this.db := db;
      this.successor := successor;
      genesisBlock := genesis;
      currentBlock := current;
      working := root;
      trieRoot := root;
      looping := false;
    }

    /** `NewChain`: find or write the genesis block, pick the head, open the
        trie at the head's root. `newGenesis` is the block `NewBlock` would
        build, `write` the database's answer to writing it, `open` the
        trie's answer to opening a root (the opened trie's hash, or an
        error). */
    static method NewChain(db: Store, successor: (Block, Hash) -> Block, newGenesis: Block,
                           write: Option<Error>, open: Hash -> Result<Hash, Error>)
      returns (r: Result<Chain, Error>)
      modifies db
      ensures var boot := ChainSpec.NewChain(old(db.blocks), old(db.head), newGenesis, write, open);
        && db.blocks == boot.blocks && db.head == boot.head
        && r.Success? == boot.chain.Success?
        && (r.Failure? ==> r.error == boot.chain.error)
        && (r.Success? ==> fresh(r.value) && r.value.db == db && r.value.successor == successor
                           && r.value.State() == boot.chain.value)
    {
      var genesis := db.GetBlock(0);
      if genesis.None? {
        var err := db.WriteBlock(newGenesis, write);
        if err.Some? {
          return Failure(err.value);
        }
        genesis := Some(newGenesis);
      }
      var current := db.GetHeadBlock();
      if current.None? {
        current := genesis;
      }
      var tr := open(current.value.trieRoot);
      if tr.Failure? {
        return Failure(tr.error);
      }
      var c := new Chain(db, successor, genesis.value, current.value, tr.value);
      r := Success(c);
    }

    /** `Block`: the stored block with the given number, or `ErrNoBlock`. */
    method Block(number: nat) returns (r: Result<Block, Error>)
      ensures r.Failure? <==> number !in db.blocks
      ensures r.Failure? ==> r.error == ErrNoBlock
      ensures r.Success? ==> r.value == db.blocks[number]
    {
      var b := db.GetBlock(number);
      if b.None? {
        return Failure(ErrNoBlock);
      }
      return Success(b.value);
    }

    /** `GenesisBlock`: the first block of the chain. */
    method GenesisBlock() returns (b: Block)
      ensures b == genesisBlock && b == State().genesis
    {
      b := genesisBlock;
    }

    /** `CurrentBlock`: the head of the chain. */
    method CurrentBlock() returns (b: Block)
      ensures b == currentBlock && b == State().current
    {
      b := currentBlock;
    }

    /** `trieChanged`: the live trie differs from the last committed root. */
    predicate TrieChanged()
      reads this, db
      ensures TrieChanged() <==> Dirty(State())
    {
      working != trieRoot
    }

    /** `TrieDo`: run a caller's function on the trie; its error is returned
        as it is and its changes are kept either way. */
    method TrieDo(f: Hash -> TrieEdit) returns (err: Option<Error>)
      modifies this`working
      ensures (State(), err) == ChainSpec.TrieDo(old(State()), f)
    {
      var edit := f(working);
      working := edit.root;
      err := edit.err;
    }

    /** `CreateBlock`: commit the trie if it changed (`commit` is the trie's
        answer), then seal and persist a successor of the head (`write` is
        the database's answer). */
    method CreateBlock(commit: Result<Hash, Error>, write: Option<Error>) returns (r: Result<Block, Error>)
      modifies this, db
      ensures (State(), r) == ChainSpec.CreateBlock(old(State()), successor, commit, write)
    {
      if TrieChanged() {
        if commit.Failure? {
          return Failure(commit.error);
        }
        trieRoot := commit.value;
      }
      var block := successor(currentBlock, trieRoot);
      var err := db.WriteBlock(block, write);
      if err.Some? {
        return Failure(err.value);
      }
      currentBlock := block;
      r := Success(currentBlock);
    }

    /** `AutoCreateBlocks`: start the periodic loop unless it runs already. */
    method AutoCreateBlocks()
      modifies this`looping
      ensures State() == ChainSpec.AutoCreateBlocks(old(State()))
    {
      if looping {
        return;
      }
      looping := true;
    }

    /** `Close`: stop the loop, then seal the trie once more if it changed.
        Failures end the call quietly. */
    method Close(commit: Result<Hash, Error>, write: Option<Error>)
      modifies this, db
      ensures State() == ChainSpec.Close(old(State()), successor, commit, write)
    {
      if looping {
        looping := false;
      }
      if TrieChanged() {
        if commit.Failure? {
          return;
        }
        trieRoot := commit.value;
        var block := successor(currentBlock, trieRoot);
        var err := db.WriteBlock(block, write);
        if err.Some? {
          return;
        }
        currentBlock := block;
      }
    }
  }

  // ---------------------------------------------------------------------
  // Byte counting
  // ---------------------------------------------------------------------

  /** The total length of a sequence of byte strings. */
  function TotalLength(writes: seq<seq<bv8>>): nat
  {
    if writes == [] then 0 else TotalLength(writes[..|writes| - 1]) + |writes[|writes| - 1]|
  }

  /** `writeCounter`: an `io.Writer` that only counts the bytes written. */
  class WriteCounter {
    var total: nat
    /** Everything written so far. */
    ghost var writes: seq<seq<bv8>>

    ghost predicate Valid()
      reads this
    {
      total == TotalLength(writes)
    }

    constructor ()
      ensures Valid() && writes == [] && total == 0
    {
      total := 0;
      writes := [];
    }

    /** `Write`: add `|b|` to the count and report all of `b` written. */
    method Write(b: seq<bv8>) returns (n: nat, err: Option<Error>)
      requires Valid()
      modifies this
      ensures Valid() && writes == old(writes) + [b]
      ensures total == old(total) + |b|
      ensures n == |b| && err == None
    {
      total := total + |b|;
      writes := writes + [b];
      assert writes[..|writes| - 1] == old(writes);
      n, err := |b|, None;
    }
  }
}
