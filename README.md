# Observer chain lifecycle, modelled in Dafny

This project models the `Chain` of go-ethereum's light-client observer
(`les/observer/chain.go`). The chain is a single local writer. It keeps a
state trie and, on request or on a timer, seals the trie's state into a new
signed block whose parent is the current head. It persists that block and
advances the head. Readers can fetch any stored block by number, the genesis
block, or the current head.

The model has four files:

- `wrappers.dfy`: `Option` and `Result`, standing in for Go's nil pointers and
  `(value, error)` returns.
- `blocks.dfy`: 32-byte hashes, blocks, errors, and an abstract block `Store`
  (blocks by number plus a head). It also has the predicates that describe a
  well-formed stored chain, and `SuccessorLinks`. That predicate is the
  property `CreateSuccessor` is assumed to have: the successor is numbered one
  higher, names its parent by hash, and commits to the root it was given.
- `chain_spec.dfy` (module `ChainSpec`): the chain and its database as one
  value, `ChainState`. Every operation is a pure function on it. The lemmas
  state what the operations promise, separately and over any sequence of
  operations.
- `chain.dfy` (module `Observer`): the class `Chain`. Its fields are the ones
  the Go methods update in place. Each method is proved to perform exactly the
  matching `ChainSpec` transition on `State()`. The file also has
  `WriteCounter`.

The chain's collaborators are not modelled internally. Each method takes as
parameters the answers they give on that call:

- `commit`: what `trie.Commit` returned, a root or an error.
- `write`: what `WriteBlock` returned, nil or an error.
- `open`: what `trie.New` returns for a root, the opened trie's hash or an
  error.
- `newGenesis`: the block `NewBlock` builds.

The private key is held inside `successor`, the chain's `CreateSuccessor`.
Hashing a block (`blockHash`) is a parameter of the lemmas that need it.

Two behaviours of the code are easy to miss:

- A second `Close` does no I/O only when the first `Close`'s commit, if it
  made one, succeeded and returned the trie's own hash (`SecondCloseIsNoOp`). A first `Close` whose
  commit failed leaves the trie dirty, so the next `Close` commits and seals
  again (`CloseAfterFailedCommitRetries`).
- If construction fails after writing a fresh genesis (the trie cannot be
  opened), the genesis block stays in the database (`NewChainWritesGenesisFirst`,
  `NewChainOpensTrieAtHead`).

## Model

| member | source | states |
|---|---|---|
| `Observer.Chain.NewChain` | les/observer/chain.go:59-88 | The database afterwards and the returned chain or error are exactly those of `ChainSpec.NewChain`. A returned chain is fresh and uses the given database and successor function. |
| `ChainSpec.NewChainWritesGenesisFirst` | les/observer/chain.go:65-73 | With no block 0 stored, the new genesis is written before anything else. A failed write aborts with that error and leaves the database untouched. A successful write stores the genesis, makes it the head, and makes it the chain's genesis. |
| `ChainSpec.NewChainPicksHead` | les/observer/chain.go:73-79 | With block 0 stored, nothing is written. The genesis is block 0. The head is the stored head if there is one, otherwise the genesis. |
| `ChainSpec.NewChainOpensTrieAtHead` | les/observer/chain.go:80-87 | The trie is opened at the chosen head's root. An open failure aborts construction with that error. Otherwise the working hash and the cached root are both the opened trie's hash, so the new chain is not dirty, and the loop is not running. |
| `ChainSpec.NewChainEstablishesInv` | les/observer/chain.go:59-88 | Suppose the database was written only by this chain and `NewBlock` numbers the genesis 0. Then a successfully built chain satisfies `Inv`: blocks 0..head with no gaps, each under its own number and linked to its parent, block 0 the genesis, head the top block. |
| `Observer.Chain.Block` | les/observer/chain.go:90-99 | Returns `ErrNoBlock` exactly when no block with that number is stored, and otherwise the stored block. It changes nothing. |
| `Observer.Chain.GenesisBlock` | les/observer/chain.go:101-106 | Returns the genesis field unchanged and changes nothing. |
| `Observer.Chain.CurrentBlock` | les/observer/chain.go:108-113 | Returns the head field unchanged and changes nothing. |
| `Observer.Chain.TrieChanged` | les/observer/chain.go:201-206 | Holds exactly when the trie's working hash differs from the cached last committed root (`ChainSpec.Dirty`). |
| `Observer.Chain.TrieDo` | les/observer/chain.go:115-120 | The trie's hash becomes the one the caller's function leaves. The function's error is returned as is. No other field and nothing in the database changes. |
| `Observer.Chain.CreateBlock` | les/observer/chain.go:122-141 | The new state and the result are exactly `ChainSpec.CreateBlock` of the old state. |
| `ChainSpec.CommitFailureChangesNothing` | les/observer/chain.go:127-131 | When the trie is dirty and the commit fails, the commit's error is returned. Head, cached root, loop flag and database are all unchanged. |
| `ChainSpec.CreateBlockSealsSuccessor` | les/observer/chain.go:132-140 | Once any needed commit has succeeded, a successor of the head is always built, over the committed root if the trie was dirty and otherwise over the cached root. A failed write returns its error: the head and the database stay as they were, but the cached root has already advanced. A successful write stores the block under its number, makes it the head and returns it. |
| `ChainSpec.CleanSealReusesRoot` | les/observer/chain.go:127-135 | On a clean trie the commit outcome is never consulted: any two outcomes give the same result. The successor is built over the cached root. |
| `ChainSpec.ConsecutiveSealsShareRoot` | les/observer/chain.go:127-135 | Assume any commit in the first of two back-to-back `CreateBlock` calls returned the trie's own hash. Then the second call finds the trie clean and hands `CreateSuccessor` the same root. If `CreateSuccessor` links blocks and both calls succeed, the two blocks commit to the same root and their numbers differ by one. |
| `ChainSpec.SuccessfulSealResyncsHead` | les/observer/chain.go:132-140 | If `CreateSuccessor` links blocks, a successful `CreateBlock` leaves a head that commits to the cached root and is numbered one higher. This closes any window a failed write left open. |
| `Observer.Chain.AutoCreateBlocks` | les/observer/chain.go:145-153 | The new state is `ChainSpec.AutoCreateBlocks` of the old one: the loop flag is set, and nothing changes if it was already set. |
| `ChainSpec.AutoCreateBlocksIdempotent` | les/observer/chain.go:148-151 | `AutoCreateBlocks` sets the flag and changes nothing else, and a second call is a no-op. |
| `Observer.Chain.Close` | les/observer/chain.go:156-180 | The new state is exactly `ChainSpec.Close` of the old state. |
| `ChainSpec.CloseAllowsRestart` | les/observer/chain.go:160-163 | After `Close` the loop flag is clear, and a later `AutoCreateBlocks` sets it again. |
| `ChainSpec.CloseOnCleanTrieSealsNothing` | les/observer/chain.go:164-165 | On a clean trie `Close` only clears the loop flag. It consults neither the commit nor the write outcome. |
| `ChainSpec.CloseOnDirtyTrie` | les/observer/chain.go:165-179 | On a dirty trie, a failed commit only clears the flag and returns no error. A failed write leaves head and database alone, but the cached root has advanced. A successful write stores the successor over the committed root and makes it the head. |
| `ChainSpec.SecondCloseIsNoOp` | les/observer/chain.go:156-180 | If the first `Close`'s commit, when there was one, returned the trie's own hash, the trie is clean afterwards. A second `Close` then changes nothing, whatever the collaborators would answer. |
| `ChainSpec.CloseAfterFailedCommitRetries` | les/observer/chain.go:165-170 | A `Close` whose commit failed leaves the trie dirty. A following `Close` with a working commit and write therefore seals and stores a block. |
| `ChainSpec.SealPreservesInv` | les/observer/chain.go:134-140 | If `CreateSuccessor` links blocks, sealing keeps `Inv`. It only appends to the database, keeps the genesis, and raises the head number by one exactly when the write succeeds. |
| `ChainSpec.StepPreservesInv` | les/observer/chain.go:115-180 | If `CreateSuccessor` links blocks, each of `TrieDo`, `CreateBlock`, `AutoCreateBlocks` and `Close` keeps `Inv`, whatever the collaborators answer. Each only appends to the database, never lowers the head number and keeps the genesis. |
| `ChainSpec.RunPreservesInv` | les/observer/chain.go:115-180 | The same holds over any sequence of these atomic operations. Stored numbers stay gap-free and duplicate-free, every block n ≥ 1 names block n − 1 by hash, written blocks never change, and the head number never decreases. |
| `Observer.WriteCounter.Write` | les/observer/chain.go:225-228 | Adds the length of the written bytes to the counter and returns that length with no error. The counter stays equal to the total length of everything written. |

## Left out

- The `loop` goroutine, its `time.Ticker` and its channel `select` (les/observer/chain.go:183-199) are concurrency and timing. Only the loop flag is modelled: `AutoCreateBlocks` sets it and `Close` clears it. The `period` argument is dropped. A tick would be one more `CreateBlock`, which `RunPreservesInv` already covers.
- The `loop` goroutine reads `c.closeC` without the lock (les/observer/chain.go:193). If a tick is waiting for the lock inside `CreateBlock` when `Close` runs, the goroutine next enters its `select` with `c.closeC` nil. That case never fires, but the ticker case still does, so after `Close` the goroutine goes on sealing one block per tick and never stops. This race is outside the model. Each such seal is one more `CreateBlock`, so `RunPreservesInv` still covers any number of them.
- The `sync.RWMutex` is not modelled. Each method is one atomic step, and interleavings are sequences of such steps (`ChainSpec.Run`).
- Trie internals (`trie.New`, `Hash`, `Commit`, `trie.Database`) are foreign code. The trie is reduced to its working hash, and commit and open outcomes are parameters. The model assumes a commit does not change the working hash.
- `ethdb.Database` and the bodies of `GetBlock`, `WriteBlock` and `GetHeadBlock` are not part of this model. The abstract `Blocks.Store` assumes that a successful `WriteBlock` stores the block under its number and makes it the head, and that a failed one writes nothing.
- `NewBlock` and `CreateSuccessor` are not part of this model. `NewBlock`'s result is the `newGenesis` parameter. `CreateSuccessor` with the private key is the function `successor`. Any clock it reads is folded into that function, so a `CreateBlock` retried after a failed write rebuilds the identical block, where the Go code stamps a new time. The linkage the lemmas need (`SuccessorLinks`) is stated as an explicit assumption and is never taken for granted by the methods.
- ECDSA signing and `rlpHash` (Keccak-256 over RLP, les/observer/chain.go:213-218) are cryptographic primitives. Block hashes are an opaque function `blockHash`.
- `log.Error` calls in `Close` and `loop` are observability only and are dropped.
- What a `TrieDo` caller's function does outside the trie is not modelled, and neither are its panics.
- `Observer.Chain.Block`: block numbers are `nat`, not `uint64`. Wrap-around of block numbers, which would happen in `CreateSuccessor`, is not modelled.
- `Observer.WriteCounter.Write`: the source counter is a `common.StorageSize`, a `float64`. The model counts in an unbounded `nat`, so it does not capture rounding once the total passes 2^53 bytes.
