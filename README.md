# Verification orchestrator of a Bitcoin full node, in Dafny

This project models `BackwardsCompatibleChainVerifier`, the component of the
node's `verification` crate that runs block and transaction verification. It
gates on the verification level. It runs structural pre-verification first and
stops at the first failure. It checks that the store's best tip is consistent.
It asks the store where the candidate block stands (its `BlockOrigin`) and then
runs contextual acceptance against the right store: the main store for a
canonical extension, or a fork overlay for either kind of side-chain block. It
also exposes a header-only entry point and a memory-pool transaction entry point.

The checkers the orchestrator drives are not part of this model. These are
`ChainVerifier`, `ChainAcceptor`, `HeaderVerifier`, the memory-pool verifier and
acceptor, and `BlockDeployments::new`. Each one is a function-typed field of the
`Rules` datatype: any function of the arguments the orchestrator passes it. The
store is a `Store` value with the same kind of fields: `best_block`, `block_hash`,
`block_origin`, `fork`, its header view and its transaction-metadata view. So
every property proved here holds for every checker and every store.

Files and modules:

- `primitives.dfy` (`Primitives`): `u32`, `u64`, `H256`, `Option`, `Result`.
- `chain.dfy` (`Chain`): headers, indexed headers, transactions, indexed blocks.
- `db.dfy` (`Db`): store errors, `BestBlock`, `BlockOrigin`, `SideChainOrigin`, provider handles, `StoreView`, `Store`, `BestTipConsistent`.
- `verification.dfy` (`Verification`): `VerificationLevel`, `Error`, `TransactionError`, consensus parameters, deployments, layered output sources (`Duplex`, `NoopStore`), and `Rules`.
- `chain_verifier_spec.dfy` (`ChainVerifierSpec`): the verifier struct, the demands whose violation makes the source panic (`NoPanic`), and a declarative account of acceptance (`Accepted`, `PlacedIn`) and of where errors come from (`Attributable`).
- `chain_verifier.dfy` (`ChainVerifier`): the three entry points, `Verify`, and the lemmas.

Each entry point returns a `Run`. A `Run` holds the entry point's result and
the collaborator calls it made, in order (`Call`). This is how the model states
that nothing is consulted at `NoVerification`, and that a pre-verification
failure skips classification and acceptance. It also makes deployment
resolution and acceptance appear in the order the source runs them. `Verify`
returns only the result.

The source panics in three places: the `assert_eq!` on the best tip at line 43,
`unreachable!()` for `KnownBlock` at line 49, and the second best-tip
`assert_eq!` at line 78. The model has no error value for any of them. The
precondition `NoPanic` covers the first two: once pre-verification has passed at
a level other than `NoVerification`, the best tip must be consistent and the
block must not be known. The third appears in the model as an `assert`. It is
proved to hold, because verification only reads the store.

Two details of the code that the model keeps:

- The second best-tip `assert_eq!` (line 78) runs only after acceptance
  succeeds; each acceptor's `?` (lines 56, 65, 74) returns before it.
- The acceptance height of a canonical extension is the `block_number` the store
  reports (line 51).

## Model

| member | source | states |
|---|---|---|
| `ChainVerifier.VerifyBlock` | verification/src/chain_verifier.rs:33-80 | At `NoVerification` the result is `Ok` and no collaborator is called. Otherwise pre-verification is the first call. If it fails, its error is the result and it is the only call. A classification error `e` is returned as `Database(e)` after exactly pre-verify, best-tip check and classify. Past the gate, success means the best tip was found consistent, and the best-tip check is the last call. Every deployment resolution uses the main store's header view. |
| `ChainVerifier.VerifyBlockOkIffAccepted` | verification/src/chain_verifier.rs:33-80 | Verification succeeds if and only if one of two things holds. Either the level is `NoVerification`. Or pre-verification passes and the acceptor passes the block in a context the store's classification places it in: the main store at the canonical height, or the fork overlay at the descriptor's height, with deployments of that height resolved over the main store's headers. |
| `ChainVerifier.VerifyBlockErrorsAreAttributable` | verification/src/chain_verifier.rs:41-75 | Every error reported came from a collaborator, unchanged. It is the pre-verifier's error, or a store error (classification or fork) wrapped as `Database`, or the acceptor's error in the context the block is placed in. |
| `ChainVerifier.DeploymentsResolvedBeforeAcceptance` | verification/src/chain_verifier.rs:51-75 | In every branch, each acceptance call comes after deployments were resolved over the main store's header view at that same height. |
| `ChainVerifier.CanonChainAcceptedOnMainStore` | verification/src/chain_verifier.rs:51-56 | For `CanonChain { block_number: n }` the result is exactly the acceptor's verdict on the main store. The acceptor gets the caller's level, height `n`, and the deployments of height `n`. |
| `ChainVerifier.SideChainAcceptedOnFork` | verification/src/chain_verifier.rs:58-75 | For either side-chain origin with descriptor `o`, a failure of `fork(o)` is returned as `Database(e)`. Otherwise the result is the acceptor's verdict on the fork overlay at `o.block_number`, with deployments from the main store's headers. |
| `ChainVerifier.SideChainVariantsAgree` | verification/src/chain_verifier.rs:58-75 | Reclassifying a `SideChain(o)` block as `SideChainBecomingCanonChain(o)` changes neither the result nor the calls made. |
| `ChainVerifier.OrphanBlockRejected` | verification/src/chain_verifier.rs:152-158 | A block that passes pre-verification, but whose parent the store reports as unknown, is rejected with `Database(UnknownParent)`. |
| `ChainVerifier.VerifyBlockHeader` | verification/src/chain_verifier.rs:82-94 | The header checker is the only collaborator consulted. The result is its verdict on `IndexedBlockHeader(hash, header)` for the verifier's network at the given time: structural header checks only. |
| `ChainVerifier.VerifyBlockHeaderIsStructural` | verification/src/chain_verifier.rs:82-94 | Header verification makes only the header-checker call. It returns that checker's verdict on the header indexed under the given hash, at the given time. The store, the registry and the header-provider argument do not affect it. |
| `ChainVerifier.VerifyMempoolTransaction` | verification/src/chain_verifier.rs:96-124 | Deployments are resolved first, at `height`, over the caller's header provider. Transaction pre-verification comes next. If it fails, its error is the result and those two calls are the whole log. Otherwise the result is the acceptor's verdict over `Duplex(caller's outputs, NoopStore)` at the given height and time, with those deployments, and acceptance is the one further call. |
| `ChainVerifier.Verify` | verification/src/chain_verifier.rs:127-137 | Returns `verify_block`'s result unchanged. It is `Ok` at `NoVerification`. It is `Ok` exactly when `Accepted` holds, and every error it returns is attributable to a collaborator. |

## Left out

- The checkers' own rules: coinbase maturity, overspend, sigops and coinbase subsidy (exercised by the tests at verification/src/chain_verifier.rs:182-438). Their code is not part of this model. `CanonChainAcceptedOnMainStore` shows that whatever error the acceptor returns, for example `Transaction(1, Maturity)`, is returned unchanged.
- The internals of `BlockDeployments`, the `Deployments` registry and its cache, and `DuplexTransactionOutputProvider`. Only how the orchestrator composes them appears (`Duplex(Provided(p), NoopStore)`).
- `::time::get_time()` (lines 38, 90) is a wall-clock read. The truncated `u32` time is a parameter (`now`).
- `trace!` logging (lines 45, 130-135) has no effect on results.
- `SharedStore`/`Arc` sharing and concurrent store access. The store is an immutable value here, so a concurrent reorganization during a call is not represented.
- `BackwardsCompatibleChainVerifier::new` (lines 25-31) only builds the struct. The model builds `Verifier` directly.
- Hash computation, and the `CanonBlock`/`CanonTransaction` wrappers and the `into()` indexing of a transaction. The checkers receive the block or transaction itself.
- Repeating a call on the same store gives the same result by construction, because every member is a function. No lemma states it.
- The panics (`assert_eq!`, `unreachable!`) are preconditions (`NoPanic`), not outcomes.
