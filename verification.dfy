/** The verification crate's own vocabulary: levels, errors, parameters and collaborators. */
module Verification {
  import opened Primitives
  import opened Chain
  import opened Db

  /** How much of the pipeline runs (`VerificationLevel`). */
  datatype VerificationLevel = Full | Header | NoVerification

  /** Per-transaction error kinds (`TransactionError`): those the tests name, and the rest by name. */
  datatype TransactionError = Maturity | Overspend | OtherTransactionError(name: string)

  /** Verification errors (`Error`): those the tests name, and the rest by name. */
  datatype Error =
    | Database(dbError: DbError)
    | Transaction(index: nat, transactionError: TransactionError)
    | MaximumSigops
    | CoinbaseOverspend(expectedMax: u64, actual: u64)
    | OtherError(name: string)

  /** The network a node runs on (`Network`). */
  datatype Network = Mainnet | Testnet | Regtest | Unitest | Other(magic: u32)

  /** Consensus parameters: the network, and the remaining thresholds by name. */
  datatype ConsensusParams = ConsensusParams(network: Network, thresholds: map<string, u32>)

  /** The registry of height-gated deployments (`Deployments::new()`); its state is not modelled. */
  datatype Deployments = Deployments

  /** The deployments active at one height (`BlockDeployments`), by name. */
  datatype BlockDeployments = BlockDeployments(active: set<string>)

  /**
    * A layered transaction-output provider: a provider supplied by a caller, the
    * empty `NoopStore`, or a `DuplexTransactionOutputProvider` that asks its first
    * layer before its second.
    */
  datatype OutputSource =
    | Provided(provider: OutputProvider)
    | NoopStore
    | Duplex(first: OutputSource, second: OutputSource)

  /**
    * The checkers the orchestrator drives, whose code is not part of this model:
    * each is an arbitrary function of the arguments the orchestrator passes it.
    */
  datatype Rules = Rules(
    /** `ChainVerifier::new(block, network, time).check()`: structural block checks. */
    preVerifyBlock: (IndexedBlock, Network, u32) -> Result<(), Error>,
    /** `ChainAcceptor::new(store, consensus, level, block, height, deployments).check()`. */
    acceptBlock: (StoreView, ConsensusParams, VerificationLevel, IndexedBlock, u32, BlockDeployments) -> Result<(), Error>,
    /** `HeaderVerifier::new(header, network, time).check()`: structural header checks. */
    verifyHeader: (IndexedBlockHeader, Network, u32) -> Result<(), Error>,
    /** `BlockDeployments::new(deployments, height, headers, consensus)`. */
    resolveDeployments: (Deployments, u32, HeaderProvider, ConsensusParams) -> BlockDeployments,
    /** `MemoryPoolTransactionVerifier::new(tx, consensus, deployments).check()`. */
    preVerifyTransaction: (Transaction, ConsensusParams, BlockDeployments) -> Result<(), TransactionError>,
    /** `MemoryPoolTransactionAcceptor::new(meta, outputs, consensus, tx, height, time, deployments).check()`. */
    acceptTransaction: (TransactionMetaProvider, OutputSource, ConsensusParams, Transaction, u32, u32, BlockDeployments) -> Result<(), TransactionError>)
}
