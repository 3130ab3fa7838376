/** The read interface of the shared chain store (`db::SharedStore`) the orchestrator uses. */
module Db {
  import opened Primitives
  import opened Chain

  /** Store errors (`db::Error`): the variant the orchestrator's tests name, and the rest by name. */
  datatype DbError = UnknownParent | OtherDbError(name: string)

  /** The best tip of the canonical chain (`best_block()`). */
  datatype BestBlock = BestBlock(number: u32, hash: H256)

  /**
    * The fork descriptor of a side-chain block: the newest common ancestor, the
    * branch blocks that would become canonical, the canonical blocks that would be
    * undone, and the height the candidate block would have.
    */
  datatype SideChainOrigin = SideChainOrigin(
    ancestor: u32,
    canonizedRoute: seq<H256>,
    decanonizedRoute: seq<H256>,
    blockNumber: u32)

  /** Where a candidate block stands relative to the store (`BlockOrigin`). */
  datatype BlockOrigin =
    | KnownBlock
    | CanonChain(blockNumber: u32)
    | SideChain(origin: SideChainOrigin)
    | SideChainBecomingCanonChain(origin: SideChainOrigin)

  /** A reference to a header-history view (`&BlockHeaderProvider`). */
  datatype HeaderProvider = HeaderProvider(id: nat)

  /** A reference to the store's transaction-metadata view. */
  datatype TransactionMetaProvider = TransactionMetaProvider(id: nat)

  /** A reference to a transaction-output view (`TransactionOutputProvider`). */
  datatype OutputProvider = OutputProvider(id: nat)

  /** A fork overlay the store materializes for one side-chain origin (`ForkChain`). */
  datatype ForkChain = ForkChain(id: nat)

  /** The store a contextual acceptor reads: the main store, or a fork overlay over it. */
  datatype StoreView = MainStore | ForkStore(fork: ForkChain)

  /**
    * What the orchestrator can ask the store: its best tip, the canonical hash at a
    * height, the origin of a header, the fork overlay for a side-chain origin, its
    * own header-history view and its transaction-metadata view.
    */
  datatype Store = Store(
    bestBlock: BestBlock,
    blockHash: u32 -> Option<H256>,
    blockOrigin: IndexedBlockHeader -> Result<BlockOrigin, DbError>,
    fork: SideChainOrigin -> Result<ForkChain, DbError>,
    headers: HeaderProvider,
    transactionMeta: TransactionMetaProvider)

  /** The store's best tip is the block the store records at the tip's height. */
  predicate BestTipConsistent(store: Store) {
    store.blockHash(store.bestBlock.number) == Some(store.bestBlock.hash)
  }
}
