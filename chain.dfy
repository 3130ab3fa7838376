/** The block values of the chain crate, as far as the orchestrator handles them. */
module Chain {
  import opened Primitives

  /** A serialized block header; its fields are read only by the checkers. */
  datatype BlockHeader = BlockHeader(bytes: seq<bv8>)

  /** A header together with its hash, computed once (`IndexedBlockHeader`). */
  datatype IndexedBlockHeader = IndexedBlockHeader(hash: H256, raw: BlockHeader)

  /** A serialized transaction. */
  datatype Transaction = Transaction(bytes: seq<bv8>)

  /** A block with its indexed header (`IndexedBlock`). */
  datatype IndexedBlock = IndexedBlock(header: IndexedBlockHeader, transactions: seq<Transaction>)
}
