/**
  * A declarative account of when block verification accepts and where its
  * errors come from, stated without following the orchestrator's control flow.
  */
module ChainVerifierSpec {
  import opened Primitives
  import opened Chain
  import opened Db
  import opened Verification

  /** `BackwardsCompatibleChainVerifier`: the store, the consensus parameters and the deployment registry. */
  datatype Verifier = Verifier(store: Store, consensus: ConsensusParams, deployments: Deployments)

  /**
    * The orchestrator's own consistency demands: once structural pre-verification
    * has passed at a level other than `NoVerification`, the best tip is consistent
    * (the `assert_eq!`) and the block is not already known (the `unreachable!`).
    */
  predicate NoPanic(rules: Rules, v: Verifier, level: VerificationLevel, block: IndexedBlock, now: u32) {
    level != NoVerification && rules.preVerifyBlock(block, v.consensus.network, now).Ok? ==>
      BestTipConsistent(v.store) && v.store.blockOrigin(block.header) != Ok(KnownBlock)
  }

  /** The deployments in force at `height`, resolved over the main store's header history. */
  function DeploymentsAt(rules: Rules, v: Verifier, height: u32): BlockDeployments {
    rules.resolveDeployments(v.deployments, height, v.store.headers, v.consensus)
  }

  /** The fork descriptor a side-chain classification carries, if any. */
  function ForkOrigin(origin: BlockOrigin): Option<SideChainOrigin> {
    match origin
    case SideChain(o) => Some(o)
    case SideChainBecomingCanonChain(o) => Some(o)
    case _ => None
  }

  /**
    * The store's classification of `header` places its acceptance in store view
    * `view` at height `height`: the main store at the canonical height, or the
    * overlay the store builds for the fork descriptor, at the descriptor's height.
    */
  ghost predicate PlacedIn(store: Store, header: IndexedBlockHeader, view: StoreView, height: u32) {
    match store.blockOrigin(header)
    case Ok(CanonChain(n)) => view == MainStore && height == n
    case Ok(origin) =>
      ForkOrigin(origin).Some? &&
      var o := ForkOrigin(origin).value;
      height == o.blockNumber && store.fork(o).Ok? && view == ForkStore(store.fork(o).value)
    case Err(_) => false
  }

  /** The contextual acceptor's verdict on `block` in view `view` at height `height`. */
  function AcceptorVerdict(rules: Rules, v: Verifier, level: VerificationLevel, block: IndexedBlock, view: StoreView, height: u32): Result<(), Error> {
    rules.acceptBlock(view, v.consensus, level, block, height, DeploymentsAt(rules, v, height))
  }

  /**
    * A block is accepted when verification is switched off, or when it passes
    * structural pre-verification and the contextual acceptor passes it in some
    * context the store's classification places it in.
    */
  ghost predicate Accepted(rules: Rules, v: Verifier, level: VerificationLevel, block: IndexedBlock, now: u32) {
    || level == NoVerification
    || (&& rules.preVerifyBlock(block, v.consensus.network, now).Ok?
        && exists view: StoreView, height: u32 ::
             PlacedIn(v.store, block.header, view, height)
             && AcceptorVerdict(rules, v, level, block, view, height).Ok?)
  }

  /** The store refused the block: classifying it failed, or building its fork overlay did. */
  ghost predicate StoreRefused(store: Store, header: IndexedBlockHeader, e: DbError) {
    || store.blockOrigin(header) == Err(e)
    || (&& store.blockOrigin(header).Ok?
        && ForkOrigin(store.blockOrigin(header).value).Some?
        && store.fork(ForkOrigin(store.blockOrigin(header).value).value) == Err(e))
  }

  /**
    * Error `e` is one a collaborator produced, passed on unchanged: the structural
    * verifier's, a store error wrapped as `Database`, or the acceptor's in a
    * context the block is placed in.
    */
  ghost predicate Attributable(rules: Rules, v: Verifier, level: VerificationLevel, block: IndexedBlock, now: u32, e: Error) {
    || rules.preVerifyBlock(block, v.consensus.network, now) == Err(e)
    || (e.Database? && StoreRefused(v.store, block.header, e.dbError))
    || exists view: StoreView, height: u32 ::
         PlacedIn(v.store, block.header, view, height)
         && AcceptorVerdict(rules, v, level, block, view, height) == Err(e)
  }
}
