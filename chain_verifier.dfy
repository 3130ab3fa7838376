/**
  * The verification orchestrator (`BackwardsCompatibleChainVerifier`): the level
  * gate, structural pre-verification, origin classification, the choice of store
  * for contextual acceptance, and the header and memory-pool entry points.
  *
  * Each entry point returns its result together with the collaborator calls it
  * made, in order, so that what is consulted and what is skipped can be stated.
  */
module ChainVerifier {
  import opened Primitives
  import opened Chain
  import opened Db
  import opened Verification
  import opened ChainVerifierSpec

  /** A collaborator call the orchestrator makes. */
  datatype Call =
    | PreVerifyBlock                                       // ChainVerifier::check
    | CheckBestTip                                         // best_block() against block_hash(best.number)
    | ClassifyOrigin                                       // store.block_origin
    | ResolveDeployments(headers: HeaderProvider, height: u32)   // BlockDeployments::new
    | MaterializeFork(origin: SideChainOrigin)             // store.fork
    | AcceptBlock(view: StoreView, height: u32)            // ChainAcceptor::check
    | VerifyHeader                                         // HeaderVerifier::check
    | PreVerifyTransaction                                 // MemoryPoolTransactionVerifier::check
    | AcceptTransaction(outputs: OutputSource, height: u32, time: u32)  // MemoryPoolTransactionAcceptor::check

  /** The outcome of one entry point: its result and the calls it made, in order. */
  datatype Run<+E> = Run(result: Result<(), E>, calls: seq<Call>)

  /** In `calls`, every block acceptance comes after deployments were resolved over `headers` at its height. */
  predicate DeploymentsPrecedeAcceptance(calls: seq<Call>, headers: HeaderProvider) {
    forall i :: 0 <= i < |calls| && calls[i].AcceptBlock? ==>
      ResolveDeployments(headers, calls[i].height) in calls[..i]
  }

  /**
    * `verify_block`: skip everything at `NoVerification`; otherwise pre-verify,
    * check the best tip, classify the block and accept it against the main store
    * (canonical extension) or against a fork overlay (either side-chain origin),
    * with deployments resolved over the main store's headers at the block's height,
    * and check the best tip again before reporting success.
    */
  function VerifyBlock(rules: Rules, v: Verifier, level: VerificationLevel, block: IndexedBlock, now: u32): (run: Run<Error>)
    requires NoPanic(rules, v, level, block, now)
    // the level gate: success, and no collaborator is consulted
    ensures level == NoVerification ==> run == Run(Ok(()), [])
    // otherwise structural pre-verification is the first thing done
    ensures level != NoVerification ==> 0 < |run.calls| && run.calls[0] == PreVerifyBlock
    // and its failure is the result, with nothing else consulted
    ensures level != NoVerification && rules.preVerifyBlock(block, v.consensus.network, now).Err? ==>
      run == Run(rules.preVerifyBlock(block, v.consensus.network, now), [PreVerifyBlock])
    // a classification failure is reported as a database error, and nothing follows it
    ensures level != NoVerification && rules.preVerifyBlock(block, v.consensus.network, now).Ok? &&
            v.store.blockOrigin(block.header).Err? ==>
      run == Run(Err(Database(v.store.blockOrigin(block.header).error)), [PreVerifyBlock, CheckBestTip, ClassifyOrigin])
    // success past the gate means the best tip was found consistent, and re-checked last
    ensures level != NoVerification && run.result.Ok? ==>
      BestTipConsistent(v.store) && 0 < |run.calls| && run.calls[|run.calls| - 1] == CheckBestTip
    // deployments are always resolved over the main store's headers
    ensures forall c :: c in run.calls && c.ResolveDeployments? ==> c.headers == v.store.headers
  {
    if level == NoVerification then
      Run(Ok(()), [])
    else
      var pre := rules.preVerifyBlock(block, v.consensus.network, now);
      if pre.Err? then
        Run(pre, [PreVerifyBlock])
      else
        assert BestTipConsistent(v.store);
        var classified := [PreVerifyBlock, CheckBestTip, ClassifyOrigin];
        var dispatched :=
          match v.store.blockOrigin(block.header)
          case Err(e) =>
            Run(Err(Database(e)), classified)
          case Ok(KnownBlock) =>
            // there are no known blocks at this point
            assert false; Run(Ok(()), classified)
          case Ok(CanonChain(blockNumber)) =>
            var deployments := rules.resolveDeployments(v.deployments, blockNumber, v.store.headers, v.consensus);
            Run(rules.acceptBlock(MainStore, v.consensus, level, block, blockNumber, deployments),
                classified + [ResolveDeployments(v.store.headers, blockNumber), AcceptBlock(MainStore, blockNumber)])
          case Ok(SideChain(origin)) =>
            var blockNumber := origin.blockNumber;
            var deployments := rules.resolveDeployments(v.deployments, blockNumber, v.store.headers, v.consensus);
            var forking := classified + [ResolveDeployments(v.store.headers, blockNumber), MaterializeFork(origin)];
            (match v.store.fork(origin)
             case Err(e) => Run(Err(Database(e)), forking)
             case Ok(fork) =>
               Run(rules.acceptBlock(ForkStore(fork), v.consensus, level, block, blockNumber, deployments),
                   forking + [AcceptBlock(ForkStore(fork), blockNumber)]))
          case Ok(SideChainBecomingCanonChain(origin)) =>
            var blockNumber := origin.blockNumber;
            var deployments := rules.resolveDeployments(v.deployments, blockNumber, v.store.headers, v.consensus);
            var forking := classified + [ResolveDeployments(v.store.headers, blockNumber), MaterializeFork(origin)];
            (match v.store.fork(origin)
             case Err(e) => Run(Err(Database(e)), forking)
             case Ok(fork) =>
               Run(rules.acceptBlock(ForkStore(fork), v.consensus, level, block, blockNumber, deployments),
                   forking + [AcceptBlock(ForkStore(fork), blockNumber)]));
        if dispatched.result.Err? then
          dispatched
        else
          assert BestTipConsistent(v.store);
          Run(Ok(()), dispatched.calls + [CheckBestTip])
  }

  /**
    * `verify_block_header`: structural header verification only, over the header
    * indexed under the given hash; the header-provider argument is unused.
    */
  function VerifyBlockHeader(rules: Rules, v: Verifier, blockHeaderProvider: HeaderProvider, hash: H256, header: BlockHeader, now: u32): (run: Run<Error>)
    // the header checker is the only collaborator consulted
    ensures run.calls == [VerifyHeader]
    // and its verdict on the header indexed under `hash` is the result
    ensures run.result == rules.verifyHeader(IndexedBlockHeader(hash, header), v.consensus.network, now)
  {
    var indexed := IndexedBlockHeader(hash, header);
    Run(rules.verifyHeader(indexed, v.consensus.network, now), [VerifyHeader])
  }

  /**
    * `verify_mempool_transaction`: resolve deployments at `height` over the caller's
    * header provider, pre-verify the transaction, then accept it over the caller's
    * outputs layered above an empty store, at the given height and time.
    */
  function VerifyMempoolTransaction(
    rules: Rules, v: Verifier, blockHeaderProvider: HeaderProvider, prevoutProvider: OutputProvider,
    height: u32, time: u32, transaction: Transaction): (run: Run<TransactionError>)
    // deployments are resolved first, at `height`, over the caller's headers; pre-verification comes next
    ensures 2 <= |run.calls| && run.calls[..2] == [ResolveDeployments(blockHeaderProvider, height), PreVerifyTransaction]
    // a pre-verification failure is the result, and those two calls are all that is made
    ensures var pre := rules.preVerifyTransaction(transaction, v.consensus, rules.resolveDeployments(v.deployments, height, blockHeaderProvider, v.consensus));
      pre.Err? ==>
        && run.result == pre
        && run.calls == [ResolveDeployments(blockHeaderProvider, height), PreVerifyTransaction]
    // otherwise the result is the acceptor's over Duplex(caller's outputs, NoopStore), with those deployments,
    // and acceptance is the one further call
    ensures var deployments := rules.resolveDeployments(v.deployments, height, blockHeaderProvider, v.consensus);
      rules.preVerifyTransaction(transaction, v.consensus, deployments).Ok? ==>
        && run.result == rules.acceptTransaction(v.store.transactionMeta, Duplex(Provided(prevoutProvider), NoopStore),
                                                 v.consensus, transaction, height, time, deployments)
        && run.calls == [ResolveDeployments(blockHeaderProvider, height), PreVerifyTransaction,
                         AcceptTransaction(Duplex(Provided(prevoutProvider), NoopStore), height, time)]
  {
    var deployments := rules.resolveDeployments(v.deployments, height, blockHeaderProvider, v.consensus);
    var resolved := [ResolveDeployments(blockHeaderProvider, height), PreVerifyTransaction];
    match rules.preVerifyTransaction(transaction, v.consensus, deployments)
    case Err(e) => Run(Err(e), resolved)
    case Ok(_) =>
      var outputs := Duplex(Provided(prevoutProvider), NoopStore);
      Run(rules.acceptTransaction(v.store.transactionMeta, outputs, v.consensus, transaction, height, time, deployments),
          resolved + [AcceptTransaction(outputs, height, time)])
  }

  /** A log with no acceptance in it keeps the order trivially. */
  lemma NoAcceptanceKeepsOrder(calls: seq<Call>, headers: HeaderProvider)
    requires forall c :: c in calls ==> !c.AcceptBlock?
    ensures DeploymentsPrecedeAcceptance(calls, headers)
  {
  }

  /** One acceptance, after resolving deployments at its height, keeps the order. */
  lemma AcceptanceAfterResolveKeepsOrder(before: seq<Call>, between: seq<Call>, after: seq<Call>,
                                         headers: HeaderProvider, view: StoreView, height: u32)
    requires forall c :: c in before + between + after ==> !c.AcceptBlock?
    ensures DeploymentsPrecedeAcceptance(
      before + [ResolveDeployments(headers, height)] + between + [AcceptBlock(view, height)] + after, headers)
  {
    var calls := before + [ResolveDeployments(headers, height)] + between + [AcceptBlock(view, height)] + after;
    var k := |before| + 1 + |between|;
    forall i | 0 <= i < |calls| && calls[i].AcceptBlock?
      ensures ResolveDeployments(headers, calls[i].height) in calls[..i]
    {
      assert calls[..i][|before|] == ResolveDeployments(headers, height);
    }
  }

  /**
    * Every acceptance `verify_block` runs comes after the deployments for its
    * height were resolved over the main store's header history.
    */
  lemma DeploymentsResolvedBeforeAcceptance(rules: Rules, v: Verifier, level: VerificationLevel, block: IndexedBlock, now: u32)
    requires NoPanic(rules, v, level, block, now)
    ensures DeploymentsPrecedeAcceptance(VerifyBlock(rules, v, level, block, now).calls, v.store.headers)
  {
    var run := VerifyBlock(rules, v, level, block, now);
    var classified := [PreVerifyBlock, CheckBestTip, ClassifyOrigin];
    if level == NoVerification || rules.preVerifyBlock(block, v.consensus.network, now).Err? {
      NoAcceptanceKeepsOrder(run.calls, v.store.headers);
    } else {
      var tail := if run.result.Ok? then [CheckBestTip] else [];
      match v.store.blockOrigin(block.header)
      case Ok(CanonChain(n)) =>
        assert run.calls == classified + [ResolveDeployments(v.store.headers, n)] + [] + [AcceptBlock(MainStore, n)] + tail;
        AcceptanceAfterResolveKeepsOrder(classified, [], tail, v.store.headers, MainStore, n);
      case Ok(KnownBlock) =>
        assert false;
      case Ok(SideChain(o)) =>
        ForkAcceptanceKeepsOrder(rules, v, level, block, now, o);
      case Ok(SideChainBecomingCanonChain(o)) =>
        ForkAcceptanceKeepsOrder(rules, v, level, block, now, o);
      case Err(_) =>
        NoAcceptanceKeepsOrder(run.calls, v.store.headers);
    }
  }

  /** The side-chain case of `DeploymentsResolvedBeforeAcceptance`, for either side-chain origin. */
  lemma ForkAcceptanceKeepsOrder(rules: Rules, v: Verifier, level: VerificationLevel, block: IndexedBlock, now: u32, o: SideChainOrigin)
    requires NoPanic(rules, v, level, block, now)
    requires level != NoVerification && rules.preVerifyBlock(block, v.consensus.network, now).Ok?
    requires v.store.blockOrigin(block.header) in {Ok(SideChain(o)), Ok(SideChainBecomingCanonChain(o))}
    ensures DeploymentsPrecedeAcceptance(VerifyBlock(rules, v, level, block, now).calls, v.store.headers)
  {
    var run := VerifyBlock(rules, v, level, block, now);
    var classified := [PreVerifyBlock, CheckBestTip, ClassifyOrigin];
    var n := o.blockNumber;
    match v.store.fork(o)
    case Err(_) =>
      NoAcceptanceKeepsOrder(run.calls, v.store.headers);
    case Ok(fork) =>
      var tail := if run.result.Ok? then [CheckBestTip] else [];
      assert run.calls == classified + [ResolveDeployments(v.store.headers, n)] + [MaterializeFork(o)] + [AcceptBlock(ForkStore(fork), n)] + tail;
      AcceptanceAfterResolveKeepsOrder(classified, [MaterializeFork(o)], tail, v.store.headers, ForkStore(fork), n);
  }

  /** Verification succeeds exactly when the declarative acceptance condition holds. */
  lemma {:induction false} VerifyBlockOkIffAccepted(rules: Rules, v: Verifier, level: VerificationLevel, block: IndexedBlock, now: u32)
    requires NoPanic(rules, v, level, block, now)
    ensures VerifyBlock(rules, v, level, block, now).result.Ok? <==> Accepted(rules, v, level, block, now)
  {
    if level != NoVerification && rules.preVerifyBlock(block, v.consensus.network, now).Ok? {
      match v.store.blockOrigin(block.header)
      case Err(_) =>
      case Ok(KnownBlock) =>
        assert false;
      case Ok(CanonChain(n)) =>
        assert PlacedIn(v.store, block.header, MainStore, n);
      case Ok(SideChain(o)) =>
        if v.store.fork(o).Ok? {
          assert PlacedIn(v.store, block.header, ForkStore(v.store.fork(o).value), o.blockNumber);
        }
      case Ok(SideChainBecomingCanonChain(o)) =>
        if v.store.fork(o).Ok? {
          assert PlacedIn(v.store, block.header, ForkStore(v.store.fork(o).value), o.blockNumber);
        }
    }
  }

  /** Every error `verify_block` reports was produced by a collaborator and passed on unchanged. */
  lemma {:induction false} VerifyBlockErrorsAreAttributable(rules: Rules, v: Verifier, level: VerificationLevel, block: IndexedBlock, now: u32)
    requires NoPanic(rules, v, level, block, now)
    ensures var r := VerifyBlock(rules, v, level, block, now).result;
      r.Err? ==> Attributable(rules, v, level, block, now, r.error)
  {
    if level != NoVerification && rules.preVerifyBlock(block, v.consensus.network, now).Ok? {
      match v.store.blockOrigin(block.header)
      case Err(_) =>
      case Ok(KnownBlock) =>
        assert false;
      case Ok(CanonChain(n)) =>
        assert PlacedIn(v.store, block.header, MainStore, n);
      case Ok(SideChain(o)) =>
        if v.store.fork(o).Ok? {
          assert PlacedIn(v.store, block.header, ForkStore(v.store.fork(o).value), o.blockNumber);
        }
      case Ok(SideChainBecomingCanonChain(o)) =>
        if v.store.fork(o).Ok? {
          assert PlacedIn(v.store, block.header, ForkStore(v.store.fork(o).value), o.blockNumber);
        }
    }
  }

  /**
    * A canonical extension at height `n` gets exactly the acceptor's verdict on the
    * main store at `n`, at the caller's level, with the deployments of height `n`.
    */
  lemma CanonChainAcceptedOnMainStore(rules: Rules, v: Verifier, level: VerificationLevel, block: IndexedBlock, now: u32, n: u32)
    requires NoPanic(rules, v, level, block, now)
    requires level != NoVerification && rules.preVerifyBlock(block, v.consensus.network, now).Ok?
    requires v.store.blockOrigin(block.header) == Ok(CanonChain(n))
    ensures VerifyBlock(rules, v, level, block, now).result == AcceptorVerdict(rules, v, level, block, MainStore, n)
  {
    OkIsUnit(AcceptorVerdict(rules, v, level, block, MainStore, n));
  }

  /**
    * A side-chain block gets the store's fork failure as a database error, or else
    * the acceptor's verdict on the fork overlay at the descriptor's height, with
    * the deployments of that height resolved over the main store's headers.
    */
  lemma SideChainAcceptedOnFork(rules: Rules, v: Verifier, level: VerificationLevel, block: IndexedBlock, now: u32, o: SideChainOrigin)
    requires NoPanic(rules, v, level, block, now)
    requires level != NoVerification && rules.preVerifyBlock(block, v.consensus.network, now).Ok?
    requires v.store.blockOrigin(block.header) in {Ok(SideChain(o)), Ok(SideChainBecomingCanonChain(o))}
    ensures var r := VerifyBlock(rules, v, level, block, now).result;
      match v.store.fork(o)
      case Err(e) => r == Err(Database(e))
      case Ok(fork) => r == AcceptorVerdict(rules, v, level, block, ForkStore(fork), o.blockNumber)
  {
    if v.store.fork(o).Ok? {
      OkIsUnit(AcceptorVerdict(rules, v, level, block, ForkStore(v.store.fork(o).value), o.blockNumber));
    }
  }

  /** `v` with the store classifying `header` as `origin`, and everything else unchanged. */
  function Reclassified(v: Verifier, header: IndexedBlockHeader, origin: BlockOrigin): Verifier {
    v.(store := v.store.(blockOrigin := h => if h == header then Ok(origin) else v.store.blockOrigin(h)))
  }

  /**
    * The two side-chain origins are handled identically: reclassifying a side-chain
    * block as one that becomes canonical, with the same descriptor, changes neither
    * the result nor the calls made.
    */
  lemma SideChainVariantsAgree(rules: Rules, v: Verifier, level: VerificationLevel, block: IndexedBlock, now: u32, o: SideChainOrigin)
    requires NoPanic(rules, v, level, block, now)
    requires v.store.blockOrigin(block.header) == Ok(SideChain(o))
    ensures var v' := Reclassified(v, block.header, SideChainBecomingCanonChain(o));
      NoPanic(rules, v', level, block, now) &&
      VerifyBlock(rules, v', level, block, now) == VerifyBlock(rules, v, level, block, now)
  {
  }

  /**
    * A block whose parent the store does not know is rejected with the store's
    * unknown-parent error, once it has passed structural pre-verification.
    */
  lemma OrphanBlockRejected(rules: Rules, v: Verifier, level: VerificationLevel, block: IndexedBlock, now: u32)
    requires level != NoVerification && rules.preVerifyBlock(block, v.consensus.network, now).Ok?
    requires BestTipConsistent(v.store) && v.store.blockOrigin(block.header) == Err(UnknownParent)
    ensures NoPanic(rules, v, level, block, now)
    ensures VerifyBlock(rules, v, level, block, now).result == Err(Database(UnknownParent))
  {
  }

  /**
    * Header verification is structural only: it makes the one header-checker call,
    * returns that checker's verdict on the header indexed under the given hash, and
    * neither the store, the registry nor the header-provider argument affects it.
    */
  lemma VerifyBlockHeaderIsStructural(rules: Rules, v: Verifier, v': Verifier, p: HeaderProvider, p': HeaderProvider,
                                      hash: H256, header: BlockHeader, now: u32)
    requires v.consensus.network == v'.consensus.network
    ensures VerifyBlockHeader(rules, v, p, hash, header, now) == VerifyBlockHeader(rules, v', p', hash, header, now)
    ensures VerifyBlockHeader(rules, v, p, hash, header, now)
         == Run(rules.verifyHeader(IndexedBlockHeader(hash, header), v.consensus.network, now), [VerifyHeader])
  {
  }

  /**
    * `Verify::verify`: the result of `verify_block`, with its call log dropped
    * (the logging around it has no effect on the result).
    */
  function Verify(rules: Rules, v: Verifier, level: VerificationLevel, block: IndexedBlock, now: u32): (r: Result<(), Error>)
    requires NoPanic(rules, v, level, block, now)
    ensures r == VerifyBlock(rules, v, level, block, now).result
    ensures level == NoVerification ==> r == Ok(())
    ensures r.Ok? <==> Accepted(rules, v, level, block, now)
    ensures r.Err? ==> Attributable(rules, v, level, block, now, r.error)
  {
    VerifyBlockOkIffAccepted(rules, v, level, block, now);
    VerifyBlockErrorsAreAttributable(rules, v, level, block, now);
    VerifyBlock(rules, v, level, block, now).result
  }
}
