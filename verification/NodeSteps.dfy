/** The steps of the node as functions on its state (chain-abci/src/app). `Panicked` stands for a
    failed `expect`, `unwrap` or index. The requests come in the order
    begin_block, deliver_tx*, end_block, commit; check_tx and restarts may come at any time. */
module NodeSteps {
  import opened Wrappers
  import opened Coins
  import opened Merkle
  import opened Transactions
  import opened Staking
  import opened Validation
  import opened UtxoDb
  import opened TxVerification
  import opened Ledger
  import opened Genesis
  import opened Validators
  import opened BlockFilters
  import opened AppHashes

  /** `ChainNodeState`. The root hash of the account trie stands for the accounts it commits to. */
  datatype ChainState = ChainState(
    height: int, appHash: AppHash, blockTime: Timespec, accountRoot: Accounts, pool: RewardsPool,
    unbondingPeriod: nat, requiredStake: Coin, council: seq<CouncilNode>)

  datatype Phase = Idle | InBlock | BlockEnded

  /** What survives a restart is `db.disk`, `trees`, `appStates`, `saved` and the enclave's store. */
  datatype NodeState = NodeState(
    db: Db, trees: map<AppHash, TxTree>, appStates: map<int, AppHash>, saved: ChainState, store: Store,
    chainHexId: nat,
    root: Accounts, delivered: seq<TxAux>, last: ChainState,
    power: Powers, keys: Keys, changed: Powers, filter: BlockFilter, phase: Phase)
  {
    function Info(minFee: Coin): ChainInfo {
      ChainInfo(minFee, chainHexId, last.blockTime, last.unbondingPeriod)
    }

    function Verdict(tx: TxAux, minFee: Coin): Answer {
      VerifyTx(db.Visible(), root, store, tx, Info(minFee))
    }
  }

  datatype Step = Next(node: NodeState) | Panicked

  function BeginBlock(n: NodeState, time: Timespec): NodeState {
    n.(last := n.last.(blockTime := time), phase := InBlock)
  }

  function CheckTx(n: NodeState, tx: TxAux, minFee: Coin): Step {
    match n.Verdict(tx, minFee)
    case Panic => Panicked
    case Reject(_) => Next(n)
    case Accept(_) => Next(n.(store := StoreAfter(n.store, tx)))
  }

  /** The state once a transaction is accepted with this fee and account. */
  function AfterDelivery(n: NodeState, tx: TxAux, fee: Coin, account: Option<StakedState>): NodeState
    requires InRange(n.db.Visible(), tx.Inputs()) && n.last.pool.remaining + fee <= MAX_COIN
  {
    n.(store := StoreAfter(n.store, tx),
       db := n.db.WriteBuffered(SpendPuts(n.db.Visible(), tx.Inputs())),
       root := PutAccount(n.root, account),
       changed := PowerChange(n.power, n.changed, n.last.requiredStake, account),
       filter := AddAccount(n.filter, account),
       delivered := n.delivered + [tx],
       last := n.last.(pool := n.last.pool.(remaining := n.last.pool.remaining + fee)))
  }

  function DeliverTx(n: NodeState, tx: TxAux, minFee: Coin): Step {
    match n.Verdict(tx, minFee)
    case Panic => Panicked
    case Reject(_) => Next(n)
    case Accept(fa) =>
      if !InRange(n.db.Visible(), tx.Inputs()) then Panicked
      else if !tx.TransferTx? && fa.1.None? then Panicked
      else if n.last.pool.remaining + fa.0 > MAX_COIN then Panicked
      else Next(AfterDelivery(n, tx, fa.0, fa.1))
  }

  function EndBlock(n: NodeState, height: int): Step {
    if !(n.changed.Keys <= n.power.Keys && n.changed.Keys <= n.keys.Keys) then Panicked
    else Next(n.(power := n.power + n.changed, changed := map[], filter := EmptyFilter(),
                 last := n.last.(height := height), phase := BlockEnded))
  }

  function TxIds(txs: seq<TxAux>): (ids: seq<TxId>)
    ensures |ids| == |txs|
  {
    seq(|txs|, i requires 0 <= i < |txs| => txs[i].Id())
  }

  /** The state that a commit of delivered transactions saves. */
  function CommittedState(n: NodeState): ChainState {
    if n.delivered == [] then n.last
    else
      var pool := n.last.pool.(lastHeight := n.last.height);
      n.last.(pool := pool, accountRoot := n.root,
              appHash := ComputeAppHash(BuiltFrom(TxIds(n.delivered)), n.root, pool))
  }

  function Commit(n: NodeState): Step {
    if !CommitInRange(n.db.Visible(), n.delivered) then Panicked
    else
      var state := CommittedState(n);
      Next(n.(db := n.db.Write(CommitPuts(n.db.Visible(), n.delivered)),
              trees := if n.delivered == [] then n.trees
                       else n.trees[state.appHash := BuiltFrom(TxIds(n.delivered))],
              appStates := n.appStates[state.height := state.appHash],
              saved := state, last := state, delivered := [], phase := Idle))
  }

  function KeptStore(store: Store, disk: Meta, kept: set<TxId>): Store {
    map id | id in store && (id in kept || id in disk) :: store[id]
  }

  /** A crash at any moment followed by `restore_from_storage`. Of the enclave's store, what was
      flushed by a commit is still there; of the rest, whatever is in `kept`. */
  function Restart(n: NodeState, kept: set<TxId>): Step {
    if !CouncilPresent(n.saved.accountRoot, n.saved.council) then Panicked
    else
      Next(n.(db := Db(n.db.disk, map[]),
              store := KeptStore(n.store, n.db.disk, kept),
              root := n.saved.accountRoot, delivered := [], last := n.saved,
              power := RestoredPowers(n.saved.accountRoot, n.saved.council, n.saved.requiredStake),
              keys := PubKeys(n.saved.council), changed := map[], filter := EmptyFilter(), phase := Idle))
  }

  /** The state after `init_chain`. Only the public keys of the validators are filled in. */
  function InitChain(c: InitConfig, g: GenesisState, time: Timespec, chainHexId: nat): NodeState {
    var root := AccountMap(g.accounts);
    var pool := RewardsPool(g.pool, 0);
    var state := ChainState(0, ComputeAppHash(BuiltFrom([]), root, pool), time, root, pool,
                            c.unbondingPeriod, c.requiredStake, g.council);
    NodeState(Db(map[], map[]), map[], map[], state, map[], chainHexId, root, [], state,
              map[], PubKeys(g.council), map[], EmptyFilter(), Idle)
  }

  // ---------- Runs ----------

  /** A request or a restart. `EndBlock` lists the validator updates of the response, whose order is
      that of the map iterated over. */
  datatype Event =
    | BeginBlockEvent(time: Timespec)
    | CheckTxEvent(tx: TxAux, minFee: Coin)
    | DeliverTxEvent(tx: TxAux, minFee: Coin)
    | EndBlockEvent(height: int, updates: seq<ValidatorUpdate>)
    | CommitEvent
    | RestartEvent(kept: set<TxId>)

  ghost predicate Admissible(n: NodeState, ev: Event) {
    match ev
    case BeginBlockEvent(_) => n.phase.Idle?
    case CheckTxEvent(tx, _) => tx.WellFormed()
    case DeliverTxEvent(tx, _) => n.phase.InBlock? && tx.WellFormed()
    case EndBlockEvent(height, updates) =>
      n.phase.InBlock? && n.saved.height < height && Emits(n.power, n.keys, n.changed, updates)
    case CommitEvent => n.phase.BlockEnded?
    case RestartEvent(_) => true
  }

  function NodeStep(n: NodeState, ev: Event): Step {
    match ev
    case BeginBlockEvent(time) => Next(BeginBlock(n, time))
    case CheckTxEvent(tx, minFee) => CheckTx(n, tx, minFee)
    case DeliverTxEvent(tx, minFee) => DeliverTx(n, tx, minFee)
    case EndBlockEvent(height, _) => EndBlock(n, height)
    case CommitEvent => Commit(n)
    case RestartEvent(kept) => Restart(n, kept)
  }

  /** What has happened so far: the accepted transactions, the same by block, the announced blocks,
      the voting powers Tendermint has been told since the power map was last built, and the filter
      of the block that has ended last. */
  datatype Past = Past(
    genesis: Accounts, genesisHash: AppHash, committed: seq<Entry>, pending: seq<Entry>,
    batches: seq<seq<Entry>>, commits: seq<CommitRecord>, tendermint: map<PubKey, nat>, filter: BlockFilter)

  /** What a commit announces. */
  function Announced(n: NodeState, filter: BlockFilter): CommitRecord {
    CommitRecord(n.last.height, CommittedState(n).appHash, TxIds(n.delivered), filter)
  }

  ghost function PastStep(n: NodeState, past: Past, ev: Event): Past {
    match ev
    case DeliverTxEvent(tx, minFee) =>
      (match n.Verdict(tx, minFee)
       case Accept(fa) =>
         past.(pending := past.pending + [Entry(tx, n.Info(minFee), n.saved.height, fa.0, fa.1)])
       case _ => past)
    case EndBlockEvent(_, updates) =>
      past.(tendermint := Apply(past.tendermint, updates), filter := AddViews(n.filter, n.delivered))
    case CommitEvent =>
      past.(committed := past.committed + past.pending, pending := [], batches := past.batches + [past.pending],
            commits := past.commits + [Announced(n, past.filter)])
    case RestartEvent(_) =>
      var view :=
        if CouncilPresent(n.saved.accountRoot, n.saved.council) && CouncilDistinct(n.saved.council) then
          RestoredWellKept(n.saved.accountRoot, n.saved.council, n.saved.requiredStake);
          ViewOf(RestoredPowers(n.saved.accountRoot, n.saved.council, n.saved.requiredStake), PubKeys(n.saved.council))
        else map[];
      past.(pending := [], tendermint := view)
    case _ => past
  }

  datatype State = State(node: NodeState, past: Past)

  ghost function RunStep(s: State, ev: Event): Option<State> {
    match NodeStep(s.node, ev)
    case Panicked => None
    case Next(n) => Some(State(n, PastStep(s.node, s.past, ev)))
  }

  /** The state after the events, `None` when one of them makes the node panic. */
  ghost function Run(s: State, evs: seq<Event>): Option<State>
    decreases |evs|
  {
    if evs == [] then Some(s)
    else match Run(s, evs[..|evs| - 1])
      case None => None
      case Some(t) => RunStep(t, evs[|evs| - 1])
  }

  /** Every event comes when the protocol allows it, as long as the node has not panicked. */
  ghost predicate AdmissibleRun(s: State, evs: seq<Event>) {
    forall k | 0 <= k < |evs| :: Run(s, evs[..k]).Some? ==> Admissible(Run(s, evs[..k]).value.node, evs[k])
  }

  ghost function Started(c: InitConfig, g: GenesisState, time: Timespec, chainHexId: nat): State {
    var n := InitChain(c, g, time, chainHexId);
    State(n, Past(AccountMap(g.accounts), n.last.appHash, [], [], [], [], map[], EmptyFilter()))
  }

  ghost function Initial(c: InitConfig, time: Timespec, chainHexId: nat): State
    requires Validated(c, time).Ok?
  {
    Started(c, Validated(c, time).value, time, chainHexId)
  }
}
