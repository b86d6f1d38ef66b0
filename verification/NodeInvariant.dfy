/** What every step of the node keeps. */
module NodeInvariant {
  import opened Wrappers
  import opened Coins
  import opened MapSums
  import opened Merkle
  import opened Transactions
  import opened Staking
  import opened Validation
  import opened UtxoDb
  import opened Settlement
  import opened TxVerification
  import opened Ledger
  import opened UtxoHistory
  import opened StakingHistory
  import opened Genesis
  import opened Validators
  import opened BlockFilters
  import opened AppHashes
  import opened NodeSteps

  /** The ledger that requests see. */
  ghost function Current(s: State): Ledger {
    Ledger(s.node.db.Visible(), s.node.root, s.node.last.pool.remaining, s.node.saved.height,
           s.past.committed, s.past.pending)
  }

  /** The ledger that a restart would bring back. */
  ghost function Stored(s: State): Ledger {
    Ledger(s.node.db.disk, s.node.saved.accountRoot, s.node.saved.pool.remaining, s.node.saved.height,
           s.past.committed, [])
  }

  ghost predicate LedgerOk(g: Accounts, l: Ledger) {
    && Sound(l) && UtxoInvariant(l)
    && LegalHistory(g, l.History()) && l.accounts == Replay(g, l.History())
  }

  function InputIds(txs: seq<TxAux>): set<TxId> {
    set tx, p | tx in txs && p in tx.Inputs() :: p.id
  }

  /** How the parts of the node agree between commits. */
  ghost predicate Linked(s: State) {
    var n := s.node;
    && TxsOf(s.past.pending) == n.delivered
    && n.db.buffered.Keys <= InputIds(n.delivered)
    && (n.delivered == [] ==> n.last.pool == n.saved.pool)
    && (n.phase.Idle? ==> n.delivered == [])
    && (n.phase.BlockEnded? ==> n.saved.height < n.last.height)
    && n.last.appHash == n.saved.appHash && n.last.accountRoot == n.saved.accountRoot
    && n.last.council == n.saved.council && n.last.requiredStake == n.saved.requiredStake
  }

  /** The enclave still knows every transaction whose outputs exist or are about to. */
  predicate StoreOk(n: NodeState) {
    StoreSound(n.store) && n.db.Visible().Keys <= n.store.Keys && CreatedIds(n.delivered) <= n.store.Keys
  }

  ghost predicate ValidatorsOk(s: State) {
    var n := s.node;
    && WellKept(n.power, n.keys, n.changed, n.saved.requiredStake)
    && Agrees(s.past.tendermint, n.power, n.keys)
    && CouncilDistinct(n.saved.council) && CouncilPresent(s.past.genesis, n.saved.council)
  }

  // ---------- Blocks ----------

  function Flat(batches: seq<seq<Entry>>): seq<Entry> {
    if batches == [] then [] else Flat(batches[..|batches| - 1]) + batches[|batches| - 1]
  }

  function StakedIn(es: seq<Entry>): BlockFilter {
    if es == [] then EmptyFilter() else AddAccount(StakedIn(es[..|es| - 1]), es[|es| - 1].account)
  }

  /** The filter that a block with these transactions announces. */
  function FilterFor(es: seq<Entry>): BlockFilter {
    AddViews(StakedIn(es), TxsOf(es))
  }

  /** The transactions of one block, against what the block announces. */
  predicate BatchOf(before: seq<CommitRecord>, c: CommitRecord, es: seq<Entry>) {
    && c.txids == TxIds(TxsOf(es)) && c.filter == FilterFor(es)
    && forall e | e in es :: e.base == LatestHeight(before)
  }

  predicate Batched(commits: seq<CommitRecord>, batches: seq<seq<Entry>>) {
    && |commits| == |batches|
    && forall k | 0 <= k < |commits| :: BatchOf(commits[..k], commits[k], batches[k])
  }

  ghost predicate BlocksOk(s: State) {
    s.past.committed == Flat(s.past.batches) && Batched(s.past.commits, s.past.batches)
  }

  /** The filter collects what the block in progress has delivered. */
  ghost predicate FilterOk(s: State) {
    match s.node.phase
    case Idle => s.node.filter == EmptyFilter()
    case InBlock => s.node.filter == StakedIn(s.past.pending)
    case BlockEnded => s.node.filter == EmptyFilter() && s.past.filter == FilterFor(s.past.pending)
  }

  ghost predicate HashesOk(s: State) {
    && WellChained(s.past.genesisHash, s.past.commits)
    && s.node.saved.appHash == LatestHash(s.past.genesisHash, s.past.commits)
    && s.node.saved.height == LatestHeight(s.past.commits)
    && ProofsStored(s.node.appStates, s.node.trees, s.past.commits)
    && BlocksOk(s)
  }

  ghost predicate Invariant(s: State) {
    && LedgerOk(s.past.genesis, Current(s)) && LedgerOk(s.past.genesis, Stored(s))
    && Linked(s) && FilterOk(s) && StoreOk(s.node) && ValidatorsOk(s) && HashesOk(s)
  }

  // ---------- Verification never panics ----------

  lemma AllowedDepositFits(l: Ledger, inputs: seq<TxoPointer>, a: StakedStateAddress)
    requires Sound(l) && NoDuplicates(inputs) && Spendable(l.meta, inputs) && a in l.accounts
    ensures l.accounts[a].bonded + InputTotal(inputs) <= MAX_COIN
  {
    hide UnspentValue, CreatedTotal, StakeTotal, InputTotal;
    SpendingValue(l.meta, inputs);
    StakeAtMostTotal(l.accounts, a);
  }

  lemma SpendableInputs(meta: Meta, mainId: TxId, inputs: seq<TxoPointer>, ws: seq<TxInWitness>, time: Timespec)
    requires InputsAllowed(mainId, inputs, ws, time) && forall p | p in inputs :: Unspent(meta, p)
    ensures Spendable(meta, inputs)
    ensures forall p | p in inputs :: p.index < |Outputs(p.id)| && Unlocked(Outputs(p.id)[p.index], time)
  {
    forall p | p in inputs ensures p.index < |Outputs(p.id)| && Unlocked(Outputs(p.id)[p.index], time) {
      var k :| 0 <= k < |inputs| && inputs[k] == p;
      assert InputAllowed(mainId, inputs[k], ws[k], time);
    }
  }

  lemma AllowedWithinCap(l: Ledger, store: Store, tx: TxAux, info: ChainInfo)
    requires Sound(l) && Allowed(l.meta, l.accounts, store, tx, info)
    ensures WithinCap(l.accounts, tx)
  {
    hide Sound, InputsAllowed;
    match tx
    case DepositStakeTx(d, PlainDeposit(ws)) =>
      SpendableInputs(l.meta, DepositId(d), d.inputs, ws, info.previousBlockTime);
      if d.toStakedAccount in l.accounts { AllowedDepositFits(l, d.inputs, d.toStakedAccount); }
    case UnbondStakeTx(_, _) =>
      StakeFits(l, Target(tx).value);
    case _ =>
  }

  lemma StakeFits(l: Ledger, a: StakedStateAddress)
    requires Sound(l)
    ensures StakeAt(l.accounts, a) <= MAX_COIN
  {
    hide UnspentValue, CreatedTotal, StakeTotal;
    StakeAtMostTotal(l.accounts, a);
  }

  lemma VerdictNeverPanics(s: State, tx: TxAux, minFee: Coin)
    requires Invariant(s) && tx.WellFormed()
    ensures !s.node.Verdict(tx, minFee).Panic?
    ensures s.node.Verdict(tx, minFee).Accept? ==>
              var fa := s.node.Verdict(tx, minFee).value;
              && Allowed(Current(s).meta, Current(s).accounts, s.node.store, tx, s.node.Info(minFee))
              && Effect(Current(s).accounts, tx, s.node.Info(minFee), fa.0, fa.1)
  {
    var l, info := Current(s), s.node.Info(minFee);
    VerificationDecides(l.meta, l.accounts, s.node.store, tx, info);
    hide Sound, VerifyTx, Allowed, Effect, WithinCap;
    if Allowed(l.meta, l.accounts, s.node.store, tx, info) { AllowedWithinCap(l, s.node.store, tx, info); }
  }

  // ---------- What an accepted transaction satisfies ----------

  lemma AcceptedHasAccount(meta: Meta, accounts: Accounts, store: Store, tx: TxAux, info: ChainInfo)
    requires VerifyTx(meta, accounts, store, tx, info).Accept? && !tx.TransferTx?
    ensures VerifyTx(meta, accounts, store, tx, info).value.1.Some?
  {
  }

  lemma AllowedInputs(l: Ledger, store: Store, tx: TxAux, info: ChainInfo)
    requires Allowed(l.meta, l.accounts, store, tx, info) && tx.WellFormed()
    ensures NoDuplicates(tx.Inputs()) && Spendable(l.meta, tx.Inputs()) && CreationFits(tx) && IdFits(tx)
    ensures forall p | p in tx.Inputs() ::
              p.index < |Outputs(p.id)| && Unlocked(Outputs(p.id)[p.index], info.previousBlockTime)
  {
    hide InputsAllowed;
    match tx
    case TransferTx(txid, inputs, _, PlainTransfer(t, ws)) =>
      OutputsWorthSomething(t.outputs);
      SpendableInputs(l.meta, txid, inputs, ws, info.previousBlockTime);
    case DepositStakeTx(d, PlainDeposit(ws)) =>
      SpendableInputs(l.meta, DepositId(d), d.inputs, ws, info.previousBlockTime);
    case WithdrawUnbondedStakeTx(_, _, _, PlainWithdraw(t)) =>
      OutputsWorthSomething(t.outputs);
    case _ =>
  }

  lemma OutputsWorthSomething(outs: seq<TxOut>)
    requires outs != [] && forall o | o in outs :: o.value > 0
    ensures Total(Values(outs)) > 0
  {
    assert outs[0] in outs;
  }

  lemma AllowedEntry(l: Ledger, store: Store, e: Entry)
    requires Allowed(l.meta, l.accounts, store, e.tx, e.info) && e.tx.WellFormed()
    requires Effect(l.accounts, e.tx, e.info, e.fee, e.account) && AddressesMatch(l.accounts)
    requires (!e.tx.TransferTx? ==> e.account.Some?) && e.base == l.height
    ensures Acceptable(l, e) && EntryLegal(l.accounts, e)
  {
    AllowedInputs(l, store, e.tx, e.info);
    assert StakeRules(l.accounts, e) by {
      hide InputsAllowed, Total;
    }
  }

  lemma StoreAfterOk(meta: Meta, accounts: Accounts, store: Store, tx: TxAux, info: ChainInfo)
    requires StoreSound(store) && Allowed(meta, accounts, store, tx, info)
    ensures StoreSound(StoreAfter(store, tx))
    ensures tx.CreatesOutputs() ==> tx.Id() in StoreAfter(store, tx)
  {
    hide InputsAllowed, Total;
  }

  // ---------- check_tx and begin_block ----------

  lemma BeginBlockKeeps(s: State, time: Timespec)
    requires Invariant(s) && Admissible(s.node, BeginBlockEvent(time))
    ensures Invariant(State(BeginBlock(s.node, time), s.past))
  {
    hide LedgerOk, ValidatorsOk, HashesOk, StoreOk;
    var t := State(BeginBlock(s.node, time), s.past);
    assert Current(t) == Current(s) && Stored(t) == Stored(s);
    assert ValidatorsOk(t) && HashesOk(t) && StoreOk(t.node) by { SameParts(s, t); }
    assert s.past.pending == [];
  }

  /** Parts of the invariant that look at few fields. */
  lemma SameParts(s: State, t: State)
    requires s.past == t.past
    requires s.node.saved == t.node.saved && s.node.appStates == t.node.appStates && s.node.trees == t.node.trees
    requires s.node.power == t.node.power && s.node.keys == t.node.keys && s.node.changed == t.node.changed
    ensures HashesOk(s) ==> HashesOk(t)
    ensures ValidatorsOk(s) ==> ValidatorsOk(t)
    ensures s.node.store == t.node.store && s.node.db == t.node.db && s.node.delivered == t.node.delivered ==>
              StoreOk(s.node) ==> StoreOk(t.node)
  {
  }

  lemma SameFilter(s: State, t: State)
    requires s.past == t.past && s.node.filter == t.node.filter && s.node.phase == t.node.phase
    ensures FilterOk(s) ==> FilterOk(t)
  {
  }

  ghost function WithStore(s: State, store: Store): State {
    State(s.node.(store := store), s.past)
  }

  lemma NewStoreKeeps(s: State, store: Store)
    requires Invariant(s) && StoreSound(store) && s.node.store.Keys <= store.Keys
    ensures Invariant(WithStore(s, store))
  {
    hide LedgerOk, FilterOk, WellKept, Agrees, WellChained, ProofsStored, Batched, Flat, InputIds, StoreSound;
    SameFilter(s, WithStore(s, store));
    var t := WithStore(s, store);
    assert Current(t) == Current(s) && Stored(t) == Stored(s);
  }

  lemma CheckTxKeeps(s: State, tx: TxAux, minFee: Coin)
    requires Invariant(s) && tx.WellFormed()
    ensures CheckTx(s.node, tx, minFee).Next?
    ensures Invariant(State(CheckTx(s.node, tx, minFee).node, s.past))
  {
    hide LedgerOk, Linked, FilterOk, ValidatorsOk, HashesOk, StoreOk, Allowed, Effect, VerifyTx, StoreAfter;
    VerdictNeverPanics(s, tx, minFee);
    if s.node.Verdict(tx, minFee).Accept? {
      StoreIsSound(s);
      StoreAfterOk(Current(s).meta, Current(s).accounts, s.node.store, tx, s.node.Info(minFee));
      NewStoreKeeps(s, StoreAfter(s.node.store, tx));
    }
  }

  // ---------- deliver_tx ----------

  ghost function EntryOf(n: NodeState, tx: TxAux, minFee: Coin, fee: Coin, account: Option<StakedState>): Entry {
    Entry(tx, n.Info(minFee), n.saved.height, fee, account)
  }

  lemma AcceptKeepsLedgerOk(g: Accounts, l: Ledger, e: Entry)
    requires LedgerOk(g, l) && Acceptable(l, e) && EntryLegal(l.accounts, e)
    ensures LedgerOk(g, Accepted(l, e))
  {
    hide Sound, UtxoInvariant, LegalHistory, Acceptable, EntryLegal, Replay, MetaMatches;
    AcceptKeepsSound(l, e);
    assert MetaMatches(l) by { SoundMatches(l); }
    AcceptKeepsUtxo(l, e);
    LegalPush(g, l.History(), e);
    ReplayPush(g, l.History(), e);
    assert Accepted(l, e).History() == l.History() + [e];
  }

  lemma SoundMatches(l: Ledger)
    requires Sound(l)
    ensures MetaMatches(l)
  {
  }

  lemma ReplayPush(g: Accounts, es: seq<Entry>, e: Entry)
    ensures Replay(g, es + [e]) == PutAccount(Replay(g, es), e.account)
  {
    assert (es + [e])[..|es|] == es;
  }

  lemma PoolHasRoom(l: Ledger, e: Entry)
    requires Sound(Accepted(l, e))
    ensures l.pool + e.fee <= MAX_COIN
  {
    hide UnspentValue, CreatedTotal, StakeTotal;
  }

  /** Every accepted transaction is taken in without a failed lookup or addition, and the ledger
      moves by one accepted entry. */
  lemma DeliveryAccepts(s: State, tx: TxAux, minFee: Coin)
    requires Invariant(s) && tx.WellFormed() && s.node.Verdict(tx, minFee).Accept?
    ensures var fa := s.node.Verdict(tx, minFee).value;
            var e := EntryOf(s.node, tx, minFee, fa.0, fa.1);
            && Acceptable(Current(s), e) && EntryLegal(Current(s).accounts, e)
            && InRange(s.node.db.Visible(), tx.Inputs()) && s.node.last.pool.remaining + fa.0 <= MAX_COIN
            && (!tx.TransferTx? ==> fa.1.Some?)
            && LedgerOk(s.past.genesis, Accepted(Current(s), e))
  {
    VerdictNeverPanics(s, tx, minFee);
    var fa := s.node.Verdict(tx, minFee).value;
    var l := Current(s);
    if !tx.TransferTx? { AcceptedHasAccount(l.meta, l.accounts, s.node.store, tx, s.node.Info(minFee)); }
    var e := EntryOf(s.node, tx, minFee, fa.0, fa.1);
    hide VerifyTx, Allowed, Effect, UtxoInvariant, LegalHistory, EntryLegal, Linked, ValidatorsOk, HashesOk, Supply;
    AllowedEntry(l, s.node.store, e);
    AcceptKeepsLedgerOk(s.past.genesis, l, e);
    PoolHasRoom(l, e);
  }

  ghost function StateAfterDelivery(s: State, tx: TxAux, e: Entry): State
    requires InRange(s.node.db.Visible(), tx.Inputs()) && s.node.last.pool.remaining + e.fee <= MAX_COIN
  {
    State(AfterDelivery(s.node, tx, e.fee, e.account), s.past.(pending := s.past.pending + [e]))
  }

  lemma DeliveryIsAccepted(s: State, e: Entry)
    requires InRange(s.node.db.Visible(), e.tx.Inputs()) && s.node.last.pool.remaining + e.fee <= MAX_COIN
    ensures Current(StateAfterDelivery(s, e.tx, e)) == Accepted(Current(s), e)
    ensures Stored(StateAfterDelivery(s, e.tx, e)) == Stored(s)
  {
    SpendPutsApplied(s.node.db.Visible(), e.tx.Inputs());
  }

  lemma InputIdsPush(txs: seq<TxAux>, tx: TxAux)
    ensures InputIds(txs) + IdsOf(tx.Inputs()) <= InputIds(txs + [tx])
  {
    forall id | id in InputIds(txs) ensures id in InputIds(txs + [tx]) {
      var t, p :| t in txs && p in t.Inputs() && p.id == id;
      assert t in txs + [tx];
    }
    assert tx in txs + [tx];
  }

  lemma DeliveryKeepsLinked(s: State, e: Entry)
    requires Linked(s) && s.node.phase.InBlock?
    requires InRange(s.node.db.Visible(), e.tx.Inputs()) && s.node.last.pool.remaining + e.fee <= MAX_COIN
    ensures Linked(StateAfterDelivery(s, e.tx, e))
  {
    var t := StateAfterDelivery(s, e.tx, e);
    TxsOfPush(s.past.pending, e);
    InputIdsPush(s.node.delivered, e.tx);
    assert SpendPuts(s.node.db.Visible(), e.tx.Inputs()).Keys <= IdsOf(e.tx.Inputs());
    hide InputIds, SpendPuts;
    assert t.node.delivered != [];
  }

  lemma DeliveryKeepsFilter(s: State, e: Entry)
    requires FilterOk(s) && s.node.phase.InBlock?
    requires InRange(s.node.db.Visible(), e.tx.Inputs()) && s.node.last.pool.remaining + e.fee <= MAX_COIN
    ensures FilterOk(StateAfterDelivery(s, e.tx, e))
  {
    var all := s.past.pending + [e];
    assert all[..|all| - 1] == s.past.pending;
  }

  lemma DeliveryKeepsStore(s: State, tx: TxAux, e: Entry)
    requires StoreOk(s.node)
    requires InRange(s.node.db.Visible(), tx.Inputs()) && s.node.last.pool.remaining + e.fee <= MAX_COIN
    requires StoreSound(StoreAfter(s.node.store, tx))
    requires tx.CreatesOutputs() ==> tx.Id() in StoreAfter(s.node.store, tx)
    ensures StoreOk(StateAfterDelivery(s, tx, e).node)
  {
    CreatedIdsPush(s.node.delivered, tx);
  }

  lemma DeliverTxStep(s: State, tx: TxAux, minFee: Coin)
    requires !s.node.Verdict(tx, minFee).Panic?
    requires s.node.Verdict(tx, minFee).Accept? ==>
               var fa := s.node.Verdict(tx, minFee).value;
               && InRange(s.node.db.Visible(), tx.Inputs()) && s.node.last.pool.remaining + fa.0 <= MAX_COIN
               && (!tx.TransferTx? ==> fa.1.Some?)
    ensures RunStep(s, DeliverTxEvent(tx, minFee)) == Some(
              if s.node.Verdict(tx, minFee).Accept? then
                var fa := s.node.Verdict(tx, minFee).value;
                StateAfterDelivery(s, tx, EntryOf(s.node, tx, minFee, fa.0, fa.1))
              else s)
  {
    hide VerifyTx, AfterDelivery;
  }

  lemma DeliverTxKeeps(s: State, tx: TxAux, minFee: Coin)
    requires Invariant(s) && Admissible(s.node, DeliverTxEvent(tx, minFee))
    ensures var ev := DeliverTxEvent(tx, minFee);
            RunStep(s, ev).Some? && Invariant(RunStep(s, ev).value)
  {
    hide VerifyTx, RunStep, LedgerOk, Linked, FilterOk, StoreOk, ValidatorsOk, HashesOk;
    hide Allowed, Effect, Acceptable, EntryLegal, Accepted;
    VerdictNeverPanics(s, tx, minFee);
    if s.node.Verdict(tx, minFee).Accept? {
      DeliveryAccepts(s, tx, minFee);
      assert StoreSound(s.node.store) by { StoreIsSound(s); }
      StoreAfterOk(Current(s).meta, Current(s).accounts, s.node.store, tx, s.node.Info(minFee));
      var fa := s.node.Verdict(tx, minFee).value;
      AcceptedKeeps(s, tx, minFee, EntryOf(s.node, tx, minFee, fa.0, fa.1));
    }
    DeliverTxStep(s, tx, minFee);
  }

  lemma StoreIsSound(s: State)
    requires Invariant(s)
    ensures StoreSound(s.node.store)
  {
  }

  lemma AcceptedKeeps(s: State, tx: TxAux, minFee: Coin, e: Entry)
    requires Invariant(s) && s.node.phase.InBlock? && e.tx == tx
    requires InRange(s.node.db.Visible(), tx.Inputs()) && s.node.last.pool.remaining + e.fee <= MAX_COIN
    requires StoreSound(StoreAfter(s.node.store, tx))
    requires tx.CreatesOutputs() ==> tx.Id() in StoreAfter(s.node.store, tx)
    requires LedgerOk(s.past.genesis, Accepted(Current(s), e))
    ensures Invariant(StateAfterDelivery(s, tx, e))
  {
    hide LedgerOk, Accepted;
    DeliveryIsAccepted(s, e);
    DeliveryKeepsLinked(s, e);
    DeliveryKeepsFilter(s, e);
    DeliveryKeepsStore(s, tx, e);
    PowerChangeWellKept(s.node.power, s.node.keys, s.node.changed, s.node.saved.requiredStake, e.account);
    hide Linked, FilterOk, StoreOk, WellKept, Agrees, WellChained, ProofsStored, BlocksOk;
  }

  // ---------- end_block ----------

  ghost function StateAfterEndBlock(s: State, height: int, updates: seq<ValidatorUpdate>): State {
    var n := s.node;
    State(n.(power := n.power + n.changed, changed := map[], filter := EmptyFilter(),
             last := n.last.(height := height), phase := BlockEnded),
          s.past.(tendermint := Apply(s.past.tendermint, updates), filter := AddViews(n.filter, n.delivered)))
  }

  lemma EndBlockStep(s: State, height: int, updates: seq<ValidatorUpdate>)
    requires WellKept(s.node.power, s.node.keys, s.node.changed, s.node.saved.requiredStake)
    ensures RunStep(s, EndBlockEvent(height, updates)) == Some(StateAfterEndBlock(s, height, updates))
  {
  }

  lemma EndBlockKeepsValidators(s: State, height: int, updates: seq<ValidatorUpdate>)
    requires ValidatorsOk(s) && Emits(s.node.power, s.node.keys, s.node.changed, updates)
    ensures ValidatorsOk(StateAfterEndBlock(s, height, updates))
    ensures forall u | u in updates :: u.power == 0 || u.power >= VotePower(s.node.saved.requiredStake)
  {
    var n := s.node;
    ReplayAgrees(s.past.tendermint, n.power, n.keys, n.changed, n.saved.requiredStake, updates);
    hide Agrees, Emits, Apply;
  }

  lemma EndBlockKeepsRest(s: State, height: int, updates: seq<ValidatorUpdate>)
    requires Linked(s) && FilterOk(s) && HashesOk(s) && StoreOk(s.node)
    requires s.node.phase.InBlock? && s.node.saved.height < height
    ensures var t := StateAfterEndBlock(s, height, updates);
            && Linked(t) && FilterOk(t) && HashesOk(t) && StoreOk(t.node) && t.past.genesis == s.past.genesis
            && Current(t) == Current(s) && Stored(t) == Stored(s)
  {
    hide WellChained, ProofsStored, Flat, Batched, InputIds, TxsOf, Apply, StakedIn, AddViews;
  }

  lemma EndBlockKeeps(s: State, height: int, updates: seq<ValidatorUpdate>)
    requires Invariant(s) && Admissible(s.node, EndBlockEvent(height, updates))
    ensures var ev := EndBlockEvent(height, updates);
            RunStep(s, ev).Some? && Invariant(RunStep(s, ev).value)
    ensures forall u | u in updates :: u.power == 0 || u.power >= VotePower(s.node.saved.requiredStake)
  {
    hide LedgerOk, Linked, FilterOk, HashesOk, StoreOk, RunStep, StateAfterEndBlock;
    hide Emits, WellKept, Agrees, CouncilDistinct, CouncilPresent;
    EndBlockKeepsValidators(s, height, updates);
    EndBlockStep(s, height, updates);
    EndBlockKeepsRest(s, height, updates);
  }

  // ---------- commit ----------

  ghost function StateAfterCommit(s: State): State
    requires CommitInRange(s.node.db.Visible(), s.node.delivered)
  {
    State(Commit(s.node).node, PastStep(s.node, s.past, CommitEvent))
  }

  lemma CloseKeepsLedgerOk(g: Accounts, l: Ledger, height: int)
    requires LedgerOk(g, l) && l.height < height
    ensures CommitInRange(l.meta, TxsOf(l.pending)) && LedgerOk(g, Closed(l, height))
  {
    CloseKeepsSound(l, height);
    CloseKeepsUtxo(l, height);
    hide Sound, UtxoInvariant, LegalHistory, Settled;
    assert Closed(l, height).History() == l.History();
  }

  lemma {:induction false} PutsCoverInputs(meta: Meta, txs: seq<TxAux>)
    requires CommitInRange(meta, txs)
    ensures InputIds(txs) <= CommitPuts(meta, txs).Keys
    decreases |txs|
  {
    if txs != [] {
      var init, tx := txs[..|txs| - 1], txs[|txs| - 1];
      assert txs == init + [tx];
      PutsCoverInputs(meta, init);
      forall id | id in InputIds(txs) ensures id in InputIds(init) || id in IdsOf(tx.Inputs()) {
        var t, p :| t in txs && p in t.Inputs() && p.id == id;
        assert t in init || t == tx;
      }
      assert IdsOf(tx.Inputs()) <= PutsOf(meta, tx).Keys;
    }
  }

  lemma WriteCovers(db: Db, puts: Meta)
    requires db.buffered.Keys <= puts.Keys
    ensures db.Write(puts).buffered == map[]
    ensures db.Write(puts).disk == db.Visible() + puts
  {
    assert db.Write(puts).buffered.Keys == {};
  }

  /** The puts of the second spending at commit are what makes the spent bits of the block persist:
      afterwards nothing is only buffered. */
  lemma CommitPersists(s: State)
    requires Linked(s) && CommitInRange(s.node.db.Visible(), s.node.delivered)
    ensures var db := StateAfterCommit(s).node.db;
            && db.buffered == map[] && db.disk == db.Visible()
            && db.Visible() == Settled(s.node.db.Visible(), s.node.delivered)
  {
    PutsCoverInputs(s.node.db.Visible(), s.node.delivered);
    WriteCovers(s.node.db, CommitPuts(s.node.db.Visible(), s.node.delivered));
    hide CommitPuts, InputIds, TxsOf, TxIds, BuiltFrom;
  }

  lemma EmptyBlockKeepsRoot(s: State)
    requires Linked(s) && LedgerOk(s.past.genesis, Current(s)) && LedgerOk(s.past.genesis, Stored(s))
    ensures s.node.delivered == [] ==> s.node.root == s.node.saved.accountRoot
  {
    if s.node.delivered == [] {
      assert s.past.pending == [];
      assert Current(s).History() == Stored(s).History();
    }
    hide Sound, UtxoInvariant, LegalHistory, Replay;
  }

  lemma CommitCloses(s: State)
    requires Linked(s) && CommitInRange(s.node.db.Visible(), s.node.delivered)
    requires s.node.delivered == [] ==> s.node.root == s.node.saved.accountRoot
    ensures Current(StateAfterCommit(s)) == Closed(Current(s), s.node.last.height)
    ensures Stored(StateAfterCommit(s)) == Closed(Current(s), s.node.last.height)
  {
    CommitPersists(s);
    hide CommitPuts, InputIds, TxsOf, TxIds, BuiltFrom, Settled;
  }

  lemma CommitKeepsStore(s: State)
    requires StoreOk(s.node) && CommitInRange(s.node.db.Visible(), s.node.delivered)
    ensures StoreOk(StateAfterCommit(s).node)
  {
    SettledKeys(s.node.db.Visible(), s.node.delivered);
    hide CommitPuts;
  }

  lemma CommitKeepsHashes(s: State)
    requires HashesOk(s) && Linked(s) && FilterOk(s) && BasesOrdered(Current(s)) && s.node.phase.BlockEnded?
    requires CommitInRange(s.node.db.Visible(), s.node.delivered)
    ensures HashesOk(StateAfterCommit(s))
  {
    hide WellChained, ProofsStored, Batched, Flat, FilterFor, InputIds, StateAfterCommit, CommittedState, Follows;
    hide BasesOrdered, BatchOf;
    var n := s.node;
    var c := Announced(n, s.past.filter);
    CommitShape(s);
    AnnouncedFollows(s);
    WellChainedPush(s.past.genesisHash, s.past.commits, c);
    ProofsKept(s.past.genesisHash, n.appStates, n.trees, s.past.commits, c);
    AnnouncedPending(s);
    BatchedPush(s.past.commits, s.past.batches, c, s.past.pending);
  }

  lemma CommitShape(s: State)
    requires CommitInRange(s.node.db.Visible(), s.node.delivered)
    ensures var t, c := StateAfterCommit(s), Announced(s.node, s.past.filter);
            && t.past.commits == s.past.commits + [c] && t.past.batches == s.past.batches + [s.past.pending]
            && t.past.committed == s.past.committed + s.past.pending && t.past.genesisHash == s.past.genesisHash
            && t.node.saved.appHash == c.appHash && t.node.saved.height == c.height
            && t.node.appStates == s.node.appStates[c.height := c.appHash]
            && t.node.trees == if c.txids == [] then s.node.trees else s.node.trees[c.appHash := BuiltFrom(c.txids)]
  {
    hide CommitPuts, BuiltFrom;
  }

  lemma AnnouncedFollows(s: State)
    requires HashesOk(s) && Linked(s) && s.node.phase.BlockEnded?
    ensures Follows(s.past.genesisHash, s.past.commits, Announced(s.node, s.past.filter))
  {
    hide WellChained, ProofsStored, BlocksOk, BuiltFrom, InputIds;
  }

  lemma AnnouncedPending(s: State)
    requires HashesOk(s) && Linked(s) && FilterOk(s) && BasesOrdered(Current(s)) && s.node.phase.BlockEnded?
    ensures BatchOf(s.past.commits, Announced(s.node, s.past.filter), s.past.pending)
  {
    hide WellChained, ProofsStored, BlocksOk, CommittedState, InputIds, FilterFor;
  }

  lemma BatchedPush(commits: seq<CommitRecord>, batches: seq<seq<Entry>>, c: CommitRecord, es: seq<Entry>)
    requires Batched(commits, batches) && BatchOf(commits, c, es)
    ensures Batched(commits + [c], batches + [es]) && Flat(batches + [es]) == Flat(batches) + es
  {
    hide BatchOf;
    var allCommits, all := commits + [c], batches + [es];
    forall k | 0 <= k < |allCommits| ensures BatchOf(allCommits[..k], allCommits[k], all[k]) {
      if k < |commits| { assert allCommits[..k] == commits[..k]; } else { assert allCommits[..k] == commits; }
    }
    assert all[..|batches|] == batches;
  }

  lemma CommitKeepsLinked(s: State)
    requires Linked(s) && FilterOk(s) && s.node.phase.BlockEnded? && ValidatorsOk(s)
    requires CommitInRange(s.node.db.Visible(), s.node.delivered)
    ensures Linked(StateAfterCommit(s)) && FilterOk(StateAfterCommit(s)) && ValidatorsOk(StateAfterCommit(s))
    ensures StateAfterCommit(s).past.genesis == s.past.genesis
  {
    CommitPersists(s);
    hide WellKept, Agrees, CommitPuts, InputIds, FilterFor;
  }

  lemma CommitStep(s: State)
    requires CommitInRange(s.node.db.Visible(), s.node.delivered)
    ensures RunStep(s, CommitEvent) == Some(StateAfterCommit(s))
  {
  }

  lemma CommitKeepsLedgers(s: State)
    requires Linked(s) && LedgerOk(s.past.genesis, Current(s)) && LedgerOk(s.past.genesis, Stored(s))
    requires s.node.phase.BlockEnded?
    ensures CommitInRange(s.node.db.Visible(), s.node.delivered)
    ensures LedgerOk(s.past.genesis, Current(StateAfterCommit(s)))
    ensures LedgerOk(s.past.genesis, Stored(StateAfterCommit(s)))
  {
    CloseKeepsLedgerOk(s.past.genesis, Current(s), s.node.last.height);
    EmptyBlockKeepsRoot(s);
    hide LedgerOk, Closed, StateAfterCommit;
    CommitCloses(s);
  }

  lemma LedgerBases(g: Accounts, l: Ledger)
    requires LedgerOk(g, l)
    ensures BasesOrdered(l)
  {
  }

  lemma CommitKeeps(s: State)
    requires Invariant(s) && Admissible(s.node, CommitEvent)
    ensures RunStep(s, CommitEvent).Some? && Invariant(RunStep(s, CommitEvent).value)
  {
    hide LedgerOk, Linked, FilterOk, ValidatorsOk, HashesOk, StoreOk, StateAfterCommit, RunStep, BasesOrdered, Emits;
    LedgerBases(s.past.genesis, Current(s));
    CommitKeepsLedgers(s);
    CommitStep(s);
    CommitKeepsStore(s);
    CommitKeepsHashes(s);
    CommitKeepsLinked(s);
  }

  // ---------- restart ----------

  lemma {:induction false} ReplayGrows(g: Accounts, es: seq<Entry>)
    ensures g.Keys <= Replay(g, es).Keys
    decreases |es|
  {
    if es != [] { ReplayGrows(g, es[..|es| - 1]); }
  }

  lemma RestartKeepsStore(s: State, kept: set<TxId>)
    requires StoreOk(s.node) && Restart(s.node, kept).Next?
    ensures StoreOk(Restart(s.node, kept).node)
  {
    hide RestoredPowers, PubKeys;
  }

  /** The council accounts are still there, because accounts are never removed. */
  lemma CouncilStillPresent(s: State)
    requires LedgerOk(s.past.genesis, Stored(s)) && ValidatorsOk(s)
    ensures CouncilPresent(s.node.saved.accountRoot, s.node.saved.council)
  {
    ReplayGrows(s.past.genesis, Stored(s).History());
  }

  ghost function StateAfterRestart(s: State, kept: set<TxId>): State
    requires CouncilPresent(s.node.saved.accountRoot, s.node.saved.council) && CouncilDistinct(s.node.saved.council)
  {
    var n := s.node;
    RestoredWellKept(n.saved.accountRoot, n.saved.council, n.saved.requiredStake);
    var power := RestoredPowers(n.saved.accountRoot, n.saved.council, n.saved.requiredStake);
    State(Restart(n, kept).node, s.past.(pending := [], tendermint := ViewOf(power, PubKeys(n.saved.council))))
  }

  lemma RestartStep(s: State, kept: set<TxId>)
    requires CouncilPresent(s.node.saved.accountRoot, s.node.saved.council) && CouncilDistinct(s.node.saved.council)
    ensures RunStep(s, RestartEvent(kept)) == Some(StateAfterRestart(s, kept))
  {
    hide RestoredPowers, PubKeys, ViewOf;
  }

  lemma RestartKeepsRest(s: State, kept: set<TxId>)
    requires CouncilPresent(s.node.saved.accountRoot, s.node.saved.council)
    requires ValidatorsOk(s) && HashesOk(s)
    ensures var t := StateAfterRestart(s, kept);
            && Linked(t) && FilterOk(t) && ValidatorsOk(t) && HashesOk(t)
            && Current(t) == Stored(s) && Stored(t) == Stored(s)
  {
    hide RestoredPowers, PubKeys, ViewOf, Agrees, WellChained, ProofsStored, Batched, Flat;
    RestoredWellKept(s.node.saved.accountRoot, s.node.saved.council, s.node.saved.requiredStake);
    var t := StateAfterRestart(s, kept);
    assert t.node.db.Visible() == s.node.db.disk;
  }

  lemma RestartKeeps(s: State, kept: set<TxId>)
    requires Invariant(s)
    ensures RunStep(s, RestartEvent(kept)).Some? && Invariant(RunStep(s, RestartEvent(kept)).value)
  {
    CouncilStillPresent(s);
    RestartStep(s, kept);
    RestartKeepsRest(s, kept);
    hide LedgerOk, Linked, FilterOk, HashesOk, StoreOk, RunStep, Restart;
    RestartKeepsStore(s, kept);
  }
}
