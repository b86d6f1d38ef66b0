/** The main results about the node: what holds after every run of requests and restarts, from every
    initial configuration that validates. */
module NodeRuns {
  import opened Wrappers
  import opened Coins
  import opened MapSums
  import opened Merkle
  import opened Transactions
  import opened Staking
  import opened Validation
  import opened UtxoDb
  import opened Settlement
  import opened TxVerification
  import opened Ledger
  import opened UtxoHistory
  import opened StakingHistory
  import opened Genesis
  import opened Validators
  import opened AppHashes
  import opened NodeSteps
  import opened NodeInvariant

  // ---------- Every reachable state satisfies the invariant ----------

  lemma EmptyLedgerSound(accounts: Accounts, pool: Coin)
    requires AddressesMatch(accounts) && StakeTotal(accounts) + pool == MAX_COIN
    ensures Sound(Ledger(map[], accounts, pool, 0, [], []))
  {
    hide StakeTotal, AddressesMatch;
    var l := Ledger(map[], accounts, pool, 0, [], []);
    assert ValueMap(map[]) == map[];
    assert UnspentValue(l.meta) == 0;
    assert CreatedTotal(TxsOf(l.pending)) == 0;
  }

  lemma EmptyLedgerExact(accounts: Accounts, pool: Coin)
    ensures UtxoInvariant(Ledger(map[], accounts, pool, 0, [], []))
  {
    var l := Ledger(map[], accounts, pool, 0, [], []);
    assert l.History() == [];
    assert UtxoExact(l);
  }

  lemma EmptyLedgerOk(accounts: Accounts, pool: Coin)
    requires AddressesMatch(accounts) && StakeTotal(accounts) + pool == MAX_COIN
    ensures LedgerOk(accounts, Ledger(map[], accounts, pool, 0, [], []))
  {
    hide StakeTotal, AddressesMatch, Sound, UtxoInvariant;
    EmptyLedgerSound(accounts, pool);
    EmptyLedgerExact(accounts, pool);
    assert Ledger(map[], accounts, pool, 0, [], []).History() == [];
  }

  lemma StartedLedgers(c: InitConfig, g: GenesisState, time: Timespec, chainHexId: nat)
    ensures var s := Started(c, g, time, chainHexId);
            var l := Ledger(map[], AccountMap(g.accounts), g.pool, 0, [], []);
            Current(s) == l && Stored(s) == l
  {
    hide AccountMap, PubKeys;
    var nothing: Meta := map[];
    assert nothing + map[] == nothing;
  }

  lemma StartedParts(c: InitConfig, g: GenesisState, time: Timespec, chainHexId: nat)
    requires CouncilDistinct(g.council) && CouncilPresent(AccountMap(g.accounts), g.council)
    ensures var s := Started(c, g, time, chainHexId);
            Linked(s) && FilterOk(s) && StoreOk(s.node) && ValidatorsOk(s) && HashesOk(s)
  {
    PubKeysShape(g.council);
    hide PubKeys, AccountMap;
    assert TxsOf([]) == [];
  }

  lemma InitialInvariant(c: InitConfig, time: Timespec, chainHexId: nat)
    requires c.DistinctAddresses() && Validated(c, time).Ok?
    ensures Invariant(Initial(c, time, chainHexId))
  {
    hide Validated, AccountMap, LedgerOk, Linked, FilterOk, StoreOk, ValidatorsOk, HashesOk;
    hide StakeTotal, InitChain, Current, Stored;
    GenesisSupply(c, time);
    var g := Validated(c, time).value;
    EmptyLedgerOk(AccountMap(g.accounts), g.pool);
    StartedLedgers(c, g, time, chainHexId);
    StartedParts(c, g, time, chainHexId);
  }

  lemma StepKeepsInvariant(s: State, ev: Event)
    requires Invariant(s) && Admissible(s.node, ev)
    ensures RunStep(s, ev).Some? && Invariant(RunStep(s, ev).value)
  {
    hide Invariant, LedgerOk, VerifyTx;
    match ev
    case BeginBlockEvent(time) => BeginBlockKeeps(s, time);
    case CheckTxEvent(tx, minFee) => CheckTxKeeps(s, tx, minFee);
    case DeliverTxEvent(tx, minFee) => DeliverTxKeeps(s, tx, minFee);
    case EndBlockEvent(height, updates) => EndBlockKeeps(s, height, updates);
    case CommitEvent => CommitKeeps(s);
    case RestartEvent(kept) => RestartKeeps(s, kept);
  }

  lemma {:induction false} RunKeepsInvariant(s: State, evs: seq<Event>)
    requires Invariant(s) && AdmissibleRun(s, evs)
    ensures Run(s, evs).Some? && Invariant(Run(s, evs).value)
    decreases |evs|
  {
    hide Invariant, RunStep, Admissible;
    if evs != [] {
      var init := evs[..|evs| - 1];
      AdmissiblePrefix(s, evs, |evs| - 1);
      RunKeepsInvariant(s, init);
      StepKeepsInvariant(Run(s, init).value, evs[|evs| - 1]);
    }
  }

  lemma AdmissiblePrefix(s: State, evs: seq<Event>, n: nat)
    requires AdmissibleRun(s, evs) && n <= |evs|
    ensures AdmissibleRun(s, evs[..n])
  {
    hide Run, Admissible;
    var init := evs[..n];
    forall k | 0 <= k < |init| ensures Run(s, init[..k]).Some? ==> Admissible(Run(s, init[..k]).value.node, init[k]) {
      assert init[..k] == evs[..k];
    }
  }

  /** A run from the state after `init_chain` with a configuration that validates. */
  ghost predicate IsRun(c: InitConfig, time: Timespec, chainHexId: nat, evs: seq<Event>) {
    c.DistinctAddresses() && Validated(c, time).Ok? && AdmissibleRun(Initial(c, time, chainHexId), evs)
  }

  /** No `expect`, `unwrap` or index of the node's steps fails, whatever is requested and whenever
      the node is stopped and restored. */
  lemma NodeNeverPanics(c: InitConfig, time: Timespec, chainHexId: nat, evs: seq<Event>)
    requires IsRun(c, time, chainHexId, evs)
    ensures Run(Initial(c, time, chainHexId), evs).Some?
    ensures Invariant(Run(Initial(c, time, chainHexId), evs).value)
  {
    hide Invariant, Run, Initial, AdmissibleRun, Validated;
    InitialInvariant(c, time, chainHexId);
    RunKeepsInvariant(Initial(c, time, chainHexId), evs);
  }

  ghost predicate Reaches(c: InitConfig, time: Timespec, chainHexId: nat, evs: seq<Event>, s: State) {
    IsRun(c, time, chainHexId, evs) && Run(Initial(c, time, chainHexId), evs) == Some(s)
  }

  lemma ReachedInvariant(c: InitConfig, time: Timespec, chainHexId: nat, evs: seq<Event>, s: State)
    requires Reaches(c, time, chainHexId, evs, s)
    ensures Invariant(s)
  {
    hide Invariant, Run, Initial, AdmissibleRun, Validated;
    NodeNeverPanics(c, time, chainHexId, evs);
  }

  // ---------- Genesis ----------

  lemma GenesisFixedStep(s: State, ev: Event)
    requires RunStep(s, ev).Some?
    ensures RunStep(s, ev).value.past.genesis == s.past.genesis
  {
    hide NodeStep;
  }

  lemma {:induction false} GenesisFixed(s: State, evs: seq<Event>)
    requires Run(s, evs).Some?
    ensures Run(s, evs).value.past.genesis == s.past.genesis
    decreases |evs|
  {
    hide RunStep;
    if evs != [] {
      GenesisFixed(s, evs[..|evs| - 1]);
      GenesisFixedStep(Run(s, evs[..|evs| - 1]).value, evs[|evs| - 1]);
    }
  }

  /** The genesis accounts of a run are those of its configuration. */
  lemma ReachedGenesisAccounts(c: InitConfig, time: Timespec, chainHexId: nat, evs: seq<Event>, s: State)
    requires Reaches(c, time, chainHexId, evs, s)
    ensures s.past.genesis == AccountMap(Validated(c, time).value.accounts)
  {
    hide AdmissibleRun, Validated, Run, AccountMap, InitChain;
    GenesisFixed(Initial(c, time, chainHexId), evs);
  }

  // ---------- Supply ----------

  /** Unspent outputs, outputs of delivered transactions, stake and pool never exceed the maximum
      supply, and are exactly the maximum supply when no id with outputs was delivered twice; the
      same holds for what is on disk. */
  lemma SupplyConserved(c: InitConfig, time: Timespec, chainHexId: nat, evs: seq<Event>, s: State)
    requires Reaches(c, time, chainHexId, evs, s)
    ensures Supply(Current(s)) <= MAX_COIN && Supply(Stored(s)) <= MAX_COIN
    ensures DistinctIds(s.past.committed + s.past.pending) ==> Supply(Current(s)) == MAX_COIN
    ensures DistinctIds(s.past.committed) ==> Supply(Stored(s)) == MAX_COIN
  {
    hide Reaches, Supply, UtxoInvariant, LegalHistory, Linked, StoreOk, ValidatorsOk, HashesOk;
    ReachedInvariant(c, time, chainHexId, evs, s);
    assert Stored(s).History() == s.past.committed;
  }

  // ---------- Outputs ----------

  /** When no id with outputs was delivered twice, the outputs that the bitmaps and the range check let through
      are exactly those created by a committed transaction and consumed by none; the enclave knows
      the transaction of each of them; and no output was ever consumed twice. */
  lemma UtxosExact(c: InitConfig, time: Timespec, chainHexId: nat, evs: seq<Event>, s: State)
    requires Reaches(c, time, chainHexId, evs, s) && DistinctIds(s.past.committed + s.past.pending)
    ensures forall p :: NodeAccepts(s.node.db.Visible(), p) <==> InUtxoSet(Current(s), p)
    ensures forall p | NodeAccepts(s.node.db.Visible(), p) :: p.id in s.node.store
    ensures SpentOnce(s.past.committed + s.past.pending)
  {
    hide Reaches, Sound, LegalHistory, Replay, Linked, ValidatorsOk, HashesOk;
    hide InUtxoSet, SpentOnce, DistinctIds, CreatedEarlier;
    ReachedInvariant(c, time, chainHexId, evs, s);
  }

  /** Whatever is consumed was created in an earlier block; with distinct ids, only there. The block of
      a delivered transaction is known by the height before it. */
  lemma ConsumedLaterThanCreated(
    c: InitConfig, time: Timespec, chainHexId: nat, evs: seq<Event>, s: State, k: nat, p: TxoPointer)
    requires Reaches(c, time, chainHexId, evs, s)
    requires k < |Current(s).History()| && p in Current(s).History()[k].tx.Inputs()
    ensures var h := Current(s).History();
            && CreatedBefore(h, k, h[k].base, p)
            && (DistinctIds(h) ==> forall i | 0 <= i < |h| && Creates(h[i], p) :: h[i].base < h[k].base)
  {
    hide Reaches, Sound, LegalHistory, Replay, Linked, ValidatorsOk, HashesOk, StoreOk, DistinctIds, CreatedEarlier;
    ReachedInvariant(c, time, chainHexId, evs, s);
    var h := Current(s).History();
    EarlierCreator(h, k, p);
    if DistinctIds(h) {
      forall i | 0 <= i < |h| && Creates(h[i], p) ensures h[i].base < h[k].base { NeverInItsOwnBlock(h, i, k, p); }
    }
  }

  lemma EarlierCreator(es: seq<Entry>, k: nat, p: TxoPointer)
    requires CreatedEarlier(es) && k < |es| && p in es[k].tx.Inputs()
    ensures CreatedBefore(es, k, es[k].base, p)
  {
  }

  /** The second spending, at commit, finds every bit already set and puts back what is visible. */
  lemma SecondSpendChangesNothing(c: InitConfig, time: Timespec, chainHexId: nat, evs: seq<Event>, s: State, tx: TxAux)
    requires Reaches(c, time, chainHexId, evs, s) && tx in s.node.delivered
    ensures var meta := s.node.db.Visible();
            InRange(meta, tx.Inputs()) && meta + SpendPuts(meta, tx.Inputs()) == meta
  {
    hide Reaches, UtxoInvariant, LegalHistory, Supply, ValidatorsOk, HashesOk, SpendPuts;
    ReachedInvariant(c, time, chainHexId, evs, s);
    SpendAgain(s.node.db.Visible(), tx.Inputs());
    SpendPutsApplied(s.node.db.Visible(), tx.Inputs());
  }

  // ---------- Staking ----------

  lemma ReachedLegal(c: InitConfig, time: Timespec, chainHexId: nat, evs: seq<Event>, s: State)
    requires Reaches(c, time, chainHexId, evs, s)
    ensures LegalHistory(s.past.genesis, Current(s).History())
  {
    hide Reaches, Sound, UtxoInvariant, LegalHistory, Linked, StoreOk, ValidatorsOk, HashesOk;
    ReachedInvariant(c, time, chainHexId, evs, s);
  }

  /** A withdrawal accepted after an unbonding, with no unbonding of that account in between, comes
      at a block time no earlier than the unbonding time plus the unbonding period, and so does
      every transaction that consumes one of its outputs. */
  lemma WithdrawalsWait(
    c: InitConfig, time: Timespec, chainHexId: nat, evs: seq<Event>, s: State, i: nat, k: nat, a: StakedStateAddress)
    requires Reaches(c, time, chainHexId, evs, s)
    requires var h := Current(s).History();
             && i < k < |h| && IsUnbondOf(h[i], a) && IsWithdrawOf(h[k], a)
             && forall m | i < m < k :: !IsUnbondOf(h[m], a)
    ensures var h := Current(s).History();
            var due := h[i].info.previousBlockTime + h[i].info.unbondingPeriod;
            && h[k].info.previousBlockTime >= due
            && forall m, p | 0 <= m < |h| && p in h[m].tx.Inputs() && p.id == h[k].tx.Id() ::
                 h[m].info.previousBlockTime >= due
  {
    hide Reaches, LegalHistory, IsUnbondOf, IsWithdrawOf;
    ReachedLegal(c, time, chainHexId, evs, s);
    WithdrawalWaits(s.past.genesis, Current(s).History(), i, k, a);
  }

  /** No unbonding and no withdrawal is accepted twice for one account. */
  lemma DebitsNeverRepeat(
    c: InitConfig, time: Timespec, chainHexId: nat, evs: seq<Event>, s: State, i: nat, k: nat, a: StakedStateAddress)
    requires Reaches(c, time, chainHexId, evs, s)
    requires var h := Current(s).History();
             i < k < |h| && IsDebitOf(h[i], a) && IsDebitOf(h[k], a)
    ensures Current(s).History()[i].tx.Id() != Current(s).History()[k].tx.Id()
  {
    hide Reaches, LegalHistory, IsDebitOf;
    ReachedLegal(c, time, chainHexId, evs, s);
    NoDebitTwice(s.past.genesis, Current(s).History(), i, k, a);
  }

  /** The time of the latest `begin_block`. */
  function LastBegin(evs: seq<Event>): Timespec {
    if evs == [] then 0
    else if evs[|evs| - 1].BeginBlockEvent? then evs[|evs| - 1].time
    else LastBegin(evs[..|evs| - 1])
  }

  /** The parameters of the chain never change, and during a block its time is that of `begin_block`. */
  predicate ParametersOf(n: NodeState, period: nat, chainHexId: nat, begun: Timespec) {
    && n.last.unbondingPeriod == period && n.saved.unbondingPeriod == period && n.chainHexId == chainHexId
    && (!n.phase.Idle? ==> n.last.blockTime == begun)
  }

  lemma ParametersKept(n: NodeState, ev: Event, period: nat, chainHexId: nat, begun: Timespec)
    requires ParametersOf(n, period, chainHexId, begun) && Admissible(n, ev) && NodeStep(n, ev).Next?
    ensures ParametersOf(NodeStep(n, ev).node, period, chainHexId, if ev.BeginBlockEvent? then ev.time else begun)
  {
    hide VerifyTx, CommitPuts, BuiltFrom, TxIds, RestoredPowers, PubKeys, SpendPuts, PowerChange, StoreAfter, Emits;
  }

  lemma {:induction false} ParametersAlong(s: State, evs: seq<Event>, period: nat, chainHexId: nat)
    requires ParametersOf(s.node, period, chainHexId, 0) && AdmissibleRun(s, evs) && Run(s, evs).Some?
    ensures ParametersOf(Run(s, evs).value.node, period, chainHexId, LastBegin(evs))
    decreases |evs|
  {
    hide NodeStep, PastStep, ParametersOf, Admissible;
    if evs != [] {
      var init := evs[..|evs| - 1];
      AdmissiblePrefix(s, evs, |evs| - 1);
      ParametersAlong(s, init, period, chainHexId);
      ParametersKept(Run(s, init).value.node, evs[|evs| - 1], period, chainHexId, LastBegin(init));
    }
  }

  /** What a transaction is validated against, and is recorded with: the fee asked for it, the chain,
      the time of the block it is delivered in, and the configured unbonding period. */
  lemma DeliveredAtBlockTime(
    c: InitConfig, time: Timespec, chainHexId: nat, evs: seq<Event>, s: State, tx: TxAux, minFee: Coin)
    requires Reaches(c, time, chainHexId, evs, s) && s.node.phase.InBlock?
    requires s.node.Verdict(tx, minFee).Accept?
    ensures var fa := s.node.Verdict(tx, minFee).value;
            var info := ChainInfo(minFee, chainHexId, LastBegin(evs), c.unbondingPeriod);
            && s.node.Verdict(tx, minFee) == VerifyTx(s.node.db.Visible(), s.node.root, s.node.store, tx, info)
            && PastStep(s.node, s.past, DeliverTxEvent(tx, minFee)).pending ==
               s.past.pending + [Entry(tx, info, s.node.saved.height, fa.0, fa.1)]
  {
    assert ParametersOf(Initial(c, time, chainHexId).node, c.unbondingPeriod, chainHexId, 0);
    hide AdmissibleRun, Validated, Initial, VerifyTx, Run;
    ParametersAlong(Initial(c, time, chainHexId), evs, c.unbondingPeriod, chainHexId);
  }

  /** `check_tx` changes nothing but what the enclave knows, and makes it know what it accepts. */
  lemma CheckOnlyTeaches(
    c: InitConfig, time: Timespec, chainHexId: nat, evs: seq<Event>, s: State, tx: TxAux, minFee: Coin)
    requires Reaches(c, time, chainHexId, evs, s) && tx.WellFormed()
    ensures RunStep(s, CheckTxEvent(tx, minFee)).Some?
    ensures var t := RunStep(s, CheckTxEvent(tx, minFee)).value;
            && t.past == s.past && t.node == s.node.(store := t.node.store) && s.node.store.Keys <= t.node.store.Keys
            && (s.node.Verdict(tx, minFee).Accept? && tx.CreatesOutputs() ==> tx.Id() in t.node.store)
            && (!s.node.Verdict(tx, minFee).Accept? ==> t == s)
  {
    hide Reaches, LedgerOk, Linked, FilterOk, StoreOk, ValidatorsOk, HashesOk, Allowed, Effect, VerifyTx, StoreAfter;
    ReachedInvariant(c, time, chainHexId, evs, s);
    CheckTxKeeps(s, tx, minFee);
    VerdictNeverPanics(s, tx, minFee);
    if s.node.Verdict(tx, minFee).Accept? {
      StoreIsSound(s);
      StoreAfterOk(Current(s).meta, Current(s).accounts, s.node.store, tx, s.node.Info(minFee));
    }
  }

  // ---------- Crashes ----------

  /** A crash at any moment loses the block in progress and nothing else: the restored ledger is the
      stored one. */
  lemma CrashLosesOnlyTheBlock(
    c: InitConfig, time: Timespec, chainHexId: nat, evs: seq<Event>, s: State, kept: set<TxId>)
    requires Reaches(c, time, chainHexId, evs, s)
    ensures RunStep(s, RestartEvent(kept)).Some?
    ensures var t := RunStep(s, RestartEvent(kept)).value;
            Current(t) == Stored(s) && Stored(t) == Stored(s)
  {
    hide Reaches, LedgerOk, Linked, StoreOk, HashesOk, RunStep, StateAfterRestart;
    ReachedInvariant(c, time, chainHexId, evs, s);
    CouncilStillPresent(s);
    RestartStep(s, kept);
    RestartKeepsRest(s, kept);
  }

  /** A commit closes the block and stores it: afterwards a crash loses nothing. */
  lemma CommitStores(c: InitConfig, time: Timespec, chainHexId: nat, evs: seq<Event>, s: State)
    requires Reaches(c, time, chainHexId, evs, s) && s.node.phase.BlockEnded?
    ensures CommitInRange(Current(s).meta, TxsOf(Current(s).pending)) && RunStep(s, CommitEvent).Some?
    ensures var t := RunStep(s, CommitEvent).value;
            Current(t) == Closed(Current(s), s.node.last.height) && Stored(t) == Current(t)
  {
    hide Reaches, LedgerOk, StoreOk, ValidatorsOk, HashesOk, RunStep, StateAfterCommit, Closed;
    ReachedInvariant(c, time, chainHexId, evs, s);
    CommitKeepsLedgers(s);
    EmptyBlockKeepsRoot(s);
    CommitCloses(s);
    CommitStep(s);
  }

  // ---------- App hashes ----------

  lemma ReachedHashes(c: InitConfig, time: Timespec, chainHexId: nat, evs: seq<Event>, s: State)
    requires Reaches(c, time, chainHexId, evs, s)
    ensures HashesOk(s)
  {
    hide Reaches, LedgerOk, Linked, StoreOk, ValidatorsOk, HashesOk;
    ReachedInvariant(c, time, chainHexId, evs, s);
  }

  /** Two commits of a run announce the same app hash exactly when no non-empty block was committed
      after the first one up to and including the second one. */
  lemma HashesChangeWithContent(
    c: InitConfig, time: Timespec, chainHexId: nat, evs: seq<Event>, s: State, i: nat, j: nat)
    requires Reaches(c, time, chainHexId, evs, s) && i <= j < |s.past.commits|
    ensures s.past.commits[i].appHash == s.past.commits[j].appHash <==>
            forall k | i < k <= j :: s.past.commits[k].txids == []
  {
    hide Reaches, WellChained, ProofsStored, BlocksOk;
    ReachedHashes(c, time, chainHexId, evs, s);
    SameHashIffEmpty(s.past.genesisHash, s.past.commits, i, j);
  }

  lemma CommitsGrowStep(s: State, ev: Event)
    requires RunStep(s, ev).Some?
    ensures s.past.commits <= RunStep(s, ev).value.past.commits
  {
    hide NodeStep;
  }

  lemma {:induction false} CommitsGrow(s: State, evs: seq<Event>, n: nat)
    requires n <= |evs| && Run(s, evs).Some?
    ensures Run(s, evs[..n]).Some? && Run(s, evs[..n]).value.past.commits <= Run(s, evs).value.past.commits
    decreases |evs|
  {
    hide RunStep;
    if n < |evs| {
      var init := evs[..|evs| - 1];
      CommitsGrow(s, init, n);
      assert init[..n] == evs[..n];
      CommitsGrowStep(Run(s, init).value, evs[|evs| - 1]);
    } else {
      assert evs[..n] == evs;
    }
  }

  /** Every transaction committed so far belongs to a commit of a later height than the one it was
      delivered on. */
  lemma CommittedIsRecorded(c: InitConfig, time: Timespec, chainHexId: nat, evs: seq<Event>, s: State, e: Entry)
    requires Reaches(c, time, chainHexId, evs, s) && e in s.past.committed
    ensures exists r | r in s.past.commits :: e.tx.Id() in r.txids && e.base < r.height
  {
    hide Reaches, WellChained, ProofsStored, Flat;
    ReachedHashes(c, time, chainHexId, evs, s);
    var k, i := InBatch(s.past.batches, e);
    var r := s.past.commits[k];
    assert BatchOf(s.past.commits[..k], r, s.past.batches[k]);
    assert r.txids[i] == e.tx.Id();
    HeightGrows(s, k);
  }

  /** The blocks of every run: in order, their transactions are the history, and each block announces
      the ids of its transactions and a filter of the accounts and view keys in them. */
  lemma BlocksAnnounced(c: InitConfig, time: Timespec, chainHexId: nat, evs: seq<Event>, s: State, k: nat)
    requires Reaches(c, time, chainHexId, evs, s) && k < |s.past.commits|
    ensures s.past.committed == Flat(s.past.batches) && |s.past.batches| == |s.past.commits|
    ensures var r, es := s.past.commits[k], s.past.batches[k];
            && r.txids == TxIds(TxsOf(es)) && r.filter == FilterFor(es)
            && forall e | e in es :: e.base == LatestHeight(s.past.commits[..k]) < r.height
  {
    hide Reaches, WellChained, ProofsStored, Flat, FilterFor;
    ReachedHashes(c, time, chainHexId, evs, s);
    assert BatchOf(s.past.commits[..k], s.past.commits[k], s.past.batches[k]);
    HeightGrows(s, k);
  }

  lemma HeightGrows(s: State, k: nat)
    requires HashesOk(s) && k < |s.past.commits|
    ensures LatestHeight(s.past.commits[..k]) < s.past.commits[k].height
  {
  }

  lemma {:induction false} InBatch(batches: seq<seq<Entry>>, e: Entry) returns (k: nat, i: nat)
    requires e in Flat(batches)
    ensures k < |batches| && i < |batches[k]| && batches[k][i] == e
    decreases |batches|
  {
    var init, last := batches[..|batches| - 1], batches[|batches| - 1];
    if e in last {
      k := |batches| - 1;
      i :| i < |last| && last[i] == e;
    } else {
      k, i := InBatch(init, e);
    }
  }

  /** What was committed at some point of a run can be proved at every later point: the app hash
      stored for that height leads to a stored tree that yields a proof of the transaction id, and
      the proof verifies against the root that went into the app hash. */
  lemma ProofsPersist(
    c: InitConfig, time: Timespec, chainHexId: nat, evs: seq<Event>, s: State, n: nat, before: State,
    r: CommitRecord, txid: TxId)
    requires Reaches(c, time, chainHexId, evs, s) && n <= |evs| && Reaches(c, time, chainHexId, evs[..n], before)
    requires r in before.past.commits && txid in r.txids
    ensures r.height in s.node.appStates && s.node.appStates[r.height] == r.appHash && r.appHash in s.node.trees
    ensures var tree := s.node.trees[r.appHash];
            var proof := GenerateProof(tree, txid);
            && proof.Some? && proof.value.value == txid
            && VerifyProof(proof.value, RootOf(tree.tree)) && RootOf(tree.tree) == r.appHash.txRoot
  {
    hide AdmissibleRun, Validated, WellChained, Run, Initial, BlocksOk;
    CommitsGrow(Initial(c, time, chainHexId), evs, n);
    ReachedHashes(c, time, chainHexId, evs, s);
    assert r in s.past.commits;
    CommittedProofs(s.past.genesisHash, s.node.appStates, s.node.trees, s.past.commits, r, txid);
  }

  // ---------- Validators ----------

  /** Replaying the emitted updates, from the maps built on restore, gives the tracked powers. */
  lemma ValidatorsReplayed(c: InitConfig, time: Timespec, chainHexId: nat, evs: seq<Event>, s: State)
    requires Reaches(c, time, chainHexId, evs, s)
    ensures s.node.power.Keys <= s.node.keys.Keys
    ensures forall a | a in s.node.power ::
              s.node.keys[a] in s.past.tendermint && s.past.tendermint[s.node.keys[a]] == s.node.power[a]
  {
    hide Reaches, LedgerOk, Linked, StoreOk, HashesOk;
    ReachedInvariant(c, time, chainHexId, evs, s);
  }

  lemma StakeFixedStep(s: State, ev: Event)
    requires Linked(s) && RunStep(s, ev).Some?
    ensures var saved := RunStep(s, ev).value.node.saved;
            saved.requiredStake == s.node.saved.requiredStake && saved.council == s.node.saved.council
  {
    hide VerifyTx, InputIds, TxsOf, CommitPuts, BuiltFrom, TxIds, RestoredPowers, PubKeys, Apply;
  }

  lemma {:induction false} StakeFixed(s: State, evs: seq<Event>)
    requires Invariant(s) && AdmissibleRun(s, evs)
    ensures Run(s, evs).Some? && Run(s, evs).value.node.saved.requiredStake == s.node.saved.requiredStake
    ensures Run(s, evs).value.node.saved.council == s.node.saved.council
    decreases |evs|
  {
    hide LedgerOk, Linked, StoreOk, ValidatorsOk, HashesOk, RunStep, Admissible;
    if evs != [] {
      var init := evs[..|evs| - 1];
      AdmissiblePrefix(s, evs, |evs| - 1);
      RunKeepsInvariant(s, init);
      StakeFixed(s, init);
      StepKeepsInvariant(Run(s, init).value, evs[|evs| - 1]);
      StakeFixedStep(Run(s, init).value, evs[|evs| - 1]);
    }
  }

  /** Every update sent in a run carries power zero or at least that of the required stake. */
  lemma UpdatesZeroOrEnough(c: InitConfig, time: Timespec, chainHexId: nat, evs: seq<Event>, k: nat, u: ValidatorUpdate)
    requires IsRun(c, time, chainHexId, evs) && k < |evs| && evs[k].EndBlockEvent? && u in evs[k].updates
    ensures u.power == 0 || u.power >= VotePower(c.requiredStake)
  {
    var s := Initial(c, time, chainHexId);
    assert s.node.saved.requiredStake == c.requiredStake;
    hide Invariant, Run, Initial, Validated, Admissible, VotePower;
    InitialInvariant(c, time, chainHexId);
    AdmissiblePrefix(s, evs, k);
    RunKeepsInvariant(s, evs[..k]);
    StakeFixed(s, evs[..k]);
    EndBlockKeeps(Run(s, evs[..k]).value, evs[k].height, evs[k].updates);
  }
}
