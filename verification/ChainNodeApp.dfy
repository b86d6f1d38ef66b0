/** The application object that answers the requests (chain-abci/src/app/mod.rs, commit.rs,
    app_init.rs). Each method does what the step function of the same name says. That the required
    steps never panic is `NodeRuns.NodeNeverPanics`. */
module ChainNodeApp {
  import opened Wrappers
  import opened Coins
  import opened Merkle
  import opened Transactions
  import opened Staking
  import opened Validation
  import opened UtxoDb
  import opened TxVerification
  import opened Ledger
  import opened Genesis
  import opened Validators
  import opened BlockFilters
  import opened AppHashes
  import Steps = NodeSteps

  class ChainNodeApp {
    var db: Db
    var trees: map<AppHash, TxTree>
    var appStates: map<int, AppHash>
    var saved: Steps.ChainState
    var store: Store
    const chainHexId: nat
    var root: Accounts
    var delivered: seq<TxAux>
    var last: Steps.ChainState
    var power: Powers
    var keys: Keys
    var changed: Powers
    var filter: BlockFilter
    ghost var phase: Steps.Phase

    ghost function View(): Steps.NodeState
      reads this
    {
      Steps.NodeState(db, trees, appStates, saved, store, chainHexId, root, delivered, last,
                      power, keys, changed, filter, phase)
    }

    /** `init_chain_handler` on an empty storage; an invalid configuration makes it panic. */
    constructor InitChain(c: InitConfig, time: Timespec, hexId: nat)
      requires Validated(c, time).Ok?
      ensures View() == Steps.InitChain(c, Validated(c, time).value, time, hexId)
    {
      var genesis := ValidateConfigGetGenesis(c, time);
      var g := genesis.value;
      var tree := NewMerkleTree<TxId>([]);
      var accounts := InsertAll(g.accounts);
      var pool := RewardsPool(g.pool, 0);
      var pubkeys := PubKeysOf(g.council);
      var state := Steps.ChainState(0, ComputeAppHash(tree, accounts, pool), time, accounts, pool,
                                    c.unbondingPeriod, c.requiredStake, g.council);
      chainHexId := hexId;
      db, trees, appStates, saved, store := Db(map[], map[]), map[], map[], state, map[];
      root, delivered, last := accounts, [], state;
      power, keys, changed, filter, phase := map[], pubkeys, map[], EmptyFilter(), Steps.Idle;
    }

    method BeginBlock(time: Timespec)
      modifies this
      ensures View() == Steps.BeginBlock(old(View()), time)
    {
      last := last.(blockTime := time);
      phase := Steps.InBlock;
    }

    /** `validate_tx_req`: code 0 and the verdict when the transaction is accepted, code 1 otherwise. */
    method ValidateTxReq(tx: TxAux, minFee: Coin) returns (code: nat, verdict: Answer)
      requires !View().Verdict(tx, minFee).Panic?
      modifies this`store
      ensures verdict == old(View()).Verdict(tx, minFee)
      ensures code == if verdict.Accept? then 0 else 1
      ensures store == if verdict.Accept? then StoreAfter(old(store), tx) else old(store)
    {
      var info := ChainInfo(minFee, chainHexId, last.blockTime, last.unbondingPeriod);
      verdict, store := Verify(db, root, store, tx, info);
      code := if verdict.Accept? then 0 else 1;
    }

    method CheckTx(tx: TxAux, minFee: Coin) returns (code: nat)
      requires Steps.CheckTx(View(), tx, minFee).Next?
      modifies this
      ensures View() == Steps.CheckTx(old(View()), tx, minFee).node
      ensures code == 0 <==> old(View()).Verdict(tx, minFee).Accept?
    {
      var verdict;
      code, verdict := ValidateTxReq(tx, minFee);
    }

    method DeliverTx(tx: TxAux, minFee: Coin) returns (code: nat)
      requires Steps.DeliverTx(View(), tx, minFee).Next?
      modifies this
      ensures View() == Steps.DeliverTx(old(View()), tx, minFee).node
      ensures code == 0 <==> old(View()).Verdict(tx, minFee).Accept?
    {
      hide VerifyTx, SpendPuts, StoreAfter, PowerChange, InRange;
      var verdict;
      code, verdict := ValidateTxReq(tx, minFee);
      if code == 0 {
        TakeIn(tx, verdict.value.0, verdict.value.1);
      }
    }

    /** What `deliver_tx` does with an accepted transaction. */
    method TakeIn(tx: TxAux, fee: Coin, account: Option<StakedState>)
      requires InRange(db.Visible(), tx.Inputs()) && last.pool.remaining + fee <= MAX_COIN
      modifies this
      ensures View() == Steps.AfterDelivery(old(View()), tx, fee, account).(store := old(store))
    {
      hide SpendPuts, StoreAfter, PowerChange, InRange;
      var puts := SpendUtxos(tx.Inputs(), db);
      root := PutAccount(root, account);
      filter := AddAccount(filter, account);
      changed := PowerChange(power, changed, last.requiredStake, account);
      delivered := delivered + [tx];
      last := last.(pool := last.pool.(remaining := last.pool.remaining + fee));
      db := db.WriteBuffered(puts);
    }

    method EndBlock(height: int) returns (updates: seq<ValidatorUpdate>, announced: BlockFilter)
      requires Steps.EndBlock(View(), height).Next? && power.Keys <= keys.Keys
      modifies this
      ensures View() == Steps.EndBlock(old(View()), height).node
      ensures Emits(old(power), keys, old(changed), updates)
      ensures announced == AddViews(old(filter), delivered)
    {
      announced := CollectViews(filter, delivered);
      filter := EmptyFilter();
      updates, power := EmitUpdates(power, keys, changed);
      changed := map[];
      last := last.(height := height);
      phase := Steps.BlockEnded;
    }

    method Commit() returns (appHash: AppHash)
      requires Steps.Commit(View()).Next?
      modifies this
      ensures View() == Steps.Commit(old(View())).node
      ensures appHash == last.appHash
    {
      ghost var goal := Steps.Commit(View()).node;
      hide BuiltFrom, CommitPuts, InRange, Steps.TxIds, Steps.CommittedState, Steps.Commit;
      var state, puts;
      state, puts, trees := PrepareCommit();
      appStates := appStates[state.height := state.appHash];
      db := db.Write(puts);
      saved, last, delivered := state, state, [];
      phase := Steps.Idle;
      appHash := state.appHash;
    }

    /** The new state, the puts and the stored trees of a commit. */
    method PrepareCommit() returns (state: Steps.ChainState, puts: Meta, trees': map<AppHash, TxTree>)
      requires CommitInRange(db.Visible(), delivered)
      ensures state == Steps.CommittedState(View()) && puts == CommitPuts(db.Visible(), delivered)
      ensures trees' == if delivered == [] then trees else trees[state.appHash := BuiltFrom(Steps.TxIds(delivered))]
    {
      state, puts, trees' := last, map[], trees;
      if delivered != [] {
        var tree := NewMerkleTree(Steps.TxIds(delivered));
        puts := CollectPuts(delivered, db);
        var pool := state.pool.(lastHeight := state.height);
        var appHash := ComputeAppHash(tree, root, pool);
        trees' := trees'[appHash := tree];
        state := state.(pool := pool, accountRoot := root, appHash := appHash);
      }
    }

    /** A crash and `restore_from_storage`. */
    method Restore(kept: set<TxId>)
      requires Steps.Restart(View(), kept).Next?
      modifies this
      ensures View() == Steps.Restart(old(View()), kept).node
    {
      ghost var goal := Steps.Restart(View(), kept).node;
      hide RestoredPowers, PubKeys, CouncilPresent, Steps.KeptStore, Steps.Restart;
      power, keys := GetValidatorMapping(saved.accountRoot, saved.council, saved.requiredStake);
      db := Db(db.disk, map[]);
      store := Steps.KeptStore(store, db.disk, kept);
      root, delivered, last := saved.accountRoot, [], saved;
      changed, filter := map[], EmptyFilter();
      phase := Steps.Idle;
    }
  }

  /** The loop of `commit_handler` over the delivered transactions. */
  method CollectPuts(txs: seq<TxAux>, db: Db) returns (puts: Meta)
    requires CommitInRange(db.Visible(), txs)
    ensures puts == CommitPuts(db.Visible(), txs)
  {
    puts := map[];
    for i := 0 to |txs|
      invariant CommitInRange(db.Visible(), txs[..i])
      invariant puts == CommitPuts(db.Visible(), txs[..i])
    {
      var tx := txs[i];
      assert tx in txs && txs[..i + 1][..i] == txs[..i];
      var spent := SpendUtxos(tx.Inputs(), db);
      if tx.CreatesOutputs() {
        spent := spent[tx.Id() := FreshBits(tx.noOfOutputs)];
      }
      puts := puts + spent;
    }
    assert txs[..|txs|] == txs;
  }

  method InsertAll(accounts: seq<StakedState>) returns (root: Accounts)
    ensures root == AccountMap(accounts)
  {
    root := map[];
    for i := 0 to |accounts|
      invariant root == AccountMap(accounts[..i])
    {
      assert accounts[..i + 1][..i] == accounts[..i];
      root := root[accounts[i].address := accounts[i]];
    }
    assert accounts[..|accounts|] == accounts;
  }

  method PubKeysOf(council: seq<CouncilNode>) returns (keys: Keys)
    ensures keys == PubKeys(council)
  {
    keys := map[];
    for i := 0 to |council|
      invariant keys == PubKeys(council[..i])
    {
      assert council[..i + 1][..i] == council[..i];
      keys := keys[council[i].stakingAccount := council[i].consensusKey];
    }
    assert council[..|council|] == council;
  }
}
