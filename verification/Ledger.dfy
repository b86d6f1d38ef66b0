/** The ledger behind the node: unspent outputs, staking accounts, rewards pool, and the history of
    accepted transactions. Two steps change it: accepting a transaction (`deliver_tx`,
    chain-abci/src/app/mod.rs) and settling a block (`commit_handler`, chain-abci/src/app/commit.rs). */
module Ledger {
  import opened Wrappers
  import opened Coins
  import opened MapSums
  import opened Transactions
  import opened Staking
  import opened Validation
  import opened UtxoDb
  import opened Settlement
  import opened TxVerification

  /** An accepted transaction, with what it was validated against and what it did. `base` is the
      height of the block committed last when it was delivered. */
  datatype Entry = Entry(tx: TxAux, info: ChainInfo, base: int, fee: Coin, account: Option<StakedState>)

  datatype Ledger = Ledger(
    meta: Meta, accounts: Accounts, pool: nat, height: int, committed: seq<Entry>, pending: seq<Entry>)
  {
    function History(): seq<Entry> {
      committed + pending
    }
  }

  function TxsOf(es: seq<Entry>): (txs: seq<TxAux>)
    ensures |txs| == |es|
  {
    seq(|es|, i requires 0 <= i < |es| => es[i].tx)
  }

  function PutAccount(accounts: Accounts, account: Option<StakedState>): Accounts {
    match account
    case None => accounts
    case Some(a) => accounts[a.address := a]
  }

  function Accepted(l: Ledger, e: Entry): Ledger {
    l.(meta := AfterSpending(l.meta, e.tx.Inputs()),
       accounts := PutAccount(l.accounts, e.account),
       pool := l.pool + e.fee,
       pending := l.pending + [e])
  }

  function Closed(l: Ledger, height: int): Ledger
    requires CommitInRange(l.meta, TxsOf(l.pending))
  {
    l.(meta := Settled(l.meta, TxsOf(l.pending)),
       height := height,
       committed := l.committed + l.pending,
       pending := [])
  }

  // ---------- Supply ----------

  ghost function StakeMap(accounts: Accounts): map<StakedStateAddress, nat> {
    map a | a in accounts :: accounts[a].Stake()
  }

  ghost function StakeTotal(accounts: Accounts): nat {
    Sum(StakeMap(accounts))
  }

  /** Unspent outputs, outputs still to be created by delivered transactions, stake, and the pool. */
  ghost function Supply(l: Ledger): nat {
    UnspentValue(l.meta) + CreatedTotal(TxsOf(l.pending)) + StakeTotal(l.accounts) + l.pool
  }

  function StakeAt(accounts: Accounts, a: StakedStateAddress): nat {
    if a in accounts then accounts[a].Stake() else 0
  }

  lemma PutStake(accounts: Accounts, a: StakedState)
    ensures StakeTotal(accounts[a.address := a]) + StakeAt(accounts, a.address) == StakeTotal(accounts) + a.Stake()
  {
    StakeMapPut(accounts, a);
    SumUpdate(StakeMap(accounts), a.address, a.Stake());
    if a.address in accounts { SumAtMost(StakeMap(accounts), a.address); }
  }

  lemma StakeMapPut(accounts: Accounts, a: StakedState)
    ensures StakeMap(accounts[a.address := a]) == StakeMap(accounts)[a.address := a.Stake()]
  {
  }

  lemma StakeAtMostTotal(accounts: Accounts, a: StakedStateAddress)
    ensures StakeAt(accounts, a) <= StakeTotal(accounts)
  {
    if a in accounts { SumAtMost(StakeMap(accounts), a); }
  }

  function NewStake(account: Option<StakedState>): nat {
    match account
    case None => 0
    case Some(a) => a.Stake()
  }

  function OldStake(accounts: Accounts, account: Option<StakedState>): nat {
    match account
    case None => 0
    case Some(a) => StakeAt(accounts, a.address)
  }

  /** Each kind of transaction only moves value: what it takes from outputs and from the account is
      what it puts into new outputs, the account and the fee. */
  lemma EffectBalances(accounts: Accounts, e: Entry)
    requires AddressesMatch(accounts) && Effect(accounts, e.tx, e.info, e.fee, e.account)
    requires !e.tx.TransferTx? ==> e.account.Some?
    ensures e.account.Some? ==> Target(e.tx) == Some(e.account.value.address)
    ensures InputTotal(e.tx.Inputs()) + OldStake(accounts, e.account)
            == Created(e.tx) + e.fee + NewStake(e.account)
  {
  }

  lemma TxsOfPush(es: seq<Entry>, e: Entry)
    ensures TxsOf(es + [e]) == TxsOf(es) + [e.tx]
  {
  }

  function Fees(es: seq<Entry>): nat {
    if es == [] then 0 else Fees(es[..|es| - 1]) + es[|es| - 1].fee
  }

  lemma FeesPush(es: seq<Entry>, e: Entry)
    ensures Fees(es + [e]) == Fees(es) + e.fee
  {
    assert (es + [e])[..|es|] == es;
  }

  lemma CreatedTotalPush(txs: seq<TxAux>, tx: TxAux)
    ensures CreatedTotal(txs + [tx]) == CreatedTotal(txs) + Created(tx)
  {
    var all := txs + [tx];
    assert all[..|all| - 1] == txs;
  }

  predicate Acceptable(l: Ledger, e: Entry) {
    && NoDuplicates(e.tx.Inputs()) && Spendable(l.meta, e.tx.Inputs())
    && CreationFits(e.tx)
    && Effect(l.accounts, e.tx, e.info, e.fee, e.account)
    && (!e.tx.TransferTx? ==> e.account.Some?)
    && e.base == l.height
  }

  /** Accepting a transaction conserves the supply exactly. */
  lemma AcceptConserves(l: Ledger, e: Entry)
    requires AddressesMatch(l.accounts) && Acceptable(l, e)
    ensures Supply(Accepted(l, e)) == Supply(l)
  {
    hide UnspentValue, StakeTotal, InputTotal, CreatedTotal, Created;
    EffectBalances(l.accounts, e);
    SpendingValue(l.meta, e.tx.Inputs());
    TxsOfPush(l.pending, e);
    CreatedTotalPush(TxsOf(l.pending), e.tx);
    if e.account.Some? { PutStake(l.accounts, e.account.value); }
  }

  /** No two transactions with outputs have the same id. */
  predicate DistinctIds(es: seq<Entry>) {
    forall i, j | 0 <= i < j < |es| && es[i].tx.CreatesOutputs() && es[j].tx.CreatesOutputs() ::
      es[i].tx.Id() != es[j].tx.Id()
  }

  /** The bitmaps present are those of the committed transactions with outputs. */
  ghost predicate MetaMatches(l: Ledger) {
    l.meta.Keys == CreatedIds(TxsOf(l.committed))
  }

  lemma DistinctMeansNew(l: Ledger)
    requires MetaMatches(l) && DistinctIds(l.History())
    ensures NewIds(l.meta, TxsOf(l.pending))
  {
    var h := l.History();
    var ps, cs := TxsOf(l.pending), TxsOf(l.committed);
    forall t | t in ps && t.CreatesOutputs() ensures t.Id() !in l.meta {
      var j :| 0 <= j < |ps| && ps[j] == t;
      assert h[|cs| + j].tx == t;
      forall c | c in cs && c.CreatesOutputs() ensures c.Id() != t.Id() {
        var i :| 0 <= i < |cs| && cs[i] == c;
        assert h[i].tx == c;
      }
    }
    forall i, j | 0 <= i < j < |ps| && ps[i].CreatesOutputs() && ps[j].CreatesOutputs()
      ensures ps[i].Id() != ps[j].Id()
    {
      assert h[|cs| + i].tx == ps[i] && h[|cs| + j].tx == ps[j];
    }
  }

  lemma CloseKeepsAtMost(l: Ledger, height: int)
    requires Delivered(l.meta, TxsOf(l.pending))
    ensures CommitInRange(l.meta, TxsOf(l.pending))
    ensures Supply(Closed(l, height)) <= Supply(l)
  {
    hide UnspentValue, StakeTotal;
    SettleBound(l.meta, TxsOf(l.pending));
  }

  /** Closing a block conserves the supply if and only if the delivered transactions lose nothing:
      none creates outputs under an id that still has unspent coins or was used in the block before,
      and none consumes an output of an id that was used again earlier in the block. */
  lemma CloseConserves(l: Ledger, height: int)
    requires Delivered(l.meta, TxsOf(l.pending))
    ensures CommitInRange(l.meta, TxsOf(l.pending))
    ensures Supply(Closed(l, height)) == Supply(l) <==> LosesNothing(l.meta, TxsOf(l.pending))
  {
    hide UnspentValue, StakeTotal, LosesNothing;
    SettleExact(l.meta, TxsOf(l.pending));
  }

  /** Distinct ids lose nothing. */
  lemma DistinctLosesNothing(l: Ledger)
    requires Delivered(l.meta, TxsOf(l.pending)) && MetaMatches(l) && DistinctIds(l.History())
    ensures LosesNothing(l.meta, TxsOf(l.pending))
  {
    DistinctMeansNew(l);
    NewIdsLoseNothing(l.meta, TxsOf(l.pending));
  }

  // ---------- The invariant ----------

  predicate BitsFit(meta: Meta) {
    forall id | id in meta :: HasOutputs(id) && |meta[id]| == |FreshBits(|Outputs(id)|)|
  }

  ghost predicate Sound(l: Ledger) {
    && AddressesMatch(l.accounts)
    && BitsFit(l.meta) && MetaMatches(l)
    && Delivered(l.meta, TxsOf(l.pending))
    && Supply(l) <= MAX_COIN
    && (DistinctIds(l.History()) ==> Supply(l) == MAX_COIN)
  }

  lemma AcceptKeepsDelivered(l: Ledger, e: Entry)
    requires Delivered(l.meta, TxsOf(l.pending)) && Acceptable(l, e)
    ensures Delivered(Accepted(l, e).meta, TxsOf(Accepted(l, e).pending))
  {
    TxsOfPush(l.pending, e);
    var m' := AfterSpending(l.meta, e.tx.Inputs());
    forall tx | tx in TxsOf(l.pending + [e]) ensures AllSpent(m', tx.Inputs()) && CreationFits(tx) {
      forall p | p in tx.Inputs() ensures p.id in m' && p.index < |m'[p.id]| && m'[p.id][p.index] {
        assert p == TxoPointer(p.id, p.index);
        if tx != e.tx { assert tx in TxsOf(l.pending); }
      }
    }
  }

  lemma AcceptKeepsSound(l: Ledger, e: Entry)
    requires Sound(l) && Acceptable(l, e)
    ensures Sound(Accepted(l, e))
  {
    hide Supply;
    var l' := Accepted(l, e);
    AcceptConserves(l, e);
    AcceptKeepsDelivered(l, e);
    EffectBalances(l.accounts, e);
    assert l'.History() == l.History() + [e];
    DistinctPrefix(l.History(), e);
  }

  lemma DistinctPrefix(es: seq<Entry>, e: Entry)
    ensures DistinctIds(es + [e]) ==> DistinctIds(es)
  {
    if DistinctIds(es + [e]) {
      forall i, j | 0 <= i < j < |es| && es[i].tx.CreatesOutputs() && es[j].tx.CreatesOutputs()
        ensures es[i].tx.Id() != es[j].tx.Id()
      {
        assert (es + [e])[i] == es[i] && (es + [e])[j] == es[j];
      }
    }
  }

  lemma CloseKeepsSound(l: Ledger, height: int)
    requires Sound(l)
    ensures CommitInRange(l.meta, TxsOf(l.pending))
    ensures Sound(Closed(l, height))
  {
    CloseKeepsAtMost(l, height);
    CloseConserves(l, height);
    if DistinctIds(l.History()) { DistinctLosesNothing(l); }
    hide Supply;
    SettleBound(l.meta, TxsOf(l.pending));
    ClosedMeta(l, height);
    assert Closed(l, height).History() == l.History();
  }

  lemma ClosedMeta(l: Ledger, height: int)
    requires BitsFit(l.meta) && MetaMatches(l) && Delivered(l.meta, TxsOf(l.pending))
    requires CommitInRange(l.meta, TxsOf(l.pending))
    ensures MetaMatches(Closed(l, height)) && BitsFit(Closed(l, height).meta)
  {
    hide UnspentValue, CreatedTotal, CommitPuts;
    SettledKeys(l.meta, TxsOf(l.pending));
    SettleBound(l.meta, TxsOf(l.pending));
    assert TxsOf(l.committed + l.pending) == TxsOf(l.committed) + TxsOf(l.pending);
    CreatedIdsAppend(TxsOf(l.committed), TxsOf(l.pending));
    forall id | id in CreatedIds(TxsOf(l.pending)) ensures HasOutputs(id) {}
  }

  lemma {:induction false} CreatedIdsAppend(a: seq<TxAux>, b: seq<TxAux>)
    ensures CreatedIds(a + b) == CreatedIds(a) + CreatedIds(b)
  {
    forall id | id in CreatedIds(a) + CreatedIds(b) ensures id in CreatedIds(a + b) {
      var tx :| (tx in a || tx in b) && tx.CreatesOutputs() && tx.Id() == id;
      assert tx in a + b;
    }
  }

  lemma {:induction false} SettledKeys(meta: Meta, txs: seq<TxAux>)
    requires CommitInRange(meta, txs)
    ensures Settled(meta, txs).Keys == meta.Keys + CreatedIds(txs)
    decreases |txs|
  {
    if txs == [] {
      assert CreatedIds(txs) == {};
    } else {
      var init, tx := txs[..|txs| - 1], txs[|txs| - 1];
      LastInRange(meta, txs);
      hide PutsOf, CreatedIds, CommitInRange, InRange, Settled;
      assert txs == init + [tx];
      SettledKeys(meta, init);
      CreatedIdsPush(init, tx);
      SettledStep(meta, txs);
      PutsOfKeys(meta, tx);
    }
  }

  lemma LastInRange(meta: Meta, txs: seq<TxAux>)
    requires CommitInRange(meta, txs) && txs != []
    ensures CommitInRange(meta, txs[..|txs| - 1]) && InRange(meta, txs[|txs| - 1].Inputs())
  {
  }

  lemma SettledStep(meta: Meta, txs: seq<TxAux>)
    requires CommitInRange(meta, txs) && txs != []
    ensures CommitInRange(meta, txs[..|txs| - 1]) && InRange(meta, txs[|txs| - 1].Inputs())
    ensures Settled(meta, txs).Keys == Settled(meta, txs[..|txs| - 1]).Keys + PutsOf(meta, txs[|txs| - 1]).Keys
  {
    hide PutsOf;
    MergeAssoc(meta, CommitPuts(meta, txs[..|txs| - 1]), PutsOf(meta, txs[|txs| - 1]));
  }

  lemma PutsOfKeys(meta: Meta, tx: TxAux)
    requires InRange(meta, tx.Inputs())
    ensures PutsOf(meta, tx).Keys + meta.Keys == meta.Keys + (if tx.CreatesOutputs() then {tx.Id()} else {})
  {
  }
}
