/** Runs that show what the general results leave room for: one with transactions of every kind, one
    that loses coins, and one in which a client counts the supply twice. */
module SampleRuns {
  import opened Wrappers
  import opened Coins
  import opened Transactions
  import opened Staking
  import opened Validation
  import opened UtxoDb
  import opened Settlement
  import opened TxVerification
  import opened Ledger
  import opened UtxoHistory
  import opened StakingHistory
  import opened Genesis
  import opened Validators
  import opened BlockFilters
  import opened Merkle
  import opened AppHashes
  import opened NodeSteps
  import opened NodeInvariant
  import opened NodeRuns
  import opened LiveOutputs
  import opened LiveSupply
  import opened AddressIndex
  import opened ClientIndex
  import opened BlockSync
  import opened IndexOnChain
  import opened NodeSupply
  import opened RunBuilding

  // ---------- The configurations ----------

  /** Three empty reward pool addresses, a council node without stake, and two accounts. */
  function TwoAccounts(x: Coin, y: Coin): InitConfig {
    InitConfig([Allocation(0, 0, ExternallyOwnedAccount), Allocation(1, 0, ExternallyOwnedAccount),
                Allocation(2, 0, ExternallyOwnedAccount), Allocation(3, 0, ExternallyOwnedAccount),
                Allocation(4, x, ExternallyOwnedAccount), Allocation(5, y, ExternallyOwnedAccount)],
               0, 1, 2, 0, 60, [InitialValidator(3, Some(Ed25519(0)))])
  }

  function From(x: Coin, y: Coin, time: Timespec): Origin {
    Origin(TwoAccounts(x, y), time, 0)
  }

  lemma FindsOwn(c: InitConfig, i: nat)
    requires c.DistinctAddresses() && i < |c.distribution|
    ensures Find(c.distribution, c.distribution[i].address) == Some(c.distribution[i])
  {
    hide Find;
    var x := c.distribution[i];
    assert x in c.distribution;
    var r := Find(c.distribution, x.address);
    var j :| 0 <= j < |c.distribution| && c.distribution[j] == r.value;
  }

  lemma ConfigFinds(x: Coin, y: Coin)
    ensures var c := TwoAccounts(x, y);
            && c.DistinctAddresses()
            && Find(c.distribution, 0).Some? && Find(c.distribution, 1).Some? && Find(c.distribution, 2).Some?
            && Find(c.distribution, 3) == Some(Allocation(3, 0, ExternallyOwnedAccount))
  {
    hide Find;
    var c := TwoAccounts(x, y);
    FindsOwn(c, 0);
    FindsOwn(c, 1);
    FindsOwn(c, 2);
    FindsOwn(c, 3);
  }

  lemma TotalOf(v: nat, vs: seq<nat>)
    ensures Total([v] + vs) == v + Total(vs)
  {
    assert ([v] + vs)[1..] == vs;
  }

  lemma SixTotal(x: nat, y: nat)
    ensures Total([0, 0, 0, 0, x, y]) == x + y
  {
    var none: seq<nat> := [];
    assert Total(none) == 0;
    hide Total;
    TotalOf(y, none);
    TotalOf(x, [y]);
    TotalOf(0, [x, y]);
    TotalOf(0, [0, x, y]);
    TotalOf(0, [0, 0, x, y]);
    TotalOf(0, [0, 0, 0, x, y]);
    assert [y] + none == [y] && [x] + [y] == [x, y] && [0] + [x, y] == [0, x, y];
    assert [0] + [0, x, y] == [0, 0, x, y] && [0] + [0, 0, x, y] == [0, 0, 0, x, y];
    assert [0] + [0, 0, 0, x, y] == [0, 0, 0, 0, x, y];
  }

  lemma ConfigSum(x: Coin, y: Coin)
    requires x + y == MAX_COIN
    ensures SumCoins(Amounts(TwoAccounts(x, y).distribution)) == Ok(MAX_COIN)
  {
    var vs: seq<nat> := Amounts(TwoAccounts(x, y).distribution);
    assert vs == [0, 0, 0, 0, x, y];
    assert Total(vs) == x + y by { SixTotal(x, y); }
  }

  lemma ConfigCouncil(x: Coin, y: Coin)
    ensures CouncilValid(TwoAccounts(x, y))
  {
    hide Find;
    ConfigFinds(x, y);
  }

  lemma ConfigValidates(x: Coin, y: Coin, time: Timespec)
    requires x + y == MAX_COIN
    ensures TwoAccounts(x, y).DistinctAddresses() && Validated(TwoAccounts(x, y), time).Ok?
  {
    hide Find, SumCoins, CouncilError, CouncilValid, Amounts, StakedAccounts, PoolAmount, Council;
    ConfigFinds(x, y);
    ConfigSum(x, y);
    ConfigCouncil(x, y);
    CouncilAccepted(TwoAccounts(x, y));
  }

  function Account(n: nat): StakedStateAddress {
    BasicRedeem(n)
  }

  lemma GenesisAccount(c: InitConfig, time: Timespec, i: nat)
    requires c.DistinctAddresses() && Validated(c, time).Ok? && i < |c.distribution|
    requires !c.GoesToPool(c.distribution[i]) && c.distribution[i].address !in AccountsOf(c.councilNodes)
    ensures var m, a := AccountMap(Validated(c, time).value.accounts), BasicRedeem(c.distribution[i].address);
            a in m && m[a] == StakedState(0, 0, c.distribution[i].amount, time, a)
  {
    hide Validated, StakedAccounts, AccountMap, StakeTotal, PoolAmount, Total, Amounts, Council, AccountsOf;
    var validators := AccountsOf(c.councilNodes);
    ValidatedState(c, time);
    GenesisAccounts(c, c.distribution, validators, time);
    assert c.distribution[i] in c.distribution;
    assert Staked(AccountMap(StakedAccounts(c, c.distribution, validators, time)), c.distribution[i], validators, time);
  }

  lemma StartsResting(c: InitConfig, time: Timespec, chainHexId: nat)
    requires c.DistinctAddresses() && Validated(c, time).Ok?
    ensures var s := Initial(c, time, chainHexId);
            && Resting(Origin(c, time, chainHexId), [], s)
            && Current(s).accounts == AccountMap(Validated(c, time).value.accounts) && Current(s).meta == map[]
            && s.past.committed == [] && s.past.batches == [] && s.past.commits == [] && s.node.saved.height == 0
  {
    hide Validated, AccountMap, PubKeys, BuiltFrom;
  }

  lemma OutsideCouncil(x: Coin, y: Coin)
    ensures var c := TwoAccounts(x, y);
            && |c.distribution| == 6 && c.unbondingPeriod == 60
            && 4 !in AccountsOf(c.councilNodes) && 5 !in AccountsOf(c.councilNodes)
            && c.distribution[4] == Allocation(4, x, ExternallyOwnedAccount) && !c.GoesToPool(c.distribution[4])
            && c.distribution[5] == Allocation(5, y, ExternallyOwnedAccount) && !c.GoesToPool(c.distribution[5])
  {
  }

  lemma Starts(x: Coin, y: Coin, time: Timespec) returns (s: State)
    requires x + y == MAX_COIN
    ensures Resting(From(x, y, time), [], s)
    ensures var m := Current(s).accounts;
            && Account(4) in m && m[Account(4)] == StakedState(0, 0, x, time, Account(4))
            && Account(5) in m && m[Account(5)] == StakedState(0, 0, y, time, Account(5))
    ensures s.past.committed == [] && s.past.batches == [] && s.past.commits == [] && s.node.saved.height == 0
    ensures Current(s).meta == map[] && Supply(Current(s)) == MAX_COIN
  {
    hide Validated, AccountMap, Initial, Supply, TwoAccounts, AccountsOf, Resting, Current;
    var c := TwoAccounts(x, y);
    ConfigValidates(x, y, time);
    OutsideCouncil(x, y);
    StartsResting(c, time, 0);
    InitialSupply(c, time, 0);
    GenesisAccount(c, time, 4);
    GenesisAccount(c, time, 5);
    s := Initial(c, time, 0);
  }

  // ---------- Transactions ----------

  function Withdrawal(amount: Coin, to: ExtendedAddr, time: Timespec, views: seq<nat>): WithdrawUnbondedTx {
    WithdrawUnbondedTx(0, [TxOut(to, amount, Some(time))], TxAttributes(0, views))
  }

  /** Signed by the owner of this account. */
  function SignedWithdrawal(w: WithdrawUnbondedTx, account: StakedStateAddress): TxAux {
    WithdrawUnbondedStakeTx(
      WithdrawId(w), |w.outputs|, StakedStateOpWitness(map[WithdrawId(w) := account]), PlainWithdraw(w))
  }

  lemma OneOutput(o: TxOut)
    ensures Total(Values([o])) == o.value
  {
    assert Values([o]) == [o.value];
    assert [o.value][1..] == [];
  }

  lemma WithdrawalAllowed(
    meta: Meta, accounts: Accounts, store: Store, amount: Coin, to: ExtendedAddr, time: Timespec, views: seq<nat>,
    n: nat, period: nat)
    requires amount > 0 && Account(n) in accounts
    requires accounts[Account(n)] == StakedState(0, 0, amount, time, Account(n))
    ensures var tx := SignedWithdrawal(Withdrawal(amount, to, time, views), Account(n));
            tx.WellFormed() && Allowed(meta, accounts, store, tx, ChainInfo(0, 0, time, period))
  {
    OneOutput(TxOut(to, amount, Some(time)));
  }

  /** One input of this owner, one output. */
  function Payment(p: TxoPointer, to: ExtendedAddr, amount: Coin, views: seq<nat>): Tx {
    Tx([p], [TxOut(to, amount, None)], TxAttributes(0, views))
  }

  function SignedPayment(t: Tx, owner: ExtendedAddr): TxAux {
    TransferTx(TransferId(t), t.inputs, |t.outputs|, PlainTransfer(t, [TxInWitness({(TransferId(t), owner)})]))
  }

  lemma OneInput(p: TxoPointer)
    requires p.index < |Outputs(p.id)|
    ensures InputTotal([p]) == Outputs(p.id)[p.index].value
  {
    LiveSupply.NoInputs();
    InputTotalPush([], p);
    assert [] + [p] == [p];
  }

  predicate Holds(p: TxoPointer, owner: ExtendedAddr, amount: Coin, time: Timespec) {
    && p.index < |Outputs(p.id)| && Outputs(p.id)[p.index].address == owner
    && Outputs(p.id)[p.index].value == amount && Unlocked(Outputs(p.id)[p.index], time)
  }

  lemma PaymentAllowed(
    meta: Meta, accounts: Accounts, store: Store, p: TxoPointer, owner: ExtendedAddr, to: ExtendedAddr, amount: Coin,
    time: Timespec, views: seq<nat>, period: nat)
    requires Unspent(meta, p) && p.id in store && Holds(p, owner, amount, time) && amount > 0
    ensures var tx := SignedPayment(Payment(p, to, amount, views), owner);
            tx.WellFormed() && Allowed(meta, accounts, store, tx, ChainInfo(0, 0, time, period))
  {
    OneInput(p);
    OneOutput(TxOut(to, amount, None));
  }

  function Deposit(p: TxoPointer, account: StakedStateAddress): DepositBondTx {
    DepositBondTx([p], account, 0)
  }

  function SignedDeposit(d: DepositBondTx, owner: ExtendedAddr): TxAux {
    DepositStakeTx(d, PlainDeposit([TxInWitness({(DepositId(d), owner)})]))
  }

  lemma DepositIsAllowed(
    meta: Meta, accounts: Accounts, store: Store, p: TxoPointer, owner: ExtendedAddr, amount: Coin,
    time: Timespec, account: StakedStateAddress, period: nat)
    requires Unspent(meta, p) && p.id in store && Holds(p, owner, amount, time) && amount > 0
    ensures var tx := SignedDeposit(Deposit(p, account), owner);
            tx.WellFormed() && Allowed(meta, accounts, store, tx, ChainInfo(0, 0, time, period))
  {
    OneInput(p);
  }

  function SignedUnbonding(u: UnbondTx, account: StakedStateAddress): TxAux {
    UnbondStakeTx(u, StakedStateOpWitness(map[UnbondId(u) := account]))
  }

  lemma UnbondingAllowed(
    meta: Meta, accounts: Accounts, store: Store, u: UnbondTx, account: StakedStateAddress, time: Timespec, period: nat)
    requires account in accounts && u.chainHexId == 0 && u.nonce == accounts[account].nonce
    requires 0 < u.value <= accounts[account].bonded
    ensures var tx := SignedUnbonding(u, account);
            tx.WellFormed() && Allowed(meta, accounts, store, tx, ChainInfo(0, 0, time, period))
  {
  }

  // ---------- The supply goes away and comes back ----------

  const HERE := OrTree(0)
  const ELSEWHERE := OrTree(1)
  const KEY: nat := 7

  /** The whole supply is withdrawn to one address, paid to another one, and paid back. The first and
      the last of these are shared with the view key. */
  function First(time: Timespec): WithdrawUnbondedTx {
    Withdrawal(MAX_COIN, HERE, time, [KEY])
  }

  function Away(time: Timespec): Tx {
    Payment(TxoPointer(WithdrawId(First(time)), 0), ELSEWHERE, MAX_COIN, [])
  }

  function Back(time: Timespec): Tx {
    Payment(TxoPointer(TransferId(Away(time)), 0), HERE, MAX_COIN, [KEY])
  }

  function ThreeIds(time: Timespec): (ids: seq<TxId>)
    ensures |ids| == 3
  {
    [WithdrawId(First(time)), TransferId(Away(time)), TransferId(Back(time))]
  }

  function ThreeTxs(time: Timespec): (txs: seq<TxAux>)
    ensures |txs| == 3
  {
    [SignedWithdrawal(First(time), Account(4)), SignedPayment(Away(time), HERE), SignedPayment(Back(time), ELSEWHERE)]
  }

  /** The beginning of the three. */
  predicate AreThree(time: Timespec, es: seq<Entry>) {
    |es| <= 3 && forall i | 0 <= i < |es| :: es[i].tx == ThreeTxs(time)[i]
  }

  function Singles(es: seq<Entry>): (r: seq<seq<Entry>>)
    ensures |r| == |es|
  {
    seq(|es|, i requires 0 <= i < |es| => [es[i]])
  }

  predicate CountUp(commits: seq<CommitRecord>) {
    forall i | 0 <= i < |commits| :: commits[i].height == i + 1
  }

  ghost predicate Owns(s: State, a: StakedState) {
    a.address in Current(s).accounts && Current(s).accounts[a.address] == a
  }

  /** Each of these was committed in a block of its own. */
  ghost predicate Stage(o: Origin, evs: seq<Event>, s: State, es: seq<Entry>) {
    && Resting(o, evs, s) && s.past.committed == es && s.past.batches == Singles(es)
    && |s.past.commits| == |es| && s.node.saved.height == |es| && CountUp(s.past.commits)
  }

  /** One more block with one transaction. */
  lemma NextStage(o: Origin, evs: seq<Event>, s: State, es: seq<Entry>, time: Timespec, tx: TxAux)
    returns (evs': seq<Event>, t: State, e: Entry)
    requires Stage(o, evs, s, es) && tx.WellFormed()
    requires Allowed(Current(s).meta, Current(s).accounts, s.node.store, tx,
                     ChainInfo(0, o.chainHexId, time, o.config.unbondingPeriod))
    ensures Stage(o, evs', t, es + [e]) && e.tx == tx && t.past.genesisHash == s.past.genesisHash
    ensures Effect(Current(s).accounts, tx, ChainInfo(0, o.chainHexId, time, o.config.unbondingPeriod),
                   e.fee, e.account)
    ensures Current(t).accounts == PutAccount(Current(s).accounts, e.account)
  {
    hide Resting, Allowed, Effect, Current;
    evs', t, e := OneTxBlock(o, evs, s, time, tx);
    assert Singles(es + [e]) == Singles(es) + [[e]];
  }

  lemma ThreeDistinct(time: Timespec, es: seq<Entry>)
    requires AreThree(time, es)
    ensures DistinctIds(es) && (forall i | 0 <= i < |es| :: es[i].tx.Id() == ThreeIds(time)[i])
    ensures forall e | e in es :: TxoPointer(ThreeIds(time)[|es| - 1], 0) !in e.tx.Inputs()
  {
  }

  lemma LastHolds(time: Timespec, n: nat)
    requires 0 < n <= 3
    ensures Holds(TxoPointer(ThreeIds(time)[n - 1], 0), if n == 2 then ELSEWHERE else HERE, MAX_COIN, time)
    ensures ThreeTxs(time)[n - 1].CreatesOutputs() && HasOutputs(ThreeIds(time)[n - 1])
  {
  }

  /** The output of the last of them can be spent. */
  lemma LastCanBeSpent(time: Timespec, evs: seq<Event>, s: State, es: seq<Entry>)
    requires Stage(From(MAX_COIN, 0, time), evs, s, es) && AreThree(time, es) && es != []
    ensures var p := TxoPointer(ThreeIds(time)[|es| - 1], 0);
            && Unspent(Current(s).meta, p) && p.id in s.node.store
            && Holds(p, if |es| == 2 then ELSEWHERE else HERE, MAX_COIN, time)
  {
    hide Current, Resting, Leads, DistinctIds, Unspent, ThreeIds, ThreeTxs, From;
    var p := TxoPointer(ThreeIds(time)[|es| - 1], 0);
    ThreeDistinct(time, es);
    LastHolds(time, |es|);
    RestingLeads(From(MAX_COIN, 0, time), evs, s);
    assert s.past.committed + s.past.pending == es;
    CanSpend(From(MAX_COIN, 0, time), evs, s, p, |es| - 1);
  }

  lemma FirstBlock(time: Timespec) returns (evs: seq<Event>, s: State, es: seq<Entry>)
    ensures Stage(From(MAX_COIN, 0, time), evs, s, es) && AreThree(time, es) && |es| == 1
    ensures Owns(s, StakedState(1, 0, 0, time, Account(4)))
  {
    hide Resting, Allowed, Current;
    var o := From(MAX_COIN, 0, time);
    var s0 := Starts(MAX_COIN, 0, time);
    assert Stage(o, [], s0, []);
    WithdrawalAllowed(Current(s0).meta, Current(s0).accounts, s0.node.store, MAX_COIN, HERE, time, [KEY], 4, 60);
    var evs1, s1, e := NextStage(o, [], s0, [], time, ThreeTxs(time)[0]);
    evs, s, es := evs1, s1, [e];
    assert [] + [e] == [e];
  }

  lemma PaymentBlock(time: Timespec, evs: seq<Event>, s: State, es: seq<Entry>)
    returns (evs': seq<Event>, t: State, es': seq<Entry>)
    requires Stage(From(MAX_COIN, 0, time), evs, s, es) && AreThree(time, es) && 0 < |es| < 3
    ensures Stage(From(MAX_COIN, 0, time), evs', t, es') && AreThree(time, es') && |es'| == |es| + 1
    ensures Current(t).accounts == Current(s).accounts
  {
    hide Resting, Allowed, Current;
    var p := TxoPointer(ThreeIds(time)[|es| - 1], 0);
    var owner, to := if |es| == 2 then ELSEWHERE else HERE, if |es| == 2 then HERE else ELSEWHERE;
    LastCanBeSpent(time, evs, s, es);
    PaymentAllowed(Current(s).meta, Current(s).accounts, s.node.store, p, owner, to, MAX_COIN, time,
                   if |es| == 2 then [KEY] else [], 60);
    var tx := ThreeTxs(time)[|es|];
    var evs1, s1, e := NextStage(From(MAX_COIN, 0, time), evs, s, es, time, tx);
    evs', t, es' := evs1, s1, es + [e];
  }

  /** The run of the three transactions. */
  lemma ThreeBlocks(time: Timespec) returns (evs: seq<Event>, s: State, es: seq<Entry>)
    ensures Stage(From(MAX_COIN, 0, time), evs, s, es) && AreThree(time, es) && |es| == 3
    ensures Owns(s, StakedState(1, 0, 0, time, Account(4)))
  {
    hide Stage, AreThree, Current;
    var evs1, s1, es1 := FirstBlock(time);
    var evs2, s2, es2 := PaymentBlock(time, evs1, s1, es1);
    evs, s, es := PaymentBlock(time, evs2, s2, es2);
  }

  // ---------- Every kind of transaction ----------

  function Last(time: Timespec): DepositBondTx {
    Deposit(TxoPointer(TransferId(Back(time)), 0), Account(4))
  }

  lemma DepositBlock(time: Timespec) returns (evs: seq<Event>, s: State, es: seq<Entry>)
    ensures Stage(From(MAX_COIN, 0, time), evs, s, es) && |es| == 4 && AreThree(time, es[..3])
    ensures es[3].tx == SignedDeposit(Last(time), HERE)
    ensures Owns(s, StakedState(2, MAX_COIN, 0, time, Account(4)))
  {
    hide Resting, Allowed, AreThree, Current;
    var evs3, s3, es3 := ThreeBlocks(time);
    var p := TxoPointer(TransferId(Back(time)), 0);
    LastCanBeSpent(time, evs3, s3, es3);
    DepositIsAllowed(Current(s3).meta, Current(s3).accounts, s3.node.store, p, HERE, MAX_COIN, time, Account(4), 60);
    OneInput(p);
    var tx := SignedDeposit(Last(time), HERE);
    var evs4, s4, e := NextStage(From(MAX_COIN, 0, time), evs3, s3, es3, time, tx);
    evs, s, es := evs4, s4, es3 + [e];
    assert es[..3] == es3;
  }

  lemma UnbondBlock(time: Timespec) returns (evs: seq<Event>, s: State, es: seq<Entry>)
    ensures Stage(From(MAX_COIN, 0, time), evs, s, es) && |es| == 5 && AreThree(time, es[..3])
    ensures es[3].tx.DepositStakeTx? && es[4].tx.UnbondStakeTx?
  {
    hide Resting, Allowed, Current, Effect, AreThree;
    var evs4, s4, es4 := DepositBlock(time);
    var u := UnbondTx(1, 2, 0);
    UnbondingAllowed(Current(s4).meta, Current(s4).accounts, s4.node.store, u, Account(4), time, 60);
    var evs5, s5, e := NextStage(From(MAX_COIN, 0, time), evs4, s4, es4, time, SignedUnbonding(u, Account(4)));
    evs, s, es := evs5, s5, es4 + [e];
    assert es[..3] == es4[..3];
  }

  /** A run in which a withdrawal, two transfers, a deposit and an unbonding are accepted and
      committed, each in a block of its own, and after which the node is restarted. */
  lemma EveryKindAccepted(time: Timespec) returns (evs: seq<Event>, s: State)
    ensures Reaches(TwoAccounts(MAX_COIN, 0), time, 0, evs, s) && evs != [] && evs[|evs| - 1].RestartEvent?
    ensures |s.past.committed| == 5 && |s.past.commits| == 5
    ensures s.past.committed[0].tx.WithdrawUnbondedStakeTx?
    ensures s.past.committed[1].tx.TransferTx? && s.past.committed[2].tx.TransferTx?
    ensures s.past.committed[3].tx.DepositStakeTx? && s.past.committed[4].tx.UnbondStakeTx?
  {
    hide Resting, RunStep, Reaches, TwoAccounts;
    var evs5, s5, es := UnbondBlock(time);
    assert es[..3][0] == es[0] && es[..3][1] == es[1] && es[..3][2] == es[2];
    var o, none: set<TxId> := From(MAX_COIN, 0, time), {};
    RestingLeads(o, evs5, s5);
    LeadsPush(o, evs5, s5, RestartEvent(none));
    RestartKeepsPast(s5, none);
    evs, s := evs5 + [RestartEvent(none)], RunStep(s5, RestartEvent(none)).value;
  }

  lemma RestingLeads(o: Origin, evs: seq<Event>, s: State)
    requires Resting(o, evs, s)
    ensures Leads(o, evs, s) && s.past.pending == []
  {
  }

  lemma RestartKeepsPast(s: State, kept: set<TxId>)
    requires RunStep(s, RestartEvent(kept)).Some?
    ensures RunStep(s, RestartEvent(kept)).value.past.committed == s.past.committed
    ensures RunStep(s, RestartEvent(kept)).value.past.commits == s.past.commits
  {
    hide RestoredPowers, PubKeys, ViewOf;
  }

  // ---------- A client that misses a spend ----------

  const WATCHER := Wallet(KEY, {})

  lemma ClientSees(a: TxId, b: TxId, q: TxoPointer)
    requires InputsOf(a) == [] && InputsOf(b) == [q] && |Outputs(a)| == 1 && |Outputs(b)| == 1
    ensures forall p :: p in CreatedBy([a, b]) <==> p in [TxoPointer(a, 0), TxoPointer(b, 0)]
    ensures forall p :: p in ConsumedBy([a, b]) <==> p == q
  {
    var ids := [a, b];
    assert ids[0] in ids && ids[1] in ids && q in InputsOf(b);
  }

  /** Two outputs with the supply, although the second was paid from the first. */
  lemma TwiceTheSupply(time: Timespec)
    ensures Value(LiveAt([WithdrawId(First(time)), TransferId(Back(time))], HERE)) == 2 * MAX_COIN
  {
    var ids := [WithdrawId(First(time)), TransferId(Back(time))];
    var p, q := TxoPointer(ids[0], 0), TxoPointer(ids[1], 0);
    var x, y := OutputAt(p), OutputAt(q);
    ClientSees(ids[0], ids[1], TxoPointer(TransferId(Away(time)), 0));
    assert p != TxoPointer(TransferId(Away(time)), 0) && q != TxoPointer(TransferId(Away(time)), 0);
    hide CreatedBy, ConsumedBy;
    var m: Outs := map[];
    assert LiveAt(ids, HERE) == m[p := x][q := y];
    ValueEmpty();
    ValueInsert(m, p, x);
    ValueInsert(m[p := x], q, y);
  }

  function ThreeTransactions(time: Timespec): (ts: seq<Transaction>)
    ensures |ts| == 3 && forall i | 0 <= i < 3 :: ts[i].Id() == ThreeIds(time)[i]
  {
    [WithdrawUnbondedStakeTransaction(First(time)), TransferTransaction(Away(time)), TransferTransaction(Back(time))]
  }

  /** A block with one transaction, as the watcher gets it. */
  function SeenBlock(height: nat, appHash: AppHash, t: Transaction): Block {
    var hit := SharedWith(t.Id(), KEY);
    Block(height, 0, appHash, [t.Id()], [], false, hit, Ok(if hit then [t] else []))
  }

  lemma {:induction false} NoKeyStaked(es: seq<Entry>, key: nat)
    ensures ViewKey(key) !in StakedIn(es).added
    decreases |es|
  {
    if es != [] { NoKeyStaked(es[..|es| - 1], key); }
  }

  lemma SoleViews(e: Entry)
    requires IdFits(e.tx) && e.tx.CreatesOutputs()
    ensures ViewKey(KEY) in FilterFor([e]).added <==> SharedWith(e.tx.Id(), KEY)
  {
    NoKeyStaked([e], KEY);
    AddedViews(StakedIn([e]), TxsOf([e]), ViewKey(KEY));
    assert TxsOf([e]) == [e.tx];
    assert ViewKey(KEY) in ViewsOf(e.tx) <==> SharedWith(e.tx.Id(), KEY);
    assert e.tx in [e.tx];
  }

  lemma AnswersOne(t: Transaction)
    ensures Answers(KEY, [t.Id()], if SharedWith(t.Id(), KEY) then [t] else [])
  {
    var ks: seq<nat>, none: seq<nat> := [0], [];
    var one, nothing: seq<Transaction> := [t], [];
    assert Selection(ks, 1) && BlockSync.IdsOf(one) == [t.Id()] == Picked([t.Id()], ks);
    assert Selection(none, 1) && BlockSync.IdsOf(nothing) == [] == Picked([t.Id()], none);
  }

  lemma ServesSeen(c: CommitRecord, e: Entry, height: nat, appHash: AppHash, t: Transaction)
    requires c.txids == HistoryIds([e]) && c.filter == FilterFor([e]) && e.tx.Id() == t.Id()
    requires IdFits(e.tx) && e.tx.CreatesOutputs() && HasOutputs(t.Id())
    ensures ServesBlock(c, WATCHER, SeenBlock(height, appHash, t))
  {
    SoleViews(e);
    AnswersOne(t);
    hide FilterFor, Answers, IdFits;
    assert HistoryIds([e]) == [t.Id()];
  }

  function SeenChain(genesis: AppHash, commits: seq<CommitRecord>, time: Timespec): (chain: seq<Block>)
    requires |commits| == 3
    ensures |chain| == 3
  {
    seq(3, i requires 0 <= i < 3 => SeenBlock(i + 1, LatestHash(genesis, commits[..i]), ThreeTransactions(time)[i]))
  }

  lemma SeenIds(genesis: AppHash, commits: seq<CommitRecord>, time: Timespec)
    requires |commits| == 3
    ensures Ids(AllItems(SeenChain(genesis, commits, time), 3)) == [ThreeIds(time)[0], ThreeIds(time)[2]]
    ensures Decrypts(SeenChain(genesis, commits, time))
  {
    var chain := SeenChain(genesis, commits, time);
    var ts := ThreeTransactions(time);
    SeenItems(1, LatestHash(genesis, commits[..0]), ts[0]);
    SeenItems(2, LatestHash(genesis, commits[..1]), ts[1]);
    SeenItems(3, LatestHash(genesis, commits[..2]), ts[2]);
    hide BlockItems, LatestHash, Ids;
    assert SharedWith(ts[0].Id(), KEY) && !SharedWith(ts[1].Id(), KEY) && SharedWith(ts[2].Id(), KEY);
    AllItemsIds(chain, 3);
    var hs := HandledIds(chain, 3);
    assert hs == [[ts[0].Id()], [], [ts[2].Id()]];
    ConcatFirstAndThird(ts[0].Id(), ts[2].Id());
    hide Concat;
  }

  lemma ConcatFirstAndThird(x: TxId, y: TxId)
    ensures Concat([[x], [], [y]]) == [x, y]
  {
    var hs: seq<seq<TxId>> := [[x], [], [y]];
    assert hs[..2] == [[x], []] && hs[..2][..1] == [[x]] && hs[..2][..1][..0] == [];
    assert Concat(hs[..2][..1]) == [x];
    assert Concat(hs[..2]) == [x];
  }

  lemma SeenItems(height: nat, appHash: AppHash, t: Transaction)
    ensures Ids(BlockItems(SeenBlock(height, appHash, t))) == if SharedWith(t.Id(), KEY) then [t.Id()] else []
  {
  }

  lemma ServesOne(time: Timespec, evs: seq<Event>, s: State, es: seq<Entry>, i: nat, appHash: AppHash)
    requires Stage(From(MAX_COIN, 0, time), evs, s, es) && AreThree(time, es) && i < |es| == 3
    ensures ServesBlock(s.past.commits[i], WATCHER, SeenBlock(i + 1, appHash, ThreeTransactions(time)[i]))
  {
    hide Resting, Leads, ServesBlock, SeenBlock, Batched, IdFits, EntryLegal, FilterFor, ThreeIds, ThreeTxs;
    hide ThreeTransactions, From, Reaches, DistinctIds, HistoryIds;
    var o := From(MAX_COIN, 0, time);
    RestingLeads(o, evs, s);
    LeadsReaches(o, evs, s);
    ThreeDistinct(time, es);
    assert s.past.batches[i] == [es[i]] && es[i] in s.past.batches[i];
    var before := ReachedBatch(o.config, o.time, o.chainHexId, evs, s, i, es[i]);
    LegalIdFits(before, es[i]);
    AnnouncedBatch(s.past.commits, s.past.batches, i);
    LastHolds(time, i + 1);
    ServesSeen(s.past.commits[i], es[i], i + 1, appHash, ThreeTransactions(time)[i]);
  }

  lemma LeadsReaches(o: Origin, evs: seq<Event>, s: State)
    requires Leads(o, evs, s)
    ensures Reaches(o.config, o.time, o.chainHexId, evs, s)
  {
  }

  lemma ServesThree(time: Timespec, evs: seq<Event>, s: State, es: seq<Entry>)
    requires Stage(From(MAX_COIN, 0, time), evs, s, es) && AreThree(time, es) && |es| == 3
    ensures Serves(s.past.genesisHash, s.past.commits, WATCHER, SeenChain(s.past.genesisHash, s.past.commits, time))
  {
    hide Resting, ServesBlock, LatestHash, AreThree, ThreeTransactions;
    var chain := SeenChain(s.past.genesisHash, s.past.commits, time);
    forall i | 0 <= i < 3 ensures ServesBlock(s.past.commits[i], WATCHER, chain[i]) {
      ServesOne(time, evs, s, es, i, LatestHash(s.past.genesisHash, s.past.commits[..i]));
    }
  }

  /** The whole supply comes to one address, moves away, and comes back. A client that is not told of
      the second transaction handles everything that concerns it, counts the supply twice, and fails
      on the third block. */
  lemma MissedSpendOverflows(time: Timespec) returns (evs: seq<Event>, s: State, chain: seq<Block>)
    ensures Reaches(TwoAccounts(MAX_COIN, 0), time, 0, evs, s) && DistinctIds(s.past.committed)
    ensures HistoryIds(s.past.committed) == ThreeIds(time)
    ensures Serves(s.past.genesisHash, s.past.commits, WATCHER, chain) && Decrypts(chain)
    ensures |chain| == 3 && Ids(AllItems(chain, 3)) == [ThreeIds(time)[0], ThreeIds(time)[2]]
    ensures Naive(NewIndex(), chain, 0, 3).Err?
  {
    hide Resting, TwoAccounts, Serves, Decrypts, Naive, Reaches, Ids, AllItems, Value, LiveAt, DistinctIds, SeenChain;
    var evs3, s3, es := ThreeBlocks(time);
    evs, s := evs3, s3;
    chain := SeenChain(s.past.genesisHash, s.past.commits, time);
    RestingLeads(From(MAX_COIN, 0, time), evs, s);
    ThreeDistinct(time, es);
    assert HistoryIds(es) == ThreeIds(time);
    ServesThree(time, evs, s, es);
    SeenIds(s.past.genesisHash, s.past.commits, time);
    BlocksIndexExact(TwoAccounts(MAX_COIN, 0), time, 0, evs, s, WATCHER, chain, 3);
    TwiceTheSupply(time);
    var items := AllItems(chain, 3);
    assert items[..|items|] == items;
    assert Value(LiveAt(Ids(items), HERE)) > MAX_COIN;
    assert !Fits(Ids(items[..|items|]));
  }

  // ---------- Two withdrawals with one id ----------

  const HALF: Coin := MAX_COIN / 2

  /** Two accounts with the same amount and nonce withdraw to equal outputs: the witness is not part
      of the id, so the ids are equal. */
  function Twin(time: Timespec, n: nat): TxAux {
    SignedWithdrawal(Withdrawal(HALF, HERE, time, []), Account(n))
  }

  lemma TwinsAlike(time: Timespec)
    ensures Twin(time, 4).Id() == Twin(time, 5).Id()
  {
  }

  lemma OtherKept(l: Ledger, time: Timespec, info: ChainInfo, e: Entry)
    requires e.tx == Twin(time, 4) && Effect(l.accounts, e.tx, info, e.fee, e.account)
    requires AddressesMatch(l.accounts) && Account(5) in l.accounts
    ensures Account(5) in Accepted(l, e).accounts && Accepted(l, e).accounts[Account(5)] == l.accounts[Account(5)]
  {
    hide AfterSpending;
  }

  lemma NothingToSpend(l: Ledger, e: Entry)
    requires l.meta == map[]
    ensures Accepted(l, e).meta == map[]
  {
  }

  lemma AddressesOk(o: Origin, evs: seq<Event>, s: State, time: Timespec)
    requires Working(o, evs, s, time)
    ensures AddressesMatch(Current(s).accounts)
  {
    hide Reaches, LegalHistory, UtxoInvariant, Linked, FilterOk, NodeInvariant.StoreOk, ValidatorsOk, HashesOk, Supply;
    WorkingReaches(o, evs, s, time);
    ReachedInvariant(o.config, o.time, o.chainHexId, evs, s);
  }

  lemma DeliverTwins(time: Timespec) returns (evs: seq<Event>, s: State)
    ensures Working(From(HALF, HALF, time), evs, s, time)
    ensures TxsOf(Current(s).pending) == [Twin(time, 4), Twin(time, 5)] && s.past.committed == []
    ensures Current(s).meta == map[] && Supply(Current(s)) == MAX_COIN
  {
    hide Resting, Leads, Allowed, Untracked, Current, Accepted, Effect, TwoAccounts, Supply;
    var o := From(HALF, HALF, time);
    OutsideCouncil(HALF, HALF);
    var s0 := Starts(HALF, HALF, time);
    var evs1, s1 := Begin(o, [], s0, time);
    WithdrawalAllowed(Current(s1).meta, Current(s1).accounts, s1.node.store, HALF, HERE, time, [], 4, 60);
    var evs2, s2, e := Deliver(o, evs1, s1, time, Twin(time, 4));
    AddressesOk(o, evs1, s1, time);
    OtherKept(Current(s1), time, s1.node.Info(0), e);
    NothingToSpend(Current(s1), e);
    WithdrawalAllowed(Current(s2).meta, Current(s2).accounts, s2.node.store, HALF, HERE, time, [], 5, 60);
    var evs3, s3, d := Deliver(o, evs2, s2, time, Twin(time, 5));
    evs, s := evs3, s3;
    RestingLeads(o, [], s0);
    CurrentPending(s3);
    NothingToSpend(Current(s2), d);
    assert s3.past.pending == [e, d];
  }

  lemma TwinValue(time: Timespec, n: nat)
    ensures Created(Twin(time, n)) == HALF && OutputTotal(Twin(time, n).Id()) == HALF
  {
    OneOutput(TxOut(HERE, HALF, Some(time)));
  }

  lemma TwinsCreate(time: Timespec)
    ensures CreatedTotal([Twin(time, 4), Twin(time, 5)]) == MAX_COIN
  {
    hide Created, CreatedTotal, Twin;
    var t, u := Twin(time, 4), Twin(time, 5);
    TwinValue(time, 4);
    TwinValue(time, 5);
    NothingCreated();
    CreatedTotalPush([], t);
    CreatedTotalPush([t], u);
    assert [] + [t] == [t] && [t] + [u] == [t, u];
  }

  lemma TwinPuts(time: Timespec, n: nat)
    ensures InRange(map[], Twin(time, n).Inputs())
    ensures PutsOf(map[], Twin(time, n)) == map[Twin(time, 4).Id() := FreshBits(|Outputs(Twin(time, 4).Id())|)]
  {
    hide FreshBits;
    var none: Meta := map[];
    assert SpendPuts(none, []) == none;
  }

  /** Together they create the supply, but they leave one bitmap, worth half of it. */
  lemma TwinsSettle(time: Timespec)
    ensures var txs := [Twin(time, 4), Twin(time, 5)];
            CommitInRange(map[], txs) && UnspentValue(Settled(map[], txs)) == HALF
  {
    hide Twin, UnspentValue, FreshBits, OutputTotal, PutsOf, InRange;
    var t, u, nothing: Meta := Twin(time, 4), Twin(time, 5), map[];
    var one := map[t.Id() := FreshBits(|Outputs(t.Id())|)];
    TwinPuts(time, 4);
    TwinPuts(time, 5);
    assert [t, u][..1] == [t] && [t][..0] == [];
    assert CommitPuts(nothing, [t]) == nothing + one;
    assert CommitPuts(nothing, [t, u]) == CommitPuts(nothing, [t]) + one;
    assert Settled(nothing, [t, u]) == one;
    assert one == nothing[t.Id() := FreshBits(|Outputs(t.Id())|)];
    PutFresh(nothing, t.Id());
    NothingUnspent();
    TwinValue(time, 4);
  }

  lemma NothingCreated()
    ensures CreatedTotal([]) == 0
  {
  }

  lemma NothingUnspent()
    ensures UnspentValue(map[]) == 0
  {
    assert ValueMap(map[]) == map[];
  }

  lemma ClosedTwins(l: Ledger, height: int, time: Timespec)
    requires l.meta == map[] && TxsOf(l.pending) == [Twin(time, 4), Twin(time, 5)]
    ensures CommitInRange(l.meta, TxsOf(l.pending)) && Supply(Closed(l, height)) + HALF == Supply(l)
  {
    hide UnspentValue, StakeTotal, CreatedTotal, Settled, CommitInRange, Twin;
    TwinsSettle(time);
    TwinsCreate(time);
    NothingCreated();
    NothingUnspent();
    assert TxsOf([]) == [];
  }

  /** Both withdrawals are accepted and committed, and half of the supply is gone. */
  lemma EqualIdsLoseCoins(time: Timespec) returns (evs: seq<Event>, s: State)
    ensures Reaches(TwoAccounts(HALF, HALF), time, 0, evs, s)
    ensures TxsOf(s.past.committed) == [Twin(time, 4), Twin(time, 5)] && Twin(time, 4).Id() == Twin(time, 5).Id()
    ensures Supply(Current(s)) == HALF
  {
    hide Resting, Working, Leads, Reaches, Current, Supply, Closed, TwoAccounts, TxsOf, Twin;
    var o := From(HALF, HALF, time);
    TwinsAlike(time);
    var evs1, s1 := DeliverTwins(time);
    var evs2, s2 := Finish(o, evs1, s1, time);
    evs, s := evs2, s2;
    RestingLeads(o, evs, s);
    LeadsReaches(o, evs, s);
    ClosedTwins(Current(s1), s1.node.saved.height + 1, time);
    CurrentPending(s1);
    assert [] + s1.past.pending == s1.past.pending;
  }

  lemma WorkingReaches(o: Origin, evs: seq<Event>, s: State, time: Timespec)
    requires Working(o, evs, s, time)
    ensures Reaches(o.config, o.time, o.chainHexId, evs, s)
  {
  }

  lemma CurrentPending(s: State)
    ensures Current(s).pending == s.past.pending
  {
  }
}
