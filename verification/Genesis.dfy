/** The initial configuration and the state it yields (chain-core/src/init/config.rs). */
module Genesis {
  import opened Wrappers
  import opened Coins
  import opened MapSums
  import opened Transactions
  import opened Staking
  import opened TxVerification
  import opened Ledger

  type RedeemAddress = nat

  datatype AccountType = ExternallyOwnedAccount | Contract
  datatype PubKey = Ed25519(bytes: nat)

  datatype Allocation = Allocation(address: RedeemAddress, amount: Coin, kind: AccountType)

  /** `key` is what decoding the consensus key gives: `None` when it is not a 32-byte key. */
  datatype InitialValidator = InitialValidator(account: RedeemAddress, key: Option<PubKey>)

  datatype CouncilNode = CouncilNode(stakingAccount: StakedStateAddress, consensusKey: PubKey)

  /** The distribution is a map in the source; here it is the list of its entries in key order. */
  datatype InitConfig = InitConfig(
    distribution: seq<Allocation>, launchIncentiveFrom: RedeemAddress, launchIncentiveTo: RedeemAddress,
    longTermIncentive: RedeemAddress, requiredStake: Coin, unbondingPeriod: nat,
    councilNodes: seq<InitialValidator>)
  {
    predicate DistinctAddresses() {
      forall i, j | 0 <= i < j < |distribution| :: distribution[i].address != distribution[j].address
    }

    predicate IsPoolAddress(a: RedeemAddress) {
      a == launchIncentiveFrom || a == launchIncentiveTo || a == longTermIncentive
    }

    predicate GoesToPool(x: Allocation) {
      IsPoolAddress(x.address) || x.kind == Contract
    }
  }

  datatype DistributionError =
    | DistributionCoinError | DoesNotMatchMaxSupply | AddressNotInDistribution
    | DoesNotMatchRequiredAmount | InvalidValidatorKey | DuplicateValidatorKey
    | InvalidValidatorAccount | DuplicateValidatorAccount | NoValidators | InvalidVotingPower

  datatype GenesisState = GenesisState(accounts: seq<StakedState>, pool: Coin, council: seq<CouncilNode>)

  function Find(dist: seq<Allocation>, a: RedeemAddress): (r: Option<Allocation>)
    ensures r.Some? <==> exists x | x in dist :: x.address == a
    ensures r.Some? ==> r.value in dist && r.value.address == a
  {
    if dist == [] then None
    else if dist[0].address == a then assert dist[0] in dist; Some(dist[0])
    else
      assert dist == [dist[0]] + dist[1..];
      Find(dist[1..], a)
  }

  function Amounts(dist: seq<Allocation>): seq<Coin> {
    seq(|dist|, i requires 0 <= i < |dist| => dist[i].amount)
  }

  // ---------- The council nodes ----------

  function NodeError(c: InitConfig, n: InitialValidator, accounts: set<RedeemAddress>, keys: set<PubKey>):
    Check<DistributionError>
  {
    if c.IsPoolAddress(n.account) then Fail(InvalidValidatorAccount)
    else if n.account in accounts then Fail(DuplicateValidatorAccount)
    else match Find(c.distribution, n.account)
      case None => Fail(AddressNotInDistribution)
      case Some(x) =>
        if x.amount != c.requiredStake || x.kind != ExternallyOwnedAccount then Fail(DoesNotMatchRequiredAmount)
        else if n.key.None? then Fail(InvalidValidatorKey)
        else if n.key.value in keys then Fail(DuplicateValidatorKey)
        else Pass
  }

  function AccountsOf(nodes: seq<InitialValidator>): set<RedeemAddress> {
    set n | n in nodes :: n.account
  }

  function KeysOf(nodes: seq<InitialValidator>): set<PubKey> {
    set n | n in nodes && n.key.Some? :: n.key.value
  }

  /** The first error among the nodes, each checked against the nodes before it. */
  function CouncilError(c: InitConfig, k: nat): Check<DistributionError>
    requires k <= |c.councilNodes|
    decreases |c.councilNodes| - k
  {
    if k == |c.councilNodes| then Pass
    else
      var e := NodeError(c, c.councilNodes[k], AccountsOf(c.councilNodes[..k]), KeysOf(c.councilNodes[..k]));
      if e.Fail? then e else CouncilError(c, k + 1)
  }

  function Council(nodes: seq<InitialValidator>): (r: seq<CouncilNode>)
    requires forall n | n in nodes :: n.key.Some?
    ensures |r| == |nodes|
  {
    seq(|nodes|, i requires 0 <= i < |nodes| =>
      assert nodes[i] in nodes; CouncilNode(BasicRedeem(nodes[i].account), nodes[i].key.value))
  }

  /** A council node owns exactly the required stake and shares neither account nor key. */
  predicate NodeValid(c: InitConfig, n: InitialValidator) {
    && !c.IsPoolAddress(n.account) && n.key.Some?
    && var x := Find(c.distribution, n.account);
       x.Some? && x.value.amount == c.requiredStake && x.value.kind == ExternallyOwnedAccount
  }

  predicate CouncilValid(c: InitConfig) {
    && (forall n | n in c.councilNodes :: NodeValid(c, n))
    && forall i, j | 0 <= i < j < |c.councilNodes| ::
         && c.councilNodes[i].account != c.councilNodes[j].account
         && c.councilNodes[i].key != c.councilNodes[j].key
  }

  lemma {:induction false} CouncilDecided(c: InitConfig, k: nat)
    requires k <= |c.councilNodes|
    ensures CouncilError(c, k).Pass? <==>
            forall m | k <= m < |c.councilNodes| ::
              NodeError(c, c.councilNodes[m], AccountsOf(c.councilNodes[..m]), KeysOf(c.councilNodes[..m])).Pass?
    decreases |c.councilNodes| - k
  {
    if k < |c.councilNodes| {
      CouncilDecided(c, k + 1);
    }
  }

  lemma NodePasses(c: InitConfig, m: nat)
    requires m < |c.councilNodes|
    requires forall n | n in c.councilNodes[..m] :: n.key.Some?
    ensures var nodes := c.councilNodes;
            NodeError(c, nodes[m], AccountsOf(nodes[..m]), KeysOf(nodes[..m])).Pass? <==>
            NodeValid(c, nodes[m])
            && forall i | 0 <= i < m :: nodes[i].account != nodes[m].account && nodes[i].key != nodes[m].key
  {
    var nodes := c.councilNodes;
    forall i | 0 <= i < m
      ensures nodes[i].account in AccountsOf(nodes[..m]) && nodes[i].key.value in KeysOf(nodes[..m])
    {
      assert nodes[..m][i] == nodes[i];
    }
  }

  lemma CouncilAccepted(c: InitConfig)
    ensures CouncilError(c, 0).Pass? <==> CouncilValid(c)
  {
    CouncilDecided(c, 0);
    var nodes := c.councilNodes;
    if CouncilError(c, 0).Pass? {
      KeysPresent(c, |nodes|);
      forall m | 0 <= m < |nodes|
        ensures NodeValid(c, nodes[m])
        ensures forall i | 0 <= i < m :: nodes[i].account != nodes[m].account && nodes[i].key != nodes[m].key
      {
        KeysPresent(c, m);
        NodePasses(c, m);
      }
    } else if CouncilValid(c) {
      forall m | 0 <= m < |nodes|
        ensures NodeError(c, nodes[m], AccountsOf(nodes[..m]), KeysOf(nodes[..m])).Pass?
      {
        forall n | n in nodes[..m] ensures n in nodes {}
        NodePasses(c, m);
      }
    }
  }

  lemma KeysPresent(c: InitConfig, m: nat)
    requires m <= |c.councilNodes| && CouncilError(c, 0).Pass?
    ensures forall n | n in c.councilNodes[..m] :: n.key.Some?
  {
    CouncilDecided(c, 0);
  }

  method CheckCouncil(c: InitConfig)
    returns (r: Result<(seq<CouncilNode>, set<RedeemAddress>), DistributionError>)
    ensures r.Err? <==> CouncilError(c, 0).Fail?
    ensures r.Err? ==> r.error == CouncilError(c, 0).error
    ensures r.Ok? ==> (forall n | n in c.councilNodes :: n.key.Some?)
                      && r.value.0 == Council(c.councilNodes) && r.value.1 == AccountsOf(c.councilNodes)
  {
    var validators: seq<CouncilNode> := [];
    var accounts: set<RedeemAddress> := {};
    var keys: set<PubKey> := {};
    var nodes := c.councilNodes;
    for k := 0 to |nodes|
      invariant accounts == AccountsOf(nodes[..k]) && keys == KeysOf(nodes[..k])
      invariant forall n | n in nodes[..k] :: n.key.Some?
      invariant validators == Council(nodes[..k])
      invariant CouncilError(c, 0) == CouncilError(c, k)
    {
      var n := nodes[k];
      var e := NodeError(c, n, accounts, keys);
      if e.Fail? {
        return Err(e.error);
      }
      accounts, keys := accounts + {n.account}, keys + {n.key.value};
      validators := validators + [CouncilNode(BasicRedeem(n.account), n.key.value)];
      assert nodes[..k + 1] == nodes[..k] + [n];
    }
    assert nodes[..|nodes|] == nodes;
    r := Ok((validators, accounts));
  }

  // ---------- The genesis state ----------

  function PoolAmount(c: InitConfig, dist: seq<Allocation>): nat {
    if dist == [] then 0
    else
      var x := dist[|dist| - 1];
      PoolAmount(c, dist[..|dist| - 1]) + (if c.GoesToPool(x) then x.amount else 0)
  }

  function StakedAccounts(c: InitConfig, dist: seq<Allocation>, validators: set<RedeemAddress>, time: Timespec):
    seq<StakedState>
  {
    if dist == [] then []
    else
      var x := dist[|dist| - 1];
      StakedAccounts(c, dist[..|dist| - 1], validators, time)
      + (if c.GoesToPool(x) then [] else [NewInit(x.amount, time, BasicRedeem(x.address), x.address in validators)])
  }

  lemma {:induction false} PoolWithinTotal(c: InitConfig, dist: seq<Allocation>)
    ensures PoolAmount(c, dist) <= Total(Amounts(dist))
    decreases |dist|
  {
    if dist != [] {
      var init, x := dist[..|dist| - 1], dist[|dist| - 1];
      PoolWithinTotal(c, init);
      assert Amounts(dist) == Amounts(init) + [x.amount];
      TotalPush(Amounts(init), x.amount);
    }
  }

  method GetGenesisState(c: InitConfig, time: Timespec, validators: set<RedeemAddress>)
    returns (accounts: seq<StakedState>, pool: Coin)
    requires Total(Amounts(c.distribution)) <= MAX_COIN
    ensures accounts == StakedAccounts(c, c.distribution, validators, time)
    ensures pool == PoolAmount(c, c.distribution)
  {
    var amount := 0;
    var dist := c.distribution;
    accounts := [];
    for i := 0 to |dist|
      invariant amount == PoolAmount(c, dist[..i])
      invariant accounts == StakedAccounts(c, dist[..i], validators, time)
    {
      var x := dist[i];
      assert dist[..i + 1][..i] == dist[..i];
      if c.GoesToPool(x) {
        amount := amount + x.amount;
      } else {
        accounts := accounts + [NewInit(x.amount, time, BasicRedeem(x.address), x.address in validators)];
      }
    }
    assert dist[..|dist|] == dist;
    PoolWithinTotal(c, dist);
    pool := amount;
  }

  function Validated(c: InitConfig, time: Timespec): Result<GenesisState, DistributionError> {
    if Find(c.distribution, c.launchIncentiveFrom).None? then Err(AddressNotInDistribution)
    else if Find(c.distribution, c.launchIncentiveTo).None? then Err(AddressNotInDistribution)
    else if Find(c.distribution, c.longTermIncentive).None? then Err(AddressNotInDistribution)
    else if c.councilNodes == [] then Err(NoValidators)
    else if CouncilError(c, 0).Fail? then Err(CouncilError(c, 0).error)
    else if (c.requiredStake * |c.councilNodes|) % (U64_MAX + 1) > MAX_COIN then Err(InvalidVotingPower)
    else match SumCoins(Amounts(c.distribution))
      case Err(_) => Err(DistributionCoinError)
      case Ok(sum) =>
        if sum != MAX_COIN then Err(DoesNotMatchMaxSupply)
        else
          KeysPresentAll(c);
          PoolWithinTotal(c, c.distribution);
          Ok(GenesisState(
            StakedAccounts(c, c.distribution, AccountsOf(c.councilNodes), time),
            PoolAmount(c, c.distribution),
            Council(c.councilNodes)))
  }

  lemma KeysPresentAll(c: InitConfig)
    requires CouncilError(c, 0).Pass?
    ensures forall n | n in c.councilNodes :: n.key.Some?
  {
    KeysPresent(c, |c.councilNodes|);
    assert c.councilNodes[..|c.councilNodes|] == c.councilNodes;
  }

  /** `validate_config_get_genesis`; the product of stake and node count wraps at 2^64. */
  method ValidateConfigGetGenesis(c: InitConfig, time: Timespec) returns (r: Result<GenesisState, DistributionError>)
    ensures r == Validated(c, time)
  {
    if Find(c.distribution, c.launchIncentiveFrom).None?
      || Find(c.distribution, c.launchIncentiveTo).None?
      || Find(c.distribution, c.longTermIncentive).None? {
      return Err(AddressNotInDistribution);
    }
    if c.councilNodes == [] {
      return Err(NoValidators);
    }
    var council := CheckCouncil(c);
    if council.Err? {
      return Err(council.error);
    }
    if (c.requiredStake * |c.councilNodes|) % (U64_MAX + 1) > MAX_COIN {
      return Err(InvalidVotingPower);
    }
    var sum := SumCoins(Amounts(c.distribution));
    if sum.Err? {
      return Err(DistributionCoinError);
    }
    if sum.value != MAX_COIN {
      return Err(DoesNotMatchMaxSupply);
    }
    var accounts, pool := GetGenesisState(c, time, council.value.1);
    r := Ok(GenesisState(accounts, pool, council.value.0));
  }

  // ---------- What a valid configuration guarantees ----------

  /** The account trie after the initial insert. */
  function AccountMap(accounts: seq<StakedState>): Accounts {
    if accounts == [] then map[]
    else
      var a := accounts[|accounts| - 1];
      AccountMap(accounts[..|accounts| - 1])[a.address := a]
  }

  lemma AccountMapPush(accounts: seq<StakedState>, a: StakedState)
    ensures AccountMap(accounts + [a]) == AccountMap(accounts)[a.address := a]
  {
    assert (accounts + [a])[..|accounts|] == accounts;
  }

  function Addresses(dist: seq<Allocation>): set<StakedStateAddress> {
    set x | x in dist :: BasicRedeem(x.address)
  }

  /** The allocation x is staked under its own address. */
  predicate Staked(m: Accounts, x: Allocation, validators: set<RedeemAddress>, time: Timespec) {
    var a := BasicRedeem(x.address);
    a in m && m[a] == NewInit(x.amount, time, a, x.address in validators)
  }

  lemma {:induction false} GenesisAccounts(
    c: InitConfig, dist: seq<Allocation>, validators: set<RedeemAddress>, time: Timespec)
    requires forall i, j | 0 <= i < j < |dist| :: dist[i].address != dist[j].address
    ensures var m := AccountMap(StakedAccounts(c, dist, validators, time));
            && AddressesMatch(m) && m.Keys <= Addresses(dist)
            && StakeTotal(m) + PoolAmount(c, dist) == Total(Amounts(dist))
            && (forall x | x in dist && !c.GoesToPool(x) :: Staked(m, x, validators, time))
    decreases |dist|
  {
    if dist == [] {
      assert StakeMap(AccountMap([])) == map[];
    } else {
      var init, x := dist[..|dist| - 1], dist[|dist| - 1];
      assert dist == init + [x];
      GenesisAccounts(c, init, validators, time);
      GenesisAccountsStep(c, init, x, validators, time);
    }
  }

  lemma GenesisAccountsStep(
    c: InitConfig, init: seq<Allocation>, x: Allocation, validators: set<RedeemAddress>, time: Timespec)
    requires forall y | y in init :: y.address != x.address
    requires var m := AccountMap(StakedAccounts(c, init, validators, time));
            && AddressesMatch(m) && m.Keys <= Addresses(init)
            && StakeTotal(m) + PoolAmount(c, init) == Total(Amounts(init))
            && (forall y | y in init && !c.GoesToPool(y) :: Staked(m, y, validators, time))
    ensures var m := AccountMap(StakedAccounts(c, init + [x], validators, time));
            && AddressesMatch(m) && m.Keys <= Addresses(init + [x])
            && StakeTotal(m) + PoolAmount(c, init + [x]) == Total(Amounts(init + [x]))
            && (forall y | y in init + [x] && !c.GoesToPool(y) :: Staked(m, y, validators, time))
  {
    hide StakeTotal, AccountMap, Total, Amounts, Staked;
    var dist := init + [x];
    assert dist[..|dist| - 1] == init;
    var before := StakedAccounts(c, init, validators, time);
    var m := AccountMap(before);
    AmountsPush(init, x);
    AddressesPush(init, x);
    if c.GoesToPool(x) {
      assert StakedAccounts(c, dist, validators, time) == before + [];
      assert before + [] == before;
    } else {
      var s := NewInit(x.amount, time, BasicRedeem(x.address), x.address in validators);
      assert StakedAccounts(c, dist, validators, time) == before + [s];
      AccountMapPush(before, s);
      PutStake(m, s);
      StakedKept(m, init, x, validators, time, c);
    }
  }

  lemma StakedKept(
    m: Accounts, init: seq<Allocation>, x: Allocation, validators: set<RedeemAddress>, time: Timespec, c: InitConfig)
    requires forall y | y in init :: y.address != x.address
    requires forall y | y in init && !c.GoesToPool(y) :: Staked(m, y, validators, time)
    ensures var s := NewInit(x.amount, time, BasicRedeem(x.address), x.address in validators);
            forall y | y in init + [x] && !c.GoesToPool(y) :: Staked(m[s.address := s], y, validators, time)
  {
  }

  lemma AmountsPush(init: seq<Allocation>, x: Allocation)
    ensures Total(Amounts(init + [x])) == Total(Amounts(init)) + x.amount
  {
    assert Amounts(init + [x]) == Amounts(init) + [x.amount];
    TotalPush(Amounts(init), x.amount);
  }

  lemma AddressesPush(init: seq<Allocation>, x: Allocation)
    ensures Addresses(init + [x]) == Addresses(init) + {BasicRedeem(x.address)}
    ensures (forall y | y in init :: y.address != x.address) ==> BasicRedeem(x.address) !in Addresses(init)
  {
    assert x in init + [x];
    forall y | y in init ensures y in init + [x] {}
  }

  lemma {:induction false} StakedFrom(
    c: InitConfig, dist: seq<Allocation>, validators: set<RedeemAddress>, time: Timespec, a: StakedStateAddress)
    requires a in AccountMap(StakedAccounts(c, dist, validators, time))
    ensures exists x | x in dist :: !c.GoesToPool(x) && BasicRedeem(x.address) == a
    decreases |dist|
  {
    var init, x := dist[..|dist| - 1], dist[|dist| - 1];
    var before := StakedAccounts(c, init, validators, time);
    assert x in dist && forall y | y in init :: y in dist;
    if c.GoesToPool(x) {
      assert before + [] == before;
    } else {
      AccountMapPush(before, NewInit(x.amount, time, BasicRedeem(x.address), x.address in validators));
    }
    if c.GoesToPool(x) || a != BasicRedeem(x.address) {
      StakedFrom(c, init, validators, time, a);
      var y :| y in init && !c.GoesToPool(y) && BasicRedeem(y.address) == a;
    }
  }

  predicate IsCouncilAccount(c: InitConfig, a: RedeemAddress) {
    exists n | n in c.councilNodes :: n.account == a
  }

  /** What an allocation becomes: all of it bonded for a council node, all of it unbonded and free to
      withdraw from the genesis time on for anyone else. */
  predicate Allotted(c: InitConfig, time: Timespec, x: Allocation, s: StakedState) {
    && s.address == BasicRedeem(x.address) && s.nonce == 0 && s.unbondedFrom == time
    && s.bonded == (if IsCouncilAccount(c, x.address) then x.amount else 0)
    && s.unbonded == (if IsCouncilAccount(c, x.address) then 0 else x.amount)
  }

  /** One of the three incentive addresses, or a contract. */
  predicate ForPool(c: InitConfig, x: Allocation) {
    || x.address == c.launchIncentiveFrom || x.address == c.launchIncentiveTo || x.address == c.longTermIncentive
    || x.kind.Contract?
  }

  /** A configuration validates exactly when the three incentive addresses are in the distribution, there
      is a council, every council node is valid, the wrapped product of stake and number of nodes is a
      coin, and the amounts add up to the maximum supply. */
  lemma ConfigAccepted(c: InitConfig, time: Timespec)
    ensures Validated(c, time).Ok? <==>
            && (forall a | a in [c.launchIncentiveFrom, c.launchIncentiveTo, c.longTermIncentive] ::
                  exists x | x in c.distribution :: x.address == a)
            && c.councilNodes != [] && CouncilValid(c)
            && (c.requiredStake * |c.councilNodes|) % (U64_MAX + 1) <= MAX_COIN
            && Total(Amounts(c.distribution)) == MAX_COIN
  {
    CouncilAccepted(c);
    var three := [c.launchIncentiveFrom, c.launchIncentiveTo, c.longTermIncentive];
    assert three[0] in three && three[1] in three && three[2] in three;
    hide Find, CouncilError, CouncilValid, Amounts, StakedAccounts, PoolAmount, Council;
  }

  predicate InDistribution(c: InitConfig, a: RedeemAddress) {
    exists x | x in c.distribution :: x.address == a
  }

  /** What an error says about the council node at this place. */
  predicate NodeFault(c: InitConfig, k: nat, e: DistributionError) {
    && k < |c.councilNodes|
    && var n := c.councilNodes[k];
       match e
       case InvalidValidatorAccount => c.IsPoolAddress(n.account)
       case DuplicateValidatorAccount => exists j | 0 <= j < k :: c.councilNodes[j].account == n.account
       case AddressNotInDistribution => !InDistribution(c, n.account)
       case DoesNotMatchRequiredAmount =>
         exists x | x in c.distribution && x.address == n.account ::
           x.amount != c.requiredStake || x.kind != ExternallyOwnedAccount
       case InvalidValidatorKey => n.key.None?
       case DuplicateValidatorKey => exists j | 0 <= j < k :: c.councilNodes[j].key == n.key
       case _ => false
  }

  ghost predicate ConfigFault(c: InitConfig, e: DistributionError) {
    match e
    case NoValidators => c.councilNodes == []
    case InvalidVotingPower => (c.requiredStake * |c.councilNodes|) % (U64_MAX + 1) > MAX_COIN
    case DistributionCoinError => Total(Amounts(c.distribution)) > MAX_COIN
    case DoesNotMatchMaxSupply => Total(Amounts(c.distribution)) < MAX_COIN
    case _ =>
      || (e == AddressNotInDistribution &&
          !(InDistribution(c, c.launchIncentiveFrom) && InDistribution(c, c.launchIncentiveTo)
            && InDistribution(c, c.longTermIncentive)))
      || exists k :: NodeFault(c, k, e)
  }

  lemma NodeRefused(c: InitConfig, k: nat)
    requires k < |c.councilNodes|
    ensures var nodes := c.councilNodes;
            var r := NodeError(c, nodes[k], AccountsOf(nodes[..k]), KeysOf(nodes[..k]));
            r.Fail? ==> NodeFault(c, k, r.error)
  {
    var nodes := c.councilNodes;
    var r := NodeError(c, nodes[k], AccountsOf(nodes[..k]), KeysOf(nodes[..k]));
    if r.Fail? {
      if r.error == DuplicateValidatorAccount {
        var n :| n in nodes[..k] && n.account == nodes[k].account;
        var j :| 0 <= j < k && nodes[..k][j] == n;
        assert nodes[j].account == nodes[k].account;
      } else if r.error == DuplicateValidatorKey {
        var n :| n in nodes[..k] && n.key == nodes[k].key;
        var j :| 0 <= j < k && nodes[..k][j] == n;
        assert nodes[j].key == nodes[k].key;
      }
    }
  }

  lemma {:induction false} CouncilRefused(c: InitConfig, k: nat)
    requires k <= |c.councilNodes|
    ensures CouncilError(c, k).Fail? ==> exists m :: NodeFault(c, m, CouncilError(c, k).error)
    decreases |c.councilNodes| - k
  {
    hide NodeError, NodeFault;
    if k < |c.councilNodes| {
      NodeRefused(c, k);
      CouncilRefused(c, k + 1);
    }
  }

  /** A configuration that is refused has the fault that the error names. */
  lemma ConfigRefused(c: InitConfig, time: Timespec)
    ensures Validated(c, time).Err? ==> ConfigFault(c, Validated(c, time).error)
  {
    CouncilRefused(c, 0);
    hide Find, CouncilError, Amounts, StakedAccounts, PoolAmount, Council;
    if Validated(c, time).Err? && CouncilError(c, 0).Fail? {
      var e := CouncilError(c, 0).error;
      var m :| NodeFault(c, m, e);
    }
  }

  /** The genesis accounts are exactly the allocations that are not for the pool. */
  lemma GenesisBalances(c: InitConfig, time: Timespec)
    requires c.DistinctAddresses() && Validated(c, time).Ok?
    ensures var m := AccountMap(Validated(c, time).value.accounts);
            && (forall a | a in m ::
                  exists x | x in c.distribution :: !ForPool(c, x) && BasicRedeem(x.address) == a)
            && (forall x | x in c.distribution && !ForPool(c, x) ::
                  BasicRedeem(x.address) in m && Allotted(c, time, x, m[BasicRedeem(x.address)]))
  {
    hide StakeTotal, StakedAccounts, PoolAmount, Validated, AccountMap, Total, Council;
    var validators := AccountsOf(c.councilNodes);
    ValidatedState(c, time);
    GenesisAccounts(c, c.distribution, validators, time);
    var m := AccountMap(StakedAccounts(c, c.distribution, validators, time));
    forall x | x in c.distribution && !ForPool(c, x)
      ensures BasicRedeem(x.address) in m && Allotted(c, time, x, m[BasicRedeem(x.address)])
    {
      assert Staked(m, x, validators, time);
    }
    forall a | a in m ensures exists x | x in c.distribution :: !ForPool(c, x) && BasicRedeem(x.address) == a {
      StakedFrom(c, c.distribution, validators, time, a);
    }
  }

  /** A configuration that validates allots the whole supply: account stakes and pool add up to
      MAX_COIN, every council node has an account that bonds exactly the required stake, and no two
      council nodes share an account or a consensus key. */
  lemma GenesisSupply(c: InitConfig, time: Timespec)
    requires c.DistinctAddresses() && Validated(c, time).Ok?
    ensures var g := Validated(c, time).value;
            var m := AccountMap(g.accounts);
            && AddressesMatch(m)
            && StakeTotal(m) + g.pool == MAX_COIN
            && (forall n | n in g.council :: n.stakingAccount in m && m[n.stakingAccount].bonded == c.requiredStake)
            && (forall i, j | 0 <= i < j < |g.council| ::
                  g.council[i].stakingAccount != g.council[j].stakingAccount
                  && g.council[i].consensusKey != g.council[j].consensusKey)
  {
    ValidatedState(c, time);
    var g := Validated(c, time).value;
    GenesisAccounts(c, c.distribution, AccountsOf(c.councilNodes), time);
    CouncilMembers(c);
    hide StakeTotal, StakedAccounts, PoolAmount, Validated, AccountMap, Total, Council, Staked;
    var m := AccountMap(g.accounts);
    forall n | n in g.council ensures n.stakingAccount in m && m[n.stakingAccount].bonded == c.requiredStake {
      var i :| 0 <= i < |g.council| && g.council[i] == n;
      CouncilStaked(c, m, i, time);
    }
  }

  lemma ValidatedState(c: InitConfig, time: Timespec)
    requires Validated(c, time).Ok?
    ensures CouncilValid(c) && Total(Amounts(c.distribution)) == MAX_COIN
    ensures Validated(c, time).value ==
            GenesisState(StakedAccounts(c, c.distribution, AccountsOf(c.councilNodes), time),
                         PoolAmount(c, c.distribution), Council(c.councilNodes))
  {
    CouncilAccepted(c);
  }

  lemma CouncilMembers(c: InitConfig)
    requires CouncilValid(c)
    ensures forall i | 0 <= i < |c.councilNodes| ::
              Council(c.councilNodes)[i].stakingAccount == BasicRedeem(c.councilNodes[i].account)
    ensures forall i, j | 0 <= i < j < |c.councilNodes| ::
              Council(c.councilNodes)[i].stakingAccount != Council(c.councilNodes)[j].stakingAccount
              && Council(c.councilNodes)[i].consensusKey != Council(c.councilNodes)[j].consensusKey
  {
    forall i | 0 <= i < |c.councilNodes| ensures c.councilNodes[i] in c.councilNodes {}
  }

  lemma CouncilStaked(c: InitConfig, m: Accounts, i: nat, time: Timespec)
    requires CouncilValid(c) && i < |c.councilNodes|
    requires forall x | x in c.distribution && !c.GoesToPool(x) :: Staked(m, x, AccountsOf(c.councilNodes), time)
    ensures var a := BasicRedeem(c.councilNodes[i].account);
            a in m && m[a].bonded == c.requiredStake
  {
    var n := c.councilNodes[i];
    assert n in c.councilNodes && NodeValid(c, n);
    var x := Find(c.distribution, n.account).value;
    assert !c.GoesToPool(x) && x.address in AccountsOf(c.councilNodes);
    assert Staked(m, x, AccountsOf(c.councilNodes), time);
  }
}
