/** Validator voting power (chain-abci/src/app/mod.rs:173-192 and 270-285,
    chain-abci/src/app/app_init.rs:113-144). */
module Validators {
  import opened Wrappers
  import opened Coins
  import opened Transactions
  import opened Staking
  import opened TxVerification
  import opened Genesis

  type Powers = map<StakedStateAddress, nat>
  type Keys = map<StakedStateAddress, PubKey>

  datatype ValidatorUpdate = ValidatorUpdate(key: PubKey, power: nat)

  /** What `deliver_tx` notes down when the account of a validator changes. */
  function PowerChange(power: Powers, changed: Powers, required: Coin, account: Option<StakedState>): Powers {
    match account
    case None => changed
    case Some(a) =>
      if a.address !in power then changed
      else
        var minPower, newPower, oldPower := VotePower(required), VotePower(a.bonded), power[a.address];
        if newPower > oldPower && newPower >= minPower then changed[a.address := newPower]
        else if oldPower >= minPower && newPower < oldPower then changed[a.address := 0]
        else changed
  }

  predicate Injective(keys: Keys) {
    forall a, b | a in keys && b in keys && keys[a] == keys[b] :: a == b
  }

  predicate ZeroOrEnough(changed: Powers, required: Coin) {
    forall a | a in changed :: changed[a] == 0 || changed[a] >= VotePower(required)
  }

  predicate WellKept(power: Powers, keys: Keys, changed: Powers, required: Coin) {
    && changed.Keys <= power.Keys <= keys.Keys
    && Injective(keys)
    && ZeroOrEnough(changed, required)
  }

  lemma PowerChangeWellKept(power: Powers, keys: Keys, changed: Powers, required: Coin, account: Option<StakedState>)
    requires WellKept(power, keys, changed, required)
    ensures WellKept(power, keys, PowerChange(power, changed, required, account), required)
  {
  }

  // ---------- The updates of end_block ----------

  predicate UpdateFor(power: Powers, keys: Keys, changed: Powers, a: StakedStateAddress, u: ValidatorUpdate) {
    a in changed && a in power && a in keys && power[a] != changed[a] && u == ValidatorUpdate(keys[a], changed[a])
  }

  /** The updates sent are those of the addresses whose noted power differs from the current one. */
  ghost predicate Emits(power: Powers, keys: Keys, changed: Powers, updates: seq<ValidatorUpdate>) {
    forall u :: u in updates <==> exists a :: UpdateFor(power, keys, changed, a, u)
  }

  method EmitUpdates(power: Powers, keys: Keys, changed: Powers)
    returns (updates: seq<ValidatorUpdate>, power': Powers)
    requires changed.Keys <= power.Keys <= keys.Keys
    ensures Emits(power, keys, changed, updates)
    ensures power' == power + changed
  {
    updates, power' := [], power;
    var todo := changed.Keys;
    while todo != {}
      invariant todo <= changed.Keys
      invariant power' == map a | a in power :: if a in changed && a !in todo then changed[a] else power[a]
      invariant forall u :: u in updates <==> exists a | a !in todo :: UpdateFor(power, keys, changed, a, u)
    {
      var a :| a in todo;
      var oldPower, newPower := power'[a], changed[a];
      if oldPower != newPower {
        ghost var before, left := updates, todo;
        updates := updates + [ValidatorUpdate(keys[a], newPower)];
        forall u ensures u in updates <==> exists b | b !in left - {a} :: UpdateFor(power, keys, changed, b, u) {
          Emitted(power, keys, changed, left, a, before, u);
        }
      }
      power' := power'[a := newPower];
      todo := todo - {a};
    }
    assert power' == power + changed;
  }

  lemma Emitted(
    power: Powers, keys: Keys, changed: Powers, left: set<StakedStateAddress>, a: StakedStateAddress,
    updates: seq<ValidatorUpdate>, u: ValidatorUpdate)
    requires a in left && a in changed && a in power && a in keys && power[a] != changed[a]
    requires u in updates <==> exists b | b !in left :: UpdateFor(power, keys, changed, b, u)
    ensures u in updates + [ValidatorUpdate(keys[a], changed[a])] <==>
            exists b | b !in left - {a} :: UpdateFor(power, keys, changed, b, u)
  {
    if u == ValidatorUpdate(keys[a], changed[a]) {
      assert UpdateFor(power, keys, changed, a, u);
    }
    if u in updates {
      var b :| b !in left && UpdateFor(power, keys, changed, b, u);
      assert b !in left - {a};
    }
  }

  // ---------- Replaying the updates ----------

  /** What Tendermint does with the updates it is sent. */
  function Apply(tm: map<PubKey, nat>, updates: seq<ValidatorUpdate>): map<PubKey, nat> {
    if updates == [] then tm
    else
      var u := updates[|updates| - 1];
      Apply(tm, updates[..|updates| - 1])[u.key := u.power]
  }

  ghost predicate Agrees(tm: map<PubKey, nat>, power: Powers, keys: Keys) {
    power.Keys <= keys.Keys && forall a | a in power :: keys[a] in tm && tm[keys[a]] == power[a]
  }

  lemma {:induction false} ApplyAt(tm: map<PubKey, nat>, updates: seq<ValidatorUpdate>, key: PubKey, v: nat)
    requires forall u | u in updates && u.key == key :: u.power == v
    ensures (exists u | u in updates :: u.key == key) ==>
              key in Apply(tm, updates) && Apply(tm, updates)[key] == v
    ensures !(exists u | u in updates :: u.key == key) && key in tm ==>
              key in Apply(tm, updates) && Apply(tm, updates)[key] == tm[key]
    decreases |updates|
  {
    if updates != [] {
      var init, u := updates[..|updates| - 1], updates[|updates| - 1];
      assert updates == init + [u];
      forall w | w in init ensures w in updates {}
      ApplyAt(tm, init, key, v);
      assert u in updates;
      if exists w | w in updates :: w.key == key {
        var w :| w in updates && w.key == key;
        assert w == u || w in init;
      }
    }
  }

  lemma AgreesAt(
    tm: map<PubKey, nat>, power: Powers, keys: Keys, changed: Powers, updates: seq<ValidatorUpdate>,
    a: StakedStateAddress)
    requires Agrees(tm, power, keys) && changed.Keys <= power.Keys <= keys.Keys && Injective(keys)
    requires Emits(power, keys, changed, updates) && a in power
    ensures keys[a] in Apply(tm, updates) && Apply(tm, updates)[keys[a]] == (power + changed)[a]
  {
    var v := if a in changed then changed[a] else power[a];
    forall u | u in updates && u.key == keys[a]
      ensures UpdateFor(power, keys, changed, a, u)
    {
      var b :| UpdateFor(power, keys, changed, b, u);
      assert b == a;
    }
    ApplyAt(tm, updates, keys[a], v);
    if a in changed && power[a] != changed[a] {
      var u := ValidatorUpdate(keys[a], changed[a]);
      assert UpdateFor(power, keys, changed, a, u);
      assert u in updates;
    }
  }

  /** Replaying the emitted updates, in whatever order, keeps Tendermint's view equal to the tracked
      powers; and every emitted power is zero or at least that of the required stake. */
  lemma ReplayAgrees(
    tm: map<PubKey, nat>, power: Powers, keys: Keys, changed: Powers, required: Coin, updates: seq<ValidatorUpdate>)
    requires Agrees(tm, power, keys) && WellKept(power, keys, changed, required)
    requires Emits(power, keys, changed, updates)
    ensures Agrees(Apply(tm, updates), power + changed, keys)
    ensures forall u | u in updates :: u.power == 0 || u.power >= VotePower(required)
  {
    forall a | a in power + changed
      ensures keys[a] in Apply(tm, updates) && Apply(tm, updates)[keys[a]] == (power + changed)[a]
    {
      AgreesAt(tm, power, keys, changed, updates, a);
    }
    forall u | u in updates ensures u.power == 0 || u.power >= VotePower(required) {
      var a :| UpdateFor(power, keys, changed, a, u);
    }
  }

  // ---------- Rebuilding the maps on restart ----------

  function RestoredPower(account: StakedState, required: Coin): nat {
    if account.bonded < required then VotePower(0) else VotePower(account.bonded)
  }

  predicate CouncilPresent(accounts: Accounts, council: seq<CouncilNode>) {
    forall n | n in council :: n.stakingAccount in accounts
  }

  predicate CouncilDistinct(council: seq<CouncilNode>) {
    forall i, j | 0 <= i < j < |council| ::
      council[i].stakingAccount != council[j].stakingAccount && council[i].consensusKey != council[j].consensusKey
  }

  function PubKeys(council: seq<CouncilNode>): Keys {
    if council == [] then map[]
    else PubKeys(council[..|council| - 1])[council[|council| - 1].stakingAccount := council[|council| - 1].consensusKey]
  }

  function RestoredPowers(accounts: Accounts, council: seq<CouncilNode>, required: Coin): Powers
    requires CouncilPresent(accounts, council)
  {
    if council == [] then map[]
    else
      var n := council[|council| - 1];
      RestoredPowers(accounts, council[..|council| - 1], required)
        [n.stakingAccount := RestoredPower(accounts[n.stakingAccount], required)]
  }

  /** `get_validator_mapping`; its `expect` needs every council account in the trie. */
  method GetValidatorMapping(accounts: Accounts, council: seq<CouncilNode>, required: Coin)
    returns (power: Powers, keys: Keys)
    requires CouncilPresent(accounts, council)
    ensures power == RestoredPowers(accounts, council, required) && keys == PubKeys(council)
  {
    power, keys := map[], map[];
    for i := 0 to |council|
      invariant keys == PubKeys(council[..i])
      invariant CouncilPresent(accounts, council[..i])
      invariant power == RestoredPowers(accounts, council[..i], required)
    {
      var n := council[i];
      assert n in council;
      assert council[..i + 1][..i] == council[..i];
      keys := keys[n.stakingAccount := n.consensusKey];
      var account := accounts[n.stakingAccount];
      if account.bonded < required {
        power := power[n.stakingAccount := VotePower(0)];
      } else {
        power := power[n.stakingAccount := VotePower(account.bonded)];
      }
    }
    assert council[..|council|] == council;
  }

  lemma {:induction false} PubKeysShape(council: seq<CouncilNode>)
    requires CouncilDistinct(council)
    ensures Injective(PubKeys(council))
    ensures forall a :: a in PubKeys(council) <==> exists n | n in council :: n.stakingAccount == a
    ensures forall a | a in PubKeys(council) :: CouncilNode(a, PubKeys(council)[a]) in council
    decreases |council|
  {
    if council != [] {
      var init, n := council[..|council| - 1], council[|council| - 1];
      assert council == init + [n];
      PubKeysShape(init);
      assert n in council;
      forall m | m in init ensures m in council && m.consensusKey != n.consensusKey {}
    }
  }

  lemma {:induction false} RestoredKeys(accounts: Accounts, council: seq<CouncilNode>, required: Coin)
    requires CouncilPresent(accounts, council)
    ensures RestoredPowers(accounts, council, required).Keys == PubKeys(council).Keys
    decreases |council|
  {
    if council != [] {
      RestoredKeys(accounts, council[..|council| - 1], required);
    }
  }

  /** The maps rebuilt on restart are well kept, and Tendermint's view can be read off them. */
  lemma RestoredWellKept(accounts: Accounts, council: seq<CouncilNode>, required: Coin)
    requires CouncilPresent(accounts, council) && CouncilDistinct(council)
    ensures WellKept(RestoredPowers(accounts, council, required), PubKeys(council), map[], required)
  {
    RestoredKeys(accounts, council, required);
    PubKeysShape(council);
  }

  /** The powers rebuilt on restart: zero for a council node whose bond is below the required stake, the
      whole coins of its bond otherwise; and its consensus key. */
  lemma {:induction false} RestoredExact(accounts: Accounts, council: seq<CouncilNode>, required: Coin, n: CouncilNode)
    requires CouncilPresent(accounts, council) && CouncilDistinct(council) && n in council
    ensures var power, keys, bond := RestoredPowers(accounts, council, required), PubKeys(council),
                                     accounts[n.stakingAccount].bonded;
            && n.stakingAccount in power && n.stakingAccount in keys && keys[n.stakingAccount] == n.consensusKey
            && power[n.stakingAccount] == if bond < required then 0 else bond / MAX_COIN_DECIMALS
    decreases |council|
  {
    var init, last := council[..|council| - 1], council[|council| - 1];
    if n in init {
      RestoredExact(accounts, init, required, n);
      var i :| 0 <= i < |init| && init[i] == n;
      assert council[i].stakingAccount != last.stakingAccount;
    }
  }

  /** Tendermint's view at the moment the maps are built. */
  ghost function ViewOf(power: Powers, keys: Keys): (tm: map<PubKey, nat>)
    requires power.Keys <= keys.Keys && Injective(keys)
    ensures Agrees(tm, power, keys)
  {
    map a | a in power :: keys[a] := power[a]
  }
}
