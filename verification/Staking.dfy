/** Staking accounts (chain-core/src/state/account.rs). */
module Staking {
  import opened Wrappers
  import opened Coins
  import opened Transactions

  /** The stored value. `None` from an update means that its `expect` fails. */
  datatype StakedState = StakedState(
    nonce: nat, bonded: Coin, unbonded: Coin, unbondedFrom: Timespec, address: StakedStateAddress)
  {
    function Stake(): nat {
      bonded + unbonded
    }

    function Deposited(amount: Coin): (r: Option<StakedState>)
      ensures r.Some? <==> bonded + amount <= MAX_COIN
      ensures r.Some? ==> r.value.Stake() == Stake() + amount
    {
      match Add(bonded, amount)
      case Ok(b) => Some(this.(nonce := nonce + 1, bonded := b))
      case Err(_) => None
    }

    function Unbonded(amount: Coin, fee: Coin, from: Timespec): (r: Option<StakedState>)
      ensures r.Some? <==> amount + fee <= bonded && unbonded + amount <= MAX_COIN
      ensures r.Some? ==> r.value.Stake() + fee == Stake()
    {
      match Sub(bonded, amount)
      case Err(_) => None
      case Ok(b) =>
        match (Sub(b, fee), Add(unbonded, amount))
        case (Ok(b'), Ok(u)) =>
          Some(this.(nonce := nonce + 1, unbondedFrom := from, bonded := b', unbonded := u))
        case _ => None
    }

    function Withdrawn(): StakedState {
      this.(nonce := nonce + 1, unbonded := 0)
    }
  }

  function NewInit(amount: Coin, time: Timespec, address: StakedStateAddress, bonded: bool): (s: StakedState)
    ensures s.Stake() == amount
  {
    if bonded then StakedState(0, amount, 0, time, address)
    else StakedState(0, 0, amount, time, address)
  }

  /** An owned account that a validation step updates in place. */
  class Account {
    var nonce: nat
    var bonded: Coin
    var unbonded: Coin
    var unbondedFrom: Timespec
    const address: StakedStateAddress

    function View(): StakedState
      reads this
    {
      StakedState(nonce, bonded, unbonded, unbondedFrom, address)
    }

    constructor (s: StakedState)
      ensures View() == s
    {
      nonce, bonded, unbonded, unbondedFrom := s.nonce, s.bonded, s.unbonded, s.unbondedFrom;
      address := s.address;
    }

    /** `ok` is false when the `expect` of the source fails. */
    method Deposit(amount: Coin) returns (ok: bool)
      modifies this
      ensures ok <==> old(bonded) + amount <= MAX_COIN
      ensures ok ==> bonded == old(bonded) + amount && nonce == old(nonce) + 1
      ensures unbonded == old(unbonded) && unbondedFrom == old(unbondedFrom)
      ensures ok ==> Some(View()) == old(View()).Deposited(amount)
    {
      nonce := nonce + 1;
      var sum := Add(bonded, amount);
      if sum.Err? {
        return false;
      }
      bonded := sum.value;
      ok := true;
    }

    method Unbond(amount: Coin, fee: Coin, from: Timespec) returns (ok: bool)
      modifies this
      ensures ok <==> amount + fee <= old(bonded) && old(unbonded) + amount <= MAX_COIN
      ensures ok ==> bonded + amount + fee == old(bonded) && unbonded == old(unbonded) + amount
      ensures ok ==> nonce == old(nonce) + 1 && unbondedFrom == from
      ensures ok ==> Some(View()) == old(View()).Unbonded(amount, fee, from)
    {
      nonce := nonce + 1;
      unbondedFrom := from;
      var rest := Sub(bonded, amount);
      if rest.Err? {
        return false;
      }
      rest := Sub(rest.value, fee);
      if rest.Err? {
        return false;
      }
      bonded := rest.value;
      var sum := Add(unbonded, amount);
      if sum.Err? {
        return false;
      }
      unbonded := sum.value;
      ok := true;
    }

    method Withdraw()
      modifies this
      ensures unbonded == 0 && nonce == old(nonce) + 1
      ensures bonded == old(bonded) && unbondedFrom == old(unbondedFrom)
      ensures View() == old(View()).Withdrawn()
    {
      nonce := nonce + 1;
      unbonded := 0;
    }
  }
}
