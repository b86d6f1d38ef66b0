/** Coin amounts: a u64 capped at the total supply (chain-core/src/init/coin.rs). */
module Coins {
  import opened Wrappers

  const MAX_COIN: nat := 10_000_000_000_000_000_000
  const MAX_COIN_DECIMALS: nat := 100_000_000
  const U64_MAX: nat := 0xFFFF_FFFF_FFFF_FFFF
  const MAX_VOTE_POWER: nat := 0x7FFF_FFFF_FFFF_FFFF / 8

  type Coin = c: nat | c <= MAX_COIN

  datatype CoinError = OutOfBound(value: nat) | Negative

  function NewCoin(v: nat): (r: Result<Coin, CoinError>) {
    if v <= MAX_COIN then Ok(v) else Err(OutOfBound(v))
  }

  /** `checked_add` on u64 first, then the supply cap. */
  function Add(a: Coin, b: Coin): (r: Result<Coin, CoinError>)
    ensures r.Ok? <==> a + b <= MAX_COIN
    ensures r.Ok? ==> r.value == a + b
  {
    if a + b > U64_MAX then Err(OutOfBound(0)) else NewCoin(a + b)
  }

  function Sub(a: Coin, b: Coin): (r: Result<Coin, CoinError>)
    ensures r.Ok? <==> b <= a
    ensures r.Ok? ==> r.value == a - b
  {
    if a < b then Err(Negative) else NewCoin(a - b)
  }

  /** Exact, unbounded sum: the reference for every capped sum below. */
  function Total(cs: seq<nat>): nat {
    if cs == [] then 0 else cs[0] + Total(cs[1..])
  }

  /** The left fold of `sum_coins`: an error in the accumulator absorbs the rest. */
  function SumFrom(acc: Coin, cs: seq<Coin>): (r: Result<Coin, CoinError>)
    ensures r.Ok? <==> acc + Total(cs) <= MAX_COIN
    ensures r.Ok? ==> r.value == acc + Total(cs)
    decreases |cs|
  {
    if cs == [] then Ok(acc)
    else match Add(acc, cs[0])
      case Err(e) => Err(e)
      case Ok(v) => SumFrom(v, cs[1..])
  }

  function SumCoins(cs: seq<Coin>): (r: Result<Coin, CoinError>)
    ensures r.Ok? <==> Total(cs) <= MAX_COIN
    ensures r.Ok? ==> r.value == Total(cs)
  {
    SumFrom(0, cs)
  }

  /** Conversion to Tendermint vote power; neither `expect` in the conversion can fail. */
  function VotePower(c: Coin): (p: nat)
    ensures p <= MAX_VOTE_POWER
    ensures p * MAX_COIN_DECIMALS <= c < (p + 1) * MAX_COIN_DECIMALS
  {
    c / MAX_COIN_DECIMALS
  }

  lemma {:induction false} TotalAppend(a: seq<nat>, b: seq<nat>)
    ensures Total(a + b) == Total(a) + Total(b)
  {
    if a == [] {
      assert a + b == b;
    } else {
      TotalAppend(a[1..], b);
      assert (a + b)[1..] == a[1..] + b;
    }
  }

  lemma TotalPush(a: seq<nat>, x: nat)
    ensures Total(a + [x]) == Total(a) + x
  {
    TotalAppend(a, [x]);
  }

  lemma {:induction false} TotalUpdate(a: seq<nat>, i: nat, x: nat)
    requires i < |a|
    ensures Total(a[i := x]) + a[i] == Total(a) + x
  {
    if i == 0 {
      assert a[i := x][1..] == a[1..];
    } else {
      TotalUpdate(a[1..], i - 1, x);
      assert a[i := x][1..] == a[1..][i - 1 := x];
    }
  }

  lemma {:induction false} TotalMonotone(a: seq<nat>, b: seq<nat>)
    requires |a| == |b| && forall i | 0 <= i < |a| :: a[i] <= b[i]
    ensures Total(a) <= Total(b)
  {
    if a != [] {
      TotalMonotone(a[1..], b[1..]);
    }
  }
}
