/** The fee loop of the transaction builder
    (client-core/src/transaction_builder/default_transaction_builder.rs). */
module TransactionBuilder {
  import opened Wrappers
  import opened Coins
  import opened Transactions
  import opened Validation
  import opened LiveOutputs
  import opened UnspentTransactions

  /** Signing, encryption and fee calculation. Encryption draws a nonce, so its answer may differ from
      one attempt to the next; the fee is any function of the encrypted transaction. */
  datatype Backend = Backend(
    sign: (Tx, seq<Unspent>) -> Result<seq<TxInWitness>, WalletError>,
    encrypt: (nat, Tx, seq<TxInWitness>) -> Result<TxAux, WalletError>,
    fee: TxAux -> Result<Coin, WalletError>)

  datatype Order = Order(
    outputs: seq<TxOut>, attributes: TxAttributes, unspent: seq<Unspent>, returnAddress: ExtendedAddr)

  /** What one round of the loop puts together, and the fee of it. */
  datatype Draft = Draft(tx: Tx, aux: TxAux, newFees: Coin)

  function PointersOf(us: seq<Unspent>): (ps: seq<TxoPointer>)
    ensures |ps| == |us|
  {
    seq(|us|, i requires 0 <= i < |us| => us[i].pointer)
  }

  /** `build_transaction`: change is paid back only when there is some. */
  function BuildTransaction(order: Order, selected: seq<Unspent>, difference: Coin): Tx {
    Tx(PointersOf(selected),
       if difference == 0 then order.outputs else order.outputs + [TxOut(order.returnAddress, difference, None)],
       order.attributes)
  }

  // ---------- What a round is ----------

  /** What was ordered, and an output back to the return address when there is change. */
  predicate PaysBack(order: Order, outputs: seq<TxOut>, change: nat) {
    || (change == 0 && outputs == order.outputs)
    || (change > 0 && |outputs| == |order.outputs| + 1 && order.outputs <= outputs
        && var o := outputs[|order.outputs|];
           o.address == order.returnAddress && o.value == change && o.validFrom.None?)
  }

  /** What the outputs and the fees come to. */
  function Needed(order: Order, fees: Coin): nat {
    Total(Values(order.outputs)) + fees
  }

  /** The transaction for these fees: it spends the shortest list of first unspent outputs that reaches
      what is needed, and pays what was ordered and the change. */
  ghost predicate Spends(order: Order, fees: Coin, tx: Tx, selected: seq<Unspent>) {
    && selected != [] && selected <= order.unspent && tx.inputs == PointersOf(selected)
    && Needed(order, fees) <= Worth(selected) <= MAX_COIN
    && ShortOf(order.unspent, |selected| - 1, Needed(order, fees))
    && PaysBack(order, tx.outputs, Worth(selected) - Needed(order, fees))
    && tx.attributes == order.attributes
  }

  /** A round that succeeds: the witnesses encrypted are those made for this transaction and the
      selected outputs. */
  ghost predicate RoundIs(b: Backend, order: Order, fees: Coin, attempt: nat, d: Draft) {
    && |d.tx.inputs| <= |order.unspent|
    && var selected := order.unspent[..|d.tx.inputs|];
       && Spends(order, fees, d.tx, selected)
       && b.sign(d.tx, selected).Ok?
       && b.encrypt(attempt, d.tx, b.sign(d.tx, selected).value) == Ok(d.aux)
       && b.fee(d.aux) == Ok(d.newFees)
  }

  /** A round that fails for this transaction: signing, encryption or the fee fails. */
  ghost predicate StepFails(
    b: Backend, order: Order, fees: Coin, attempt: nat, e: WalletError, tx: Tx, selected: seq<Unspent>)
  {
    && Spends(order, fees, tx, selected)
    && match b.sign(tx, selected)
       case Err(f) => e == f
       case Ok(witnesses) =>
         match b.encrypt(attempt, tx, witnesses)
         case Err(f) => e == f
         case Ok(aux) => b.fee(aux).Err? && e == BalanceAdditionError
  }

  /** A round that fails: too much is needed, or the selection fails, or a later step does. */
  ghost predicate RoundFails(b: Backend, order: Order, fees: Coin, attempt: nat, e: WalletError) {
    if Needed(order, fees) > MAX_COIN then e == BalanceAdditionError
    else
      || SelectionRight(order.unspent, Needed(order, fees), Err(e))
      || exists tx, selected :: StepFails(b, order, fees, attempt, e, tx, selected)
  }

  lemma BuiltSpends(order: Order, fees: Coin, k: nat, difference: Coin)
    requires Needed(order, fees) <= MAX_COIN
    requires SelectionRight(order.unspent, Needed(order, fees), Ok((k, difference)))
    ensures k <= |order.unspent|
    ensures Spends(order, fees, BuildTransaction(order, order.unspent[..k], difference), order.unspent[..k])
  {
    hide Worth, ShortOf, Total;
  }

  /** The body of the loop up to the comparison of fees. */
  method OneRound(b: Backend, order: Order, outputValue: Coin, fees: Coin, attempt: nat)
    returns (r: Result<Draft, WalletError>)
    requires outputValue == Total(Values(order.outputs))
    ensures r.Ok? ==> RoundIs(b, order, fees, attempt, r.value)
    ensures r.Err? ==> RoundFails(b, order, fees, attempt, r.error)
  {
    hide SelectFrom, Worth, BuildTransaction, ShortOf, PaysBack;
    var amount := Add(outputValue, fees);
    if amount.Err? {
      return Err(BalanceAdditionError);
    }
    SelectIsRight(order.unspent, amount.value);
    var s := Select(order.unspent, amount.value);
    if s.Err? {
      return Err(s.error);
    }
    ghost var k := SelectFrom(order.unspent, 0, 0, amount.value).value.0;
    var selected := s.value.0;
    BuiltSpends(order, fees, k, s.value.1);
    var tx := BuildTransaction(order, selected, s.value.1);
    assert order.unspent[..|tx.inputs|] == selected;
    var witnesses := b.sign(tx, selected);
    if witnesses.Err? {
      assert StepFails(b, order, fees, attempt, witnesses.error, tx, selected);
      return Err(witnesses.error);
    }
    var aux := b.encrypt(attempt, tx, witnesses.value);
    if aux.Err? {
      assert StepFails(b, order, fees, attempt, aux.error, tx, selected);
      return Err(aux.error);
    }
    var newFees := b.fee(aux.value);
    if newFees.Err? {
      assert StepFails(b, order, fees, attempt, BalanceAdditionError, tx, selected);
      return Err(BalanceAdditionError);
    }
    r := Ok(Draft(tx, aux.value, newFees.value));
  }

  // ---------- The rounds of a run ----------

  /** The fees that a round is made for: none at first, then the fee of the round before. */
  function FeesFor(ds: seq<Draft>, i: nat): Coin
    requires i <= |ds|
  {
    if i == 0 then 0 else ds[i - 1].newFees
  }

  /** This round succeeded, and asked for more than it was made for. */
  ghost predicate Climbs(b: Backend, order: Order, ds: seq<Draft>, i: nat)
    requires i < |ds|
  {
    RoundIs(b, order, FeesFor(ds, i), i, ds[i]) && ds[i].newFees > FeesFor(ds, i)
  }

  /** Rounds that succeeded and each asked for more. */
  ghost predicate Climbing(b: Backend, order: Order, ds: seq<Draft>) {
    forall i | 0 <= i < |ds| :: Climbs(b, order, ds, i)
  }

  lemma ClimbingPush(b: Backend, order: Order, ds: seq<Draft>, d: Draft)
    requires Climbing(b, order, ds) && RoundIs(b, order, FeesFor(ds, |ds|), |ds|, d) && d.newFees > FeesFor(ds, |ds|)
    ensures Climbing(b, order, ds + [d])
  {
    hide RoundIs;
    var all := ds + [d];
    forall i | 0 <= i < |all| ensures Climbs(b, order, all, i) {
      if i < |ds| {
        assert Climbs(b, order, ds, i) && FeesFor(all, i) == FeesFor(ds, i);
      }
    }
  }

  /** The unspent outputs are what their pointers name. */
  predicate Genuine(us: seq<Unspent>) {
    forall u | u in us :: Exists(u.pointer) && OutputAt(u.pointer) == u.output
  }

  lemma SelectedWorth(us: seq<Unspent>)
    requires Genuine(us)
    ensures InputTotal(PointersOf(us)) == Worth(us)
  {
    assert PointedValues(PointersOf(us)) == CoinValues(us) by {
      forall i | 0 <= i < |us| ensures PointedValue(us[i].pointer) == us[i].output.value { assert us[i] in us; }
    }
  }

  lemma OutputsWorth(order: Order, outputs: seq<TxOut>, change: nat)
    requires PaysBack(order, outputs, change)
    ensures Total(Values(outputs)) == Total(Values(order.outputs)) + change
  {
    if change != 0 {
      var o := outputs[|order.outputs|];
      assert outputs == order.outputs + [o];
      assert Values(outputs) == Values(order.outputs) + [o.value];
      TotalPush(Values(order.outputs), o.value);
    }
  }

  /** A round spends exactly its outputs, its change and the fees it was made for, and the sum check of
      the validator lets it through for any fee up to these. */
  lemma RoundBalances(b: Backend, order: Order, fees: Coin, attempt: nat, d: Draft)
    requires Genuine(order.unspent) && RoundIs(b, order, fees, attempt, d)
    ensures InputTotal(d.tx.inputs) == Total(Values(d.tx.outputs)) + fees <= MAX_COIN
    ensures forall info: ChainInfo | info.minFee <= fees ::
              CheckInputOutputSums(InputTotal(d.tx.inputs), Total(Values(d.tx.outputs)), info).Ok?
  {
    hide Worth, InputTotal, Total, ShortOf, PaysBack;
    var selected := order.unspent[..|d.tx.inputs|];
    assert Genuine(selected) by {
      forall u | u in selected ensures u in order.unspent {}
    }
    SelectedWorth(selected);
    OutputsWorth(order, d.tx.outputs, Worth(selected) - Needed(order, fees));
  }

  /** What `build` answers, in terms of its rounds: each one was made for the fee of the one before. The
      last one succeeded and asks for no more than it was made for, or it failed. */
  ghost predicate Answers(b: Backend, order: Order, ds: seq<Draft>, r: Result<TxAux, WalletError>) {
    if Total(Values(order.outputs)) > MAX_COIN then r == Err(BalanceAdditionError)
    else
      && Climbing(b, order, ds)
      && match r
         case Err(e) => RoundFails(b, order, FeesFor(ds, |ds|), |ds|, e)
         case Ok(aux) => exists tx, fee :: LastRound(b, order, ds, Draft(tx, aux, fee))
  }

  ghost predicate LastRound(b: Backend, order: Order, ds: seq<Draft>, d: Draft) {
    RoundIs(b, order, FeesFor(ds, |ds|), |ds|, d) && d.newFees <= FeesFor(ds, |ds|)
  }

  /** The transaction built pays, beyond what was ordered and the change, at least its own fee. */
  ghost predicate PaysItsFee(b: Backend, order: Order, tx: Tx, aux: TxAux, fees: Coin) {
    && InputTotal(tx.inputs) == Total(Values(tx.outputs)) + fees <= MAX_COIN
    && b.fee(aux).Ok? && b.fee(aux).value <= fees
    && (forall info: ChainInfo | info.minFee == b.fee(aux).value ::
          CheckInputOutputSums(InputTotal(tx.inputs), Total(Values(tx.outputs)), info).Ok?)
  }

  /** `build`. The rounds before the last one, the transaction and the fees paid are ghost. */
  method Build(b: Backend, order: Order)
    returns (r: Result<TxAux, WalletError>, ghost ds: seq<Draft>, ghost tx: Tx, ghost paid: Coin)
    ensures Answers(b, order, ds, r)
    ensures r.Ok? ==> paid == FeesFor(ds, |ds|) && b.fee(r.value).Ok?
    ensures r.Ok? ==> RoundIs(b, order, paid, |ds|, Draft(tx, r.value, b.fee(r.value).value))
    ensures r.Ok? && Genuine(order.unspent) ==> PaysItsFee(b, order, tx, r.value, paid)
  {
    hide RoundIs, RoundFails, PaysItsFee, Genuine, Total, Climbing;
    ds, tx, paid := [], Tx([], [], order.attributes), 0;
    var sum := SumCoins(Values(order.outputs));
    if sum.Err? {
      return Err(BalanceAdditionError), ds, tx, paid;
    }
    assert Climbing(b, order, []) by { NoRounds(b, order); }
    var outputValue, fees, attempt := sum.value, 0, 0;
    while true
      invariant 0 <= fees <= MAX_COIN
      invariant Climbing(b, order, ds) && attempt == |ds| && fees == FeesFor(ds, |ds|)
      decreases MAX_COIN - fees
    {
      var d := OneRound(b, order, outputValue, fees, attempt);
      if d.Err? {
        return Err(d.error), ds, tx, paid;
      }
      if d.value.newFees > fees {
        ClimbingPush(b, order, ds, d.value);
        ds := ds + [d.value];
        fees, attempt := d.value.newFees, attempt + 1;
      } else {
        r, tx, paid := Ok(d.value.aux), d.value.tx, fees;
        RoundFee(b, order, fees, attempt, d.value);
        assert LastRound(b, order, ds, Draft(tx, d.value.aux, d.value.newFees));
        if Genuine(order.unspent) { RoundPays(b, order, fees, attempt, d.value); }
        return;
      }
    }
  }

  lemma NoRounds(b: Backend, order: Order)
    ensures Climbing(b, order, [])
  {
  }

  lemma RoundFee(b: Backend, order: Order, fees: Coin, attempt: nat, d: Draft)
    requires RoundIs(b, order, fees, attempt, d)
    ensures b.fee(d.aux) == Ok(d.newFees)
  {
  }

  lemma RoundPays(b: Backend, order: Order, fees: Coin, attempt: nat, d: Draft)
    requires Genuine(order.unspent) && RoundIs(b, order, fees, attempt, d) && d.newFees <= fees
    ensures PaysItsFee(b, order, d.tx, d.aux, fees)
  {
    RoundBalances(b, order, fees, attempt, d);
    hide InputTotal, Total, Spends, Genuine;
  }
}
