/** Transaction validation (chain-tx-validation/src/lib.rs).

    The functions follow the checks one by one, with the error each of them gives. The methods are
    the loops and the in-place account updates of the source; each computes its function. The
    predicates and lemmas at the end say what is accepted, without mentioning the order of checks. */
module Validation {
  import opened Wrappers
  import opened Coins
  import opened Transactions
  import opened Staking

  datatype Error =
    | WrongChainHexId | NoInputs | NoOutputs | DuplicateInputs | ZeroCoin | InvalidSum
    | UnexpectedWitnesses | MissingWitnesses | InvalidInput | InputSpent | InputOutputDoNotMatch
    | OutputInTimelock | EcdsaCrypto | IoError | EnclaveRejected | AccountNotFound
    | AccountNotUnbonded | AccountWithdrawOutputNotLocked | AccountIncorrectNonce

  datatype ChainInfo = ChainInfo(
    minFee: Coin, chainHexId: nat, previousBlockTime: Timespec, unbondingPeriod: nat)

  function CheckAttributes(hexId: nat, info: ChainInfo): Check<Error> {
    if info.chainHexId != hexId then Fail(WrongChainHexId) else Pass
  }

  // ---------- Inputs ----------

  function InputsBasic(inputs: seq<TxoPointer>, witnesses: seq<TxInWitness>): Check<Error> {
    if inputs == [] then Fail(NoInputs)
    else if !NoDuplicates(inputs) then Fail(DuplicateInputs)
    else if |inputs| < |witnesses| then Fail(UnexpectedWitnesses)
    else if |inputs| > |witnesses| then Fail(MissingWitnesses)
    else Pass
  }

  method CheckInputsBasic(inputs: seq<TxoPointer>, witnesses: seq<TxInWitness>) returns (r: Check<Error>)
    ensures r == InputsBasic(inputs, witnesses)
  {
    if |inputs| == 0 {
      return Fail(NoInputs);
    }
    var seen: set<TxoPointer> := {};
    for i := 0 to |inputs|
      invariant forall p :: p in seen <==> p in inputs[..i]
      invariant NoDuplicates(inputs[..i])
    {
      if inputs[i] in seen {
        var j :| 0 <= j < i && inputs[..i][j] == inputs[i];
        assert inputs[j] == inputs[i];
        return Fail(DuplicateInputs);
      }
      seen := seen + {inputs[i]};
      assert inputs[..i + 1] == inputs[..i] + [inputs[i]];
    }
    assert inputs[..|inputs|] == inputs;
    if |inputs| < |witnesses| {
      return Fail(UnexpectedWitnesses);
    }
    if |inputs| > |witnesses| {
      return Fail(MissingWitnesses);
    }
    return Pass;
  }

  predicate Unlocked(o: TxOut, time: Timespec) {
    o.validFrom.Some? ==> o.validFrom.value <= time
  }

  /** One round of the loop of `check_inputs`: the value this input adds. */
  function InputValue(
    mainId: TxId, p: TxoPointer, tx: TxWithOutputs, w: TxInWitness, info: ChainInfo): Result<Coin, Error>
  {
    if p.id != tx.Id() then Err(InvalidInput)
    else if p.index >= |tx.Outs()| then Err(InvalidInput)
    else
      var o := tx.Outs()[p.index];
      if !Unlocked(o, info.previousBlockTime) then Err(OutputInTimelock)
      else if (mainId, o.address) !in w.passes then Err(EcdsaCrypto)
      else Ok(o.value)
  }

  /** The three lists are zipped, so the shortest one ends the walk. */
  function InputsFrom(
    mainId: TxId, inputs: seq<TxoPointer>, witnesses: seq<TxInWitness>, info: ChainInfo,
    txs: seq<TxWithOutputs>, acc: Coin): Result<Coin, Error>
    decreases |inputs|
  {
    if inputs == [] || txs == [] || witnesses == [] then Ok(acc)
    else
      var v :- InputValue(mainId, inputs[0], txs[0], witnesses[0], info);
      match Add(acc, v)
      case Err(_) => Err(InvalidSum)
      case Ok(sum) => InputsFrom(mainId, inputs[1..], witnesses[1..], info, txs[1..], sum)
  }

  method CheckInputs(
    mainId: TxId, inputs: seq<TxoPointer>, witnesses: seq<TxInWitness>, info: ChainInfo,
    txs: seq<TxWithOutputs>) returns (r: Result<Coin, Error>)
    ensures r == InputsFrom(mainId, inputs, witnesses, info, txs, 0)
  {
    var incoins: Coin := 0;
    var i := 0;
    while i < |inputs| && i < |txs| && i < |witnesses|
      invariant i <= |inputs| && i <= |txs| && i <= |witnesses|
      invariant InputsFrom(mainId, inputs, witnesses, info, txs, 0)
             == InputsFrom(mainId, inputs[i..], witnesses[i..], info, txs[i..], incoins)
    {
      var v := InputValue(mainId, inputs[i], txs[i], witnesses[i], info);
      if v.Err? {
        return Err(v.error);
      }
      var sum := Add(incoins, v.value);
      if sum.Err? {
        return Err(InvalidSum);
      }
      incoins := sum.value;
      assert inputs[i..][1..] == inputs[i + 1..] && txs[i..][1..] == txs[i + 1..]
          && witnesses[i..][1..] == witnesses[i + 1..];
      i := i + 1;
    }
    r := Ok(incoins);
  }

  // ---------- Outputs and sums ----------

  function CheckOutputsBasic(outputs: seq<TxOut>): Check<Error> {
    if outputs == [] then Fail(NoOutputs)
    else if exists o | o in outputs :: o.value == 0 then Fail(ZeroCoin)
    else Pass
  }

  function CheckInputOutputSums(incoins: Coin, outcoins: Coin, info: ChainInfo): (r: Result<Coin, Error>)
    ensures r.Ok? <==> outcoins + info.minFee <= incoins
    ensures r.Ok? ==> r.value == incoins - outcoins
  {
    match Add(outcoins, info.minFee)
    case Err(_) => Err(InvalidSum)
    case Ok(total) => if incoins < total then Err(InputOutputDoNotMatch) else Ok(incoins - outcoins)
  }

  function OutputSum(outputs: seq<TxOut>): Result<Coin, Error> {
    match SumCoins(Values(outputs))
    case Err(_) => Err(InvalidSum)
    case Ok(c) => Ok(c)
  }

  // ---------- The four kinds of transaction ----------

  function TransferFee(
    tx: Tx, witnesses: seq<TxInWitness>, info: ChainInfo, txs: seq<TxWithOutputs>): Result<Coin, Error>
  {
    var attributes := CheckAttributes(tx.attributes.chainHexId, info);
    :- attributes;
    :- InputsBasic(tx.inputs, witnesses);
    :- CheckOutputsBasic(tx.outputs);
    var incoins :- InputsFrom(TransferId(tx), tx.inputs, witnesses, info, txs, 0);
    var outcoins :- OutputSum(tx.outputs);
    CheckInputOutputSums(incoins, outcoins, info)
  }

  method VerifyTransfer(tx: Tx, witnesses: seq<TxInWitness>, info: ChainInfo, txs: seq<TxWithOutputs>)
    returns (r: Result<Coin, Error>)
    ensures r == TransferFee(tx, witnesses, info, txs)
  {
    var attributes := CheckAttributes(tx.attributes.chainHexId, info);
    :- attributes;
    :- CheckInputsBasic(tx.inputs, witnesses);
    :- CheckOutputsBasic(tx.outputs);
    var incoins :- CheckInputs(TransferId(tx), tx.inputs, witnesses, info, txs);
    var outcoins :- OutputSum(tx.outputs);
    r := CheckInputOutputSums(incoins, outcoins, info);
  }

  function DepositCoins(
    tx: DepositBondTx, witnesses: seq<TxInWitness>, info: ChainInfo, txs: seq<TxWithOutputs>): Result<Coin, Error>
  {
    var attributes := CheckAttributes(tx.chainHexId, info);
    :- attributes;
    :- InputsBasic(tx.inputs, witnesses);
    var incoins :- InputsFrom(DepositId(tx), tx.inputs, witnesses, info, txs, 0);
    if incoins <= info.minFee then Err(InputOutputDoNotMatch) else Ok(incoins)
  }

  method VerifyBondedDepositCore(
    tx: DepositBondTx, witnesses: seq<TxInWitness>, info: ChainInfo, txs: seq<TxWithOutputs>)
    returns (r: Result<Coin, Error>)
    ensures r == DepositCoins(tx, witnesses, info, txs)
  {
    var attributes := CheckAttributes(tx.chainHexId, info);
    :- attributes;
    :- CheckInputsBasic(tx.inputs, witnesses);
    var incoins :- CheckInputs(DepositId(tx), tx.inputs, witnesses, info, txs);
    if incoins <= info.minFee {
      return Err(InputOutputDoNotMatch);
    }
    r := Ok(incoins);
  }

  /** The account after a deposit of `amount`; `None` when the cap would be exceeded. */
  function DepositedAccount(
    tx: DepositBondTx, amount: Coin, time: Timespec, maccount: Option<StakedState>): Option<StakedState>
  {
    match maccount
    case Some(a) => a.Deposited(amount)
    case None => Some(NewInit(amount, time, tx.toStakedAccount, true))
  }

  function DepositVerdict(
    tx: DepositBondTx, witnesses: seq<TxInWitness>, info: ChainInfo, txs: seq<TxWithOutputs>,
    maccount: Option<StakedState>): Verdict<(Coin, StakedState), Error>
  {
    match DepositCoins(tx, witnesses, info, txs)
    case Err(e) => Reject(e)
    case Ok(incoins) =>
      if incoins < info.minFee then Panic
      else match DepositedAccount(tx, incoins - info.minFee, info.previousBlockTime, maccount)
        case None => Panic
        case Some(a) => Accept((info.minFee, a))
  }

  method VerifyBondedDeposit(
    tx: DepositBondTx, witnesses: seq<TxInWitness>, info: ChainInfo, txs: seq<TxWithOutputs>,
    maccount: Option<StakedState>) returns (r: Verdict<(Coin, StakedState), Error>)
    ensures r == DepositVerdict(tx, witnesses, info, txs, maccount)
  {
    var incoins := VerifyBondedDepositCore(tx, witnesses, info, txs);
    if incoins.Err? {
      return Reject(incoins.error);
    }
    if incoins.value < info.minFee {
      return Panic;
    }
    var amount: Coin := incoins.value - info.minFee;
    match maccount
    case Some(s) =>
      var a := new Account(s);
      var ok := a.Deposit(amount);
      if !ok {
        return Panic;
      }
      return Accept((info.minFee, a.View()));
    case None =>
      return Accept((info.minFee, NewInit(amount, info.previousBlockTime, tx.toStakedAccount, true)));
  }

  function UnbondVerdict(tx: UnbondTx, info: ChainInfo, account: StakedState): Verdict<(Coin, StakedState), Error> {
    if CheckAttributes(tx.chainHexId, info).Fail? then Reject(WrongChainHexId)
    else if tx.nonce != account.nonce then Reject(AccountIncorrectNonce)
    else if tx.value == 0 then Reject(ZeroCoin)
    else match CheckInputOutputSums(account.bonded, tx.value, info)
      case Err(e) => Reject(e)
      case Ok(_) =>
        match account.Unbonded(tx.value, info.minFee, info.previousBlockTime + info.unbondingPeriod)
        case None => Panic
        case Some(a) => Accept((info.minFee, a))
  }

  method VerifyUnbonding(tx: UnbondTx, info: ChainInfo, account: StakedState)
    returns (r: Verdict<(Coin, StakedState), Error>)
    ensures r == UnbondVerdict(tx, info, account)
    ensures r.Accept? ==>
              var fee, after := r.value.0, r.value.1;
              && after.bonded + tx.value + fee == account.bonded && after.unbonded == account.unbonded + tx.value
              && after.unbondedFrom == info.previousBlockTime + info.unbondingPeriod
  {
    if CheckAttributes(tx.chainHexId, info).Fail? {
      return Reject(WrongChainHexId);
    }
    if tx.nonce != account.nonce {
      return Reject(AccountIncorrectNonce);
    }
    if tx.value == 0 {
      return Reject(ZeroCoin);
    }
    var sums := CheckInputOutputSums(account.bonded, tx.value, info);
    if sums.Err? {
      return Reject(sums.error);
    }
    var a := new Account(account);
    var ok := a.Unbond(tx.value, info.minFee, info.previousBlockTime + info.unbondingPeriod);
    r := if !ok then Panic else Accept((info.minFee, a.View()));
  }

  function WithdrawFee(tx: WithdrawUnbondedTx, info: ChainInfo, account: StakedState): Result<Coin, Error> {
    var attributes := CheckAttributes(tx.attributes.chainHexId, info);
    :- attributes;
    :- CheckOutputsBasic(tx.outputs);
    if tx.nonce != account.nonce then Err(AccountIncorrectNonce)
    else if account.unbondedFrom > info.previousBlockTime then Err(AccountNotUnbonded)
    else if account.unbonded == 0 then Err(ZeroCoin)
    else if exists o | o in tx.outputs :: o.validFrom != Some(account.unbondedFrom) then
      Err(AccountWithdrawOutputNotLocked)
    else
      var outcoins :- OutputSum(tx.outputs);
      CheckInputOutputSums(account.unbonded, outcoins, info)
  }

  method VerifyUnbondedWithdraw(tx: WithdrawUnbondedTx, info: ChainInfo, account: StakedState)
    returns (r: Result<(Coin, StakedState), Error>)
    ensures r == (match WithdrawFee(tx, info, account)
                  case Err(e) => Err(e)
                  case Ok(fee) => Ok((fee, account.Withdrawn())))
  {
    var fee :- WithdrawFee(tx, info, account);
    var a := new Account(account);
    a.Withdraw();
    r := Ok((fee, a.View()));
  }

  // ---------- What is accepted ----------

  /** Value of the output a pointer names; zero when there is no such output. */
  function PointedValue(p: TxoPointer): Coin {
    if p.index < |Outputs(p.id)| then Outputs(p.id)[p.index].value else 0
  }

  function PointedValues(inputs: seq<TxoPointer>): (vs: seq<Coin>)
    ensures |vs| == |inputs|
  {
    seq(|inputs|, i requires 0 <= i < |inputs| => PointedValue(inputs[i]))
  }

  function InputTotal(inputs: seq<TxoPointer>): nat {
    Total(PointedValues(inputs))
  }

  predicate InputAllowed(mainId: TxId, p: TxoPointer, w: TxInWitness, time: Timespec) {
    && p.index < |Outputs(p.id)|
    && Unlocked(Outputs(p.id)[p.index], time)
    && (mainId, Outputs(p.id)[p.index].address) in w.passes
  }

  predicate InputsAllowed(mainId: TxId, inputs: seq<TxoPointer>, witnesses: seq<TxInWitness>, time: Timespec) {
    && |inputs| == |witnesses|
    && forall k | 0 <= k < |inputs| :: InputAllowed(mainId, inputs[k], witnesses[k], time)
  }

  predicate LookedUp(inputs: seq<TxoPointer>, txs: seq<TxWithOutputs>) {
    |inputs| == |txs| && forall k | 0 <= k < |inputs| :: txs[k].Id() == inputs[k].id
  }

  lemma {:induction false} InputsAccepted(
    mainId: TxId, inputs: seq<TxoPointer>, witnesses: seq<TxInWitness>, info: ChainInfo,
    txs: seq<TxWithOutputs>, acc: Coin)
    requires LookedUp(inputs, txs) && |inputs| == |witnesses|
    ensures var r := InputsFrom(mainId, inputs, witnesses, info, txs, acc);
            && (r.Ok? <==> InputsAllowed(mainId, inputs, witnesses, info.previousBlockTime)
                           && acc + InputTotal(inputs) <= MAX_COIN)
            && (r.Ok? ==> r.value == acc + InputTotal(inputs))
    decreases |inputs|
  {
    if inputs != [] {
      var v := InputValue(mainId, inputs[0], txs[0], witnesses[0], info);
      assert PointedValues(inputs)[1..] == PointedValues(inputs[1..]);
      if v.Ok? {
        var sum := Add(acc, v.value);
        if sum.Ok? {
          InputsAccepted(mainId, inputs[1..], witnesses[1..], info, txs[1..], sum.value);
          assert InputsAllowed(mainId, inputs, witnesses, info.previousBlockTime) <==>
                 InputAllowed(mainId, inputs[0], witnesses[0], info.previousBlockTime)
                 && InputsAllowed(mainId, inputs[1..], witnesses[1..], info.previousBlockTime);
        }
      }
    }
  }

  predicate TransferAllowed(tx: Tx, witnesses: seq<TxInWitness>, info: ChainInfo) {
    && tx.attributes.chainHexId == info.chainHexId
    && tx.inputs != [] && NoDuplicates(tx.inputs)
    && tx.outputs != [] && (forall o | o in tx.outputs :: o.value > 0)
    && InputsAllowed(TransferId(tx), tx.inputs, witnesses, info.previousBlockTime)
    && Total(Values(tx.outputs)) + info.minFee <= InputTotal(tx.inputs) <= MAX_COIN
  }

  /** A transfer is accepted exactly when it is allowed, and pays what its inputs leave over. */
  lemma TransferAccepted(tx: Tx, witnesses: seq<TxInWitness>, info: ChainInfo, txs: seq<TxWithOutputs>)
    requires LookedUp(tx.inputs, txs)
    ensures TransferFee(tx, witnesses, info, txs).Ok? <==> TransferAllowed(tx, witnesses, info)
    ensures TransferAllowed(tx, witnesses, info) ==>
              TransferFee(tx, witnesses, info, txs).value == InputTotal(tx.inputs) - Total(Values(tx.outputs))
  {
    if |witnesses| == |tx.inputs| {
      InputsAccepted(TransferId(tx), tx.inputs, witnesses, info, txs, 0);
    }
  }

  predicate DepositAllowed(tx: DepositBondTx, witnesses: seq<TxInWitness>, info: ChainInfo) {
    && tx.chainHexId == info.chainHexId
    && tx.inputs != [] && NoDuplicates(tx.inputs)
    && InputsAllowed(DepositId(tx), tx.inputs, witnesses, info.previousBlockTime)
    && info.minFee < InputTotal(tx.inputs) <= MAX_COIN
  }

  lemma DepositAccepted(tx: DepositBondTx, witnesses: seq<TxInWitness>, info: ChainInfo, txs: seq<TxWithOutputs>)
    requires LookedUp(tx.inputs, txs)
    ensures DepositCoins(tx, witnesses, info, txs).Ok? <==> DepositAllowed(tx, witnesses, info)
    ensures DepositAllowed(tx, witnesses, info) ==>
              DepositCoins(tx, witnesses, info, txs).value == InputTotal(tx.inputs)
  {
    if |witnesses| == |tx.inputs| {
      InputsAccepted(DepositId(tx), tx.inputs, witnesses, info, txs, 0);
    }
  }

  predicate UnbondAllowed(tx: UnbondTx, info: ChainInfo, account: StakedState) {
    && tx.chainHexId == info.chainHexId
    && tx.nonce == account.nonce
    && 0 < tx.value && tx.value + info.minFee <= account.bonded
  }

  predicate WithdrawAllowed(tx: WithdrawUnbondedTx, info: ChainInfo, account: StakedState) {
    && tx.attributes.chainHexId == info.chainHexId
    && tx.nonce == account.nonce
    && account.unbondedFrom <= info.previousBlockTime
    && 0 < account.unbonded
    && tx.outputs != []
    && (forall o | o in tx.outputs :: o.value > 0 && o.validFrom == Some(account.unbondedFrom))
    && Total(Values(tx.outputs)) + info.minFee <= account.unbonded
  }

  lemma WithdrawAccepted(tx: WithdrawUnbondedTx, info: ChainInfo, account: StakedState)
    ensures WithdrawFee(tx, info, account).Ok? <==> WithdrawAllowed(tx, info, account)
    ensures WithdrawAllowed(tx, info, account) ==>
              WithdrawFee(tx, info, account).value == account.unbonded - Total(Values(tx.outputs))
  {
  }

  /** An unbonding is accepted exactly when it is allowed and the sum of stakes respects the cap. */
  lemma UnbondAccepted(tx: UnbondTx, info: ChainInfo, account: StakedState)
    ensures UnbondVerdict(tx, info, account).Reject? <==> !UnbondAllowed(tx, info, account)
    ensures account.Stake() <= MAX_COIN ==> !UnbondVerdict(tx, info, account).Panic?
  {
  }
}
