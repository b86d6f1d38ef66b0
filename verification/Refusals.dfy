/** What a refusal says: each error of the validation names a fault that the transaction has. */
module Refusals {
  import opened Wrappers
  import opened Coins
  import opened Transactions
  import opened Staking
  import opened Validation
  import opened UtxoDb
  import opened TxVerification

  // ---------- The inputs ----------

  predicate InputFault(mainId: TxId, p: TxoPointer, w: TxInWitness, time: Timespec, e: Error) {
    match e
    case InvalidInput => p.index >= |Outputs(p.id)|
    case OutputInTimelock => p.index < |Outputs(p.id)| && !Unlocked(Outputs(p.id)[p.index], time)
    case EcdsaCrypto => p.index < |Outputs(p.id)| && (mainId, Outputs(p.id)[p.index].address) !in w.passes
    case _ => false
  }

  predicate InputsFault(mainId: TxId, inputs: seq<TxoPointer>, ws: seq<TxInWitness>, time: Timespec, e: Error) {
    exists k | 0 <= k < |inputs| && k < |ws| :: InputFault(mainId, inputs[k], ws[k], time, e)
  }

  lemma {:induction false} InputsRefused(
    mainId: TxId, inputs: seq<TxoPointer>, ws: seq<TxInWitness>, info: ChainInfo, txs: seq<TxWithOutputs>, acc: Coin)
    requires LookedUp(inputs, txs) && |inputs| == |ws|
    ensures var r := InputsFrom(mainId, inputs, ws, info, txs, acc);
            r.Err? ==>
              if r.error == InvalidSum then acc + InputTotal(inputs) > MAX_COIN
              else InputsFault(mainId, inputs, ws, info.previousBlockTime, r.error)
    decreases |inputs|
  {
    if inputs != [] {
      var v := InputValue(mainId, inputs[0], txs[0], ws[0], info);
      assert PointedValues(inputs)[1..] == PointedValues(inputs[1..]);
      if v.Err? {
        assert InputFault(mainId, inputs[0], ws[0], info.previousBlockTime, v.error);
      } else if Add(acc, v.value).Ok? {
        InputsRefused(mainId, inputs[1..], ws[1..], info, txs[1..], Add(acc, v.value).value);
        FaultFurtherOn(mainId, inputs, ws, info, txs, Add(acc, v.value).value);
      }
    }
  }

  lemma FaultFurtherOn(
    mainId: TxId, inputs: seq<TxoPointer>, ws: seq<TxInWitness>, info: ChainInfo, txs: seq<TxWithOutputs>, acc: Coin)
    requires LookedUp(inputs, txs) && |inputs| == |ws| && inputs != []
    ensures var r := InputsFrom(mainId, inputs[1..], ws[1..], info, txs[1..], acc);
            r.Err? && InputsFault(mainId, inputs[1..], ws[1..], info.previousBlockTime, r.error) ==>
              InputsFault(mainId, inputs, ws, info.previousBlockTime, r.error)
  {
    var r, time := InputsFrom(mainId, inputs[1..], ws[1..], info, txs[1..], acc), info.previousBlockTime;
    if r.Err? && InputsFault(mainId, inputs[1..], ws[1..], time, r.error) {
      var k :| 0 <= k < |inputs[1..]| && InputFault(mainId, inputs[1..][k], ws[1..][k], time, r.error);
      assert InputFault(mainId, inputs[k + 1], ws[k + 1], time, r.error);
    }
  }

  // ---------- The kinds of transaction ----------

  /** Faults of the inputs of a transfer or a deposit. */
  predicate SpendingFault(
    mainId: TxId, hexId: nat, inputs: seq<TxoPointer>, ws: seq<TxInWitness>, info: ChainInfo, e: Error)
  {
    match e
    case WrongChainHexId => hexId != info.chainHexId
    case NoInputs => inputs == []
    case DuplicateInputs => !NoDuplicates(inputs)
    case UnexpectedWitnesses => |inputs| < |ws|
    case MissingWitnesses => |inputs| > |ws|
    case _ => InputsFault(mainId, inputs, ws, info.previousBlockTime, e)
  }

  predicate TransferFault(tx: Tx, ws: seq<TxInWitness>, info: ChainInfo, e: Error) {
    match e
    case NoOutputs => tx.outputs == []
    case ZeroCoin => exists o | o in tx.outputs :: o.value == 0
    case InvalidSum =>
      InputTotal(tx.inputs) > MAX_COIN || Total(Values(tx.outputs)) + info.minFee > MAX_COIN
    case InputOutputDoNotMatch => InputTotal(tx.inputs) < Total(Values(tx.outputs)) + info.minFee
    case _ => SpendingFault(TransferId(tx), tx.attributes.chainHexId, tx.inputs, ws, info, e)
  }

  lemma TransferRefused(tx: Tx, ws: seq<TxInWitness>, info: ChainInfo, txs: seq<TxWithOutputs>)
    requires LookedUp(tx.inputs, txs)
    ensures TransferFee(tx, ws, info, txs).Err? ==>
              TransferFault(tx, ws, info, TransferFee(tx, ws, info, txs).error)
  {
    hide InputsFrom;
    if |ws| == |tx.inputs| {
      InputsRefused(TransferId(tx), tx.inputs, ws, info, txs, 0);
      InputsAccepted(TransferId(tx), tx.inputs, ws, info, txs, 0);
    }
  }

  predicate DepositFault(tx: DepositBondTx, ws: seq<TxInWitness>, info: ChainInfo, e: Error) {
    match e
    case InvalidSum => InputTotal(tx.inputs) > MAX_COIN
    case InputOutputDoNotMatch => InputTotal(tx.inputs) <= info.minFee
    case _ => SpendingFault(DepositId(tx), tx.chainHexId, tx.inputs, ws, info, e)
  }

  lemma DepositRefused(tx: DepositBondTx, ws: seq<TxInWitness>, info: ChainInfo, txs: seq<TxWithOutputs>)
    requires LookedUp(tx.inputs, txs)
    ensures DepositCoins(tx, ws, info, txs).Err? ==>
              DepositFault(tx, ws, info, DepositCoins(tx, ws, info, txs).error)
  {
    hide InputsFrom;
    if |ws| == |tx.inputs| {
      InputsRefused(DepositId(tx), tx.inputs, ws, info, txs, 0);
      InputsAccepted(DepositId(tx), tx.inputs, ws, info, txs, 0);
    }
  }

  predicate UnbondFault(tx: UnbondTx, info: ChainInfo, account: StakedState, e: Error) {
    match e
    case WrongChainHexId => tx.chainHexId != info.chainHexId
    case AccountIncorrectNonce => tx.nonce != account.nonce
    case ZeroCoin => tx.value == 0
    case InvalidSum => tx.value + info.minFee > MAX_COIN
    case InputOutputDoNotMatch => account.bonded < tx.value + info.minFee
    case _ => false
  }

  lemma UnbondRefused(tx: UnbondTx, info: ChainInfo, account: StakedState)
    ensures UnbondVerdict(tx, info, account).Reject? ==>
              UnbondFault(tx, info, account, UnbondVerdict(tx, info, account).error)
  {
  }

  predicate WithdrawFault(tx: WithdrawUnbondedTx, info: ChainInfo, account: StakedState, e: Error) {
    match e
    case WrongChainHexId => tx.attributes.chainHexId != info.chainHexId
    case NoOutputs => tx.outputs == []
    case AccountIncorrectNonce => tx.nonce != account.nonce
    case AccountNotUnbonded => info.previousBlockTime < account.unbondedFrom
    case ZeroCoin => account.unbonded == 0 || exists o | o in tx.outputs :: o.value == 0
    case AccountWithdrawOutputNotLocked => exists o | o in tx.outputs :: o.validFrom != Some(account.unbondedFrom)
    case InvalidSum => Total(Values(tx.outputs)) + info.minFee > MAX_COIN
    case InputOutputDoNotMatch => account.unbonded < Total(Values(tx.outputs)) + info.minFee
    case _ => false
  }

  lemma WithdrawRefused(tx: WithdrawUnbondedTx, info: ChainInfo, account: StakedState)
    ensures WithdrawFee(tx, info, account).Err? ==>
              WithdrawFault(tx, info, account, WithdrawFee(tx, info, account).error)
  {
  }

  // ---------- The answer of the node ----------

  predicate Unknown(meta: Meta, p: TxoPointer) {
    p.id !in meta || p.index >= |meta[p.id]|
  }

  predicate Spent(meta: Meta, p: TxoPointer) {
    p.id in meta && p.index < |meta[p.id]| && meta[p.id][p.index]
  }

  /** The enclave does not say what it found; it is asked only about outputs that are unspent. */
  predicate Fault(meta: Meta, accounts: Accounts, store: Store, tx: TxAux, info: ChainInfo, e: Error) {
    match e
    case EnclaveRejected =>
      && !tx.UnbondStakeTx? && !Allowed(meta, accounts, store, tx, info)
      && forall p | p in tx.Inputs() :: Unspent(meta, p)
    case NoInputs => (tx.TransferTx? || tx.DepositStakeTx?) && tx.Inputs() == []
    case InvalidInput => exists p | p in tx.Inputs() :: Unknown(meta, p)
    case InputSpent => exists p | p in tx.Inputs() :: Spent(meta, p)
    case EcdsaCrypto => (tx.UnbondStakeTx? || tx.WithdrawUnbondedStakeTx?) && Target(tx) == None
    case AccountNotFound => Target(tx).Some? && Target(tx).value !in accounts
    case _ =>
      && tx.UnbondStakeTx? && Target(tx).Some? && Target(tx).value in accounts
      && UnbondFault(tx.unbond, info, accounts[Target(tx).value], e)
  }

  lemma {:induction false} LookupRefused(meta: Meta, inputs: seq<TxoPointer>)
    ensures var r := FirstSpent(meta, inputs);
            r.Fail? ==>
              || (r.error == InvalidInput && exists p | p in inputs :: Unknown(meta, p))
              || (r.error == InputSpent && exists p | p in inputs :: Spent(meta, p))
    decreases |inputs|
  {
    if inputs != [] {
      var first := inputs[0];
      assert first in inputs;
      if Unknown(meta, first) || Spent(meta, first) {
      } else {
        LookupRefused(meta, inputs[1..]);
        assert forall p | p in inputs[1..] :: p in inputs;
      }
    }
  }

  /** A transaction that the node refuses has the fault that the answer names. */
  lemma RefusalNamesFault(meta: Meta, accounts: Accounts, store: Store, tx: TxAux, info: ChainInfo)
    requires StoreSound(store) && AddressesMatch(accounts) && tx.WellFormed()
    ensures VerifyTx(meta, accounts, store, tx, info).Reject? ==>
              Fault(meta, accounts, store, tx, info, VerifyTx(meta, accounts, store, tx, info).error)
  {
    VerificationDecides(meta, accounts, store, tx, info);
    LookupRefused(meta, tx.Inputs());
    if tx.UnbondStakeTx? && Target(tx).Some? && Target(tx).value in accounts {
      UnbondRefused(tx.unbond, info, accounts[Target(tx).value]);
    }
    hide Allowed, Effect, WithinCap, EnclaveAnswer, FirstSpent, UnbondVerdict, UnbondFault, Unknown, Spent;
  }
}
