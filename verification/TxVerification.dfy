/** Verification of a transaction against the node's storage (chain-abci/src/storage/tx.rs) and the
    transaction validation enclave it consults (tx-validation/enclave/src/lib.rs and
    tx-validation/app/src/enclave_u/mod.rs; the in-process stand-in is
    chain-abci/src/enclave_bridge/mock.rs). */
module TxVerification {
  import opened Wrappers
  import opened Coins
  import opened Transactions
  import opened Staking
  import opened Validation
  import opened UtxoDb

  type Accounts = map<StakedStateAddress, StakedState>
  type Store = map<TxId, TxWithOutputs>
  type Answer = Verdict<(Coin, Option<StakedState>), Error>

  predicate StoreSound(store: Store) {
    forall id | id in store :: store[id].Id() == id
  }

  predicate AddressesMatch(accounts: Accounts) {
    forall a | a in accounts :: accounts[a].address == a
  }

  predicate Known(store: Store, inputs: seq<TxoPointer>) {
    forall p | p in inputs :: p.id in store
  }

  /** One stored transaction for each input; nothing when one of them is missing. */
  function LookupTxs(store: Store, inputs: seq<TxoPointer>): (r: Option<seq<TxWithOutputs>>)
    ensures r.Some? <==> Known(store, inputs)
    ensures r.Some? ==> |r.value| == |inputs|
    ensures r.Some? ==> forall k | 0 <= k < |inputs| :: inputs[k].id in store && r.value[k] == store[inputs[k].id]
  {
    if forall p | p in inputs :: p.id in store then
      Some(seq(|inputs|, k requires 0 <= k < |inputs| => assert inputs[k] in inputs; store[inputs[k].id]))
    else None
  }

  function WithAccount(v: Verdict<(Coin, StakedState), Error>): Answer {
    match v
    case Accept(fa) => Accept((fa.0, Some(fa.1)))
    case Reject(e) => Reject(e)
    case Panic => Panic
  }

  /** The enclave's answer to `VerifyTx`. The kind of payload must be that of the header. */
  function EnclaveAnswer(store: Store, tx: TxAux, account: Option<StakedState>, info: ChainInfo): Answer {
    match tx
    case TransferTx(txid, inputs, n, PlainTransfer(t, ws)) =>
      if TransferId(t) != txid || |t.outputs| % 0x1_0000 != n then Reject(EnclaveRejected)
      else (match LookupTxs(store, inputs)
            case None => Reject(InvalidInput)
            case Some(txs) =>
              match TransferFee(t, ws, info, txs)
              case Err(e) => Reject(e)
              case Ok(fee) => Accept((fee, None)))
    case DepositStakeTx(d, PlainDeposit(ws)) =>
      (match LookupTxs(store, d.inputs)
       case None => Reject(InvalidInput)
       case Some(txs) =>
         WithAccount(DepositVerdict(d, ws, info, txs, account)))
    case WithdrawUnbondedStakeTx(txid, n, w, PlainWithdraw(t)) =>
      if account.None? || txid !in w.recovers then Reject(EnclaveRejected)
      else if WithdrawId(t) != txid || |t.outputs| % 0x1_0000 != n || account.value.address != w.recovers[txid] then
        Reject(EnclaveRejected)
      else (match WithdrawFee(t, info, account.value)
            case Err(e) => Reject(e)
            case Ok(fee) => Accept((fee, Some(account.value.Withdrawn()))))
    case _ => Reject(EnclaveRejected)
  }

  /** What the enclave keeps once it has accepted: the bodies of transactions with outputs. */
  function StoreAfter(store: Store, tx: TxAux): (s: Store)
    ensures store.Keys <= s.Keys
  {
    match tx
    case TransferTx(txid, _, _, PlainTransfer(t, _)) => store[txid := Transfer(t)]
    case WithdrawUnbondedStakeTx(txid, _, _, PlainWithdraw(t)) => store[txid := StakeWithdraw(t)]
    case _ => store
  }

  function Lookup(accounts: Accounts, a: StakedStateAddress): Option<StakedState> {
    if a in accounts then Some(accounts[a]) else None
  }

  /** Every refusal of the enclave is reported as `EnclaveRejected`. */
  function Relay(r: Answer): Answer {
    if r.Reject? then Reject(EnclaveRejected) else r
  }

  /** `verify`: the double-spend lookup and the account lookup happen outside the enclave. */
  function VerifyTx(meta: Meta, accounts: Accounts, store: Store, tx: TxAux, info: ChainInfo): Answer {
    match tx
    case TransferTx(_, inputs, _, _) =>
      if SpentLookup(meta, inputs).Fail? then Reject(SpentLookup(meta, inputs).error)
      else Relay(EnclaveAnswer(store, tx, None, info))
    case DepositStakeTx(d, _) =>
      if SpentLookup(meta, d.inputs).Fail? then Reject(SpentLookup(meta, d.inputs).error)
      else Relay(EnclaveAnswer(store, tx, Lookup(accounts, d.toStakedAccount), info))
    case UnbondStakeTx(u, w) =>
      if UnbondId(u) !in w.recovers then Reject(EcdsaCrypto)
      else (match Lookup(accounts, w.recovers[UnbondId(u)])
            case None => Reject(AccountNotFound)
            case Some(a) =>
              WithAccount(UnbondVerdict(u, info, a)))
    case WithdrawUnbondedStakeTx(txid, _, w, _) =>
      if txid !in w.recovers then Reject(EcdsaCrypto)
      else (match Lookup(accounts, w.recovers[txid])
            case None => Reject(AccountNotFound)
            case Some(a) => Relay(EnclaveAnswer(store, tx, Some(a), info)))
  }

  // ---------- What is accepted, and with which effect ----------

  /** The account a staking transaction works on. */
  function Target(tx: TxAux): Option<StakedStateAddress> {
    match tx
    case TransferTx(_, _, _, _) => None
    case DepositStakeTx(d, _) => Some(d.toStakedAccount)
    case UnbondStakeTx(u, w) => if UnbondId(u) in w.recovers then Some(w.recovers[UnbondId(u)]) else None
    case WithdrawUnbondedStakeTx(txid, _, w, _) => if txid in w.recovers then Some(w.recovers[txid]) else None
  }

  predicate Allowed(meta: Meta, accounts: Accounts, store: Store, tx: TxAux, info: ChainInfo) {
    match tx
    case TransferTx(txid, inputs, n, PlainTransfer(t, ws)) =>
      && txid == TransferId(t) && n == |t.outputs|
      && (forall p | p in inputs :: Unspent(meta, p)) && Known(store, inputs)
      && TransferAllowed(t, ws, info)
    case DepositStakeTx(d, PlainDeposit(ws)) =>
      && (forall p | p in d.inputs :: Unspent(meta, p)) && Known(store, d.inputs)
      && DepositAllowed(d, ws, info)
    case UnbondStakeTx(u, _) =>
      && Target(tx).Some? && Target(tx).value in accounts
      && UnbondAllowed(u, info, accounts[Target(tx).value])
    case WithdrawUnbondedStakeTx(txid, n, _, PlainWithdraw(t)) =>
      && Target(tx).Some? && Target(tx).value in accounts
      && txid == WithdrawId(t) && n == |t.outputs|
      && WithdrawAllowed(t, info, accounts[Target(tx).value])
    case _ => false
  }

  /** The fee paid and the new account of an accepted transaction. */
  predicate Effect(accounts: Accounts, tx: TxAux, info: ChainInfo, fee: Coin, account: Option<StakedState>) {
    match tx
    case TransferTx(txid, inputs, _, _) =>
      account == None && fee + OutputTotal(txid) == InputTotal(inputs)
    case DepositStakeTx(d, _) =>
      && fee == info.minFee <= InputTotal(d.inputs) <= MAX_COIN
      && account ==
         DepositedAccount(d, InputTotal(d.inputs) - fee, info.previousBlockTime, Lookup(accounts, d.toStakedAccount))
    case UnbondStakeTx(u, _) =>
      && fee == info.minFee && Target(tx).Some? && Target(tx).value in accounts
      && account == accounts[Target(tx).value].Unbonded(u.value, fee, info.previousBlockTime + info.unbondingPeriod)
    case WithdrawUnbondedStakeTx(txid, _, _, _) =>
      && Target(tx).Some? && Target(tx).value in accounts
      && account == Some(accounts[Target(tx).value].Withdrawn())
      && fee + OutputTotal(txid) == accounts[Target(tx).value].unbonded
  }

  /** No stake update of this transaction would pass the supply cap. */
  predicate WithinCap(accounts: Accounts, tx: TxAux) {
    match tx
    case DepositStakeTx(d, _) =>
      d.toStakedAccount in accounts ==> accounts[d.toStakedAccount].bonded + InputTotal(d.inputs) <= MAX_COIN
    case UnbondStakeTx(u, _) =>
      Target(tx).Some? && Target(tx).value in accounts ==> accounts[Target(tx).value].Stake() <= MAX_COIN
    case _ => true
  }

  predicate Decided(meta: Meta, accounts: Accounts, store: Store, tx: TxAux, info: ChainInfo) {
    var r := VerifyTx(meta, accounts, store, tx, info);
    && (r.Reject? <==> !Allowed(meta, accounts, store, tx, info))
    && (r.Panic? ==> !WithinCap(accounts, tx))
    && (r.Accept? ==> Effect(accounts, tx, info, r.value.0, r.value.1))
  }

  lemma TransferDecided(meta: Meta, accounts: Accounts, store: Store, tx: TxAux, info: ChainInfo)
    requires StoreSound(store) && tx.WellFormed() && tx.TransferTx?
    ensures Decided(meta, accounts, store, tx, info)
  {
    var r := VerifyTx(meta, accounts, store, tx, info);
    var lookup := SpentLookup(meta, tx.inputs);
    var answer := EnclaveAnswer(store, tx, None, info);
    assert r == if lookup.Fail? then Reject(lookup.error) else Relay(answer);
    if tx.payload.PlainTransfer? {
      var t, ws := tx.payload.tx, tx.payload.witnesses;
      TransferAnswered(store, tx, info);
      AllowedTransferHasInputs(t, ws, info);
      assert Allowed(meta, accounts, store, tx, info) <==> lookup.Pass? && answer.Accept?;
    }
  }

  lemma TransferAnswered(store: Store, tx: TxAux, info: ChainInfo)
    requires StoreSound(store) && tx.WellFormed() && tx.TransferTx? && tx.payload.PlainTransfer?
    ensures var r := EnclaveAnswer(store, tx, None, info);
            var t := tx.payload.tx;
            && !r.Panic?
            && (r.Accept? <==> tx.txid == TransferId(t) && tx.noOfOutputs == |t.outputs| && Known(store, tx.inputs)
                               && TransferAllowed(t, tx.payload.witnesses, info))
            && (r.Accept? ==> r.value.1 == None && r.value.0 + OutputTotal(tx.txid) == InputTotal(tx.inputs))
  {
    hide TransferFee, TransferAllowed, InputTotal, Total;
    var txs := LookupTxs(store, tx.inputs);
    if txs.Some? { TransferAccepted(tx.payload.tx, tx.payload.witnesses, info, txs.value); }
  }

  lemma AllowedTransferHasInputs(t: Tx, ws: seq<TxInWitness>, info: ChainInfo)
    ensures TransferAllowed(t, ws, info) ==> t.inputs != []
  {
  }

  lemma DepositDecided(meta: Meta, accounts: Accounts, store: Store, tx: TxAux, info: ChainInfo)
    requires StoreSound(store) && tx.DepositStakeTx?
    ensures Decided(meta, accounts, store, tx, info)
  {
    hide DepositCoins, InputTotal, Unspent, FirstSpent, InputsAllowed;
    if tx.payload.PlainDeposit? {
      var txs := LookupTxs(store, tx.deposit.inputs);
      if txs.Some? { DepositAccepted(tx.deposit, tx.payload.witnesses, info, txs.value); }
    }
  }

  lemma WithdrawDecided(meta: Meta, accounts: Accounts, store: Store, tx: TxAux, info: ChainInfo)
    requires AddressesMatch(accounts) && tx.WellFormed() && tx.WithdrawUnbondedStakeTx?
    ensures Decided(meta, accounts, store, tx, info)
  {
    hide WithdrawFee, WithdrawAllowed, Total;
    if tx.payload.PlainWithdraw? && Target(tx).Some? && Target(tx).value in accounts {
      WithdrawAccepted(tx.payload.withdraw, info, accounts[Target(tx).value]);
    }
  }

  /** Verification accepts exactly the allowed transactions, with the stated fee and account, and
      panics on none of them unless an account would pass the cap. */
  lemma VerificationDecides(meta: Meta, accounts: Accounts, store: Store, tx: TxAux, info: ChainInfo)
    requires StoreSound(store) && AddressesMatch(accounts) && tx.WellFormed()
    ensures Decided(meta, accounts, store, tx, info)
  {
    match tx
    case TransferTx(_, _, _, _) => TransferDecided(meta, accounts, store, tx, info);
    case DepositStakeTx(_, _) => DepositDecided(meta, accounts, store, tx, info);
    case UnbondStakeTx(u, _) =>
      if Target(tx).Some? && Target(tx).value in accounts { UnbondAccepted(u, info, accounts[Target(tx).value]); }
    case WithdrawUnbondedStakeTx(_, _, _, _) => WithdrawDecided(meta, accounts, store, tx, info);
  }

  // ---------- The imperative form ----------

  method ProcessVerifyTx(store: Store, tx: TxAux, account: Option<StakedState>, info: ChainInfo)
    returns (r: Answer, store': Store)
    ensures r == EnclaveAnswer(store, tx, account, info)
    ensures store' == if r.Accept? then StoreAfter(store, tx) else store
  {
    store' := store;
    match tx
    case TransferTx(txid, inputs, n, PlainTransfer(t, ws)) =>
      if TransferId(t) != txid || |t.outputs| % 0x1_0000 != n {
        return Reject(EnclaveRejected), store;
      }
      var txs := LookupTxs(store, inputs);
      if txs.None? {
        return Reject(InvalidInput), store;
      }
      var fee := VerifyTransfer(t, ws, info, txs.value);
      if fee.Err? {
        return Reject(fee.error), store;
      }
      store' := store[txid := Transfer(t)];
      r := Accept((fee.value, None));
    case DepositStakeTx(d, PlainDeposit(ws)) =>
      var txs := LookupTxs(store, d.inputs);
      if txs.None? {
        return Reject(InvalidInput), store;
      }
      var v := VerifyBondedDeposit(d, ws, info, txs.value, account);
      r := WithAccount(v);
    case WithdrawUnbondedStakeTx(txid, n, w, PlainWithdraw(t)) =>
      if account.None? || txid !in w.recovers {
        return Reject(EnclaveRejected), store;
      }
      if WithdrawId(t) != txid || |t.outputs| % 0x1_0000 != n || account.value.address != w.recovers[txid] {
        return Reject(EnclaveRejected), store;
      }
      var v := VerifyUnbondedWithdraw(t, info, account.value);
      if v.Err? {
        return Reject(v.error), store;
      }
      store' := store[txid := StakeWithdraw(t)];
      r := Accept((v.value.0, Some(v.value.1)));
    case _ =>
      r := Reject(EnclaveRejected);
  }

  method Verify(db: Db, accounts: Accounts, store: Store, tx: TxAux, info: ChainInfo)
    returns (r: Answer, store': Store)
    ensures r == VerifyTx(db.Visible(), accounts, store, tx, info)
    ensures store' == if r.Accept? then StoreAfter(store, tx) else store
  {
    store' := store;
    match tx
    case TransferTx(_, inputs, _, _) =>
      var spent := CheckSpentInputLookup(inputs, db);
      if spent.Fail? {
        return Reject(spent.error), store;
      }
      r, store' := ProcessVerifyTx(store, tx, None, info);
      r := Relay(r);
    case DepositStakeTx(d, _) =>
      var account := Lookup(accounts, d.toStakedAccount);
      var spent := CheckSpentInputLookup(d.inputs, db);
      if spent.Fail? {
        return Reject(spent.error), store;
      }
      r, store' := ProcessVerifyTx(store, tx, account, info);
      r := Relay(r);
    case UnbondStakeTx(u, w) =>
      if UnbondId(u) !in w.recovers {
        return Reject(EcdsaCrypto), store;
      }
      var account := Lookup(accounts, w.recovers[UnbondId(u)]);
      if account.None? {
        return Reject(AccountNotFound), store;
      }
      var v := VerifyUnbonding(u, info, account.value);
      r := WithAccount(v);
    case WithdrawUnbondedStakeTx(txid, _, w, _) =>
      if txid !in w.recovers {
        return Reject(EcdsaCrypto), store;
      }
      var account := Lookup(accounts, w.recovers[txid]);
      if account.None? {
        return Reject(AccountNotFound), store;
      }
      r, store' := ProcessVerifyTx(store, tx, Some(account.value), info);
      r := Relay(r);
  }
}
