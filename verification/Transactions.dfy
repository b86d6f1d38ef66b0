/** Transaction data (chain-core/src/tx/mod.rs, chain-core/src/tx/data, chain-core/src/state/account.rs).

    A transaction id is the Blake2s hash of the encoded transaction. Hashing and encoding are taken
    to be injective, so an id is a term that holds the transaction it was computed from. */
module Transactions {
  import opened Wrappers
  import opened Coins

  type Timespec = int

  datatype StakedStateAddress = BasicRedeem(bytes: nat)
  datatype ExtendedAddr = OrTree(root: nat)
  datatype TxAttributes = TxAttributes(chainHexId: nat, allowedView: seq<nat>)
  datatype TxOut = TxOut(address: ExtendedAddr, value: Coin, validFrom: Option<Timespec>)
  datatype TxoPointer = TxoPointer(id: TxId, index: nat)

  datatype Tx = Tx(inputs: seq<TxoPointer>, outputs: seq<TxOut>, attributes: TxAttributes)
  datatype DepositBondTx = DepositBondTx(
    inputs: seq<TxoPointer>, toStakedAccount: StakedStateAddress, chainHexId: nat)
  datatype UnbondTx = UnbondTx(value: Coin, nonce: nat, chainHexId: nat)
  datatype WithdrawUnbondedTx = WithdrawUnbondedTx(nonce: nat, outputs: seq<TxOut>, attributes: TxAttributes)

  datatype TxId =
    | TransferId(transfer: Tx)
    | DepositId(deposit: DepositBondTx)
    | UnbondId(unbond: UnbondTx)
    | WithdrawId(withdraw: WithdrawUnbondedTx)

  /** The outputs of the transaction an id was computed from. */
  function Outputs(id: TxId): seq<TxOut> {
    match id
    case TransferId(tx) => tx.outputs
    case WithdrawId(tx) => tx.outputs
    case _ => []
  }

  predicate HasOutputs(id: TxId) {
    id.TransferId? || id.WithdrawId?
  }

  function Values(outs: seq<TxOut>): seq<Coin> {
    seq(|outs|, i requires 0 <= i < |outs| => outs[i].value)
  }

  function OutputTotal(id: TxId): nat {
    Total(Values(Outputs(id)))
  }

  /** What the enclave keeps of a transaction with outputs. */
  datatype TxWithOutputs = Transfer(tx: Tx) | StakeWithdraw(withdraw: WithdrawUnbondedTx) {
    function Id(): TxId {
      match this
      case Transfer(tx) => TransferId(tx)
      case StakeWithdraw(tx) => WithdrawId(tx)
    }

    function Outs(): (outs: seq<TxOut>)
      ensures outs == Outputs(Id())
    {
      match this
      case Transfer(tx) => tx.outputs
      case StakeWithdraw(tx) => tx.outputs
    }
  }

  /** An input witness, known only by the checks it passes: `verify_tx_address(w, id, address)`. */
  datatype TxInWitness = TxInWitness(passes: set<(TxId, ExtendedAddr)>)

  /** A staking witness, known only by the address it yields: `verify_tx_recover_address(w, id)`. */
  datatype StakedStateOpWitness = StakedStateOpWitness(recovers: map<TxId, StakedStateAddress>)

  /** The decoded payload of an obfuscated transaction. */
  datatype Payload =
    | Undecodable
    | PlainTransfer(tx: Tx, witnesses: seq<TxInWitness>)
    | PlainDeposit(witnesses: seq<TxInWitness>)
    | PlainWithdraw(withdraw: WithdrawUnbondedTx)

  datatype TxAux =
    | TransferTx(txid: TxId, inputs: seq<TxoPointer>, noOfOutputs: nat, payload: Payload)
    | DepositStakeTx(deposit: DepositBondTx, payload: Payload)
    | UnbondStakeTx(unbond: UnbondTx, opWitness: StakedStateOpWitness)
    | WithdrawUnbondedStakeTx(txid: TxId, noOfOutputs: nat, opWitness: StakedStateOpWitness, payload: Payload)
  {
    function Id(): TxId {
      match this
      case TransferTx(txid, _, _, _) => txid
      case DepositStakeTx(tx, _) => DepositId(tx)
      case UnbondStakeTx(tx, _) => UnbondId(tx)
      case WithdrawUnbondedStakeTx(txid, _, _, _) => txid
    }

    /** The outputs that delivering this transaction marks as spent. */
    function Inputs(): seq<TxoPointer> {
      match this
      case TransferTx(_, inputs, _, _) => inputs
      case DepositStakeTx(tx, _) => tx.inputs
      case _ => []
    }

    predicate CreatesOutputs() {
      TransferTx? || WithdrawUnbondedStakeTx?
    }

    /** Hypotheses on the bytes of a request: the decoder's size limits keep the number of outputs
        below 2^16, and the public header of a transfer lists the inputs of its payload. */
    predicate WellFormed() {
      match this
      case TransferTx(_, inputs, _, PlainTransfer(tx, _)) => inputs == tx.inputs && |tx.outputs| < 0x1_0000
      case WithdrawUnbondedStakeTx(_, _, _, PlainWithdraw(tx)) => |tx.outputs| < 0x1_0000
      case _ => true
    }
  }
}
