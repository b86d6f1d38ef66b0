/** Per-address bookkeeping of the client (client-index/src/service/address_service.rs,
    client-common/src/balance): details, memento operations, and what they do to a balance. */
module AddressIndex {
  import opened Wrappers
  import opened Coins
  import opened Transactions
  import opened LiveOutputs

  datatype IndexError = BalanceAdditionError | InvalidTransaction | OutputNotFound | DecryptionError

  datatype BalanceChange = Incoming(value: Coin) | Outgoing(value: Coin)

  datatype TransactionChange = TransactionChange(
    txid: TxId, address: ExtendedAddr, change: BalanceChange, height: nat, time: Timespec)

  datatype Operation =
    | AddTransactionChange(change: TransactionChange)
    | AddUnspent(input: TxoPointer, output: TxOut)
    | RemoveUnspent(input: TxoPointer)

  datatype Details = Details(unspent: Outs, history: seq<TransactionChange>, balance: Coin, ids: set<TxId>)

  function NewDetails(): Details {
    Details(map[], [], 0, {})
  }

  function ChangedBalance(balance: Coin, c: BalanceChange): Result<Coin, IndexError> {
    var r := match c case Incoming(v) => Add(balance, v) case Outgoing(v) => Sub(balance, v);
    if r.Ok? then Ok(r.value) else Err(BalanceAdditionError)
  }

  function ApplyOperation(d: Details, op: Operation): Result<Details, IndexError> {
    match op
    case AddTransactionChange(c) =>
      (match ChangedBalance(d.balance, c.change)
       case Err(e) => Err(e)
       case Ok(b) => Ok(d.(balance := b, history := d.history + [c])))
    case AddUnspent(p, o) => Ok(d.(unspent := d.unspent[p := o]))
    case RemoveUnspent(p) => Ok(d.(unspent := d.unspent - {p}))
  }

  function ApplyOperations(d: Details, ops: seq<Operation>): Result<Details, IndexError>
    decreases |ops|
  {
    if ops == [] then Ok(d)
    else match ApplyOperation(d, ops[0])
      case Err(e) => Err(e)
      case Ok(d') => ApplyOperations(d', ops[1..])
  }

  /** `apply_memento_operations`: a transaction is applied to an address once. */
  function ApplyMemento(d: Details, txid: TxId, ops: seq<Operation>): Result<Details, IndexError> {
    if txid in d.ids then Ok(d)
    else match ApplyOperations(d, ops)
      case Err(e) => Err(e)
      case Ok(d') => Ok(d'.(ids := d'.ids + {txid}))
  }

  /** Applying a memento that has been applied changes nothing. */
  lemma AppliedOnce(d: Details, txid: TxId, ops: seq<Operation>)
    requires ApplyMemento(d, txid, ops).Ok?
    ensures ApplyMemento(ApplyMemento(d, txid, ops).value, txid, ops) == ApplyMemento(d, txid, ops)
  {
  }

  // ---------- The object ----------

  class AddressDetails {
    var unspent: Outs
    var history: seq<TransactionChange>
    var balance: Coin
    var ids: set<TxId>

    function View(): Details
      reads this
    {
      Details(unspent, history, balance, ids)
    }

    constructor (d: Details)
      ensures View() == d
    {
      unspent, history, balance, ids := d.unspent, d.history, d.balance, d.ids;
    }

    method ApplyMementoOperation(op: Operation) returns (r: Check<IndexError>)
      modifies this
      ensures r.Pass? <==> ApplyOperation(old(View()), op).Ok?
      ensures r.Pass? ==> View() == ApplyOperation(old(View()), op).value
      ensures r.Fail? ==> r.error == ApplyOperation(old(View()), op).error
    {
      r := Pass;
      match op
      case AddTransactionChange(c) =>
        var b := ChangedBalance(balance, c.change);
        if b.Err? {
          return Fail(b.error);
        }
        balance := b.value;
        history := history + [c];
      case AddUnspent(p, o) =>
        unspent := unspent[p := o];
      case RemoveUnspent(p) =>
        unspent := unspent - {p};
    }

    method ApplyMementoOperations(txid: TxId, ops: seq<Operation>) returns (r: Check<IndexError>)
      modifies this
      ensures r.Pass? <==> ApplyMemento(old(View()), txid, ops).Ok?
      ensures r.Pass? ==> View() == ApplyMemento(old(View()), txid, ops).value
      ensures r.Fail? ==> r.error == ApplyMemento(old(View()), txid, ops).error
    {
      if txid in ids {
        return Pass;
      }
      for i := 0 to |ops|
        invariant ApplyOperations(old(View()), ops) == ApplyOperations(View(), ops[i..])
      {
        assert ops[i..][1..] == ops[i + 1..];
        var c := ApplyMementoOperation(ops[i]);
        if c.Fail? {
          return c;
        }
      }
      ids := ids + {txid};
      r := Pass;
    }
  }

  // ---------- What a transaction does to an address ----------

  function SpendOps(txid: TxId, p: TxoPointer, height: nat, time: Timespec): seq<Operation>
    requires Exists(p)
  {
    [AddTransactionChange(TransactionChange(txid, OutputAt(p).address, Outgoing(OutputAt(p).value), height, time)),
     RemoveUnspent(p)]
  }

  function CreateOps(txid: TxId, p: TxoPointer, height: nat, time: Timespec): seq<Operation>
    requires Exists(p)
  {
    [AddTransactionChange(TransactionChange(txid, OutputAt(p).address, Incoming(OutputAt(p).value), height, time)),
     AddUnspent(p, OutputAt(p))]
  }

  function SpendAll(txid: TxId, ps: seq<TxoPointer>, height: nat, time: Timespec): seq<Operation>
    requires forall p | p in ps :: Exists(p)
  {
    if ps == [] then [] else SpendOps(txid, ps[0], height, time) + SpendAll(txid, ps[1..], height, time)
  }

  function CreateAll(txid: TxId, ps: seq<TxoPointer>, height: nat, time: Timespec): seq<Operation>
    requires forall p | p in ps :: Exists(p)
  {
    if ps == [] then [] else CreateOps(txid, ps[0], height, time) + CreateAll(txid, ps[1..], height, time)
  }

  lemma {:induction false} ApplyAppend(d: Details, a: seq<Operation>, b: seq<Operation>)
    ensures ApplyOperations(d, a + b) ==
            match ApplyOperations(d, a) { case Err(e) => Err(e) case Ok(d') => ApplyOperations(d', b) }
    decreases |a|
  {
    if a == [] {
      assert a + b == b;
    } else {
      assert (a + b)[1..] == a[1..] + b;
      var r := ApplyOperation(d, a[0]);
      if r.Ok? { ApplyAppend(r.value, a[1..], b); }
    }
  }

  lemma ApplyTwo(d: Details, x: Operation, y: Operation)
    ensures ApplyOperations(d, [x, y]) ==
            match ApplyOperation(d, x) { case Err(e) => Err(e) case Ok(d') => ApplyOperation(d', y) }
  {
    assert [x, y][1..] == [y];
    var r := ApplyOperation(d, x);
    if r.Ok? {
      assert [y][1..] == [];
      assert ApplyOperations(r.value, [y]) == ApplyOperation(r.value, y);
    }
  }

  function Signed(c: BalanceChange): int {
    match c
    case Incoming(v) => v
    case Outgoing(v) => 0 - v
  }

  function Net(history: seq<TransactionChange>): int {
    if history == [] then 0
    else
      Net(history[..|history| - 1]) + Signed(history[|history| - 1].change)
  }

  lemma NetPush(history: seq<TransactionChange>, c: TransactionChange)
    ensures Net(history + [c]) == Net(history) + Signed(c.change)
  {
    assert (history + [c])[..|history|] == history;
  }

  /** The balance is the value of the unspent outputs and what the history adds up to. */
  ghost predicate Balanced(d: Details) {
    && d.balance == Value(d.unspent) == Net(d.history)
    && forall p | p in d.unspent :: Exists(p) && d.unspent[p] == OutputAt(p)
  }

  lemma SpendApplies(d: Details, txid: TxId, p: TxoPointer, height: nat, time: Timespec)
    requires Balanced(d) && p in d.unspent
    ensures var r := ApplyOperations(d, SpendOps(txid, p, height, time));
            && r.Ok? && Balanced(r.value)
            && r.value.unspent == d.unspent - {p} && r.value.ids == d.ids
  {
    hide Value, Net;
    var ops := SpendOps(txid, p, height, time);
    ValueRemove(d.unspent, p);
    ApplyTwo(d, ops[0], ops[1]);
    NetPush(d.history, ops[0].change);
  }

  lemma CreateApplies(d: Details, txid: TxId, p: TxoPointer, height: nat, time: Timespec)
    requires Balanced(d) && p !in d.unspent && Exists(p)
    ensures var r := ApplyOperations(d, CreateOps(txid, p, height, time));
            && (r.Ok? <==> Value(d.unspent[p := OutputAt(p)]) <= MAX_COIN)
            && (r.Ok? ==> Balanced(r.value) && r.value.unspent == d.unspent[p := OutputAt(p)] && r.value.ids == d.ids)
  {
    hide Value, Net;
    var ops := CreateOps(txid, p, height, time);
    ValueInsert(d.unspent, p, OutputAt(p));
    ApplyTwo(d, ops[0], ops[1]);
    NetPush(d.history, ops[0].change);
  }

  function Pointers(ps: seq<TxoPointer>): set<TxoPointer> {
    set p | p in ps
  }

  lemma {:induction false} SpendsApply(d: Details, txid: TxId, ps: seq<TxoPointer>, height: nat, time: Timespec)
    requires Balanced(d) && NoDuplicates(ps) && (forall p | p in ps :: p in d.unspent && Exists(p))
    ensures var r := ApplyOperations(d, SpendAll(txid, ps, height, time));
            && r.Ok? && Balanced(r.value)
            && r.value.unspent == d.unspent - Pointers(ps) && r.value.ids == d.ids
    decreases |ps|
  {
    hide Balanced;
    if ps == [] {
      assert d.unspent - Pointers(ps) == d.unspent;
    } else {
      var first, rest := ps[0], ps[1..];
      assert ps == [first] + rest && first in ps;
      SpendApplies(d, txid, first, height, time);
      var d1 := ApplyOperations(d, SpendOps(txid, first, height, time)).value;
      forall p | p in rest ensures p in d1.unspent && Exists(p) { assert p in ps; }
      SpendsApply(d1, txid, rest, height, time);
      ApplyAppend(d, SpendOps(txid, first, height, time), SpendAll(txid, rest, height, time));
      RemoveTwice(d.unspent, first, rest);
    }
  }

  lemma RemoveTwice(m: Outs, first: TxoPointer, rest: seq<TxoPointer>)
    ensures (m - {first}) - Pointers(rest) == m - Pointers([first] + rest)
  {
  }

  function Fresh(ps: seq<TxoPointer>): Outs {
    map p | p in ps && Exists(p) :: OutputAt(p)
  }

  lemma AddTwice(m: Outs, first: TxoPointer, rest: seq<TxoPointer>)
    requires Exists(first)
    ensures m[first := OutputAt(first)] + Fresh(rest) == m + Fresh([first] + rest)
  {
  }

  lemma {:induction false} CreatesApply(d: Details, txid: TxId, ps: seq<TxoPointer>, height: nat, time: Timespec)
    requires Balanced(d) && NoDuplicates(ps) && (forall p | p in ps :: p !in d.unspent && Exists(p))
    ensures var r := ApplyOperations(d, CreateAll(txid, ps, height, time));
            && (r.Ok? <==> Value(d.unspent + Fresh(ps)) <= MAX_COIN)
            && (r.Ok? ==> Balanced(r.value) && r.value.unspent == d.unspent + Fresh(ps) && r.value.ids == d.ids)
    decreases |ps|
  {
    if ps == [] {
      assert d.unspent + Fresh(ps) == d.unspent;
    } else {
      var first, rest := ps[0], ps[1..];
      assert ps == [first] + rest && first in ps;
      forall p | p in rest ensures p in ps && p != first {}
      var ops, more := CreateOps(txid, first, height, time), CreateAll(txid, rest, height, time);
      assert CreateAll(txid, ps, height, time) == ops + more;
      hide Balanced, Value, Fresh, CreateOps, CreateAll, ApplyOperations;
      CreateApplies(d, txid, first, height, time);
      AddTwice(d.unspent, first, rest);
      ApplyAppend(d, ops, more);
      var r := ApplyOperations(d, ops);
      if r.Ok? {
        CreatesApply(r.value, txid, rest, height, time);
      } else {
        PartWorthLess(d.unspent, first, rest);
      }
    }
  }

  lemma PartWorthLess(m: Outs, first: TxoPointer, rest: seq<TxoPointer>)
    requires Exists(first) && first !in rest && forall p | p in rest :: p !in m
    ensures Value(m[first := OutputAt(first)]) <= Value(m + Fresh([first] + rest))
  {
    AddTwice(m, first, rest);
    ValueOfPart(m[first := OutputAt(first)], m + Fresh([first] + rest));
  }
}
