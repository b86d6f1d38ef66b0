/** The history of changes that the client keeps for an address, said from the handled transactions
    alone. */
module ClientHistory {
  import opened Wrappers
  import opened Sequences
  import opened Coins
  import opened Transactions
  import opened LiveOutputs
  import opened AddressIndex
  import opened ClientIndex

  // ---------- What the history should be ----------

  /** An output at this address, of a transaction that the client knows. */
  function KnownHere(ids: seq<TxId>, a: ExtendedAddr): TxoPointer -> bool {
    (p: TxoPointer) => p.id in ids && At(p, a)
  }

  function Here(a: ExtendedAddr): TxoPointer -> bool {
    (p: TxoPointer) => At(p, a)
  }

  function OwnOutputs(id: TxId): seq<TxoPointer> {
    seq(|Outputs(id)|, i requires 0 <= i < |Outputs(id)| => TxoPointer(id, i))
  }

  function ValueAt(p: TxoPointer): Coin {
    if Exists(p) then OutputAt(p).value else 0
  }

  /** One entry for each of these outputs. */
  function Spent(item: Item, ps: seq<TxoPointer>, a: ExtendedAddr): (cs: seq<TransactionChange>)
    ensures |cs| == |ps|
  {
    seq(|ps|, i requires 0 <= i < |ps| =>
      TransactionChange(item.tx.Id(), a, Outgoing(ValueAt(ps[i])), item.height, item.time))
  }

  function Received(item: Item, ps: seq<TxoPointer>, a: ExtendedAddr): (cs: seq<TransactionChange>)
    ensures |cs| == |ps|
  {
    seq(|ps|, i requires 0 <= i < |ps| =>
      TransactionChange(item.tx.Id(), a, Incoming(ValueAt(ps[i])), item.height, item.time))
  }

  /** What the last of these items adds: an outgoing entry for every consumed output of the address, as
      far as it is known, then an incoming one for every created output; nothing the second time. */
  function Adds(items: seq<Item>, a: ExtendedAddr): seq<TransactionChange>
    requires items != []
  {
    var item, earlier := items[|items| - 1], Ids(items[..|items| - 1]);
    var id := item.tx.Id();
    if id in earlier then []
    else
      Spent(item, Filter(KnownHere(Ids(items), a), InputsOf(id)), a)
      + Received(item, Filter(Here(a), OwnOutputs(id)), a)
  }

  /** Item by item, in the order of handling. */
  function HistoryAt(items: seq<Item>, a: ExtendedAddr): seq<TransactionChange> {
    if items == [] then [] else HistoryAt(items[..|items| - 1], a) + Adds(items, a)
  }

  // ---------- What operations add ----------

  function ChangeIn(op: Operation): seq<TransactionChange> {
    if op.AddTransactionChange? then [op.change] else []
  }

  function ChangesIn(ops: seq<Operation>): seq<TransactionChange> {
    if ops == [] then [] else ChangeIn(ops[0]) + ChangesIn(ops[1..])
  }

  lemma {:induction false} ApplyAddsChanges(d: Details, ops: seq<Operation>)
    ensures ApplyOperations(d, ops).Ok? ==> ApplyOperations(d, ops).value.history == d.history + ChangesIn(ops)
    decreases |ops|
  {
    if ops != [] {
      var r := ApplyOperation(d, ops[0]);
      if r.Ok? { ApplyAddsChanges(r.value, ops[1..]); }
    }
  }

  lemma ChangesHead(op: Operation, ops: seq<Operation>)
    ensures ChangesIn([op] + ops) == ChangeIn(op) + ChangesIn(ops)
  {
    assert ([op] + ops)[1..] == ops;
  }

  lemma {:induction false} ChangesAppend(a: seq<Operation>, b: seq<Operation>)
    ensures ChangesIn(a + b) == ChangesIn(a) + ChangesIn(b)
    decreases |a|
  {
    if a == [] {
      assert a + b == b;
    } else {
      hide ChangesIn, ChangeIn;
      var first, rest := a[0], a[1..];
      ChangesAppend(rest, b);
      ChangesHead(first, rest);
      ChangesHead(first, rest + b);
      assert a == [first] + rest && a + b == [first] + (rest + b);
    }
  }

  lemma TwoChanges(x: Operation, y: Operation)
    requires x.AddTransactionChange? && !y.AddTransactionChange?
    ensures ChangesIn([x, y]) == [x.change]
  {
    ChangesHead(x, [y]);
    ChangesHead(y, []);
    assert [x] + [y] == [x, y] && [y] + [] == [y];
  }

  lemma OneSpent(item: Item, p: TxoPointer, a: ExtendedAddr)
    requires Exists(p) && At(p, a)
    ensures ChangesIn(SpendOps(item.tx.Id(), p, item.height, item.time)) == Spent(item, [p], a)
  {
    hide ChangesIn;
    var ops := SpendOps(item.tx.Id(), p, item.height, item.time);
    TwoChanges(ops[0], ops[1]);
  }

  lemma OneReceived(item: Item, p: TxoPointer, a: ExtendedAddr)
    requires Exists(p) && At(p, a)
    ensures ChangesIn(CreateOps(item.tx.Id(), p, item.height, item.time)) == Received(item, [p], a)
  {
    hide ChangesIn;
    var ops := CreateOps(item.tx.Id(), p, item.height, item.time);
    TwoChanges(ops[0], ops[1]);
  }

  lemma EntriesSplit(item: Item, ps: seq<TxoPointer>, a: ExtendedAddr)
    requires ps != []
    ensures Spent(item, ps, a) == Spent(item, [ps[0]], a) + Spent(item, ps[1..], a)
    ensures Received(item, ps, a) == Received(item, [ps[0]], a) + Received(item, ps[1..], a)
  {
  }

  lemma {:induction false} SpendChanges(item: Item, ps: seq<TxoPointer>, a: ExtendedAddr)
    requires forall p | p in ps :: Exists(p) && At(p, a)
    ensures ChangesIn(SpendAll(item.tx.Id(), ps, item.height, item.time)) == Spent(item, ps, a)
    decreases |ps|
  {
    if ps != [] {
      hide ChangesIn, Spent, SpendOps, At, Exists;
      OneSpent(item, ps[0], a);
      SpendChanges(item, ps[1..], a);
      EntriesSplit(item, ps, a);
      var id := item.tx.Id();
      ChangesAppend(SpendOps(id, ps[0], item.height, item.time), SpendAll(id, ps[1..], item.height, item.time));
    }
  }

  lemma {:induction false} CreateChanges(item: Item, ps: seq<TxoPointer>, a: ExtendedAddr)
    requires forall p | p in ps :: Exists(p) && At(p, a)
    ensures ChangesIn(CreateAll(item.tx.Id(), ps, item.height, item.time)) == Received(item, ps, a)
    decreases |ps|
  {
    if ps != [] {
      hide ChangesIn, Received, CreateOps, At, Exists;
      OneReceived(item, ps[0], a);
      CreateChanges(item, ps[1..], a);
      EntriesSplit(item, ps, a);
      var id := item.tx.Id();
      ChangesAppend(CreateOps(id, ps[0], item.height, item.time), CreateAll(id, ps[1..], item.height, item.time));
    }
  }

  lemma {:induction false} SpendsAreFiltered(ids: seq<TxId>, inputs: seq<TxoPointer>, a: ExtendedAddr)
    ensures SpendsAt(IdSet(ids), inputs, a) == Filter(KnownHere(ids, a), inputs)
    decreases |inputs|
  {
    if inputs != [] {
      var keep := KnownHere(ids, a);
      SpendsAreFiltered(ids, inputs[1..], a);
      FilterAppend(keep, [inputs[0]], inputs[1..]);
      FilterOne(keep, inputs[0]);
      assert inputs == [inputs[0]] + inputs[1..];
    }
  }

  lemma {:induction false} CreatesAreFiltered(id: TxId, k: nat, a: ExtendedAddr)
    requires k <= |Outputs(id)|
    ensures CreatesFrom(id, k, a) == Filter(Here(a), OwnOutputs(id)[k..])
    decreases |Outputs(id)| - k
  {
    if k < |Outputs(id)| {
      var p := TxoPointer(id, k);
      CreatesAreFiltered(id, k + 1, a);
      assert OwnOutputs(id)[k..] == [p] + OwnOutputs(id)[k + 1..];
      FilterAppend(Here(a), [p], OwnOutputs(id)[k + 1..]);
      FilterOne(Here(a), p);
    }
  }

  /** The operations of a transaction at an address add exactly these entries. */
  lemma OpsChanges(ids: seq<TxId>, item: Item, a: ExtendedAddr)
    ensures var id := item.tx.Id();
            ChangesIn(OpsAt(IdSet(ids), item, a)) ==
            Spent(item, Filter(KnownHere(ids, a), InputsOf(id)), a) + Received(item, Filter(Here(a), OwnOutputs(id)), a)
  {
    var id := item.tx.Id();
    var spends, creates := SpendsAt(IdSet(ids), InputsOf(id), a), CreatesFrom(id, 0, a);
    SpendsAreFiltered(ids, InputsOf(id), a);
    CreatesAreFiltered(id, 0, a);
    assert OwnOutputs(id)[0..] == OwnOutputs(id);
    hide SpendsAt, CreatesFrom, SpendAll, CreateAll, Filter, OwnOutputs, Spent, Received, IdSet;
    SpendChanges(item, spends, a);
    CreateChanges(item, creates, a);
    ChangesAppend(SpendAll(id, spends, item.height, item.time), CreateAll(id, creates, item.height, item.time));
  }

  // ---------- Handling ----------

  /** Handling one more item adds its entries to the history of every address. */
  lemma HandleAdds(x: Index, items: seq<Item>, n: nat, a: ExtendedAddr)
    requires n < |items| && IndexOk(x, Ids(items[..n])) && HandleTx(x, items[n]).Ok?
    ensures DetailsAt(HandleTx(x, items[n]).value.addresses, a).history ==
            DetailsAt(x.addresses, a).history + Adds(items[..n + 1], a)
  {
    hide OpsAt, ApplyMemento, InputsResolve, Touched, IndexOk, HandleTx, Ids, Spent, Received, Filter, ChangesIn;
    var ids, item := Ids(items[..n]), items[n];
    var known := IdSet(ids + [item.tx.Id()]);
    IdsPush(items, n);
    assert items[..n + 1][..n] == items[..n];
    HandledAddresses(x, ids, item);
    UpdatedDetails(x.addresses, known, item, a);
    assert DetailsOk(DetailsAt(x.addresses, a), ids, a) by { DetailsOfIndex(x, ids, a); }
    UpdateAdds(x.addresses, ids, item, a);
    OpsChanges(ids + [item.tx.Id()], item, a);
  }

  lemma DetailsOfIndex(x: Index, ids: seq<TxId>, a: ExtendedAddr)
    requires IndexOk(x, ids)
    ensures DetailsOk(DetailsAt(x.addresses, a), ids, a)
  {
  }

  lemma HandledAddresses(x: Index, ids: seq<TxId>, item: Item)
    requires IndexOk(x, ids) && HandleTx(x, item).Ok?
    ensures var known := IdSet(ids + [item.tx.Id()]);
            && AllApply(x.addresses, known, item)
            && HandleTx(x, item).value.addresses == Updated(x.addresses, known, item)
  {
    hide AddressesOk, AllApply, Updated, InputsResolve;
    assert x.txs[item.tx.Id() := item.tx].Keys == IdSet(ids + [item.tx.Id()]);
  }

  lemma UpdateAdds(addresses: Addresses, ids: seq<TxId>, item: Item, a: ExtendedAddr)
    requires DetailsOk(DetailsAt(addresses, a), ids, a)
    requires UpdatedAt(addresses, IdSet(ids + [item.tx.Id()]), item, a).Ok?
    ensures var known := IdSet(ids + [item.tx.Id()]);
            UpdatedAt(addresses, known, item, a).value.history ==
            DetailsAt(addresses, a).history + (if item.tx.Id() in ids then [] else ChangesIn(OpsAt(known, item, a)))
  {
    var id, d := item.tx.Id(), DetailsAt(addresses, a);
    var known := IdSet(ids + [id]);
    UntouchedOps(known, item, a);
    ApplyAddsChanges(d, OpsAt(known, item, a));
    if id in ids { assert known == IdSet(ids); }
    hide OpsAt, LiveAt, Balanced, ApplyOperations, Touches;
    assert id in TouchingIds(ids, a) ==> id in ids;
  }

  /** The history of every address, after any well-ordered list of transactions handled from an empty
      index, is exactly what these transactions say: each entry carries the id, height and time of the
      transaction that spends or creates, the address, and the value of the output. */
  lemma {:induction false} HistoryIsExact(items: seq<Item>, n: nat, a: ExtendedAddr)
    requires WellOrdered(Ids(items)) && n <= |items| && HandleAll(NewIndex(), items[..n]).Ok?
    ensures DetailsAt(HandleAll(NewIndex(), items[..n]).value.addresses, a).history == HistoryAt(items[..n], a)
    decreases n
  {
    hide WellOrdered, IndexOk, HandleTx, Fits, Adds;
    if n == 0 {
      assert items[..0] == [];
    } else {
      assert items[..n][..n - 1] == items[..n - 1];
      HistoryIsExact(items, n - 1, a);
      IndexIsExact(items, n - 1);
      HandleAdds(HandleAll(NewIndex(), items[..n - 1]).value, items, n - 1, a);
    }
  }

  // ---------- What follows of single entries ----------

  lemma AddsEntries(items: seq<Item>, a: ExtendedAddr, c: TransactionChange)
    requires items != [] && c in Adds(items, a)
    ensures var item := items[|items| - 1];
            c.txid == item.tx.Id() && c.address == a && c.height == item.height && c.time == item.time
  {
    hide Filter;
  }

  /** Every entry belongs to a handled transaction, with its id, height and time. */
  lemma {:induction false} EntryFromItem(items: seq<Item>, a: ExtendedAddr, c: TransactionChange) returns (k: nat)
    requires c in HistoryAt(items, a)
    ensures k < |items| && c.address == a
    ensures c.txid == items[k].tx.Id() && c.height == items[k].height && c.time == items[k].time
    decreases |items|
  {
    hide Adds;
    if c in Adds(items, a) {
      AddsEntries(items, a, c);
      k := |items| - 1;
    } else {
      k := EntryFromItem(items[..|items| - 1], a, c);
    }
  }
}
