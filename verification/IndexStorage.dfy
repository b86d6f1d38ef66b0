/** The client's storage and the services, handlers and synchroniser that work on it in place
    (client-index/src/service, client-index/src/handler, client-index/src/synchronizer.rs). */
module IndexStorage {
  import opened Wrappers
  import opened Coins
  import opened Transactions
  import opened LiveOutputs
  import opened AppHashes
  import opened AddressIndex
  import opened ClientIndex
  import opened BlockSync

  // ---------- Mementos ----------

  function OpsIn(operations: map<ExtendedAddr, seq<Operation>>, a: ExtendedAddr): seq<Operation> {
    if a in operations then operations[a] else []
  }

  class AddressMemento {
    const txid: TxId
    var operations: map<ExtendedAddr, seq<Operation>>

    constructor (txid: TxId)
      ensures this.txid == txid && operations == map[]
    {
      this.txid := txid;
      operations := map[];
    }

    method AddOperation(a: ExtendedAddr, op: Operation)
      modifies this
      ensures operations == old(operations)[a := OpsIn(old(operations), a) + [op]]
    {
      if a !in operations {
        operations := operations[a := []];
      }
      operations := operations[a := operations[a] + [op]];
    }

    /** A change of balance together with the change of the unspent outputs that belongs to it. */
    method AddChange(a: ExtendedAddr, change: TransactionChange, op: Operation)
      modifies this
      ensures operations == old(operations)[a := OpsIn(old(operations), a) + [AddTransactionChange(change), op]]
    {
      ghost var before := OpsIn(operations, a);
      AddOperation(a, AddTransactionChange(change));
      AddOperation(a, op);
      assert before + [AddTransactionChange(change)] + [op] == before + [AddTransactionChange(change), op];
    }
  }

  /** A memento that holds, for every address, the operations of a list of spends and creations. */
  ghost predicate Holds(
    operations: map<ExtendedAddr, seq<Operation>>, known: set<TxId>, item: Item, spent: seq<TxoPointer>, created: nat)
    requires created <= |Outputs(item.tx.Id())|
  {
    && (forall a | a in operations :: operations[a] != [])
    && forall a :: OpsIn(operations, a) == OpsSoFar(known, item, spent, created, a)
  }

  function CreatesUpTo(id: TxId, n: nat, a: ExtendedAddr): (ps: seq<TxoPointer>)
    requires n <= |Outputs(id)|
    ensures forall p | p in ps :: Exists(p)
  {
    if n == 0 then []
    else CreatesUpTo(id, n - 1, a) + (if At(TxoPointer(id, n - 1), a) then [TxoPointer(id, n - 1)] else [])
  }

  function OpsSoFar(known: set<TxId>, item: Item, spent: seq<TxoPointer>, created: nat, a: ExtendedAddr): seq<Operation>
    requires created <= |Outputs(item.tx.Id())|
  {
    var id := item.tx.Id();
    SpendAll(id, SpendsAt(known, spent, a), item.height, item.time)
    + CreateAll(id, CreatesUpTo(id, created, a), item.height, item.time)
  }

  lemma {:induction false} SpendsAtPush(known: set<TxId>, inputs: seq<TxoPointer>, p: TxoPointer, a: ExtendedAddr)
    ensures SpendsAt(known, inputs + [p], a) ==
            SpendsAt(known, inputs, a) + (if p.id in known && At(p, a) then [p] else [])
    decreases |inputs|
  {
    hide At;
    if inputs == [] {
      assert [p][1..] == [];
    } else {
      assert (inputs + [p])[1..] == inputs[1..] + [p];
      SpendsAtPush(known, inputs[1..], p, a);
    }
  }

  lemma {:induction false} SpendAllPush(txid: TxId, ps: seq<TxoPointer>, p: TxoPointer, height: nat, time: Timespec)
    requires Exists(p) && forall q | q in ps :: Exists(q)
    ensures SpendAll(txid, ps + [p], height, time) == SpendAll(txid, ps, height, time) + SpendOps(txid, p, height, time)
    decreases |ps|
  {
    if ps == [] {
      assert [p][1..] == [];
    } else {
      assert (ps + [p])[1..] == ps[1..] + [p];
      SpendAllPush(txid, ps[1..], p, height, time);
    }
  }

  lemma {:induction false} CreateAllPush(txid: TxId, ps: seq<TxoPointer>, p: TxoPointer, height: nat, time: Timespec)
    requires Exists(p) && forall q | q in ps :: Exists(q)
    ensures CreateAll(txid, ps + [p], height, time) ==
            CreateAll(txid, ps, height, time) + CreateOps(txid, p, height, time)
    decreases |ps|
  {
    if ps == [] {
      assert [p][1..] == [];
    } else {
      assert (ps + [p])[1..] == ps[1..] + [p];
      CreateAllPush(txid, ps[1..], p, height, time);
    }
  }

  lemma {:induction false} CreatesMeet(id: TxId, n: nat, a: ExtendedAddr)
    requires n <= |Outputs(id)|
    ensures CreatesUpTo(id, n, a) + CreatesFrom(id, n, a) == CreatesFrom(id, 0, a)
    decreases n
  {
    if n > 0 { CreatesMeet(id, n - 1, a); }
  }

  lemma OpsComplete(known: set<TxId>, item: Item, a: ExtendedAddr)
    ensures OpsSoFar(known, item, InputsOf(item.tx.Id()), |Outputs(item.tx.Id())|, a) == OpsAt(known, item, a)
  {
    var id := item.tx.Id();
    CreatesMeet(id, |Outputs(id)|, a);
    assert CreatesFrom(id, |Outputs(id)|, a) == [];
    assert CreatesUpTo(id, |Outputs(id)|, a) == CreatesFrom(id, 0, a);
    hide SpendAll, CreateAll, CreatesFrom, CreatesUpTo, SpendsAt;
  }

  lemma HoldsAll(operations: map<ExtendedAddr, seq<Operation>>, known: set<TxId>, item: Item)
    requires Holds(operations, known, item, InputsOf(item.tx.Id()), |Outputs(item.tx.Id())|)
    ensures operations.Keys == Touched(known, item.tx.Id())
    ensures forall a | a in operations :: operations[a] == OpsAt(known, item, a)
  {
    hide OpsAt, OpsSoFar, Touches;
    forall a
      ensures OpsIn(operations, a) == OpsAt(known, item, a)
      ensures a in operations <==> a in Touched(known, item.tx.Id())
    {
      OpsComplete(known, item, a);
      OpsIffTouched(known, item, a);
    }
  }

  lemma OpsIffTouched(known: set<TxId>, item: Item, a: ExtendedAddr)
    ensures OpsAt(known, item, a) != [] <==> Touches(known, item.tx.Id(), a)
  {
    UntouchedOps(known, item, a);
    var id := item.tx.Id();
    var spends, creates := SpendsAt(known, InputsOf(id), a), CreatesFrom(id, 0, a);
    if Touches(known, id, a) {
      if p :| p in InputsOf(id) && p.id in known && At(p, a) {
        assert p in spends;
      } else {
        var o :| o in Outputs(id) && o.address == a;
        var i :| 0 <= i < |Outputs(id)| && Outputs(id)[i] == o;
        assert TxoPointer(id, i) in creates;
      }
    }
  }

  lemma NoCreates(item: Item, a: ExtendedAddr)
    ensures CreateAll(item.tx.Id(), CreatesUpTo(item.tx.Id(), 0, a), item.height, item.time) == []
  {
  }

  lemma OpsSpend(known: set<TxId>, item: Item, spent: seq<TxoPointer>, p: TxoPointer, a: ExtendedAddr)
    ensures OpsSoFar(known, item, spent + [p], 0, a) ==
            OpsSoFar(known, item, spent, 0, a)
            + (if p.id in known && At(p, a) then SpendOps(item.tx.Id(), p, item.height, item.time) else [])
  {
    var id := item.tx.Id();
    hide SpendsAt, SpendAll, CreateAll, CreatesUpTo, SpendOps;
    NoCreates(item, a);
    SpendsAtPush(known, spent, p, a);
    var ps := SpendsAt(known, spent, a);
    assert ps + [] == ps;
    if p.id in known && At(p, a) { SpendAllPush(id, ps, p, item.height, item.time); }
  }

  lemma HoldsSpend(
    operations: map<ExtendedAddr, seq<Operation>>, known: set<TxId>, item: Item, spent: seq<TxoPointer>, p: TxoPointer)
    requires Holds(operations, known, item, spent, 0)
    ensures !(p.id in known && Exists(p)) ==> Holds(operations, known, item, spent + [p], 0)
    ensures p.id in known && Exists(p) ==>
              var a := OutputAt(p).address;
              var ops := SpendOps(item.tx.Id(), p, item.height, item.time);
              Holds(operations[a := OpsIn(operations, a) + ops], known, item, spent + [p], 0)
  {
    hide OpsSoFar;
    forall a ensures OpsSoFar(known, item, spent + [p], 0, a) ==
                     OpsSoFar(known, item, spent, 0, a)
                     + (if p.id in known && At(p, a) then SpendOps(item.tx.Id(), p, item.height, item.time) else [])
    {
      OpsSpend(known, item, spent, p, a);
    }
  }

  lemma OpsCreate(known: set<TxId>, item: Item, spent: seq<TxoPointer>, i: nat, a: ExtendedAddr)
    requires i < |Outputs(item.tx.Id())|
    ensures OpsSoFar(known, item, spent, i + 1, a) ==
            OpsSoFar(known, item, spent, i, a)
            + (if At(TxoPointer(item.tx.Id(), i), a)
               then CreateOps(item.tx.Id(), TxoPointer(item.tx.Id(), i), item.height, item.time) else [])
  {
    var id := item.tx.Id();
    var p, ps := TxoPointer(id, i), CreatesUpTo(id, i, a);
    assert CreatesUpTo(id, i + 1, a) == ps + (if At(p, a) then [p] else []);
    hide SpendsAt, SpendAll, CreateAll, CreatesUpTo, CreateOps;
    assert ps + [] == ps;
    if At(p, a) { CreateAllPush(id, ps, p, item.height, item.time); }
  }

  lemma HoldsCreate(
    operations: map<ExtendedAddr, seq<Operation>>, known: set<TxId>, item: Item, spent: seq<TxoPointer>, i: nat)
    requires i < |Outputs(item.tx.Id())| && Holds(operations, known, item, spent, i)
    ensures var p := TxoPointer(item.tx.Id(), i);
            var a := OutputAt(p).address;
            var ops := CreateOps(item.tx.Id(), p, item.height, item.time);
            Holds(operations[a := OpsIn(operations, a) + ops], known, item, spent, i + 1)
  {
    hide OpsSoFar, CreateOps;
    var p := TxoPointer(item.tx.Id(), i);
    var b, ops := OutputAt(p).address, CreateOps(item.tx.Id(), p, item.height, item.time);
    assert ops != [] by { CreateOpsTwo(item, p); }
    var next := operations[b := OpsIn(operations, b) + ops];
    forall a ensures OpsIn(next, a) == OpsSoFar(known, item, spent, i + 1, a) {
      OpsCreate(known, item, spent, i, a);
      assert At(p, a) <==> a == b;
      assert OpsIn(operations, a) + [] == OpsIn(operations, a);
    }
  }

  lemma CreateOpsTwo(item: Item, p: TxoPointer)
    requires Exists(p)
    ensures |CreateOps(item.tx.Id(), p, item.height, item.time)| == 2
  {
  }

  lemma ResolveStep(txs: TxStore, inputs: seq<TxoPointer>, i: nat)
    requires i < |inputs|
    ensures InputsResolve(txs, inputs[i..]) ==
            var r := GetOutput(txs, inputs[i]);
            if r.Err? then Fail(r.error) else InputsResolve(txs, inputs[i + 1..])
  {
    assert inputs[i..][1..] == inputs[i + 1..];
  }

  // ---------- The storage ----------

  class IndexStorage {
    var addresses: Addresses
    var txs: TxStore
    var global: GlobalState

    function View(): Index
      reads this
    {
      Index(addresses, txs, global)
    }

    constructor ()
      ensures View() == NewIndex()
    {
      addresses, txs, global := map[], map[], GlobalState(0, None);
    }

    method SetTransaction(tx: Transaction)
      modifies this`txs
      ensures txs == old(txs)[tx.Id() := tx]
    {
      txs := txs[tx.Id() := tx];
    }

    method SetGlobalState(height: nat, appHash: Option<AppHash>)
      modifies this`global
      ensures global == GlobalState(height, appHash)
    {
      global := GlobalState(height, appHash);
    }

    /** `handle_transaction_input` for every input, then `handle_transaction_output`. */
    method BuildMemento(item: Item) returns (r: Check<IndexError>, memento: AddressMemento)
      requires StoreOk(txs)
      ensures r == InputsResolve(txs, InputsOf(item.tx.Id()))
      ensures fresh(memento) && memento.txid == item.tx.Id()
      ensures r.Pass? ==> memento.operations.Keys == Touched(txs.Keys, item.tx.Id())
      ensures r.Pass? ==> forall a | a in memento.operations :: memento.operations[a] == OpsAt(txs.Keys, item, a)
    {
      hide Holds, OpsSoFar, InputsResolve, Touched, OpsAt;
      var id := item.tx.Id();
      var inputs := InputsOf(id);
      assert inputs[0..] == inputs;
      memento := new AddressMemento(id);
      NothingHeld(txs.Keys, item);
      for i := 0 to |inputs|
        invariant fresh(memento) && memento.txid == id
        invariant Holds(memento.operations, txs.Keys, item, inputs[..i], 0)
        invariant InputsResolve(txs, inputs) == InputsResolve(txs, inputs[i..])
      {
        var p := inputs[i];
        ResolveStep(txs, inputs, i);
        assert inputs[..i + 1] == inputs[..i] + [p];
        var output := GetOutput(txs, p);
        if output.Err? {
          return Fail(output.error), memento;
        }
        HoldsSpend(memento.operations, txs.Keys, item, inputs[..i], p);
        if output.value.Some? {
          var o := output.value.value;
          memento.AddChange(
            o.address, TransactionChange(id, o.address, Outgoing(o.value), item.height, item.time), RemoveUnspent(p));
        }
      }
      assert inputs[..|inputs|] == inputs;
      for i := 0 to |Outputs(id)|
        invariant fresh(memento) && memento.txid == id
        invariant Holds(memento.operations, txs.Keys, item, inputs, i)
      {
        var o := Outputs(id)[i];
        HoldsCreate(memento.operations, txs.Keys, item, inputs, i);
        memento.AddChange(
          o.address, TransactionChange(id, o.address, Incoming(o.value), item.height, item.time),
          AddUnspent(TxoPointer(id, i), o));
      }
      HoldsAll(memento.operations, txs.Keys, item);
      r := Pass;
    }

    /** `fetch_and_update` on one address. */
    method UpdateAddress(a: ExtendedAddr, txid: TxId, ops: seq<Operation>) returns (r: Check<IndexError>)
      modifies this`addresses
      ensures r.Pass? <==> ApplyMemento(DetailsAt(old(addresses), a), txid, ops).Ok?
      ensures addresses == if r.Pass?
                           then old(addresses)[a := ApplyMemento(DetailsAt(old(addresses), a), txid, ops).value]
                           else old(addresses)
    {
      var details := new AddressDetails(DetailsAt(addresses, a));
      r := details.ApplyMementoOperations(txid, ops);
      if r.Pass? {
        addresses := addresses[a := details.View()];
      }
    }

    /** `apply_memento`: one address after the other, in whatever order the map yields them. */
    method ApplyMementoAll(memento: AddressMemento, ghost known: set<TxId>, ghost item: Item)
      returns (r: Check<IndexError>)
      requires memento.txid == item.tx.Id() && memento.operations.Keys == Touched(known, item.tx.Id())
      requires forall a | a in memento.operations :: memento.operations[a] == OpsAt(known, item, a)
      modifies this`addresses
      ensures r.Pass? <==> AllApply(old(addresses), known, item)
      ensures r.Pass? ==> addresses == Updated(old(addresses), known, item)
    {
      hide OpsAt, ApplyMemento, Touched, Partly, Updated, DetailsAt;
      var todo := memento.operations.Keys;
      ghost var done: set<ExtendedAddr> := {};
      PartlyNone(addresses, known, item);
      while todo != {}
        invariant todo !! done && done + todo == memento.operations.Keys
        invariant Partly(old(addresses), addresses, known, item, done)
        decreases todo
      {
        var a :| a in todo;
        PartlyStep(old(addresses), addresses, known, item, done, a);
        r := UpdateAddress(a, memento.txid, memento.operations[a]);
        if r.Fail? {
          return;
        }
        todo, done := todo - {a}, done + {a};
      }
      assert done == Touched(known, item.tx.Id());
      PartlyAll(old(addresses), addresses, known, item);
      r := Pass;
    }

    /** `on_transaction`. */
    method OnTransaction(item: Item) returns (r: Check<IndexError>)
      requires StoreOk(txs)
      modifies this
      ensures StoreOk(txs) && global == old(global)
      ensures r.Pass? <==> HandleTx(old(View()), item).Ok?
      ensures r.Pass? ==> View() == HandleTx(old(View()), item).value
    {
      hide InputsResolve, AllApply, Updated, Touched, OpsAt;
      SetTransaction(item.tx);
      var memento;
      r, memento := BuildMemento(item);
      if r.Fail? {
        return;
      }
      r := ApplyMementoAll(memento, txs.Keys, item);
    }

    method OnTransactions(items: seq<Item>) returns (r: Check<IndexError>)
      requires StoreOk(txs)
      modifies this
      ensures StoreOk(txs) && global == old(global)
      ensures r.Pass? <==> HandleAll(old(View()), items).Ok?
      ensures r.Pass? ==> View() == HandleAll(old(View()), items).value
    {
      hide HandleTx;
      for i := 0 to |items|
        invariant StoreOk(txs) && global == old(global)
        invariant HandleAll(old(View()), items[..i]) == Ok(View())
      {
        assert items[..i + 1][..i] == items[..i];
        r := OnTransaction(items[i]);
        if r.Fail? {
          FailsForGood(old(View()), items, i + 1);
          return;
        }
      }
      assert items[..|items|] == items;
      r := Pass;
    }

    /** `on_next` of the block handler. */
    method HandleBlock(b: Block) returns (r: Check<IndexError>)
      requires StoreOk(txs)
      modifies this
      ensures StoreOk(txs)
      ensures r.Pass? <==> OnNext(old(View()), b).Ok?
      ensures r.Pass? ==> View() == OnNext(old(View()), b).value
    {
      hide HandleAll, PublicItems, ItemsOf, StoreOk;
      r := OnTransactions(PublicItems(b));
      if r.Fail? {
        return;
      }
      if b.viewKeyHit {
        if b.decrypted.Err? {
          return Fail(b.decrypted.error);
        }
        r := OnTransactions(ItemsOf(b, b.decrypted.value));
        if r.Fail? {
          return;
        }
      }
      SetGlobalState(b.height, Some(b.appHash));
    }
  }

  /** After the addresses in `done`. */
  ghost predicate Partly(before: Addresses, now: Addresses, known: set<TxId>, item: Item, done: set<ExtendedAddr>) {
    && now.Keys == before.Keys + done
    && (forall a | a in done && a in now ::
          ApplyMemento(DetailsAt(before, a), item.tx.Id(), OpsAt(known, item, a)) == Ok(now[a]))
    && (forall a | a in before && a !in done && a in now :: now[a] == before[a])
  }

  lemma PartlyNone(before: Addresses, known: set<TxId>, item: Item)
    ensures Partly(before, before, known, item, {})
  {
  }

  lemma PartlyStep(
    before: Addresses, now: Addresses, known: set<TxId>, item: Item, done: set<ExtendedAddr>, a: ExtendedAddr)
    requires Partly(before, now, known, item, done) && a !in done
    ensures DetailsAt(now, a) == DetailsAt(before, a)
    ensures var r := ApplyMemento(DetailsAt(before, a), item.tx.Id(), OpsAt(known, item, a));
            r.Ok? ==> Partly(before, now[a := r.value], known, item, done + {a})
  {
    hide OpsAt, ApplyMemento;
  }

  lemma PartlyAll(before: Addresses, now: Addresses, known: set<TxId>, item: Item)
    requires Partly(before, now, known, item, Touched(known, item.tx.Id()))
    ensures AllApply(before, known, item) && now == Updated(before, known, item)
  {
    hide OpsAt, ApplyMemento, Touched;
  }

  lemma {:induction false} FailsForGood(x: Index, items: seq<Item>, n: nat)
    requires n <= |items| && HandleAll(x, items[..n]).Err?
    ensures HandleAll(x, items).Err?
    decreases |items| - n
  {
    if n < |items| {
      assert items[..n + 1][..n] == items[..n];
      FailsForGood(x, items, n + 1);
    } else {
      assert items[..n] == items;
    }
  }

  lemma NothingHeld(known: set<TxId>, item: Item)
    ensures Holds(map[], known, item, [], 0)
  {
  }

  // ---------- Synchronisation ----------

  /** `fast_forward_status` and `fast_forward_block`: when the hash of the header is the stored one,
      handle that block and nothing before it. */
  method FastForwardTo(s: IndexStorage, chain: seq<Block>, hi: nat) returns (r: Result<bool, IndexError>)
    requires StoreOk(s.txs) && ChainOk(chain) && InSync(s.global, chain) && s.global.height < hi <= |chain|
    modifies s
    ensures StoreOk(s.txs)
    ensures r.Err? ==> Naive(old(s.View()), chain, old(s.global.height), hi).Err?
    ensures r == Ok(true) ==> Naive(old(s.View()), chain, old(s.global.height), hi) == Ok(s.View())
    ensures r == Ok(false) ==> s.View() == old(s.View())
  {
    hide OnNext, Naive, StoreOk;
    if s.global.appHash == Some(chain[hi - 1].appHash) {
      FastForward(s.View(), chain, hi);
      var c := s.HandleBlock(chain[hi - 1]);
      if c.Fail? {
        return Err(c.error);
      }
      return Ok(true);
    }
    r := Ok(false);
  }

  function Min(a: nat, b: nat): nat {
    if a < b then a else b
  }

  function Max(a: nat, b: nat): nat {
    if a < b then b else a
  }

  /** What is left to do from here gives what was to do from the start. */
  ghost predicate OnTheWay(start: Index, now: Index, chain: seq<Block>) {
    && now.global.height <= |chain| && InSync(now.global, chain)
    && start.global.height <= now.global.height
    && Naive(start, chain, start.global.height, now.global.height) == Ok(now)
  }

  lemma FailsOnTheWay(start: Index, now: Index, chain: seq<Block>, hi: nat)
    requires OnTheWay(start, now, chain) && now.global.height <= hi <= |chain|
    requires Naive(now, chain, now.global.height, hi).Err?
    ensures Naive(start, chain, start.global.height, |chain|).Err?
  {
    hide OnNext, InSync;
    NaiveSplit(start, chain, start.global.height, now.global.height, hi);
    NaiveSplit(start, chain, start.global.height, hi, |chain|);
  }

  lemma MovesOn(start: Index, now: Index, chain: seq<Block>, hi: nat, next: Index)
    requires ChainOk(chain) && OnTheWay(start, now, chain) && now.global.height < hi <= |chain|
    requires Naive(now, chain, now.global.height, hi) == Ok(next)
    ensures OnTheWay(start, next, chain) && next.global.height == hi
  {
    hide OnNext, Naive;
    NaiveSplit(start, chain, start.global.height, now.global.height, hi);
    NaiveStamps(now, chain, now.global.height, hi);
  }

  lemma OneBlock(x: Index, chain: seq<Block>, i: nat)
    requires i < |chain|
    ensures Naive(x, chain, i, i + 1) == OnNext(x, chain[i])
  {
    hide OnNext;
    assert Naive(x, chain, i, i) == Ok(x);
  }

  /** `sync`: chunks of `batch` blocks, skipping what equal app hashes show to be empty. It succeeds
      exactly when handling every block in turn does, and leaves the same addresses, transactions
      and synchronisation state. */
  method Sync(s: IndexStorage, chain: seq<Block>, batch: nat) returns (r: Check<IndexError>)
    requires StoreOk(s.txs) && ChainOk(chain) && InSync(s.global, chain) && batch > 0
    modifies s
    ensures StoreOk(s.txs)
    ensures r.Pass? <==> Naive(old(s.View()), chain, old(s.global.height), |chain|).Ok?
    ensures r.Pass? ==> Naive(old(s.View()), chain, old(s.global.height), |chain|) == Ok(s.View())
    ensures r.Pass? ==> s.global.height == Max(old(s.global.height), |chain|) && InSync(s.global, chain)
  {
    ghost var start := s.View();
    if s.global.height >= |chain| {
      return Pass;
    }
    hide Naive, OnNext, StoreOk, InSync, ChainOk;
    assert OnTheWay(start, s.View(), chain) by { StartOnTheWay(start, chain); }
    var lo := s.global.height;
    while lo < |chain|
      invariant lo <= |chain| && StoreOk(s.txs)
      invariant OnTheWay(start, s.View(), chain) && s.global.height == lo
    {
      var hi := Min(lo + batch, |chain|);
      r := SyncChunk(s, chain, hi, start);
      if r.Fail? {
        return;
      }
      lo := s.global.height;
    }
    assert Naive(start, chain, start.global.height, |chain|) == Ok(s.View());
    r := Pass;
  }

  lemma StartOnTheWay(x: Index, chain: seq<Block>)
    requires InSync(x.global, chain) && x.global.height <= |chain|
    ensures OnTheWay(x, x, chain)
  {
  }

  /** One round of the outer loop, up to height hi, or up to the end of the chain when the latest
      hash is reached on the way. */
  method SyncChunk(s: IndexStorage, chain: seq<Block>, hi: nat, ghost start: Index) returns (r: Check<IndexError>)
    requires StoreOk(s.txs) && ChainOk(chain) && OnTheWay(start, s.View(), chain) && s.global.height < hi <= |chain|
    modifies s
    ensures StoreOk(s.txs)
    ensures r.Fail? ==> Naive(start, chain, start.global.height, |chain|).Err?
    ensures r.Pass? ==> OnTheWay(start, s.View(), chain) && s.global.height in {hi, |chain|}
  {
    hide Naive, OnNext, StoreOk, InSync, ChainOk;
    var done := TryFastForward(s, chain, |chain|, start);
    if done.Err? {
      return Fail(done.error);
    }
    if done.value {
      return Pass;
    }
    done := TryFastForward(s, chain, hi, start);
    if done.Err? {
      return Fail(done.error);
    }
    if done.value {
      return Pass;
    }
    while s.global.height < hi
      invariant StoreOk(s.txs) && OnTheWay(start, s.View(), chain)
      invariant s.global.height <= hi || s.global.height == |chain|
      decreases hi - s.global.height
    {
      done := TryFastForward(s, chain, |chain|, start);
      if done.Err? {
        return Fail(done.error);
      }
      if done.value {
        return Pass;
      }
      ghost var now := s.View();
      var i := s.global.height;
      OneBlock(now, chain, i);
      r := s.HandleBlock(chain[i]);
      if r.Fail? {
        FailsOnTheWay(start, now, chain, i + 1);
        return;
      }
      MovesOn(start, now, chain, i + 1, s.View());
    }
    r := Pass;
  }

  method TryFastForward(s: IndexStorage, chain: seq<Block>, hi: nat, ghost start: Index)
    returns (r: Result<bool, IndexError>)
    requires StoreOk(s.txs) && ChainOk(chain) && OnTheWay(start, s.View(), chain) && s.global.height < hi <= |chain|
    modifies s
    ensures StoreOk(s.txs)
    ensures r.Err? ==> Naive(start, chain, start.global.height, |chain|).Err?
    ensures r == Ok(true) ==> OnTheWay(start, s.View(), chain) && s.global.height == hi
    ensures r == Ok(false) ==> s.View() == old(s.View())
  {
    hide Naive, OnNext, StoreOk, InSync, ChainOk;
    ghost var now := s.View();
    r := FastForwardTo(s, chain, hi);
    if r.Err? {
      FailsOnTheWay(start, now, chain, hi);
    } else if r.value {
      MovesOn(start, now, chain, hi, s.View());
    }
  }

  /** `sync_all`: forget the stored state, then synchronise. */
  method SyncAll(s: IndexStorage, chain: seq<Block>, batch: nat) returns (r: Check<IndexError>)
    requires StoreOk(s.txs) && ChainOk(chain) && batch > 0
    modifies s
    ensures r.Pass? <==> Naive(old(s.View()).(global := GlobalState(0, None)), chain, 0, |chain|).Ok?
    ensures r.Pass? ==> Naive(old(s.View()).(global := GlobalState(0, None)), chain, 0, |chain|) == Ok(s.View())
  {
    hide Naive, StoreOk, ChainOk;
    s.SetGlobalState(0, None);
    r := Sync(s, chain, batch);
  }
}
