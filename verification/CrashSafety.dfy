/** Interrupted synchronisation of one view key. Each write of the client is a step of its own: storing
    a transaction, updating one address, and storing the synchronisation state
    (client-index/src/handler/default_block_handler.rs:66-102,
    client-index/src/service/address_service.rs:186-206). Between any two of them the client may stop
    and start again from the stored height, or from genesis. */
module CrashSafety {
  import opened Wrappers
  import opened Coins
  import opened Transactions
  import opened LiveOutputs
  import opened AddressIndex
  import opened ClientIndex
  import opened BlockSync

  /** Where the client is: not synchronising, before transaction `item` of block `block`, or applying
      its memento, with the addresses still to update. */
  datatype Cursor =
    | Stopped
    | Before(block: nat, item: nat)
    | Applying(block: nat, item: nat, todo: set<ExtendedAddr>)

  datatype Client = Client(x: Index, cursor: Cursor)

  datatype Step =
    | Start(block: nat)
    | StoreTx
    | UpdateOne(address: ExtendedAddr)
    | NextItem
    | FinishBlock
    | Crash
    | StartOver

  predicate NoItems(chain: seq<Block>, lo: nat, hi: nat) {
    forall k | lo <= k < hi && k < |chain| :: BlockItems(chain[k]) == []
  }

  predicate Enabled(chain: seq<Block>, c: Client, step: Step) {
    match step
    case Start(b) => c.cursor.Stopped? && c.x.global.height <= b < |chain| && NoItems(chain, c.x.global.height, b)
    case StoreTx => c.cursor.Before? && c.cursor.block < |chain| && c.cursor.item < |BlockItems(chain[c.cursor.block])|
    case UpdateOne(a) =>
      && c.cursor.Applying? && a in c.cursor.todo
      && c.cursor.block < |chain| && c.cursor.item < |BlockItems(chain[c.cursor.block])|
    case NextItem => c.cursor.Applying? && c.cursor.todo == {}
    case FinishBlock =>
      c.cursor.Before? && c.cursor.block < |chain| && c.cursor.item == |BlockItems(chain[c.cursor.block])|
    case Crash => true
    case StartOver => c.cursor.Stopped?
  }

  /** An error stops the synchronisation as a crash does. */
  function Take(chain: seq<Block>, c: Client, step: Step): Client
    requires Enabled(chain, c, step)
  {
    match step
    case Start(b) => c.(cursor := Before(b, 0))
    case StoreTx =>
      var item := BlockItems(chain[c.cursor.block])[c.cursor.item];
      var id := item.tx.Id();
      var txs := c.x.txs[id := item.tx];
      Client(c.x.(txs := txs),
             if InputsResolve(txs, InputsOf(id)).Fail? then Stopped
             else Applying(c.cursor.block, c.cursor.item, Touched(txs.Keys, id)))
    case UpdateOne(a) =>
      var item := BlockItems(chain[c.cursor.block])[c.cursor.item];
      (match ApplyMemento(DetailsAt(c.x.addresses, a), item.tx.Id(), OpsAt(c.x.txs.Keys, item, a))
       case Err(_) => c.(cursor := Stopped)
       case Ok(d) => Client(c.x.(addresses := c.x.addresses[a := d]), c.cursor.(todo := c.cursor.todo - {a})))
    case NextItem => c.(cursor := Before(c.cursor.block, c.cursor.item + 1))
    case FinishBlock =>
      Client(Stamped(c.x, chain[c.cursor.block]), Stopped)
    case Crash => c.(cursor := Stopped)
    case StartOver => c.(x := c.x.(global := GlobalState(0, None)))
  }

  // ---------- The crash-free run ----------

  /** No transaction refers to one that is handled only later. */
  predicate Causal(items: seq<Item>) {
    forall i, p | 0 <= i < |items| && p in InputsOf(items[i].tx.Id()) && p.id in Ids(items) ::
      p.id in Ids(items[..i + 1])
  }

  predicate Works(items: seq<Item>) {
    HandleAll(NewIndex(), items).Ok?
  }

  lemma {:induction false} WorksPrefix(items: seq<Item>, n: nat)
    requires Works(items) && n <= |items|
    ensures HandleAll(NewIndex(), items[..n]).Ok?
    decreases |items| - n
  {
    hide HandleTx;
    if n < |items| {
      WorksPrefix(items, n + 1);
      assert items[..n + 1][..n] == items[..n];
    } else {
      assert items[..n] == items;
    }
  }

  /** The index after n transactions without any interruption. */
  function IndexAt(items: seq<Item>, n: nat): Index
    requires Works(items) && n <= |items|
  {
    WorksPrefix(items, n);
    HandleAll(NewIndex(), items[..n]).value
  }

  lemma IndexStep(items: seq<Item>, n: nat)
    requires Works(items) && n < |items|
    ensures HandleTx(IndexAt(items, n), items[n]) == Ok(IndexAt(items, n + 1))
  {
    hide HandleTx;
    assert items[..n + 1][..n] == items[..n];
    WorksPrefix(items, n + 1);
  }

  lemma {:induction false} IndexTxs(items: seq<Item>, n: nat)
    requires Works(items) && n <= |items|
    ensures IndexAt(items, n).txs.Keys == IdSet(Ids(items[..n])) && StoreOk(IndexAt(items, n).txs)
    ensures IndexAt(items, n).global == GlobalState(0, None)
    decreases n
  {
    if n == 0 {
      assert items[..0] == [];
    } else {
      IndexTxs(items, n - 1);
      IndexStep(items, n - 1);
      IdsPush(items, n - 1);
      hide InputsResolve, AllApply, Updated, Ids;
    }
  }

  function KnownAt(items: seq<Item>, n: nat): set<TxId>
    requires n < |items|
  {
    IdSet(Ids(items[..n + 1]))
  }

  function TouchedAt(items: seq<Item>, n: nat): set<ExtendedAddr>
    requires n < |items|
  {
    Touched(KnownAt(items, n), items[n].tx.Id())
  }

  // ---------- Mementos do not depend on what was stored later ----------

  predicate Between(items: seq<Item>, n: nat, known: set<TxId>)
    requires n < |items|
  {
    KnownAt(items, n) <= known <= IdSet(Ids(items))
  }

  lemma KnownSame(items: seq<Item>, n: nat, known: set<TxId>, p: TxoPointer)
    requires Causal(items) && n < |items| && Between(items, n, known) && p in InputsOf(items[n].tx.Id())
    ensures p.id in known <==> p.id in KnownAt(items, n)
  {
  }

  lemma {:induction false} SpendsAgree(a: set<TxId>, b: set<TxId>, inputs: seq<TxoPointer>, addr: ExtendedAddr)
    requires forall p | p in inputs :: p.id in a <==> p.id in b
    ensures SpendsAt(a, inputs, addr) == SpendsAt(b, inputs, addr)
    decreases |inputs|
  {
    hide At;
    if inputs != [] {
      assert inputs[0] in inputs;
      SpendsAgree(a, b, inputs[1..], addr);
    }
  }

  lemma OpsSame(items: seq<Item>, n: nat, known: set<TxId>, a: ExtendedAddr)
    requires Causal(items) && n < |items| && Between(items, n, known)
    ensures OpsAt(known, items[n], a) == OpsAt(KnownAt(items, n), items[n], a)
  {
    forall p | p in InputsOf(items[n].tx.Id()) ensures p.id in known <==> p.id in KnownAt(items, n) {
      KnownSame(items, n, known, p);
    }
    hide SpendAll, CreateAll, CreatesFrom, SpendsAt, Causal, Between, KnownAt;
    SpendsAgree(known, KnownAt(items, n), InputsOf(items[n].tx.Id()), a);
  }

  lemma TouchedSame(items: seq<Item>, n: nat, known: set<TxId>)
    requires Causal(items) && n < |items| && Between(items, n, known)
    ensures Touched(known, items[n].tx.Id()) == TouchedAt(items, n)
  {
    forall p | p in InputsOf(items[n].tx.Id()) ensures p.id in known <==> p.id in KnownAt(items, n) {
      KnownSame(items, n, known, p);
    }
    hide Causal, Between, KnownAt;
  }

  lemma InputsExist(items: seq<Item>, n: nat)
    requires Works(items) && n < |items|
    ensures forall p | p in InputsOf(items[n].tx.Id()) && p.id in KnownAt(items, n) :: Exists(p)
  {
    IndexStep(items, n);
    IndexTxs(items, n);
    IdsPush(items, n);
    var x, id := IndexAt(items, n), items[n].tx.Id();
    var txs := x.txs[id := items[n].tx];
    assert txs.Keys == KnownAt(items, n);
    hide IndexAt, AllApply, Updated, KnownAt, Works;
    assert InputsResolve(txs, InputsOf(id)).Pass?;
  }

  lemma ResolvesAgain(items: seq<Item>, n: nat, txs: TxStore)
    requires Works(items) && Causal(items) && n < |items| && StoreOk(txs) && Between(items, n, txs.Keys)
    ensures InputsResolve(txs, InputsOf(items[n].tx.Id())).Pass?
  {
    InputsExist(items, n);
    forall p | p in InputsOf(items[n].tx.Id()) && p.id in txs ensures Exists(p) {
      KnownSame(items, n, txs.Keys, p);
    }
    hide InputsResolve, Works, Causal, Between, KnownAt;
  }

  // ---------- One address along the crash-free run ----------

  predicate SameAt(xs: Addresses, ys: Addresses, a: ExtendedAddr) {
    (a in xs <==> a in ys) && (a in xs ==> xs[a] == ys[a])
  }

  lemma StepAt(items: seq<Item>, n: nat, a: ExtendedAddr)
    requires Works(items) && n < |items|
    ensures var before, after := IndexAt(items, n).addresses, IndexAt(items, n + 1).addresses;
            && (a !in TouchedAt(items, n) ==> SameAt(before, after, a))
            && (a in TouchedAt(items, n) ==> a in after)
            && (a in TouchedAt(items, n) ==>
                  ApplyMemento(DetailsAt(before, a), items[n].tx.Id(), OpsAt(KnownAt(items, n), items[n], a))
                  == Ok(after[a]))
  {
    IndexStep(items, n);
    IndexTxs(items, n);
    IdsPush(items, n);
    var x, id := IndexAt(items, n), items[n].tx.Id();
    assert x.txs[id := items[n].tx].Keys == KnownAt(items, n);
    hide IndexAt, InputsResolve, Touched, KnownAt, OpsAt, ApplyMemento, Works;
    assert AllApply(x.addresses, KnownAt(items, n), items[n]);
  }

  lemma {:induction false} OpsKeepIds(d: Details, ops: seq<Operation>)
    ensures ApplyOperations(d, ops).Ok? ==> ApplyOperations(d, ops).value.ids == d.ids
    decreases |ops|
  {
    if ops != [] {
      var r := ApplyOperation(d, ops[0]);
      if r.Ok? { OpsKeepIds(r.value, ops[1..]); }
    }
  }

  lemma MementoIds(d: Details, txid: TxId, ops: seq<Operation>)
    ensures ApplyMemento(d, txid, ops).Ok? ==> ApplyMemento(d, txid, ops).value.ids == d.ids + {txid}
  {
    OpsKeepIds(d, ops);
  }

  /** Once applied to an address, a transaction stays noted there. */
  lemma {:induction false} StaysApplied(items: seq<Item>, n: nat, k: nat, a: ExtendedAddr)
    requires Works(items) && n < k <= |items| && a in TouchedAt(items, n)
    ensures a in IndexAt(items, k).addresses && items[n].tx.Id() in IndexAt(items, k).addresses[a].ids
    decreases k
  {
    hide IndexAt, Works, OpsAt, ApplyMemento, KnownAt, Touched;
    StepAt(items, k - 1, a);
    var before := IndexAt(items, k - 1).addresses;
    MementoIds(DetailsAt(before, a), items[k - 1].tx.Id(), OpsAt(KnownAt(items, k - 1), items[k - 1], a));
    if n < k - 1 { StaysApplied(items, n, k - 1, a); }
  }

  /** Applying it again changes nothing. */
  lemma AppliesAsNoOp(items: seq<Item>, n: nat, k: nat, a: ExtendedAddr, addresses: Addresses, ops: seq<Operation>)
    requires Works(items) && n < k <= |items| && a in TouchedAt(items, n)
    requires SameAt(addresses, IndexAt(items, k).addresses, a)
    ensures a in addresses
    ensures ApplyMemento(DetailsAt(addresses, a), items[n].tx.Id(), ops) == Ok(addresses[a])
  {
    StaysApplied(items, n, k, a);
    hide IndexAt, Works, TouchedAt;
  }

  // ---------- Positions ----------

  function Offset(chain: seq<Block>, b: nat): nat
    requires b <= |chain|
  {
    |AllItems(chain, b)|
  }

  function Everything(chain: seq<Block>): seq<Item> {
    AllItems(chain, |chain|)
  }

  lemma ItemAt(chain: seq<Block>, b: nat)
    requires b < |chain|
    ensures Offset(chain, b + 1) == Offset(chain, b) + |BlockItems(chain[b])| <= |Everything(chain)|
    ensures forall i | 0 <= i < |BlockItems(chain[b])| ::
              Everything(chain)[Offset(chain, b) + i] == BlockItems(chain[b])[i]
  {
    hide BlockItems;
    ItemsPrefix(chain, b + 1, |chain|);
    var part := AllItems(chain, b + 1);
    assert part == AllItems(chain, b) + BlockItems(chain[b]);
  }

  lemma {:induction false} SkippedOffset(chain: seq<Block>, lo: nat, hi: nat)
    requires lo <= hi <= |chain| && NoItems(chain, lo, hi)
    ensures Offset(chain, hi) == Offset(chain, lo)
    decreases hi
  {
    hide BlockItems;
    if lo < hi { SkippedOffset(chain, lo, hi - 1); }
  }

  // ---------- The invariant ----------

  /** How many transactions have reached an address. */
  function Reached(items: seq<Item>, mark: nat, part: set<ExtendedAddr>, a: ExtendedAddr): (n: nat)
    requires mark <= |items|
    ensures n <= |items|
  {
    if a in part && mark < |items| then mark + 1 else mark
  }

  ghost predicate AddressOk(items: seq<Item>, xs: Addresses, mark: nat, part: set<ExtendedAddr>, a: ExtendedAddr)
    requires Works(items) && mark <= |items|
  {
    SameAt(xs, IndexAt(items, Reached(items, mark, part, a)).addresses, a)
  }

  /** The stored data are those of the crash-free run after `mark` transactions, except that the next
      transaction may be stored and applied to the addresses in `part` already. */
  ghost predicate DataAt(items: seq<Item>, x: Index, mark: nat, part: set<ExtendedAddr>)
    requires Works(items)
  {
    && mark <= |items|
    && (part == {} || (mark < |items| && part <= TouchedAt(items, mark) && x.txs == IndexAt(items, mark + 1).txs))
    && (x.txs == IndexAt(items, mark).txs || (mark < |items| && x.txs == IndexAt(items, mark + 1).txs))
    && forall a :: AddressOk(items, x.addresses, mark, part, a)
  }

  predicate GlobalOk(chain: seq<Block>, g: GlobalState, mark: nat) {
    g.height <= |chain| && g == GlobalAt(chain, g.height) && Offset(chain, g.height) <= mark
  }

  ghost predicate CursorOk(chain: seq<Block>, c: Client, mark: nat, part: set<ExtendedAddr>)
    requires Works(Everything(chain))
  {
    var items := Everything(chain);
    match c.cursor
    case Stopped => true
    case Before(b, i) => b < |chain| && i <= |BlockItems(chain[b])| && Offset(chain, b) + i <= mark
    case Applying(b, i, todo) =>
      && b < |chain| && i < |BlockItems(chain[b])|
      && var pos := Offset(chain, b) + i;
         && pos <= mark && pos < |items| && todo <= TouchedAt(items, pos)
         && (pos == mark ==> c.x.txs == IndexAt(items, mark + 1).txs && TouchedAt(items, mark) - todo <= part)
  }

  ghost predicate Consistent(chain: seq<Block>, c: Client, mark: nat, part: set<ExtendedAddr>)
    requires Works(Everything(chain))
  {
    DataAt(Everything(chain), c.x, mark, part) && GlobalOk(chain, c.x.global, mark) && CursorOk(chain, c, mark, part)
  }

  /** What the client relies on: heights count from one, the crash-free run succeeds, and no
      transaction refers to a later one. */
  predicate Setting(chain: seq<Block>) {
    && (forall i | 0 <= i < |chain| :: chain[i].height == i + 1)
    && Works(Everything(chain)) && Causal(Everything(chain))
  }

  // ---------- Storing a transaction ----------

  lemma SameTransaction(s: Transaction, t: Transaction)
    ensures s.Id() == t.Id() ==> s == t
  {
  }

  lemma {:induction false} TxsGrow(items: seq<Item>, n: nat, k: nat)
    requires Works(items) && n < k <= |items|
    ensures items[n].tx.Id() in IndexAt(items, k).txs && IndexAt(items, k).txs[items[n].tx.Id()] == items[n].tx
    decreases k
  {
    IndexStep(items, k - 1);
    hide IndexAt, Works, InputsResolve, AllApply, Updated;
    assert IndexAt(items, k).txs == IndexAt(items, k - 1).txs[items[k - 1].tx.Id() := items[k - 1].tx];
    if n < k - 1 {
      TxsGrow(items, n, k - 1);
      SameTransaction(items[n].tx, items[k - 1].tx);
    }
  }

  lemma StoreAgain(items: seq<Item>, x: Index, mark: nat, part: set<ExtendedAddr>, pos: nat)
    requires Works(items) && DataAt(items, x, mark, part) && pos <= mark && pos < |items|
    ensures var txs := x.txs[items[pos].tx.Id() := items[pos].tx];
            txs == if pos == mark then IndexAt(items, mark + 1).txs else x.txs
  {
    hide IndexAt, Works, TouchedAt, AddressOk;
    if pos < mark {
      TxsGrow(items, pos, mark);
      if mark < |items| { TxsGrow(items, pos, mark + 1); }
    } else {
      StoredByStep(items, mark);
      TxsGrow(items, mark, mark + 1);
    }
  }

  lemma StoredByStep(items: seq<Item>, n: nat)
    requires Works(items) && n < |items|
    ensures IndexAt(items, n + 1).txs == IndexAt(items, n).txs[items[n].tx.Id() := items[n].tx]
  {
    IndexStep(items, n);
    hide IndexAt, Works, InputsResolve, AllApply, Updated;
  }

  lemma KnownBetween(items: seq<Item>, pos: nat, k: nat)
    requires Works(items) && pos < k <= |items|
    ensures Between(items, pos, IndexAt(items, k).txs.Keys) && StoreOk(IndexAt(items, k).txs)
  {
    IndexTxs(items, k);
    hide IndexAt, Works, StoreOk;
    forall id | id in KnownAt(items, pos) ensures id in IdSet(Ids(items[..k])) {
      var i :| 0 <= i < pos + 1 && Ids(items[..pos + 1])[i] == id;
      assert Ids(items[..k])[i] == id;
    }
    forall id | id in IdSet(Ids(items[..k])) ensures id in IdSet(Ids(items)) {
      var i :| 0 <= i < k && Ids(items[..k])[i] == id;
      assert Ids(items)[i] == id;
    }
  }

  // ---------- Every step keeps the invariant ----------

  lemma StartKeeps(chain: seq<Block>, c: Client, mark: nat, part: set<ExtendedAddr>, b: nat)
    requires Setting(chain) && Consistent(chain, c, mark, part) && Enabled(chain, c, Start(b))
    ensures Consistent(chain, Take(chain, c, Start(b)), mark, part)
  {
    hide DataAt, Works, Causal, BlockItems, IndexAt, AllItems;
    SkippedOffset(chain, c.x.global.height, b);
  }

  lemma StoredTxs(items: seq<Item>, x: Index, mark: nat, part: set<ExtendedAddr>, pos: nat)
    requires Works(items) && DataAt(items, x, mark, part) && pos <= mark && pos < |items|
    requires pos < mark || x.txs == IndexAt(items, mark + 1).txs
    ensures Between(items, pos, x.txs.Keys) && StoreOk(x.txs)
  {
    hide IndexAt, Works, TouchedAt, AddressOk, Between, StoreOk;
    if pos < mark { KnownBetween(items, pos, mark); }
    if mark < |items| { KnownBetween(items, pos, mark + 1); }
  }

  function Position(chain: seq<Block>, c: Cursor): nat
    requires !c.Stopped? && c.block < |chain|
  {
    Offset(chain, c.block) + c.item
  }

  lemma TakesStore(chain: seq<Block>, c: Client)
    requires Enabled(chain, c, StoreTx)
    ensures var items, pos := Everything(chain), Position(chain, c.cursor);
            && pos < |items|
            && var id := items[pos].tx.Id();
               var txs := c.x.txs[id := items[pos].tx];
               Take(chain, c, StoreTx) ==
               Client(c.x.(txs := txs),
                      if InputsResolve(txs, InputsOf(id)).Fail? then Stopped
                      else Applying(c.cursor.block, c.cursor.item, Touched(txs.Keys, id)))
  {
    hide AllItems, InputsResolve, Touched, BlockItems;
    ItemAt(chain, c.cursor.block);
  }

  lemma StoreKeepsData(items: seq<Item>, x: Index, mark: nat, part: set<ExtendedAddr>, pos: nat)
    requires Works(items) && Causal(items) && DataAt(items, x, mark, part) && pos <= mark && pos < |items|
    ensures var id := items[pos].tx.Id();
            var y := x.(txs := x.txs[id := items[pos].tx]);
            && DataAt(items, y, mark, part) && InputsResolve(y.txs, InputsOf(id)).Pass?
            && Touched(y.txs.Keys, id) == TouchedAt(items, pos)
            && (pos == mark ==> y.txs == IndexAt(items, mark + 1).txs)
  {
    hide Works, Causal, IndexAt, AddressOk, TouchedAt, InputsResolve, Touched, StoreOk, Between;
    StoreAgain(items, x, mark, part, pos);
    var y := x.(txs := x.txs[items[pos].tx.Id() := items[pos].tx]);
    StoredTxs(items, y, mark, part, pos);
    ResolvesAgain(items, pos, y.txs);
    TouchedSame(items, pos, y.txs.Keys);
  }

  lemma StoreTxKeeps(chain: seq<Block>, c: Client, mark: nat, part: set<ExtendedAddr>)
    requires Setting(chain) && Consistent(chain, c, mark, part) && Enabled(chain, c, StoreTx)
    ensures Consistent(chain, Take(chain, c, StoreTx), mark, part)
  {
    hide Works, Causal, BlockItems, IndexAt, AllItems, DataAt, TouchedAt, InputsResolve, GlobalAt, Touched, Take;
    TakesStore(chain, c);
    StoreKeepsData(Everything(chain), c.x, mark, part, Position(chain, c.cursor));
  }

  /** Updating one address: a repetition changes nothing, the first time brings it one further. */
  lemma UpdateAt(items: seq<Item>, x: Index, mark: nat, part: set<ExtendedAddr>, pos: nat, a: ExtendedAddr)
    requires Works(items) && Causal(items) && DataAt(items, x, mark, part) && pos <= mark && pos < |items|
    requires pos < mark || x.txs == IndexAt(items, mark + 1).txs
    requires a in TouchedAt(items, pos)
    ensures var r := ApplyMemento(DetailsAt(x.addresses, a), items[pos].tx.Id(), OpsAt(x.txs.Keys, items[pos], a));
            r.Ok? && AddressOk(items, x.addresses[a := r.value], mark, if pos == mark then part + {a} else part, a)
  {
    hide IndexAt, Works, Causal, TouchedAt, OpsAt, ApplyMemento, Between, StoreOk;
    var known := x.txs.Keys;
    assert AddressOk(items, x.addresses, mark, part, a);
    if a in part {
      AppliesAsNoOp(items, pos, mark + 1, a, x.addresses, OpsAt(known, items[pos], a));
    } else if pos < mark {
      AppliesAsNoOp(items, pos, mark, a, x.addresses, OpsAt(known, items[pos], a));
    } else {
      StoredTxs(items, x, mark, part, pos);
      OpsSame(items, pos, known, a);
      StepAt(items, mark, a);
    }
  }

  lemma OthersKept(
    items: seq<Item>, xs: Addresses, d: Details, mark: nat, part: set<ExtendedAddr>, a: ExtendedAddr, b: ExtendedAddr)
    requires Works(items) && mark <= |items| && AddressOk(items, xs, mark, part, b) && a != b
    ensures AddressOk(items, xs[a := d], mark, part, b) && AddressOk(items, xs[a := d], mark, part + {a}, b)
  {
    hide IndexAt, Works;
  }

  lemma UpdateKeepsData(items: seq<Item>, x: Index, mark: nat, part: set<ExtendedAddr>, pos: nat, a: ExtendedAddr)
    requires Works(items) && Causal(items) && DataAt(items, x, mark, part) && pos <= mark && pos < |items|
    requires pos < mark || x.txs == IndexAt(items, mark + 1).txs
    requires a in TouchedAt(items, pos)
    ensures var r := ApplyMemento(DetailsAt(x.addresses, a), items[pos].tx.Id(), OpsAt(x.txs.Keys, items[pos], a));
            && r.Ok?
            && DataAt(items, x.(addresses := x.addresses[a := r.value]), mark, if pos == mark then part + {a} else part)
  {
    hide IndexAt, Works, Causal, TouchedAt, OpsAt, ApplyMemento, AddressOk;
    UpdateAt(items, x, mark, part, pos, a);
    var r := ApplyMemento(DetailsAt(x.addresses, a), items[pos].tx.Id(), OpsAt(x.txs.Keys, items[pos], a));
    var xs, part' := x.addresses[a := r.value], if pos == mark then part + {a} else part;
    forall b ensures AddressOk(items, xs, mark, part', b) {
      if b != a { OthersKept(items, x.addresses, r.value, mark, part, a, b); }
    }
  }

  lemma TakesUpdate(chain: seq<Block>, c: Client, a: ExtendedAddr)
    requires Enabled(chain, c, UpdateOne(a))
    ensures var items, pos := Everything(chain), Position(chain, c.cursor);
            && pos < |items|
            && var ops := OpsAt(c.x.txs.Keys, items[pos], a);
               var r := ApplyMemento(DetailsAt(c.x.addresses, a), items[pos].tx.Id(), ops);
               r.Ok? ==> Take(chain, c, UpdateOne(a)) ==
                         Client(c.x.(addresses := c.x.addresses[a := r.value]), c.cursor.(todo := c.cursor.todo - {a}))
  {
    hide AllItems, ApplyMemento, OpsAt, BlockItems;
    ItemAt(chain, c.cursor.block);
  }

  lemma UpdateOneKeeps(chain: seq<Block>, c: Client, mark: nat, part: set<ExtendedAddr>, a: ExtendedAddr)
    returns (part': set<ExtendedAddr>)
    requires Setting(chain) && Consistent(chain, c, mark, part) && Enabled(chain, c, UpdateOne(a))
    ensures Consistent(chain, Take(chain, c, UpdateOne(a)), mark, part')
  {
    hide Works, Causal, BlockItems, IndexAt, AllItems, TouchedAt, GlobalAt, OpsAt, ApplyMemento, DataAt, Take;
    TakesUpdate(chain, c, a);
    var pos := Position(chain, c.cursor);
    part' := if pos == mark then part + {a} else part;
    UpdateKeepsData(Everything(chain), c.x, mark, part, pos, a);
  }

  lemma AllUpdated(items: seq<Item>, x: Index, mark: nat)
    requires Works(items) && mark < |items| && DataAt(items, x, mark, TouchedAt(items, mark))
    requires x.txs == IndexAt(items, mark + 1).txs
    ensures DataAt(items, x, mark + 1, {})
  {
    hide IndexAt, Works, TouchedAt;
    var next, none: set<ExtendedAddr> := mark + 1, {};
    forall a ensures AddressOk(items, x.addresses, next, none, a) {
      StepAt(items, mark, a);
      assert AddressOk(items, x.addresses, mark, TouchedAt(items, mark), a);
    }
  }

  lemma NextItemKeeps(chain: seq<Block>, c: Client, mark: nat, part: set<ExtendedAddr>)
    returns (mark': nat, part': set<ExtendedAddr>)
    requires Setting(chain) && Consistent(chain, c, mark, part) && Enabled(chain, c, NextItem)
    ensures Consistent(chain, Take(chain, c, NextItem), mark', part')
  {
    hide Works, Causal, BlockItems, IndexAt, AllItems, TouchedAt, GlobalAt, AddressOk;
    var pos := Offset(chain, c.cursor.block) + c.cursor.item;
    if pos == mark {
      assert part == TouchedAt(Everything(chain), mark);
      AllUpdated(Everything(chain), c.x, mark);
      mark', part' := mark + 1, {};
    } else {
      mark', part' := mark, part;
    }
  }

  lemma FinishBlockKeeps(chain: seq<Block>, c: Client, mark: nat, part: set<ExtendedAddr>)
    requires Setting(chain) && Consistent(chain, c, mark, part) && Enabled(chain, c, FinishBlock)
    ensures Consistent(chain, Take(chain, c, FinishBlock), mark, part)
  {
    hide Works, Causal, BlockItems, IndexAt, AllItems, TouchedAt, AddressOk;
    ItemAt(chain, c.cursor.block);
    assert DataAt(Everything(chain), Stamped(c.x, chain[c.cursor.block]), mark, part);
  }

  lemma StopsKeep(chain: seq<Block>, c: Client, mark: nat, part: set<ExtendedAddr>, step: Step)
    requires Setting(chain) && Consistent(chain, c, mark, part) && Enabled(chain, c, step)
    requires step.Crash? || step.StartOver?
    ensures Consistent(chain, Take(chain, c, step), mark, part)
  {
    hide Works, Causal, BlockItems, IndexAt, TouchedAt, AddressOk;
    assert DataAt(Everything(chain), c.x.(global := GlobalState(0, None)), mark, part);
  }

  lemma StepKeeps(chain: seq<Block>, c: Client, mark: nat, part: set<ExtendedAddr>, step: Step)
    returns (mark': nat, part': set<ExtendedAddr>)
    requires Setting(chain) && Consistent(chain, c, mark, part) && Enabled(chain, c, step)
    ensures Consistent(chain, Take(chain, c, step), mark', part')
  {
    hide Setting, Consistent, Take, Enabled;
    mark', part' := mark, part;
    match step
    case Start(b) => StartKeeps(chain, c, mark, part, b);
    case StoreTx => StoreTxKeeps(chain, c, mark, part);
    case UpdateOne(a) => part' := UpdateOneKeeps(chain, c, mark, part, a);
    case NextItem => mark', part' := NextItemKeeps(chain, c, mark, part);
    case FinishBlock => FinishBlockKeeps(chain, c, mark, part);
    case Crash => StopsKeep(chain, c, mark, part, step);
    case StartOver => StopsKeep(chain, c, mark, part, step);
  }

  // ---------- Whole runs ----------

  function NewClient(): Client {
    Client(NewIndex(), Stopped)
  }

  /** The client after these steps, as far as they are enabled. */
  function After(chain: seq<Block>, steps: seq<Step>): Client {
    if steps == [] then NewClient()
    else
      var c := After(chain, steps[..|steps| - 1]);
      if Enabled(chain, c, steps[|steps| - 1]) then Take(chain, c, steps[|steps| - 1]) else c
  }

  lemma {:induction false} RunsStayConsistent(chain: seq<Block>, steps: seq<Step>)
    returns (mark: nat, part: set<ExtendedAddr>)
    requires Setting(chain)
    ensures Consistent(chain, After(chain, steps), mark, part)
    decreases |steps|
  {
    if steps == [] {
      mark, part := 0, {};
      hide HandleTx, BlockItems;
      assert Everything(chain)[..0] == [];
    } else {
      hide Setting, Consistent, Take, Enabled;
      mark, part := RunsStayConsistent(chain, steps[..|steps| - 1]);
      var c := After(chain, steps[..|steps| - 1]);
      if Enabled(chain, c, steps[|steps| - 1]) { mark, part := StepKeeps(chain, c, mark, part, steps[|steps| - 1]); }
    }
  }

  /** Starting over from genesis works from every such state too. */
  lemma ResyncAnywhere(chain: seq<Block>, steps: seq<Step>)
    requires Setting(chain) && Decrypts(chain)
    ensures Naive(After(chain, steps).x.(global := GlobalState(0, None)), chain, 0, |chain|) ==
            Naive(NewIndex(), chain, 0, |chain|)
  {
    var all := steps + [Crash] + [StartOver];
    assert all[..|all| - 1] == steps + [Crash] && (steps + [Crash])[..|steps|] == steps;
    assert After(chain, all).x == After(chain, steps).x.(global := GlobalState(0, None));
    hide Setting, Decrypts, After, Naive;
    ResumeAnywhere(chain, all);
  }

  /** However often the client was stopped, and wherever it started again, once the stored height is
      that of the last block the index is the one of a single uninterrupted synchronisation. */
  lemma CrashesLeaveNoTrace(chain: seq<Block>, steps: seq<Step>)
    requires Setting(chain) && Decrypts(chain) && After(chain, steps).x.global.height == |chain|
    ensures Naive(NewIndex(), chain, 0, |chain|) == Ok(After(chain, steps).x)
  {
    hide Setting, Decrypts, After;
    ResumeAnywhere(chain, steps);
  }

  lemma SameEverywhere(xs: Addresses, ys: Addresses)
    requires forall a :: SameAt(xs, ys, a)
    ensures xs == ys
  {
    forall a ensures (a in xs <==> a in ys) && (a in xs ==> xs[a] == ys[a]) {
      assert SameAt(xs, ys, a);
    }
  }

  // ---------- No step fails ----------

  lemma StoreSucceeds(chain: seq<Block>, c: Client, mark: nat, part: set<ExtendedAddr>)
    requires Setting(chain) && Consistent(chain, c, mark, part) && Enabled(chain, c, StoreTx)
    ensures Take(chain, c, StoreTx).cursor.Applying?
  {
    hide Works, Causal, BlockItems, IndexAt, AllItems, DataAt, TouchedAt, InputsResolve, GlobalAt, Touched, Take;
    TakesStore(chain, c);
    StoreKeepsData(Everything(chain), c.x, mark, part, Position(chain, c.cursor));
  }

  lemma UpdateSucceeds(chain: seq<Block>, c: Client, mark: nat, part: set<ExtendedAddr>, a: ExtendedAddr)
    requires Setting(chain) && Consistent(chain, c, mark, part) && Enabled(chain, c, UpdateOne(a))
    ensures Take(chain, c, UpdateOne(a)).cursor.Applying?
  {
    hide Works, Causal, BlockItems, IndexAt, AllItems, TouchedAt, GlobalAt, OpsAt, ApplyMemento, DataAt, Take;
    TakesUpdate(chain, c, a);
    UpdateKeepsData(Everything(chain), c.x, mark, part, Position(chain, c.cursor), a);
  }

  /** Whatever happened before, storing a transaction and updating an address succeed. */
  lemma StepsNeverFail(chain: seq<Block>, steps: seq<Step>, step: Step)
    requires Setting(chain) && Enabled(chain, After(chain, steps), step) && (step.StoreTx? || step.UpdateOne?)
    ensures Take(chain, After(chain, steps), step).cursor.Applying?
  {
    hide Setting, Consistent, Take, Enabled, After;
    var mark, part := RunsStayConsistent(chain, steps);
    match step
    case StoreTx => StoreSucceeds(chain, After(chain, steps), mark, part);
    case UpdateOne(a) => UpdateSucceeds(chain, After(chain, steps), mark, part, a);
  }

  // ---------- Handling again what was handled in part ----------

  lemma AddressOkSame(
    items: seq<Item>, xs: Addresses, ys: Addresses, mark: nat, p: set<ExtendedAddr>, q: set<ExtendedAddr>,
    a: ExtendedAddr)
    requires Works(items) && mark <= |items| && AddressOk(items, xs, mark, p, a)
    requires SameAt(xs, ys, a) && (a in p <==> a in q)
    ensures AddressOk(items, ys, mark, q, a)
  {
    hide Works, IndexAt;
  }

  function PartAfter(items: seq<Item>, mark: nat, part: set<ExtendedAddr>, pos: nat): set<ExtendedAddr>
    requires pos <= mark && pos < |items|
  {
    if pos == mark then part + TouchedAt(items, pos) else part
  }

  lemma ApplyAgain(items: seq<Item>, x: Index, mark: nat, part: set<ExtendedAddr>, pos: nat)
    requires Works(items) && Causal(items) && DataAt(items, x, mark, part) && pos <= mark && pos < |items|
    requires pos < mark || x.txs == IndexAt(items, mark + 1).txs
    requires Touched(x.txs.Keys, items[pos].tx.Id()) == TouchedAt(items, pos)
    ensures AllApply(x.addresses, x.txs.Keys, items[pos])
    ensures var ys, part' := Updated(x.addresses, x.txs.Keys, items[pos]), PartAfter(items, mark, part, pos);
            forall a :: AddressOk(items, ys, mark, part', a)
  {
    hide Works, Causal, IndexAt, AddressOk, OpsAt, ApplyMemento, Touched, TouchedAt;
    forall a | a in TouchedAt(items, pos)
      ensures ApplyMemento(DetailsAt(x.addresses, a), items[pos].tx.Id(), OpsAt(x.txs.Keys, items[pos], a)).Ok?
    {
      UpdateAt(items, x, mark, part, pos, a);
    }
    var ys, part' := Updated(x.addresses, x.txs.Keys, items[pos]), PartAfter(items, mark, part, pos);
    forall a ensures AddressOk(items, ys, mark, part', a) {
      if a in TouchedAt(items, pos) {
        UpdateAt(items, x, mark, part, pos, a);
        var r := ApplyMemento(DetailsAt(x.addresses, a), items[pos].tx.Id(), OpsAt(x.txs.Keys, items[pos], a));
        var some := if pos == mark then part + {a} else part;
        AddressOkSame(items, x.addresses[a := r.value], ys, mark, some, part', a);
      } else {
        AddressOkSame(items, x.addresses, ys, mark, part, part', a);
      }
    }
  }

  /** Handling a transaction that was handled before, or in part, succeeds and leaves no trace. */
  lemma HandleAgain(items: seq<Item>, x: Index, mark: nat, part: set<ExtendedAddr>, pos: nat)
    returns (mark': nat, part': set<ExtendedAddr>)
    requires Works(items) && Causal(items) && DataAt(items, x, mark, part) && pos <= mark && pos < |items|
    ensures HandleTx(x, items[pos]).Ok? && HandleTx(x, items[pos]).value.global == x.global
    ensures pos < mark' && DataAt(items, HandleTx(x, items[pos]).value, mark', part')
  {
    hide Works, Causal, IndexAt, AddressOk, TouchedAt, InputsResolve, Touched, OpsAt, ApplyMemento, AllApply, Updated;
    StoreKeepsData(items, x, mark, part, pos);
    var y := x.(txs := x.txs[items[pos].tx.Id() := items[pos].tx]);
    ApplyAgain(items, y, mark, part, pos);
    var z := y.(addresses := Updated(y.addresses, y.txs.Keys, items[pos]));
    assert HandleTx(x, items[pos]) == Ok(z);
    assert DataAt(items, z, mark, PartAfter(items, mark, part, pos));
    if pos == mark {
      assert part + TouchedAt(items, mark) == TouchedAt(items, mark);
      AllUpdated(items, z, mark);
      mark', part' := mark + 1, {};
    } else {
      mark', part' := mark, part;
    }
  }

  lemma {:induction false} HandleRest(
    items: seq<Item>, x: Index, mark: nat, part: set<ExtendedAddr>, pos: nat, end: nat)
    returns (mark': nat, part': set<ExtendedAddr>)
    requires Works(items) && Causal(items) && DataAt(items, x, mark, part) && pos <= mark && pos <= end <= |items|
    ensures HandleAll(x, items[pos..end]).Ok? && HandleAll(x, items[pos..end]).value.global == x.global
    ensures end <= mark' && DataAt(items, HandleAll(x, items[pos..end]).value, mark', part')
    decreases end - pos
  {
    hide Works, Causal, DataAt, HandleTx;
    if pos == end {
      mark', part' := mark, part;
    } else {
      mark', part' := HandleRest(items, x, mark, part, pos, end - 1);
      assert items[pos..end][..end - pos - 1] == items[pos..end - 1];
      mark', part' := HandleAgain(items, HandleAll(x, items[pos..end - 1]).value, mark', part', end - 1);
    }
  }

  lemma AllHandled(items: seq<Item>, x: Index, mark: nat, part: set<ExtendedAddr>)
    requires Works(items) && DataAt(items, x, mark, part) && |items| <= mark
    ensures x.txs == IndexAt(items, |items|).txs && x.addresses == IndexAt(items, |items|).addresses
  {
    hide IndexAt, Works, TouchedAt;
    var ys := IndexAt(items, |items|).addresses;
    forall a ensures SameAt(x.addresses, ys, a) {
      assert AddressOk(items, x.addresses, mark, part, a);
    }
    SameEverywhere(x.addresses, ys);
  }

  lemma Resumes(chain: seq<Block>, c: Client, mark: nat, part: set<ExtendedAddr>)
    requires Setting(chain) && Decrypts(chain) && Consistent(chain, c, mark, part)
    ensures c.x.global.height <= |chain|
    ensures Naive(c.x, chain, c.x.global.height, |chain|) == Naive(NewIndex(), chain, 0, |chain|)
  {
    hide Naive, Decrypts, Works, Causal, DataAt, HandleAll, AllItems;
    var items, lo := Everything(chain), c.x.global.height;
    ItemsPrefix(chain, lo, |chain|);
    NaiveHandlesFrom(c.x, chain, lo, |chain|);
    NaiveHandles(chain, |chain|);
    var mark', part' := HandleRest(items, c.x, mark, part, Offset(chain, lo), |items|);
    assert items[Offset(chain, lo)..|items|] == ItemsFrom(chain, lo, |chain|);
    var y := HandleAll(c.x, ItemsFrom(chain, lo, |chain|)).value;
    AllHandled(items, y, mark', part');
    LastIndex(items);
  }

  lemma LastIndex(items: seq<Item>)
    requires Works(items)
    ensures HandleAll(NewIndex(), items) == Ok(IndexAt(items, |items|))
  {
    assert items[..|items|] == items;
  }

  lemma DataStore(items: seq<Item>, x: Index, mark: nat, part: set<ExtendedAddr>)
    requires Works(items) && DataAt(items, x, mark, part)
    ensures StoreOk(x.txs)
  {
    hide IndexAt, Works, TouchedAt, AddressOk, StoreOk;
    IndexTxs(items, mark);
    if mark < |items| { IndexTxs(items, mark + 1); }
  }

  /** However often the client was stopped, and wherever: its store is sound, its height is that of a
      block, and synchronising from there succeeds and gives the index of a single uninterrupted
      synchronisation. */
  lemma ResumeAnywhere(chain: seq<Block>, steps: seq<Step>)
    requires Setting(chain) && Decrypts(chain)
    ensures var x := After(chain, steps).x;
            && StoreOk(x.txs) && InSync(x.global, chain) && x.global.height <= |chain|
            && Naive(NewIndex(), chain, 0, |chain|).Ok?
            && Naive(x, chain, x.global.height, |chain|) == Naive(NewIndex(), chain, 0, |chain|)
  {
    hide After, Naive, Decrypts, Works, Causal, DataAt, CursorOk, AllItems, StoreOk, HandleAll;
    var mark, part := RunsStayConsistent(chain, steps);
    Resumes(chain, After(chain, steps), mark, part);
    DataStore(Everything(chain), After(chain, steps).x, mark, part);
    NaiveHandles(chain, |chain|);
    LastIndex(Everything(chain));
  }

  /** Well-ordered transactions, such as those of a chain, refer only to earlier ones. */
  lemma WellOrderedIsCausal(items: seq<Item>)
    requires WellOrdered(Ids(items))
    ensures Causal(items)
  {
    forall i, p | 0 <= i < |items| && p in InputsOf(items[i].tx.Id()) && p.id in Ids(items)
      ensures p.id in Ids(items[..i + 1])
    {
      assert Ids(items)[i] == items[i].tx.Id();
      var j :| 0 <= j < i && Ids(items)[j] == p.id;
      assert Ids(items[..i + 1])[j] == p.id;
    }
  }
}
