/** The client's transaction index (client-index/src/handler, client-index/src/service). */
module ClientIndex {
  import opened Wrappers
  import opened Coins
  import opened Transactions
  import opened AppHashes
  import opened LiveOutputs
  import opened AddressIndex

  datatype Transaction =
    | TransferTransaction(tx: Tx)
    | DepositStakeTransaction(deposit: DepositBondTx)
    | UnbondStakeTransaction(unbond: UnbondTx)
    | WithdrawUnbondedStakeTransaction(withdraw: WithdrawUnbondedTx)
  {
    function Id(): TxId {
      match this
      case TransferTransaction(tx) => TransferId(tx)
      case DepositStakeTransaction(tx) => DepositId(tx)
      case UnbondStakeTransaction(tx) => UnbondId(tx)
      case WithdrawUnbondedStakeTransaction(tx) => WithdrawId(tx)
    }
  }

  type TxStore = map<TxId, Transaction>
  type Addresses = map<ExtendedAddr, Details>

  /** The synchronisation state of one view key; `None` is the empty hash. */
  datatype GlobalState = GlobalState(height: nat, appHash: Option<AppHash>)

  datatype Index = Index(addresses: Addresses, txs: TxStore, global: GlobalState)

  function NewIndex(): Index {
    Index(map[], map[], GlobalState(0, None))
  }

  /** A transaction to handle, with the block it comes from. */
  datatype Item = Item(tx: Transaction, height: nat, time: Timespec)

  predicate StoreOk(txs: TxStore) {
    forall id | id in txs :: txs[id].Id() == id
  }

  function DetailsAt(addresses: Addresses, a: ExtendedAddr): Details {
    if a in addresses then addresses[a] else NewDetails()
  }

  /** `get_output`: nothing when the transaction is not stored. */
  function GetOutput(txs: TxStore, p: TxoPointer): (r: Result<Option<TxOut>, IndexError>)
    ensures p.id !in txs ==> r == Ok(None)
    ensures StoreOk(txs) && p.id in txs ==> (r.Ok? <==> Exists(p))
    ensures StoreOk(txs) && p.id in txs && Exists(p) ==> r == Ok(Some(OutputAt(p)))
  {
    if p.id !in txs then Ok(None)
    else match txs[p.id]
      case TransferTransaction(tx) =>
        if p.index < |tx.outputs| then Ok(Some(tx.outputs[p.index])) else Err(OutputNotFound)
      case WithdrawUnbondedStakeTransaction(tx) =>
        if p.index < |tx.outputs| then Ok(Some(tx.outputs[p.index])) else Err(OutputNotFound)
      case _ => Err(InvalidTransaction)
  }

  /** The first input whose lookup fails decides the error. */
  function InputsResolve(txs: TxStore, inputs: seq<TxoPointer>): (r: Check<IndexError>)
    ensures StoreOk(txs) ==> (r.Pass? <==> forall p | p in inputs && p.id in txs :: Exists(p))
  {
    if inputs == [] then Pass
    else
      assert inputs[0] in inputs && inputs == [inputs[0]] + inputs[1..];
      if GetOutput(txs, inputs[0]).Err? then Fail(GetOutput(txs, inputs[0]).error)
      else InputsResolve(txs, inputs[1..])
  }

  // ---------- The operations for one address ----------

  function SpendsAt(known: set<TxId>, inputs: seq<TxoPointer>, a: ExtendedAddr): (ps: seq<TxoPointer>)
    ensures forall p :: p in ps <==> p in inputs && p.id in known && At(p, a)
  {
    if inputs == [] then []
    else (if inputs[0].id in known && At(inputs[0], a) then [inputs[0]] else []) + SpendsAt(known, inputs[1..], a)
  }

  function CreatesFrom(id: TxId, k: nat, a: ExtendedAddr): (ps: seq<TxoPointer>)
    requires k <= |Outputs(id)|
    ensures forall p :: p in ps <==> p.id == id && k <= p.index && At(p, a)
    ensures NoDuplicates(ps)
    decreases |Outputs(id)| - k
  {
    if k == |Outputs(id)| then []
    else (if At(TxoPointer(id, k), a) then [TxoPointer(id, k)] else []) + CreatesFrom(id, k + 1, a)
  }

  lemma {:induction false} SpendsAtDistinct(known: set<TxId>, inputs: seq<TxoPointer>, a: ExtendedAddr)
    requires NoDuplicates(inputs)
    ensures NoDuplicates(SpendsAt(known, inputs, a))
    decreases |inputs|
  {
    if inputs != [] {
      SpendsAtDistinct(known, inputs[1..], a);
      assert inputs[0] !in inputs[1..];
    }
  }

  function OpsAt(known: set<TxId>, item: Item, a: ExtendedAddr): seq<Operation> {
    var id := item.tx.Id();
    SpendAll(id, SpendsAt(known, InputsOf(id), a), item.height, item.time)
    + CreateAll(id, CreatesFrom(id, 0, a), item.height, item.time)
  }

  /** The addresses of a memento: those of known inputs and of outputs. */
  function Touched(known: set<TxId>, id: TxId): (r: set<ExtendedAddr>)
    ensures forall a :: a in r <==> Touches(known, id, a)
  {
    (set p | p in InputsOf(id) && p.id in known && Exists(p) :: OutputAt(p).address)
    + (set o | o in Outputs(id) :: o.address)
  }

  predicate Touches(known: set<TxId>, id: TxId, a: ExtendedAddr) {
    (exists p | p in InputsOf(id) :: p.id in known && At(p, a)) || (exists o | o in Outputs(id) :: o.address == a)
  }

  predicate AllApply(addresses: Addresses, known: set<TxId>, item: Item) {
    forall a | a in Touched(known, item.tx.Id()) ::
      ApplyMemento(DetailsAt(addresses, a), item.tx.Id(), OpsAt(known, item, a)).Ok?
  }

  function UpdatedAt(addresses: Addresses, known: set<TxId>, item: Item, a: ExtendedAddr): Result<Details, IndexError> {
    if a in Touched(known, item.tx.Id()) then
      ApplyMemento(DetailsAt(addresses, a), item.tx.Id(), OpsAt(known, item, a))
    else Ok(DetailsAt(addresses, a))
  }

  function Updated(addresses: Addresses, known: set<TxId>, item: Item): Addresses
    requires AllApply(addresses, known, item)
  {
    map a | a in addresses.Keys + Touched(known, item.tx.Id()) :: UpdatedAt(addresses, known, item, a).value
  }

  /** `on_transaction`: store the transaction, build its memento, apply it to every address. */
  function HandleTx(x: Index, item: Item): Result<Index, IndexError> {
    var id := item.tx.Id();
    var txs := x.txs[id := item.tx];
    if InputsResolve(txs, InputsOf(id)).Fail? then Err(InputsResolve(txs, InputsOf(id)).error)
    else if AllApply(x.addresses, txs.Keys, item) then
      Ok(x.(txs := txs, addresses := Updated(x.addresses, txs.Keys, item)))
    else Err(BalanceAdditionError)
  }

  function HandleAll(x: Index, items: seq<Item>): Result<Index, IndexError> {
    if items == [] then Ok(x)
    else match HandleAll(x, items[..|items| - 1])
      case Err(e) => Err(e)
      case Ok(y) => HandleTx(y, items[|items| - 1])
  }

  /** What an error says about an input. */
  predicate InputFault(txs: TxStore, p: TxoPointer, e: IndexError) {
    && p.id in txs
    && if e == InvalidTransaction then !HasOutputs(p.id)
       else e == OutputNotFound && HasOutputs(p.id) && p.index >= |Outputs(p.id)|
  }

  /** What an error says about a transaction to handle. */
  predicate ItemFault(x: Index, item: Item, e: IndexError) {
    var id := item.tx.Id();
    var txs := x.txs[id := item.tx];
    match e
    case BalanceAdditionError => !AllApply(x.addresses, txs.Keys, item)
    case _ => exists p | p in InputsOf(id) :: InputFault(txs, p, e)
  }

  lemma {:induction false} InputsRefused(txs: TxStore, inputs: seq<TxoPointer>)
    requires StoreOk(txs)
    ensures InputsResolve(txs, inputs).Fail? ==>
              exists p | p in inputs :: InputFault(txs, p, InputsResolve(txs, inputs).error)
    decreases |inputs|
  {
    if inputs != [] {
      InputsRefused(txs, inputs[1..]);
      var p := inputs[0];
      assert p in inputs && forall q | q in inputs[1..] :: q in inputs;
      assert GetOutput(txs, p).Err? ==> InputFault(txs, p, GetOutput(txs, p).error);
      hide GetOutput, InputFault;
    }
  }

  /** A transaction that cannot be handled has the fault that the error names. */
  lemma ItemRefused(x: Index, item: Item)
    requires StoreOk(x.txs)
    ensures HandleTx(x, item).Err? ==> ItemFault(x, item, HandleTx(x, item).error)
  {
    hide AllApply, Updated, InputsResolve, HasOutputs, Outputs;
    InputsRefused(x.txs[item.tx.Id() := item.tx], InputsOf(item.tx.Id()));
  }

  // ---------- What the index holds ----------

  function IdSet(ids: seq<TxId>): set<TxId> {
    set id | id in ids
  }

  function Ids(items: seq<Item>): (ids: seq<TxId>)
    ensures |ids| == |items|
  {
    seq(|items|, i requires 0 <= i < |items| => items[i].tx.Id())
  }

  function TouchingIds(ids: seq<TxId>, a: ExtendedAddr): set<TxId> {
    set id | id in ids && Touches(IdSet(ids), id, a)
  }

  /** The details of an address after these transactions: unspent are the outputs created and not
      consumed among them, and the balance is their value and what the history adds up to. */
  ghost predicate DetailsOk(d: Details, ids: seq<TxId>, a: ExtendedAddr) {
    Balanced(d) && d.unspent == LiveAt(ids, a) && d.ids == TouchingIds(ids, a)
  }

  ghost predicate AddressesOk(addresses: Addresses, ids: seq<TxId>) {
    forall a :: DetailsOk(DetailsAt(addresses, a), ids, a)
  }

  ghost predicate IndexOk(x: Index, ids: seq<TxId>) {
    StoreOk(x.txs) && x.txs.Keys == IdSet(ids) && AddressesOk(x.addresses, ids)
  }

  lemma NewIndexOk()
    ensures IndexOk(NewIndex(), [])
  {
    ValueEmpty();
    forall a ensures DetailsOk(DetailsAt(map[], a), [], a) {
      assert LiveAt([], a) == map[];
    }
  }

  lemma TouchesSame(ids: seq<TxId>, id: TxId, d: TxId, a: ExtendedAddr)
    requires LastNew(ids, id) && d in ids
    ensures Touches(IdSet(ids + [id]), d, a) <==> Touches(IdSet(ids), d, a)
  {
    forall p | p in InputsOf(d) ensures p.id in IdSet(ids + [id]) <==> p.id in IdSet(ids) {
      assert p in ConsumedBy(ids);
    }
  }

  lemma TouchingPush(ids: seq<TxId>, id: TxId, a: ExtendedAddr)
    requires LastNew(ids, id)
    ensures TouchingIds(ids + [id], a) ==
            TouchingIds(ids, a) + (if Touches(IdSet(ids + [id]), id, a) then {id} else {})
    ensures id !in TouchingIds(ids, a)
  {
    hide Touches;
    forall d | d in ids ensures Touches(IdSet(ids + [id]), d, a) <==> Touches(IdSet(ids), d, a) {
      TouchesSame(ids, id, d, a);
    }
  }

  /** The operations of a new transaction: they succeed exactly when the new balance fits, and leave
      the details of the longer list. */
  lemma NewAtAddress(d: Details, ids: seq<TxId>, item: Item, a: ExtendedAddr)
    requires DetailsOk(d, ids, a) && LastNew(ids, item.tx.Id())
    ensures var r := ApplyOperations(d, OpsAt(IdSet(ids + [item.tx.Id()]), item, a));
            && (r.Ok? <==> Value(LiveAt(ids + [item.tx.Id()], a)) <= MAX_COIN)
            && (r.Ok? ==>
                  Balanced(r.value) && r.value.unspent == LiveAt(ids + [item.tx.Id()], a) && r.value.ids == d.ids)
  {
    var id := item.tx.Id();
    var known := IdSet(ids + [id]);
    var spends, creates := SpendsAt(known, InputsOf(id), a), CreatesFrom(id, 0, a);
    SpendsAtDistinct(known, InputsOf(id), a);
    SpendsAreLive(ids, id, a);
    hide Balanced, Value, SpendsAt, CreatesFrom, LiveAt, LastNew, SpendAll, CreateAll;
    SpendsApply(d, id, spends, item.height, item.time);
    var d1 := ApplyOperations(d, SpendAll(id, spends, item.height, item.time)).value;
    ApplyAppend(d, SpendAll(id, spends, item.height, item.time), CreateAll(id, creates, item.height, item.time));
    CreatesAreNew(ids, id, a, d1.unspent);
    CreatesApply(d1, id, creates, item.height, item.time);
    LiveAtNext(ids, id, a);
  }

  lemma SpendsAreLive(ids: seq<TxId>, id: TxId, a: ExtendedAddr)
    requires LastNew(ids, id)
    ensures forall p | p in SpendsAt(IdSet(ids + [id]), InputsOf(id), a) :: p in LiveAt(ids, a) && Exists(p)
  {
    forall p | p in SpendsAt(IdSet(ids + [id]), InputsOf(id), a) ensures p in LiveAt(ids, a) && Exists(p) {
      assert p.id in ids;
      CreatedExists(ids, p);
    }
  }

  lemma CreatesAreNew(ids: seq<TxId>, id: TxId, a: ExtendedAddr, m: Outs)
    requires LastNew(ids, id) && m.Keys <= LiveAt(ids, a).Keys
    ensures forall p | p in CreatesFrom(id, 0, a) :: p !in m && Exists(p)
  {
    forall p | p in CreatesFrom(id, 0, a) ensures p !in m {
      CreatedExists(ids, p);
    }
  }

  function NextLive(ids: seq<TxId>, id: TxId, a: ExtendedAddr): Outs {
    LiveAt(ids, a) - Pointers(SpendsAt(IdSet(ids + [id]), InputsOf(id), a)) + Fresh(CreatesFrom(id, 0, a))
  }

  lemma NextLiveMember(ids: seq<TxId>, id: TxId, a: ExtendedAddr, p: TxoPointer)
    requires LastNew(ids, id)
    ensures p in LiveAt(ids + [id], a) <==> p in NextLive(ids, id, a)
  {
    LiveAtPush(ids, id, a, p);
    CreatedExists(ids, p);
    assert p in OutputsOf(id) <==> p.id == id && Exists(p) by { assert p == TxoPointer(p.id, p.index); }
    hide CreatedBy, OutputsOf, SpendsAt, CreatesFrom;
  }

  lemma NextLiveValue(ids: seq<TxId>, id: TxId, a: ExtendedAddr, p: TxoPointer)
    ensures p in NextLive(ids, id, a) ==> Exists(p) && NextLive(ids, id, a)[p] == OutputAt(p)
    ensures p in LiveAt(ids + [id], a) ==> Exists(p) && LiveAt(ids + [id], a)[p] == OutputAt(p)
  {
    hide CreatedBy, ConsumedBy, SpendsAt, CreatesFrom;
  }

  lemma LiveAtNext(ids: seq<TxId>, id: TxId, a: ExtendedAddr)
    requires LastNew(ids, id)
    ensures LiveAt(ids + [id], a) == NextLive(ids, id, a)
  {
    hide LiveAt, NextLive, LastNew;
    forall p ensures p in LiveAt(ids + [id], a) <==> p in NextLive(ids, id, a) {
      NextLiveMember(ids, id, a, p);
    }
    forall p | p in LiveAt(ids + [id], a) ensures LiveAt(ids + [id], a)[p] == NextLive(ids, id, a)[p] {
      NextLiveValue(ids, id, a, p);
    }
  }

  lemma UntouchedOps(known: set<TxId>, item: Item, a: ExtendedAddr)
    ensures OpsAt(known, item, a) != [] ==> Touches(known, item.tx.Id(), a)
  {
    var id := item.tx.Id();
    var spends, creates := SpendsAt(known, InputsOf(id), a), CreatesFrom(id, 0, a);
    if spends != [] {
      assert spends[0] in spends;
    } else if creates != [] {
      assert creates[0] in creates && OutputAt(creates[0]) in Outputs(id);
    }
  }

  /** Handling the last transaction of the list at one address. */
  ghost predicate RightAt(addresses: Addresses, ids: seq<TxId>, item: Item, a: ExtendedAddr) {
    var longer := ids + [item.tx.Id()];
    var r := UpdatedAt(addresses, IdSet(longer), item, a);
    && (r.Ok? <==> Value(LiveAt(longer, a)) <= MAX_COIN)
    && (r.Ok? ==> DetailsOk(r.value, longer, a))
  }

  lemma NewIsRight(addresses: Addresses, ids: seq<TxId>, item: Item, a: ExtendedAddr)
    requires DetailsOk(DetailsAt(addresses, a), ids, a) && LastNew(ids, item.tx.Id())
    ensures RightAt(addresses, ids, item, a)
  {
    var id, d := item.tx.Id(), DetailsAt(addresses, a);
    NewAtAddress(d, ids, item, a);
    TouchingPush(ids, id, a);
    UntouchedOps(IdSet(ids + [id]), item, a);
    hide OpsAt, Balanced, Value, LiveAt, LastNew, Touches, IdSet;
  }

  lemma OldIsRight(addresses: Addresses, ids: seq<TxId>, item: Item, a: ExtendedAddr)
    requires DetailsOk(DetailsAt(addresses, a), ids, a) && item.tx.Id() in ids
    ensures RightAt(addresses, ids, item, a)
  {
    var id := item.tx.Id();
    LiveSame(ids, id, a);
    assert IdSet(ids + [id]) == IdSet(ids);
    assert TouchingIds(ids + [id], a) == TouchingIds(ids, a);
    assert DetailsAt(addresses, a).balance <= MAX_COIN;
    hide OpsAt, Value, LiveAt, Touches, IdSet;
  }

  lemma AllRight(addresses: Addresses, ids: seq<TxId>, item: Item)
    requires AddressesOk(addresses, ids) && WellOrdered(ids + [item.tx.Id()])
    ensures forall a :: RightAt(addresses, ids, item, a)
  {
    var id := item.tx.Id();
    if id !in ids { LastIsNew(ids, id); }
    hide DetailsOk, RightAt, LastNew, WellOrdered;
    forall a ensures RightAt(addresses, ids, item, a) {
      assert DetailsOk(DetailsAt(addresses, a), ids, a);
      if id in ids { OldIsRight(addresses, ids, item, a); } else { NewIsRight(addresses, ids, item, a); }
    }
  }

  /** Every address can hold what it has after these transactions. */
  ghost predicate Fits(ids: seq<TxId>) {
    forall a :: Value(LiveAt(ids, a)) <= MAX_COIN
  }

  lemma AppliesIffFits(addresses: Addresses, ids: seq<TxId>, item: Item)
    requires forall a :: RightAt(addresses, ids, item, a)
    ensures AllApply(addresses, IdSet(ids + [item.tx.Id()]), item) <==> Fits(ids + [item.tx.Id()])
  {
    hide DetailsOk, LiveAt, OpsAt, IdSet, ApplyMemento, Value;
    var known := IdSet(ids + [item.tx.Id()]);
    if AllApply(addresses, known, item) {
      forall a ensures Value(LiveAt(ids + [item.tx.Id()], a)) <= MAX_COIN {
        assert RightAt(addresses, ids, item, a);
      }
    }
    if Fits(ids + [item.tx.Id()]) {
      forall a | a in Touched(known, item.tx.Id())
        ensures ApplyMemento(DetailsAt(addresses, a), item.tx.Id(), OpsAt(known, item, a)).Ok?
      {
        assert RightAt(addresses, ids, item, a);
      }
    }
  }

  lemma UpdatedDetails(addresses: Addresses, known: set<TxId>, item: Item, a: ExtendedAddr)
    requires AllApply(addresses, known, item)
    ensures UpdatedAt(addresses, known, item, a) == Ok(DetailsAt(Updated(addresses, known, item), a))
  {
    hide ApplyMemento, OpsAt;
  }

  lemma StoreStep(x: Index, ids: seq<TxId>, item: Item)
    requires StoreOk(x.txs) && x.txs.Keys == IdSet(ids) && WellOrdered(ids + [item.tx.Id()])
    ensures var txs := x.txs[item.tx.Id() := item.tx];
            && StoreOk(txs) && txs.Keys == IdSet(ids + [item.tx.Id()])
            && InputsResolve(txs, InputsOf(item.tx.Id())).Pass?
  {
    var id := item.tx.Id();
    var all := ids + [id];
    assert all[|ids|] == id;
    forall p | p in InputsOf(id) && p.id in x.txs[id := item.tx] ensures Exists(p) {
      assert p.id in all;
    }
  }

  /** Handling one more transaction succeeds exactly when every balance still fits, and then the
      index is right for the longer list. */
  lemma HandleStep(x: Index, ids: seq<TxId>, item: Item)
    requires IndexOk(x, ids) && WellOrdered(ids + [item.tx.Id()])
    ensures HandleTx(x, item).Ok? <==> Fits(ids + [item.tx.Id()])
    ensures HandleTx(x, item).Ok? ==>
              IndexOk(HandleTx(x, item).value, ids + [item.tx.Id()]) && HandleTx(x, item).value.global == x.global
  {
    var longer := ids + [item.tx.Id()];
    StoreStep(x, ids, item);
    AllRight(x.addresses, ids, item);
    AppliesIffFits(x.addresses, ids, item);
    hide DetailsOk, WellOrdered, Fits, IdSet, InputsResolve, AllApply, StoreOk;
    if HandleTx(x, item).Ok? {
      forall a ensures DetailsOk(DetailsAt(HandleTx(x, item).value.addresses, a), longer, a) {
        assert RightAt(x.addresses, ids, item, a);
        UpdatedDetails(x.addresses, IdSet(longer), item, a);
      }
    }
  }

  lemma IdsPush(items: seq<Item>, n: nat)
    requires n < |items|
    ensures Ids(items[..n + 1]) == Ids(items[..n]) + [items[n].tx.Id()]
    ensures Ids(items)[..n] == Ids(items[..n])
  {
  }

  lemma {:induction false} WellOrderedTake(ids: seq<TxId>, n: nat)
    requires WellOrdered(ids) && n <= |ids|
    ensures WellOrdered(ids[..n])
    decreases |ids| - n
  {
    if n < |ids| {
      WellOrderedTake(ids, n + 1);
      assert ids[..n + 1] == ids[..n] + [ids[n]];
      WellOrderedPrefix(ids[..n], ids[n]);
    } else {
      assert ids[..n] == ids;
    }
  }

  /** After any well-ordered list of transactions handled from an empty index, every address holds
      exactly its created and not consumed outputs, with matching balance and history. Handling
      fails exactly when the outputs of some address come to more than the maximum on the way. */
  lemma {:induction false} IndexIsExact(items: seq<Item>, n: nat)
    requires WellOrdered(Ids(items)) && n <= |items|
    ensures HandleAll(NewIndex(), items[..n]).Ok? <==> forall m | 0 <= m <= n :: Fits(Ids(items[..m]))
    ensures HandleAll(NewIndex(), items[..n]).Ok? ==> IndexOk(HandleAll(NewIndex(), items[..n]).value, Ids(items[..n]))
    decreases n
  {
    hide WellOrdered, IndexOk, HandleTx, Fits;
    if n == 0 {
      NewIndexOk();
      NothingFits();
      assert items[..0] == [] && Ids(items[..0]) == [];
    } else {
      IndexIsExact(items, n - 1);
      IdsPush(items, n - 1);
      WellOrderedTake(Ids(items), n);
      assert items[..n][..n - 1] == items[..n - 1];
      assert Ids(items)[..n] == Ids(items[..n]);
      var r := HandleAll(NewIndex(), items[..n - 1]);
      if r.Ok? { HandleStep(r.value, Ids(items[..n - 1]), items[n - 1]); }
    }
  }

  lemma NothingFits()
    ensures Fits([])
  {
    ValueEmpty();
    forall a ensures Value(LiveAt([], a)) <= MAX_COIN { assert LiveAt([], a) == map[]; }
  }
}
