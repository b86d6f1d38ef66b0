/** What committing the delivered transactions does to the unspent outputs
    (chain-abci/src/app/commit.rs, update_utxos_commit and the loop of commit_handler). */
module Settlement {
  import opened Wrappers
  import opened Coins
  import opened MapSums
  import opened Transactions
  import opened Validation
  import opened UtxoDb

  function Created(tx: TxAux): nat {
    if tx.CreatesOutputs() then OutputTotal(tx.Id()) else 0
  }

  /** Coins in the outputs that a list of transactions will create. */
  function CreatedTotal(txs: seq<TxAux>): nat {
    if txs == [] then 0 else CreatedTotal(txs[..|txs| - 1]) + Created(txs[|txs| - 1])
  }

  /** The outputs a transaction is about to create are known, counted right, and worth something. */
  predicate CreationFits(tx: TxAux) {
    tx.CreatesOutputs() ==>
      HasOutputs(tx.Id()) && tx.noOfOutputs == |Outputs(tx.Id())| && OutputTotal(tx.Id()) > 0
  }

  /** What delivery guarantees of each delivered transaction until the commit. */
  predicate Delivered(meta: Meta, txs: seq<TxAux>) {
    forall tx | tx in txs :: AllSpent(meta, tx.Inputs()) && CreationFits(tx)
  }

  lemma DeliveredInRange(meta: Meta, txs: seq<TxAux>)
    requires Delivered(meta, txs)
    ensures CommitInRange(meta, txs)
  {
  }

  function Settled(meta: Meta, txs: seq<TxAux>): Meta
    requires CommitInRange(meta, txs)
  {
    meta + CommitPuts(meta, txs)
  }

  lemma FreshValue(id: TxId, bits: Bits)
    ensures UnspentCoins(id, FreshBits(|Outputs(id)|)) == OutputTotal(id)
    ensures UnspentCoins(id, bits) <= OutputTotal(id)
  {
    assert UnspentValues(FreshBits(|Outputs(id)|), Outputs(id)) == Values(Outputs(id));
    TotalMonotone(UnspentValues(bits, Outputs(id)), Values(Outputs(id)));
  }

  /** While the commit is being put together, every bitmap is the old one or a fresh one. */
  predicate OldOrFresh(meta: Meta, e: Meta) {
    && meta.Keys <= e.Keys
    && forall id | id in e :: (id in meta && e[id] == meta[id]) || e[id] == FreshBits(|Outputs(id)|)
  }

  lemma ValueMonotone(a: Meta, b: Meta)
    requires a.Keys == b.Keys && forall id | id in a :: UnspentCoins(id, a[id]) <= UnspentCoins(id, b[id])
    ensures UnspentValue(a) <= UnspentValue(b)
  {
    SumMonotone(ValueMap(a), ValueMap(b));
  }

  /** Putting an old bitmap back over a fresh one cannot add value. */
  lemma PutBackOld(meta: Meta, e: Meta, back: Meta)
    requires OldOrFresh(meta, e)
    requires forall id | id in back :: id in meta && back[id] == meta[id]
    ensures OldOrFresh(meta, e + back)
    ensures UnspentValue(e + back) <= UnspentValue(e)
  {
    var e' := e + back;
    forall id | id in e' ensures UnspentCoins(id, e'[id]) <= UnspentCoins(id, e[id]) {
      FreshValue(id, e'[id]);
    }
    ValueMonotone(e', e);
  }

  lemma PutFresh(e: Meta, id: TxId)
    ensures var e' := e[id := FreshBits(|Outputs(id)|)];
            && UnspentValue(e') <= UnspentValue(e) + OutputTotal(id)
            && (id !in e ==> UnspentValue(e') == UnspentValue(e) + OutputTotal(id))
  {
    FreshValue(id, []);
    PutValue(e, id, FreshBits(|Outputs(id)|));
  }

  lemma SettleStep(meta: Meta, e: Meta, tx: TxAux)
    requires OldOrFresh(meta, e) && AllSpent(meta, tx.Inputs()) && CreationFits(tx)
    ensures InRange(meta, tx.Inputs())
    ensures OldOrFresh(meta, e + PutsOf(meta, tx))
    ensures UnspentValue(e + PutsOf(meta, tx)) <= UnspentValue(e) + Created(tx)
  {
    SpendAgain(meta, tx.Inputs());
    var back := SpendPuts(meta, tx.Inputs());
    PutBackOld(meta, e, back);
    var e' := e + back;
    if tx.CreatesOutputs() {
      PutFresh(e', tx.Id());
      MergeUpdate(e, back, tx.Id(), FreshBits(tx.noOfOutputs));
    }
  }

  /** A commit never creates more than the delivered outputs, whatever ids repeat. */
  lemma {:induction false} SettleBound(meta: Meta, txs: seq<TxAux>)
    requires Delivered(meta, txs)
    ensures CommitInRange(meta, txs)
    ensures OldOrFresh(meta, Settled(meta, txs))
    ensures UnspentValue(Settled(meta, txs)) <= UnspentValue(meta) + CreatedTotal(txs)
    decreases |txs|
  {
    DeliveredInRange(meta, txs);
    if txs == [] {
      assert Settled(meta, txs) == meta;
    } else {
      var init, tx := txs[..|txs| - 1], txs[|txs| - 1];
      SettleBound(meta, init);
      SettleStep(meta, Settled(meta, init), tx);
      MergeAssoc(meta, CommitPuts(meta, init), PutsOf(meta, tx));
    }
  }

  function CreatedIds(txs: seq<TxAux>): set<TxId> {
    set tx | tx in txs && tx.CreatesOutputs() :: tx.Id()
  }

  function FreshFor(ids: set<TxId>): Meta {
    map id | id in ids :: FreshBits(|Outputs(id)|)
  }

  predicate NewIds(meta: Meta, txs: seq<TxAux>) {
    && CreatedIds(txs) !! meta.Keys
    && forall i, j | 0 <= i < j < |txs| && txs[i].CreatesOutputs() && txs[j].CreatesOutputs() ::
         txs[i].Id() != txs[j].Id()
  }

  lemma CreatedIdsPush(init: seq<TxAux>, tx: TxAux)
    ensures CreatedIds(init + [tx]) == CreatedIds(init) + (if tx.CreatesOutputs() then {tx.Id()} else {})
  {
    var ids, all := CreatedIds(init), CreatedIds(init + [tx]);
    forall id | id in ids ensures id in all {
      var t :| t in init && t.CreatesOutputs() && t.Id() == id;
      assert t in init + [tx];
    }
    assert tx in init + [tx];
  }

  lemma FreshForPush(ids: set<TxId>, id: TxId)
    ensures FreshFor(ids + {id}) == FreshFor(ids)[id := FreshBits(|Outputs(id)|)]
  {
  }

  // ---------- When a commit loses nothing ----------

  predicate NoCoins(meta: Meta, id: TxId) {
    id in meta ==> UnspentCoins(id, meta[id]) == 0
  }

  /** With outputs of `ids` created earlier in the block: the transaction consumes none of these ids,
      and what it creates is a new id without unspent coins. */
  predicate Quiet(meta: Meta, ids: set<TxId>, tx: TxAux) {
    && (forall p | p in tx.Inputs() :: p.id !in ids)
    && (tx.CreatesOutputs() ==> tx.Id() !in ids && NoCoins(meta, tx.Id()))
  }

  /** Can be read off before the commit. */
  predicate LosesNothing(meta: Meta, txs: seq<TxAux>) {
    forall k | 0 <= k < |txs| :: Quiet(meta, CreatedIds(txs[..k]), txs[k])
  }

  lemma LosesNothingPush(meta: Meta, init: seq<TxAux>, tx: TxAux)
    ensures LosesNothing(meta, init + [tx]) <==> LosesNothing(meta, init) && Quiet(meta, CreatedIds(init), tx)
  {
    hide Quiet, CreatedIds;
    var txs := init + [tx];
    assert txs[|init|] == tx && txs[..|init|] == init;
    forall k | 0 <= k < |init| ensures txs[..k] == init[..k] && txs[k] == init[k] {}
    if LosesNothing(meta, txs) {
      forall k | 0 <= k < |init| ensures Quiet(meta, CreatedIds(init[..k]), init[k]) {
        assert Quiet(meta, CreatedIds(txs[..k]), txs[k]);
      }
      assert Quiet(meta, CreatedIds(txs[..|init|]), txs[|init|]);
    }
  }

  lemma FreshForNext(meta: Meta, init: seq<TxAux>, tx: TxAux)
    ensures var e := meta + FreshFor(CreatedIds(init));
            meta + FreshFor(CreatedIds(init + [tx])) ==
            if tx.CreatesOutputs() then e[tx.Id() := FreshBits(|Outputs(tx.Id())|)] else e
  {
    var ids := CreatedIds(init);
    CreatedIdsPush(init, tx);
    if tx.CreatesOutputs() {
      FreshForPush(ids, tx.Id());
      MergeUpdate(meta, FreshFor(ids), tx.Id(), FreshBits(|Outputs(tx.Id())|));
    } else {
      assert ids + {} == ids;
    }
  }

  /** A quiet transaction settles without loss. */
  lemma QuietSettles(meta: Meta, init: seq<TxAux>, tx: TxAux)
    requires AllSpent(meta, tx.Inputs()) && CreationFits(tx) && Quiet(meta, CreatedIds(init), tx)
    ensures InRange(meta, tx.Inputs())
    ensures var e := meta + FreshFor(CreatedIds(init));
            && e + PutsOf(meta, tx) == meta + FreshFor(CreatedIds(init + [tx]))
            && UnspentValue(e + PutsOf(meta, tx)) == UnspentValue(e) + Created(tx)
  {
    hide UnspentValue, CreatedIds;
    SpendAgain(meta, tx.Inputs());
    var e := meta + FreshFor(CreatedIds(init));
    var back := SpendPuts(meta, tx.Inputs());
    assert forall id | id in back :: id in e && e[id] == back[id];
    MergeSame(e, back);
    FreshForNext(meta, init, tx);
    if tx.CreatesOutputs() {
      FreshValue(tx.Id(), []);
      PutValue(e, tx.Id(), FreshBits(|Outputs(tx.Id())|));
      MergeUpdate(e, back, tx.Id(), FreshBits(tx.noOfOutputs));
    }
  }

  /** Putting an old, worthless bitmap back over a fresh one loses the value of the fresh one. */
  lemma PutBackLoses(meta: Meta, e: Meta, back: Meta, id: TxId)
    requires OldOrFresh(meta, e) && id in back && id in e && e[id] == FreshBits(|Outputs(id)|) && OutputTotal(id) > 0
    requires forall i | i in back :: i in meta && back[i] == meta[i]
    requires NoCoins(meta, id)
    ensures UnspentValue(e + back) < UnspentValue(e)
  {
    hide UnspentValue, UnspentCoins;
    var e' := e[id := meta[id]];
    PutValue(e, id, meta[id]);
    FreshValue(id, []);
    assert NoCoins(meta, id);
    PutBackOld(meta, e', back);
    assert e' + back == e + back;
  }

  /** Any other transaction loses coins. */
  lemma LoudLoses(meta: Meta, init: seq<TxAux>, tx: TxAux)
    requires AllSpent(meta, tx.Inputs()) && CreationFits(tx) && !Quiet(meta, CreatedIds(init), tx)
    requires forall id | id in CreatedIds(init) :: OutputTotal(id) > 0 && NoCoins(meta, id)
    ensures InRange(meta, tx.Inputs())
    ensures var e := meta + FreshFor(CreatedIds(init));
            UnspentValue(e + PutsOf(meta, tx)) < UnspentValue(e) + Created(tx)
  {
    hide UnspentValue, CreatedIds, UnspentCoins, OutputTotal;
    SpendAgain(meta, tx.Inputs());
    var ids := CreatedIds(init);
    var e, back := meta + FreshFor(ids), SpendPuts(meta, tx.Inputs());
    assert OldOrFresh(meta, e);
    if p :| p in tx.Inputs() && p.id in ids {
      assert p.id in back;
      PutBackLoses(meta, e, back, p.id);
    } else {
      assert forall id | id in back :: id in e && e[id] == back[id];
      MergeSame(e, back);
    }
    if tx.CreatesOutputs() {
      CreateOver(meta, ids, e, back, tx);
    }
  }

  lemma CreateOver(meta: Meta, ids: set<TxId>, e: Meta, back: Meta, tx: TxAux)
    requires tx.CreatesOutputs() && CreationFits(tx) && e == meta + FreshFor(ids)
    requires forall id | id in ids :: OutputTotal(id) > 0 && NoCoins(meta, id)
    ensures UnspentValue((e + back)[tx.Id() := FreshBits(tx.noOfOutputs)]) <= UnspentValue(e + back) + Created(tx)
    ensures e + back == e && !(tx.Id() !in ids && NoCoins(meta, tx.Id())) ==>
              UnspentValue((e + back)[tx.Id() := FreshBits(tx.noOfOutputs)]) < UnspentValue(e + back) + Created(tx)
    ensures e + back[tx.Id() := FreshBits(tx.noOfOutputs)] == (e + back)[tx.Id() := FreshBits(tx.noOfOutputs)]
  {
    hide UnspentValue, UnspentCoins;
    var id := tx.Id();
    MergeUpdate(e, back, id, FreshBits(tx.noOfOutputs));
    FreshValue(id, []);
    PutValue(e + back, id, FreshBits(tx.noOfOutputs));
  }

  /** A commit creates exactly the value of the delivered outputs if and only if it loses nothing; then
      it leaves every other bitmap alone and adds one unset bitmap for each delivered id with outputs. */
  lemma {:induction false} SettleExact(meta: Meta, txs: seq<TxAux>)
    requires Delivered(meta, txs)
    ensures CommitInRange(meta, txs)
    ensures UnspentValue(Settled(meta, txs)) == UnspentValue(meta) + CreatedTotal(txs) <==> LosesNothing(meta, txs)
    ensures LosesNothing(meta, txs) ==> Settled(meta, txs) == meta + FreshFor(CreatedIds(txs))
    decreases |txs|
  {
    hide UnspentValue, LosesNothing, Quiet, OutputTotal;
    DeliveredInRange(meta, txs);
    if txs == [] {
      MergeSame(meta, CommitPuts(meta, txs));
      MergeSame(meta, FreshFor(CreatedIds(txs)));
      NothingLost(meta);
    } else {
      var init, tx := txs[..|txs| - 1], txs[|txs| - 1];
      assert txs == init + [tx];
      SettleExact(meta, init);
      SettleBound(meta, init);
      MergeAssoc(meta, CommitPuts(meta, init), PutsOf(meta, tx));
      LosesNothingPush(meta, init, tx);
      SettleStep(meta, Settled(meta, init), tx);
      if LosesNothing(meta, init) {
        if Quiet(meta, CreatedIds(init), tx) {
          QuietSettles(meta, init, tx);
        } else {
          CreatedHaveNoCoins(meta, init);
          LoudLoses(meta, init, tx);
        }
      }
    }
  }

  lemma NothingLost(meta: Meta)
    ensures LosesNothing(meta, [])
  {
  }

  lemma CreatedHaveNoCoins(meta: Meta, txs: seq<TxAux>)
    requires Delivered(meta, txs) && LosesNothing(meta, txs)
    ensures forall id | id in CreatedIds(txs) :: OutputTotal(id) > 0 && NoCoins(meta, id)
  {
    hide NoCoins, OutputTotal;
    forall id | id in CreatedIds(txs) ensures OutputTotal(id) > 0 && NoCoins(meta, id) {
      var tx :| tx in txs && tx.CreatesOutputs() && tx.Id() == id;
      var k :| 0 <= k < |txs| && txs[k] == tx;
      assert Quiet(meta, CreatedIds(txs[..k]), txs[k]);
    }
  }

  /** New ids lose nothing. */
  lemma NewIdsLoseNothing(meta: Meta, txs: seq<TxAux>)
    requires Delivered(meta, txs) && NewIds(meta, txs)
    ensures LosesNothing(meta, txs)
  {
    forall k | 0 <= k < |txs| ensures Quiet(meta, CreatedIds(txs[..k]), txs[k]) {
      assert txs[k] in txs;
      forall id | id in CreatedIds(txs[..k])
        ensures id in CreatedIds(txs) && (txs[k].CreatesOutputs() ==> txs[k].Id() != id)
      {
        var t :| t in txs[..k] && t.CreatesOutputs() && t.Id() == id;
        var i :| 0 <= i < k && txs[i] == t;
      }
    }
  }
}
