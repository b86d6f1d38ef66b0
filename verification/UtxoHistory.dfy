/** The bitmaps against the history: which outputs the node lets a transaction consume. */
module UtxoHistory {
  import opened Wrappers
  import opened Transactions
  import opened Validation
  import opened UtxoDb
  import opened Settlement
  import opened TxVerification
  import opened Ledger

  predicate Creates(e: Entry, p: TxoPointer) {
    e.tx.CreatesOutputs() && e.tx.Id() == p.id && p.index < |Outputs(p.id)|
  }

  ghost predicate CreatedIn(es: seq<Entry>, p: TxoPointer) {
    exists e | e in es :: Creates(e, p)
  }

  ghost predicate ConsumedIn(es: seq<Entry>, p: TxoPointer) {
    exists e | e in es :: p in e.tx.Inputs()
  }

  /** The abstract set of unspent outputs: created by a committed transaction, consumed by none. */
  ghost predicate InUtxoSet(l: Ledger, p: TxoPointer) {
    CreatedIn(l.committed, p) && !ConsumedIn(l.History(), p)
  }

  /** What the byte-padded bitmap and the range check of `check_inputs` let through. */
  predicate NodeAccepts(meta: Meta, p: TxoPointer) {
    Unspent(meta, p) && p.index < |Outputs(p.id)|
  }

  ghost predicate UtxoExact(l: Ledger) {
    forall p :: NodeAccepts(l.meta, p) <==> InUtxoSet(l, p)
  }

  ghost predicate SpentOnce(es: seq<Entry>) {
    forall i, j, p | 0 <= i < j < |es| && p in es[i].tx.Inputs() :: p !in es[j].tx.Inputs()
  }

  ghost predicate CreatedBefore(es: seq<Entry>, k: nat, base: int, p: TxoPointer)
    requires k <= |es|
  {
    exists j | 0 <= j < k :: Creates(es[j], p) && es[j].base < base
  }

  /** Every input was created by an earlier transaction, of an earlier block. */
  ghost predicate CreatedEarlier(es: seq<Entry>) {
    forall k, p | 0 <= k < |es| && p in es[k].tx.Inputs() :: CreatedBefore(es, k, es[k].base, p)
  }

  ghost predicate BasesOrdered(l: Ledger) {
    && (forall e | e in l.committed :: e.base < l.height)
    && (forall e | e in l.pending :: e.base == l.height)
  }

  ghost predicate UtxoInvariant(l: Ledger) {
    && BasesOrdered(l)
    && CreatedEarlier(l.History())
    && (DistinctIds(l.History()) ==> UtxoExact(l) && SpentOnce(l.History()))
  }

  // ---------- Accepting a transaction ----------

  lemma ConsumedPush(es: seq<Entry>, e: Entry, p: TxoPointer)
    ensures ConsumedIn(es + [e], p) <==> ConsumedIn(es, p) || p in e.tx.Inputs()
  {
    assert e in es + [e];
    if ConsumedIn(es, p) {
      var c :| c in es && p in c.tx.Inputs();
      assert c in es + [e];
    }
  }

  lemma AcceptKeepsExact(l: Ledger, e: Entry)
    requires UtxoExact(l)
    ensures UtxoExact(Accepted(l, e))
  {
    var l' := Accepted(l, e);
    assert l'.History() == l.History() + [e];
    forall p ensures NodeAccepts(l'.meta, p) <==> InUtxoSet(l', p) {
      ConsumedPush(l.History(), e, p);
      assert NodeAccepts(l.meta, p) <==> InUtxoSet(l, p);
      assert p == TxoPointer(p.id, p.index);
    }
  }

  lemma AcceptKeepsSpentOnce(l: Ledger, e: Entry)
    requires UtxoExact(l) && SpentOnce(l.History()) && Spendable(l.meta, e.tx.Inputs())
    ensures SpentOnce(l.History() + [e])
  {
    var h := l.History();
    forall i, p | 0 <= i < |h| && p in h[i].tx.Inputs() ensures p !in e.tx.Inputs() {
      assert h[i] in h;
      assert ConsumedIn(h, p) && !NodeAccepts(l.meta, p);
    }
  }

  lemma InputsCreatedEarlier(l: Ledger, e: Entry, p: TxoPointer)
    requires MetaMatches(l) && BasesOrdered(l) && Acceptable(l, e) && p in e.tx.Inputs()
    ensures CreatedBefore(l.History(), |l.History()|, e.base, p)
  {
    hide Effect, CreationFits;
    var txs := TxsOf(l.committed);
    assert p.id in CreatedIds(txs);
    var tx :| tx in txs && tx.CreatesOutputs() && tx.Id() == p.id;
    var i :| 0 <= i < |txs| && txs[i] == tx;
    assert l.committed[i] in l.committed && l.History()[i] == l.committed[i];
    assert Creates(l.History()[i], p);
  }

  lemma CreatedEarlierPush(es: seq<Entry>, e: Entry)
    requires CreatedEarlier(es) && forall p | p in e.tx.Inputs() :: CreatedBefore(es, |es|, e.base, p)
    ensures CreatedEarlier(es + [e])
  {
    var all := es + [e];
    forall k, p | 0 <= k < |all| && p in all[k].tx.Inputs() ensures CreatedBefore(all, k, all[k].base, p) {
      assert CreatedBefore(es, k, all[k].base, p);
      var j :| 0 <= j < k && Creates(es[j], p) && es[j].base < all[k].base;
      assert all[j] == es[j];
    }
  }

  lemma AcceptKeepsUtxo(l: Ledger, e: Entry)
    requires MetaMatches(l) && UtxoInvariant(l) && Acceptable(l, e)
    ensures UtxoInvariant(Accepted(l, e))
  {
    var l' := Accepted(l, e);
    assert l'.History() == l.History() + [e];
    forall p | p in e.tx.Inputs() ensures CreatedBefore(l.History(), |l.History()|, e.base, p) {
      InputsCreatedEarlier(l, e, p);
    }
    CreatedEarlierPush(l.History(), e);
    DistinctPrefix(l.History(), e);
    if DistinctIds(l.History()) {
      AcceptKeepsExact(l, e);
      AcceptKeepsSpentOnce(l, e);
    }
  }

  // ---------- Closing a block ----------

  /** What has been consumed has a bitmap. */
  lemma ConsumedHasBitmap(l: Ledger, p: TxoPointer)
    requires MetaMatches(l) && BasesOrdered(l) && CreatedEarlier(l.History()) && ConsumedIn(l.History(), p)
    ensures p.id in l.meta
  {
    var h := l.History();
    var e :| e in h && p in e.tx.Inputs();
    var k :| 0 <= k < |h| && h[k] == e;
    assert CreatedBefore(h, k, h[k].base, p);
    var j :| 0 <= j < k && Creates(h[j], p) && h[j].base < h[k].base;
    forall m | |l.committed| <= m < |h| ensures h[k].base <= h[m].base {
      PendingIsLatest(l, m, k);
    }
    assert TxsOf(l.committed)[j] == h[j].tx;
    assert h[j].tx in TxsOf(l.committed);
  }

  lemma PendingIsLatest(l: Ledger, m: nat, k: nat)
    requires BasesOrdered(l) && |l.committed| <= m < |l.History()| && k < |l.History()|
    ensures l.History()[k].base <= l.History()[m].base
  {
    var h := l.History();
    assert h[k] in l.committed || h[k] in l.pending;
    assert h[m] in l.pending;
  }

  lemma CreatedInPending(l: Ledger, p: TxoPointer)
    ensures CreatedIn(l.pending, p) <==> p.id in CreatedIds(TxsOf(l.pending)) && p.index < |Outputs(p.id)|
  {
    var txs := TxsOf(l.pending);
    if p.id in CreatedIds(txs) && p.index < |Outputs(p.id)| {
      var tx :| tx in txs && tx.CreatesOutputs() && tx.Id() == p.id;
      var i :| 0 <= i < |txs| && txs[i] == tx;
      assert l.pending[i] in l.pending && Creates(l.pending[i], p);
    }
    if CreatedIn(l.pending, p) {
      var e :| e in l.pending && Creates(e, p);
      var i :| 0 <= i < |l.pending| && l.pending[i] == e;
      assert txs[i] == e.tx;
    }
  }

  lemma CreatedAppend(a: seq<Entry>, b: seq<Entry>, p: TxoPointer)
    ensures CreatedIn(a + b, p) <==> CreatedIn(a, p) || CreatedIn(b, p)
  {
    if CreatedIn(a, p) || CreatedIn(b, p) {
      var e :| (e in a || e in b) && Creates(e, p);
      assert e in a + b;
    }
  }

  lemma AcceptsFresh(meta: Meta, ids: set<TxId>, p: TxoPointer)
    requires ids !! meta.Keys
    ensures NodeAccepts(meta + FreshFor(ids), p) <==>
            NodeAccepts(meta, p) || (p.id in ids && p.index < |Outputs(p.id)|)
  {
  }

  lemma CloseKeepsExactAt(l: Ledger, height: int, p: TxoPointer)
    requires Delivered(l.meta, TxsOf(l.pending)) && NewIds(l.meta, TxsOf(l.pending))
    requires MetaMatches(l) && BasesOrdered(l) && CreatedEarlier(l.History())
    requires CommitInRange(l.meta, TxsOf(l.pending))
    requires NodeAccepts(l.meta, p) <==> InUtxoSet(l, p)
    ensures NodeAccepts(Closed(l, height).meta, p) <==> InUtxoSet(Closed(l, height), p)
  {
    hide UnspentValue, CreatedTotal, Settled, FreshFor, LosesNothing;
    var l' := Closed(l, height);
    assert l'.History() == l.History();
    var ids := CreatedIds(TxsOf(l.pending));
    NewIdsLoseNothing(l.meta, TxsOf(l.pending));
    SettleExact(l.meta, TxsOf(l.pending));
    AcceptsFresh(l.meta, ids, p);
    CreatedInPending(l, p);
    CreatedAppend(l.committed, l.pending, p);
    if ConsumedIn(l.History(), p) {
      ConsumedHasBitmap(l, p);
    }
  }

  lemma CloseKeepsUtxo(l: Ledger, height: int)
    requires Sound(l) && UtxoInvariant(l) && l.height < height
    ensures CommitInRange(l.meta, TxsOf(l.pending))
    ensures UtxoInvariant(Closed(l, height))
  {
    DeliveredInRange(l.meta, TxsOf(l.pending));
    var l' := Closed(l, height);
    assert l'.History() == l.History();
    if DistinctIds(l.History()) {
      DistinctMeansNew(l);
      forall p ensures NodeAccepts(l'.meta, p) <==> InUtxoSet(l', p) {
        CloseKeepsExactAt(l, height, p);
      }
    }
  }

  // ---------- Consequences ----------

  /** With distinct ids, no output is consumed in the block that creates it, nor before. */
  lemma NeverInItsOwnBlock(es: seq<Entry>, i: nat, k: nat, p: TxoPointer)
    requires DistinctIds(es) && CreatedEarlier(es)
    requires i < |es| && k < |es| && Creates(es[i], p) && p in es[k].tx.Inputs()
    ensures es[i].base < es[k].base
  {
    assert CreatedBefore(es, k, es[k].base, p);
    var j :| 0 <= j < k && Creates(es[j], p) && es[j].base < es[k].base;
    assert es[j].tx.Id() == es[i].tx.Id();
  }
}
