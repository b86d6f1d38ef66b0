/** Outputs by pointer: those that a list of transactions creates and does not consume. An id stands
    for its transaction, so a list of transactions is a list of ids. */
module LiveOutputs {
  import opened Wrappers
  import opened Coins
  import opened MapSums
  import opened Transactions

  type Outs = map<TxoPointer, TxOut>

  function InputsOf(id: TxId): seq<TxoPointer> {
    match id
    case TransferId(tx) => tx.inputs
    case DepositId(tx) => tx.inputs
    case _ => []
  }

  function OutputsOf(id: TxId): set<TxoPointer> {
    set i | 0 <= i < |Outputs(id)| :: TxoPointer(id, i)
  }

  function CreatedBy(ids: seq<TxId>): set<TxoPointer> {
    set id, i | id in ids && 0 <= i < |Outputs(id)| :: TxoPointer(id, i)
  }

  function ConsumedBy(ids: seq<TxId>): set<TxoPointer> {
    set id, p | id in ids && p in InputsOf(id) :: p
  }

  predicate Exists(p: TxoPointer) {
    p.index < |Outputs(p.id)|
  }

  function OutputAt(p: TxoPointer): TxOut
    requires Exists(p)
  {
    Outputs(p.id)[p.index]
  }

  lemma CreatedExists(ids: seq<TxId>, p: TxoPointer)
    ensures p in CreatedBy(ids) <==> p.id in ids && Exists(p)
  {
    assert p == TxoPointer(p.id, p.index);
  }

  /** The outputs of these transactions that none of them consumes. */
  function Live(ids: seq<TxId>): (m: Outs) {
    map p | p in CreatedBy(ids) && p !in ConsumedBy(ids) :: OutputAt(p)
  }

  predicate At(p: TxoPointer, a: ExtendedAddr) {
    Exists(p) && OutputAt(p).address == a
  }

  function LiveAt(ids: seq<TxId>, a: ExtendedAddr): Outs {
    map p | p in CreatedBy(ids) && p !in ConsumedBy(ids) && At(p, a) :: OutputAt(p)
  }

  ghost function ValuesOf(m: Outs): map<TxoPointer, nat> {
    map p | p in m :: m[p].value
  }

  ghost function Value(m: Outs): nat {
    Sum(ValuesOf(m))
  }

  lemma ValueRemove(m: Outs, p: TxoPointer)
    requires p in m
    ensures Value(m - {p}) + m[p].value == Value(m)
  {
    SumRemove(ValuesOf(m), p);
    assert ValuesOf(m - {p}) == ValuesOf(m) - {p};
  }

  lemma ValueInsert(m: Outs, p: TxoPointer, o: TxOut)
    requires p !in m
    ensures Value(m[p := o]) == Value(m) + o.value
  {
    SumInsert(ValuesOf(m), p, o.value);
    assert ValuesOf(m[p := o]) == ValuesOf(m)[p := o.value];
  }

  lemma ValueEmpty()
    ensures Value(map[]) == 0
  {
    assert ValuesOf(map[]) == map[];
  }

  /** A part of a map is worth no more than the whole. */
  lemma {:induction false} ValueOfPart(m: Outs, n: Outs)
    requires m.Keys <= n.Keys && forall p | p in m :: m[p] == n[p]
    ensures Value(m) <= Value(n)
    decreases |n|
  {
    if n.Keys <= m.Keys {
      assert m == n;
    } else {
      var p :| p in n && p !in m;
      ValueRemove(n, p);
      assert |n - {p}| < |n| by { RemoveSmaller(n, p); }
      ValueOfPart(m, n - {p});
    }
  }

  lemma RemoveSmaller<K, V>(n: map<K, V>, p: K)
    requires p in n
    ensures |n - {p}| < |n|
  {
    var r := n - {p};
    assert r.Keys == n.Keys - {p};
  }

  lemma LiveAtPart(ids: seq<TxId>, a: ExtendedAddr)
    ensures Value(LiveAt(ids, a)) <= Value(Live(ids))
  {
    ValueOfPart(LiveAt(ids, a), Live(ids));
  }

  // ---------- One more transaction ----------

  lemma CreatedPush(ids: seq<TxId>, id: TxId)
    ensures CreatedBy(ids + [id]) == CreatedBy(ids) + OutputsOf(id)
  {
    assert id in ids + [id];
  }

  lemma ConsumedPush(ids: seq<TxId>, id: TxId)
    ensures forall p :: p in ConsumedBy(ids + [id]) <==> p in ConsumedBy(ids) || p in InputsOf(id)
  {
    assert id in ids + [id];
    forall p | p in ConsumedBy(ids) || p in InputsOf(id) ensures p in ConsumedBy(ids + [id]) {
      var i :| (i in ids || i == id) && p in InputsOf(i);
      assert i in ids + [id];
    }
  }

  /** A list in which outputs are created before they are consumed, exist, and are consumed once. A
      transaction may occur more than once. */
  predicate WellOrdered(ids: seq<TxId>) {
    && (forall i | 0 <= i < |ids| :: NoDuplicates(InputsOf(ids[i])))
    && (forall i, j, p | 0 <= i < j < |ids| && ids[i] != ids[j] && p in InputsOf(ids[i]) :: p !in InputsOf(ids[j]))
    && (forall i, p | 0 <= i < |ids| && p in InputsOf(ids[i]) && p.id in ids :: Exists(p) && p.id in ids[..i])
  }

  lemma WellOrderedPrefix(ids: seq<TxId>, id: TxId)
    requires WellOrdered(ids + [id])
    ensures WellOrdered(ids)
  {
    var all := ids + [id];
    forall i | 0 <= i < |ids| ensures all[i] == ids[i] && all[..i] == ids[..i] {}
    forall i | 0 <= i < |ids| ensures NoDuplicates(InputsOf(ids[i])) { assert NoDuplicates(InputsOf(all[i])); }
    forall i, j, p | 0 <= i < j < |ids| && ids[i] != ids[j] && p in InputsOf(ids[i]) ensures p !in InputsOf(ids[j]) {
      assert all[i] == ids[i] && all[j] == ids[j];
    }
    forall i, p | 0 <= i < |ids| && p in InputsOf(ids[i]) && p.id in ids ensures Exists(p) && p.id in ids[..i] {
      assert p.id in all && all[i] == ids[i] && all[..i] == ids[..i];
    }
  }

  /** What well-orderedness says of the last transaction when it is new. */
  predicate LastNew(ids: seq<TxId>, id: TxId) {
    && id !in ids && NoDuplicates(InputsOf(id))
    && (forall p | p in InputsOf(id) :: p !in ConsumedBy(ids) && p.id != id && (p.id in ids ==> Exists(p)))
    && (forall p | p in ConsumedBy(ids) :: p.id != id)
  }

  lemma LastIsNew(ids: seq<TxId>, id: TxId)
    requires WellOrdered(ids + [id]) && id !in ids
    ensures LastNew(ids, id)
  {
    var all, n := ids + [id], |ids|;
    assert all[n] == id && all[..n] == ids;
    assert NoDuplicates(InputsOf(all[n]));
    forall p | p in InputsOf(id) ensures p.id != id && (p.id in ids ==> Exists(p)) {
      assert p.id in all ==> Exists(p) && p.id in all[..n];
    }
    forall d | d in ids
      ensures forall p | p in InputsOf(d) :: p !in InputsOf(id) && p.id != id
    {
      var i :| 0 <= i < |ids| && ids[i] == d;
      OtherInputs(ids, id, i);
    }
  }

  lemma OtherInputs(ids: seq<TxId>, id: TxId, i: nat)
    requires WellOrdered(ids + [id]) && id !in ids && i < |ids|
    ensures forall p | p in InputsOf(ids[i]) :: p !in InputsOf(id) && p.id != id
  {
    var all, n := ids + [id], |ids|;
    assert all[n] == id && all[i] == ids[i] && all[..i] == ids[..i];
    forall p | p in InputsOf(ids[i]) ensures p.id != id {
      assert p.id in all ==> p.id in all[..i];
    }
  }

  /** A new transaction takes its inputs out of the live outputs and adds its own outputs. */
  lemma LivePush(ids: seq<TxId>, id: TxId, p: TxoPointer)
    requires LastNew(ids, id)
    ensures p in Live(ids + [id]) <==> (p in Live(ids) && p !in InputsOf(id)) || p in OutputsOf(id)
  {
    CreatedPush(ids, id);
    ConsumedPush(ids, id);
  }

  lemma LiveAtPush(ids: seq<TxId>, id: TxId, a: ExtendedAddr, p: TxoPointer)
    requires LastNew(ids, id)
    ensures p in LiveAt(ids + [id], a) <==>
            (p in LiveAt(ids, a) && p !in InputsOf(id)) || (p in OutputsOf(id) && At(p, a))
  {
    CreatedPush(ids, id);
    ConsumedPush(ids, id);
  }

  lemma LiveSame(ids: seq<TxId>, id: TxId, a: ExtendedAddr)
    requires id in ids
    ensures LiveAt(ids + [id], a) == LiveAt(ids, a) && Live(ids + [id]) == Live(ids)
  {
    CreatedPush(ids, id);
    ConsumedPush(ids, id);
    assert CreatedBy(ids + [id]) == CreatedBy(ids);
    assert ConsumedBy(ids + [id]) == ConsumedBy(ids);
  }
}
