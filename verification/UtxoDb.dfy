/** The column of spent-output bitmaps (COL_TX_META) and the two steps that change it:
    `spend_utxos` (chain-abci/src/app/mod.rs) and `update_utxos_commit` (chain-abci/src/app/commit.rs). */
module UtxoDb {
  import opened Wrappers
  import opened Coins
  import opened MapSums
  import opened Transactions
  import opened Validation

  /** A stored bitmap. It is written as whole bytes, so its length is a multiple of eight. */
  type Bits = seq<bool>
  type Meta = map<TxId, Bits>

  /** The key-value store: `write_buffered` is visible to `get` but lost in a crash; `write` persists
      and replaces what was buffered under the same keys. */
  datatype Db = Db(disk: Meta, buffered: Meta) {
    function Visible(): Meta {
      disk + buffered
    }

    function WriteBuffered(puts: Meta): (db: Db)
      ensures db.Visible() == Visible() + puts && db.disk == disk
    {
      Db(disk, buffered + puts)
    }

    function Write(puts: Meta): (db: Db)
      ensures db.Visible() == Visible() + puts
    {
      Db(disk + puts, buffered - puts.Keys)
    }
  }

  /** `BitVec::from_elem(n, false).to_bytes()` read back: padded to whole bytes, all bits unset. */
  function FreshBits(n: nat): (bits: Bits)
    ensures n <= |bits| < n + 8 && |bits| % 8 == 0
    ensures forall i | 0 <= i < |bits| :: !bits[i]
  {
    seq((n + 7) / 8 * 8, _ => false)
  }

  predicate InRange(meta: Meta, inputs: seq<TxoPointer>) {
    forall p | p in inputs :: p.id in meta && p.index < |meta[p.id]|
  }

  predicate Unspent(meta: Meta, p: TxoPointer) {
    p.id in meta && p.index < |meta[p.id]| && !meta[p.id][p.index]
  }

  // ---------- Spending ----------

  function IdsOf(inputs: seq<TxoPointer>): set<TxId> {
    set p | p in inputs :: p.id
  }

  function Marked(bits: Bits, id: TxId, inputs: seq<TxoPointer>): (r: Bits)
    ensures |r| == |bits|
    ensures forall i | 0 <= i < |bits| :: r[i] <==> bits[i] || TxoPointer(id, i) in inputs
  {
    seq(|bits|, i requires 0 <= i < |bits| => bits[i] || TxoPointer(id, i) in inputs)
  }

  /** What `spend_utxos` puts: the bitmap of every transaction named, with the named bits set. */
  function SpendPuts(meta: Meta, inputs: seq<TxoPointer>): Meta
    requires InRange(meta, inputs)
  {
    map id | id in IdsOf(inputs) && id in meta :: Marked(meta[id], id, inputs)
  }

  lemma MarkedLast(bits: Bits, id: TxId, inputs: seq<TxoPointer>, p: TxoPointer)
    ensures p.id == id && p.index < |bits| ==>
              Marked(bits, id, inputs + [p]) == Marked(bits, id, inputs)[p.index := true]
    ensures p.id != id ==> Marked(bits, id, inputs + [p]) == Marked(bits, id, inputs)
    ensures id !in IdsOf(inputs) ==> Marked(bits, id, inputs) == bits
  {
  }

  lemma SpendPutsLast(meta: Meta, inputs: seq<TxoPointer>, p: TxoPointer)
    requires InRange(meta, inputs) && p.id in meta && p.index < |meta[p.id]|
    ensures InRange(meta, inputs + [p])
    ensures var puts := SpendPuts(meta, inputs);
            var bits := if p.id in puts then puts[p.id] else meta[p.id];
            p.index < |bits| && SpendPuts(meta, inputs + [p]) == puts[p.id := bits[p.index := true]]
  {
    assert IdsOf(inputs + [p]) == IdsOf(inputs) + {p.id};
    forall id | id in meta
      ensures id == p.id ==> Marked(meta[id], id, inputs + [p]) == Marked(meta[id], id, inputs)[p.index := true]
      ensures id != p.id ==> Marked(meta[id], id, inputs + [p]) == Marked(meta[id], id, inputs)
      ensures id !in IdsOf(inputs) ==> Marked(meta[id], id, inputs) == meta[id]
    {
      MarkedLast(meta[id], id, inputs, p);
    }
    hide Marked, IdsOf;
  }

  method SpendUtxos(inputs: seq<TxoPointer>, db: Db) returns (puts: Meta)
    requires InRange(db.Visible(), inputs)
    ensures puts == SpendPuts(db.Visible(), inputs)
  {
    var meta := db.Visible();
    puts := map[];
    for i := 0 to |inputs|
      invariant InRange(meta, inputs[..i])
      invariant puts == SpendPuts(meta, inputs[..i])
    {
      var p := inputs[i];
      SpendPutsLast(meta, inputs[..i], p);
      assert inputs[..i + 1] == inputs[..i] + [p];
      var bits := if p.id in puts then puts[p.id] else meta[p.id];
      puts := puts[p.id := bits[p.index := true]];
    }
    assert inputs[..|inputs|] == inputs;
  }

  function SpentLookup(meta: Meta, inputs: seq<TxoPointer>): Check<Error> {
    if inputs == [] then Fail(NoInputs) else FirstSpent(meta, inputs)
  }

  function FirstSpent(meta: Meta, inputs: seq<TxoPointer>): (r: Check<Error>)
    ensures r.Pass? <==> forall p | p in inputs :: Unspent(meta, p)
  {
    if inputs == [] then Pass
    else if assert inputs[0] in inputs; inputs[0].id !in meta || inputs[0].index >= |meta[inputs[0].id]| then
      Fail(InvalidInput)
    else if meta[inputs[0].id][inputs[0].index] then Fail(InputSpent)
    else
      assert inputs == [inputs[0]] + inputs[1..];
      FirstSpent(meta, inputs[1..])
  }

  method CheckSpentInputLookup(inputs: seq<TxoPointer>, db: Db) returns (r: Check<Error>)
    ensures r == SpentLookup(db.Visible(), inputs)
  {
    if |inputs| == 0 {
      return Fail(NoInputs);
    }
    for i := 0 to |inputs|
      invariant FirstSpent(db.Visible(), inputs) == FirstSpent(db.Visible(), inputs[i..])
    {
      var p := inputs[i];
      assert inputs[i..][1..] == inputs[i + 1..];
      if p.id !in db.Visible() {
        return Fail(InvalidInput);
      }
      var bits := db.Visible()[p.id];
      if p.index >= |bits| {
        return Fail(InvalidInput);
      }
      if bits[p.index] {
        return Fail(InputSpent);
      }
    }
    r := Pass;
  }

  // ---------- Committing ----------

  predicate CommitInRange(meta: Meta, txs: seq<TxAux>) {
    forall tx | tx in txs :: InRange(meta, tx.Inputs())
  }

  /** What committing one transaction puts: its inputs once more, then a fresh bitmap. */
  function PutsOf(meta: Meta, tx: TxAux): Meta
    requires InRange(meta, tx.Inputs())
  {
    var spent := SpendPuts(meta, tx.Inputs());
    if tx.CreatesOutputs() then spent[tx.Id() := FreshBits(tx.noOfOutputs)] else spent
  }

  function CommitPuts(meta: Meta, txs: seq<TxAux>): Meta
    requires CommitInRange(meta, txs)
  {
    if txs == [] then map[]
    else CommitPuts(meta, txs[..|txs| - 1]) + PutsOf(meta, txs[|txs| - 1])
  }

  // ---------- Value ----------

  function UnspentValues(bits: Bits, outs: seq<TxOut>): (vs: seq<nat>)
    ensures |vs| == |outs|
  {
    seq(|outs|, i requires 0 <= i < |outs| => if i < |bits| && bits[i] then 0 else outs[i].value)
  }

  function UnspentCoins(id: TxId, bits: Bits): nat {
    Total(UnspentValues(bits, Outputs(id)))
  }

  ghost function ValueMap(meta: Meta): map<TxId, nat> {
    map id | id in meta :: UnspentCoins(id, meta[id])
  }

  /** The coins held by outputs whose bit is not set. Padding bits have no output and no value. */
  ghost function UnspentValue(meta: Meta): nat {
    Sum(ValueMap(meta))
  }

  lemma ValueMapPut(meta: Meta, id: TxId, bits: Bits)
    ensures ValueMap(meta[id := bits]) == ValueMap(meta)[id := UnspentCoins(id, bits)]
  {
  }

  lemma PutValue(meta: Meta, id: TxId, bits: Bits)
    ensures UnspentValue(meta[id := bits]) ==
            UnspentValue(meta) - (if id in meta then UnspentCoins(id, meta[id]) else 0) + UnspentCoins(id, bits)
  {
    ValueMapPut(meta, id, bits);
    SumUpdate(ValueMap(meta), id, UnspentCoins(id, bits));
  }

  lemma SpendOneBit(id: TxId, bits: Bits, i: nat)
    requires i < |bits| && !bits[i] && i < |Outputs(id)|
    ensures UnspentCoins(id, bits[i := true]) + Outputs(id)[i].value == UnspentCoins(id, bits)
  {
    var vs := UnspentValues(bits, Outputs(id));
    assert UnspentValues(bits[i := true], Outputs(id)) == vs[i := 0];
    TotalUpdate(vs, i, 0);
  }

  lemma SpendOne(meta: Meta, p: TxoPointer)
    requires Unspent(meta, p) && p.index < |Outputs(p.id)|
    ensures UnspentValue(meta[p.id := meta[p.id][p.index := true]]) + PointedValue(p) == UnspentValue(meta)
  {
    SpendOneBit(p.id, meta[p.id], p.index);
    PutValue(meta, p.id, meta[p.id][p.index := true]);
  }

  /** The visible column once the puts of `spend_utxos` are in. */
  function AfterSpending(meta: Meta, inputs: seq<TxoPointer>): Meta {
    map id | id in meta :: Marked(meta[id], id, inputs)
  }

  lemma SpendPutsApplied(meta: Meta, inputs: seq<TxoPointer>)
    requires InRange(meta, inputs)
    ensures meta + SpendPuts(meta, inputs) == AfterSpending(meta, inputs)
  {
    forall id | id in meta && id !in IdsOf(inputs) ensures Marked(meta[id], id, inputs) == meta[id] {}
  }

  lemma SpendLast(meta: Meta, inputs: seq<TxoPointer>, p: TxoPointer)
    requires p.id in meta && p.index < |meta[p.id]|
    ensures var m := AfterSpending(meta, inputs);
            AfterSpending(meta, inputs + [p]) == m[p.id := m[p.id][p.index := true]]
  {
    forall id | id in meta && id != p.id
      ensures Marked(meta[id], id, inputs + [p]) == Marked(meta[id], id, inputs) {}
    assert Marked(meta[p.id], p.id, inputs + [p]) == Marked(meta[p.id], p.id, inputs)[p.index := true];
  }

  predicate Spendable(meta: Meta, inputs: seq<TxoPointer>) {
    forall p | p in inputs :: Unspent(meta, p) && p.index < |Outputs(p.id)|
  }

  lemma StillUnspent(meta: Meta, inputs: seq<TxoPointer>, p: TxoPointer)
    requires Unspent(meta, p) && p !in inputs
    ensures Unspent(AfterSpending(meta, inputs), p)
  {
    assert p == TxoPointer(p.id, p.index);
  }

  /** Spending distinct unspent outputs takes exactly their value out of the unspent total. */
  lemma {:induction false} SpendingValue(meta: Meta, inputs: seq<TxoPointer>)
    requires NoDuplicates(inputs) && Spendable(meta, inputs)
    ensures UnspentValue(AfterSpending(meta, inputs)) + InputTotal(inputs) == UnspentValue(meta)
    decreases |inputs|
  {
    if inputs == [] {
      forall id | id in meta ensures Marked(meta[id], id, inputs) == meta[id] {}
      assert AfterSpending(meta, inputs) == meta;
    } else {
      var init, p := inputs[..|inputs| - 1], inputs[|inputs| - 1];
      assert inputs == init + [p];
      SpendingValue(meta, init);
      SpendLast(meta, init, p);
      StillUnspent(meta, init, p);
      var m := AfterSpending(meta, init);
      SpendOne(m, p);
      InputTotalPush(init, p);
    }
  }

  lemma InputTotalPush(inputs: seq<TxoPointer>, p: TxoPointer)
    ensures InputTotal(inputs + [p]) == InputTotal(inputs) + PointedValue(p)
  {
    assert PointedValues(inputs + [p]) == PointedValues(inputs) + [PointedValue(p)];
    TotalPush(PointedValues(inputs), PointedValue(p));
  }

  predicate AllSpent(meta: Meta, inputs: seq<TxoPointer>) {
    forall p | p in inputs :: p.id in meta && p.index < |meta[p.id]| && meta[p.id][p.index]
  }

  /** Spending again what is already spent puts back what is stored. */
  lemma SpendAgain(meta: Meta, inputs: seq<TxoPointer>)
    requires AllSpent(meta, inputs)
    ensures InRange(meta, inputs)
    ensures AfterSpending(meta, inputs) == meta
    ensures forall id | id in SpendPuts(meta, inputs) :: id in meta && SpendPuts(meta, inputs)[id] == meta[id]
  {
    forall id | id in meta ensures Marked(meta[id], id, inputs) == meta[id] {}
  }
}
