/** The live outputs of the node's history, by pointer: what exists, what was consumed, and how live
    outputs, stake and fees add up. */
module LiveSupply {
  import opened Wrappers
  import opened Coins
  import opened Transactions
  import opened Staking
  import opened Validation
  import opened UtxoDb
  import opened Settlement
  import opened TxVerification
  import opened Ledger
  import opened UtxoHistory
  import opened StakingHistory
  import opened LiveOutputs
  import opened AddressIndex
  import opened ClientIndex

  function HistoryIds(es: seq<Entry>): (ids: seq<TxId>)
    ensures |ids| == |es|
  {
    seq(|es|, i requires 0 <= i < |es| => es[i].tx.Id())
  }

  /** What the runs of the node guarantee of a history in which no id with outputs repeats. */
  ghost predicate ChainHistory(g: Accounts, es: seq<Entry>) {
    LegalHistory(g, es) && DistinctIds(es) && SpentOnce(es) && CreatedEarlier(es)
  }

  lemma EntryIdFits(g: Accounts, es: seq<Entry>, k: nat)
    requires LegalHistory(g, es) && k < |es|
    ensures IdFits(es[k].tx) && InputsOf(HistoryIds(es)[k]) == es[k].tx.Inputs()
  {
    assert EntryLegal(Replay(g, es[..k]), es[k]);
  }

  lemma InputOfEntry(g: Accounts, es: seq<Entry>, k: nat, p: TxoPointer)
    requires ChainHistory(g, es) && k < |es| && p in es[k].tx.Inputs()
    ensures Exists(p) && p.id in HistoryIds(es)[..k]
  {
    assert CreatedBefore(es, k, es[k].base, p);
    var j :| 0 <= j < k && Creates(es[j], p) && es[j].base < es[k].base;
    assert HistoryIds(es)[..k][j] == p.id;
  }

  /** Every input names an existing output of an earlier transaction, and an id occurs again only
      where it has neither inputs nor outputs. */
  predicate Grounded(ids: seq<TxId>) {
    InputsEarlier(ids) && RepeatsEmpty(ids)
  }

  predicate InputsOnce(ids: seq<TxId>) {
    && (forall i | 0 <= i < |ids| :: NoDuplicates(InputsOf(ids[i])))
    && (forall i, j, p | 0 <= i < j < |ids| && p in InputsOf(ids[i]) :: p !in InputsOf(ids[j]))
  }

  lemma HistoryDisjoint(g: Accounts, es: seq<Entry>, i: nat, j: nat, p: TxoPointer)
    requires ChainHistory(g, es) && i < j < |es| && p in InputsOf(HistoryIds(es)[i])
    ensures p !in InputsOf(HistoryIds(es)[j])
  {
    hide LegalHistory, CreatedEarlier, DistinctIds;
    EntryIdFits(g, es, i);
    EntryIdFits(g, es, j);
  }

  lemma HistoryInputsOnce(g: Accounts, es: seq<Entry>)
    requires ChainHistory(g, es)
    ensures InputsOnce(HistoryIds(es))
  {
    var ids := HistoryIds(es);
    assert LegalHistory(g, es);
    hide ChainHistory, LegalHistory;
    forall i | 0 <= i < |ids| ensures NoDuplicates(InputsOf(ids[i])) {
      EntryIdFits(g, es, i);
    }
    hide HistoryIds, InputsOf;
    forall i, j, p | 0 <= i < j < |ids| && p in InputsOf(ids[i]) ensures p !in InputsOf(ids[j]) {
      HistoryDisjoint(g, es, i, j, p);
    }
  }

  lemma RepeatHasNoOutputs(g: Accounts, es: seq<Entry>, i: nat, j: nat)
    requires ChainHistory(g, es) && i < j < |es| && es[i].tx.Id() == es[j].tx.Id()
    ensures Outputs(es[i].tx.Id()) == []
  {
    hide LegalHistory, CreatedEarlier, SpentOnce;
  }

  lemma SomeInput(id: TxId)
    ensures InputsOf(id) != [] ==> exists p :: p in InputsOf(id)
  {
    if InputsOf(id) != [] { assert InputsOf(id)[0] in InputsOf(id); }
  }

  lemma RepeatHasNoInputs(ids: seq<TxId>, i: nat, j: nat)
    requires InputsOnce(ids) && i < j < |ids| && ids[i] == ids[j]
    ensures InputsOf(ids[i]) == []
  {
    if InputsOf(ids[i]) != [] {
      SomeInput(ids[i]);
      assert false;
    }
  }

  predicate InputsEarlier(ids: seq<TxId>) {
    forall k, p | 0 <= k < |ids| && p in InputsOf(ids[k]) :: Exists(p) && p.id in ids[..k]
  }

  lemma HistoryInputsEarlier(g: Accounts, es: seq<Entry>)
    requires ChainHistory(g, es)
    ensures InputsEarlier(HistoryIds(es))
  {
    hide ChainHistory, LegalHistory, HistoryIds, InputsOf;
    var ids := HistoryIds(es);
    forall k, p | 0 <= k < |ids| && p in InputsOf(ids[k]) ensures Exists(p) && p.id in ids[..k] {
      HistoryIsLegal(g, es);
      EntryIdFits(g, es, k);
      InputOfEntry(g, es, k, p);
    }
  }

  lemma HistoryIsLegal(g: Accounts, es: seq<Entry>)
    requires ChainHistory(g, es)
    ensures LegalHistory(g, es)
  {
  }

  predicate RepeatsEmpty(ids: seq<TxId>) {
    forall i, j | 0 <= i < j < |ids| && ids[i] == ids[j] :: InputsOf(ids[i]) == [] && Outputs(ids[i]) == []
  }

  lemma HistoryRepeatsEmpty(g: Accounts, es: seq<Entry>)
    requires ChainHistory(g, es) && InputsOnce(HistoryIds(es))
    ensures RepeatsEmpty(HistoryIds(es))
  {
    hide ChainHistory, InputsOnce, InputsOf, Outputs;
    var ids := HistoryIds(es);
    forall i, j | 0 <= i < j < |ids| && ids[i] == ids[j] ensures InputsOf(ids[i]) == [] && Outputs(ids[i]) == [] {
      RepeatHasNoOutputs(g, es, i, j);
      RepeatHasNoInputs(ids, i, j);
    }
  }

  lemma HistoryGrounded(g: Accounts, es: seq<Entry>)
    requires ChainHistory(g, es)
    ensures Grounded(HistoryIds(es)) && InputsOnce(HistoryIds(es)) && WellOrdered(HistoryIds(es))
  {
    hide ChainHistory, InputsOnce, InputsEarlier, RepeatsEmpty, HistoryIds, WellOrdered;
    HistoryInputsOnce(g, es);
    HistoryInputsEarlier(g, es);
    HistoryRepeatsEmpty(g, es);
    GroundedOrdered(HistoryIds(es));
  }

  lemma GroundedOrdered(ids: seq<TxId>)
    requires Grounded(ids) && InputsOnce(ids)
    ensures WellOrdered(ids)
  {
  }

  // ---------- Conservation by pointer ----------

  lemma {:induction false} ValueWithout(m: Outs, ps: seq<TxoPointer>)
    requires NoDuplicates(ps) && forall p | p in ps :: p in m && Exists(p) && m[p] == OutputAt(p)
    ensures Value(m - Pointers(ps)) + InputTotal(ps) == Value(m)
    decreases |ps|
  {
    hide Value, InputTotal;
    if ps == [] {
      assert m - Pointers(ps) == m;
      NoInputs();
    } else {
      var init, p := ps[..|ps| - 1], ps[|ps| - 1];
      assert ps == init + [p];
      ValueWithout(m, init);
      var rest := m - Pointers(init);
      ValueRemove(rest, p);
      assert rest - {p} == m - Pointers(ps);
      InputTotalPush(init, p);
    }
  }

  lemma NoInputs()
    ensures InputTotal([]) == 0
  {
  }

  lemma FreshPush(m: Outs, init: seq<TxoPointer>, p: TxoPointer)
    requires Exists(p)
    ensures (m + Fresh(init))[p := OutputAt(p)] == m + Fresh(init + [p])
  {
  }

  lemma {:induction false} ValueWith(m: Outs, ps: seq<TxoPointer>)
    requires NoDuplicates(ps) && forall p | p in ps :: p !in m && Exists(p)
    ensures Value(m + Fresh(ps)) == Value(m) + InputTotal(ps)
    decreases |ps|
  {
    hide Value, InputTotal;
    if ps == [] {
      assert m + Fresh(ps) == m;
      NoInputs();
    } else {
      var init, p := ps[..|ps| - 1], ps[|ps| - 1];
      assert ps == init + [p];
      ValueWith(m, init);
      ValueInsert(m + Fresh(init), p, OutputAt(p));
      FreshPush(m, init, p);
      InputTotalPush(init, p);
    }
  }

  function Own(id: TxId): (ps: seq<TxoPointer>)
    ensures NoDuplicates(ps) && forall p :: p in ps <==> p.id == id && Exists(p)
  {
    var ps := seq(|Outputs(id)|, i requires 0 <= i < |Outputs(id)| => TxoPointer(id, i));
    assert forall p: TxoPointer | p.id == id && Exists(p) :: p == ps[p.index];
    ps
  }

  lemma OwnTotal(id: TxId)
    ensures InputTotal(Own(id)) == OutputTotal(id)
  {
    assert PointedValues(Own(id)) == Values(Outputs(id));
  }

  lemma LiveNext(ids: seq<TxId>, id: TxId)
    requires LastNew(ids, id)
    ensures Live(ids + [id]) == Live(ids) - Pointers(InputsOf(id)) + Fresh(Own(id))
  {
    var m := Live(ids) - Pointers(InputsOf(id)) + Fresh(Own(id));
    forall p ensures p in Live(ids + [id]) <==> p in m {
      LivePush(ids, id, p);
      assert p in OutputsOf(id) <==> p.id == id && Exists(p) by { assert p == TxoPointer(p.id, p.index); }
    }
    hide CreatedBy, ConsumedBy, Own, LastNew;
  }

  /** A new transaction changes the value of the live outputs by its outputs less its inputs. */
  lemma LiveValueStep(ids: seq<TxId>, id: TxId)
    requires LastNew(ids, id) && forall p | p in InputsOf(id) :: p.id in ids && Exists(p)
    ensures Value(Live(ids + [id])) + InputTotal(InputsOf(id)) == Value(Live(ids)) + OutputTotal(id)
  {
    LiveNext(ids, id);
    OwnTotal(id);
    forall p | p in InputsOf(id) ensures p in Live(ids) && Live(ids)[p] == OutputAt(p) {
      CreatedExists(ids, p);
    }
    forall p | p in Own(id) ensures p !in Live(ids) {
      CreatedExists(ids, p);
    }
    hide Value, InputTotal, OutputTotal, Live, Own, LastNew;
    ValueWithout(Live(ids), InputsOf(id));
    ValueWith(Live(ids) - Pointers(InputsOf(id)), Own(id));
  }

  ghost function LiveSupply(g: Accounts, es: seq<Entry>): nat {
    Value(Live(HistoryIds(es))) + StakeTotal(Replay(g, es)) + Fees(es)
  }

  lemma CreatedIsOutputs(tx: TxAux)
    requires tx.WithdrawUnbondedStakeTx? || tx.TransferTx? || Outputs(tx.Id()) == []
    ensures Created(tx) == OutputTotal(tx.Id())
  {
  }

  lemma StakeStep(accounts: Accounts, e: Entry)
    requires EntryLegal(accounts, e)
    ensures StakeTotal(PutAccount(accounts, e.account)) + OutputTotal(e.tx.Id()) + e.fee
            == StakeTotal(accounts) + InputTotal(e.tx.Inputs())
    ensures InputsOf(e.tx.Id()) == e.tx.Inputs()
  {
    EffectBalances(accounts, e);
    CreatedIsOutputs(e.tx);
    hide StakeTotal, InputTotal, OutputTotal, Created, Effect;
    if e.account.Some? { PutStake(accounts, e.account.value); }
  }

  lemma GroundedStep(ids: seq<TxId>, k: nat)
    requires Grounded(ids) && WellOrdered(ids) && k < |ids| && ids[k] !in ids[..k]
    ensures LastNew(ids[..k], ids[k])
    ensures forall p | p in InputsOf(ids[k]) :: p.id in ids[..k] && Exists(p)
  {
    hide WellOrdered, LastNew;
    assert ids[..k + 1] == ids[..k] + [ids[k]];
    WellOrderedTake(ids, k + 1);
    LastIsNew(ids[..k], ids[k]);
  }

  lemma RepeatIsEmpty(ids: seq<TxId>, k: nat)
    requires Grounded(ids) && k < |ids| && ids[k] in ids[..k]
    ensures InputTotal(InputsOf(ids[k])) == 0 && OutputTotal(ids[k]) == 0
  {
    var i :| 0 <= i < k && ids[i] == ids[k];
    NoInputs();
    assert Values([]) == [];
  }

  lemma GroundedValueStep(ids: seq<TxId>, k: nat)
    requires Grounded(ids) && WellOrdered(ids) && k < |ids|
    ensures Value(Live(ids[..k + 1])) + InputTotal(InputsOf(ids[k])) == Value(Live(ids[..k])) + OutputTotal(ids[k])
  {
    hide Grounded, WellOrdered, LastNew, Value, Live, InputTotal, OutputTotal;
    assert ids[..k + 1] == ids[..k] + [ids[k]];
    if ids[k] in ids[..k] {
      LiveSame(ids[..k], ids[k], OrTree(0));
      RepeatIsEmpty(ids, k);
    } else {
      GroundedStep(ids, k);
      LiveValueStep(ids[..k], ids[k]);
    }
  }

  lemma FeesStep(es: seq<Entry>, k: nat)
    requires k < |es|
    ensures Fees(es[..k + 1]) == Fees(es[..k]) + es[k].fee
    ensures HistoryIds(es[..k]) == HistoryIds(es)[..k] && HistoryIds(es[..k + 1]) == HistoryIds(es)[..k + 1]
  {
    assert es[..k + 1][..k] == es[..k];
  }

  lemma LegalAt(g: Accounts, es: seq<Entry>, k: nat)
    requires LegalHistory(g, es) && k < |es|
    ensures EntryLegal(Replay(g, es[..k]), es[k])
  {
  }

  lemma LiveSupplyStep(g: Accounts, es: seq<Entry>, k: nat)
    requires LegalHistory(g, es) && Grounded(HistoryIds(es)) && WellOrdered(HistoryIds(es)) && k < |es|
    ensures LiveSupply(g, es[..k + 1]) == LiveSupply(g, es[..k])
  {
    hide LegalHistory, Grounded, WellOrdered, EntryLegal, Value, StakeTotal, InputTotal, OutputTotal;
    hide Replay, Fees, Live;
    LegalAt(g, es, k);
    GroundedValueStep(HistoryIds(es), k);
    StakeStep(Replay(g, es[..k]), es[k]);
    ReplayStep(g, es, k);
    FeesStep(es, k);
  }

  /** Live outputs, stake and fees add up to the genesis stake at every point of the history. */
  lemma {:induction false} LiveSupplyConserved(g: Accounts, es: seq<Entry>, k: nat)
    requires LegalHistory(g, es) && Grounded(HistoryIds(es)) && WellOrdered(HistoryIds(es)) && k <= |es|
    ensures LiveSupply(g, es[..k]) == StakeTotal(g)
    decreases k
  {
    if k == 0 {
      assert es[..0] == [] && Live([]) == map[];
      ValueEmpty();
    } else {
      LiveSupplyConserved(g, es, k - 1);
      hide LiveSupply, LegalHistory, Grounded, WellOrdered;
      LiveSupplyStep(g, es, k - 1);
    }
  }

  lemma LiveWithin(g: Accounts, es: seq<Entry>, m: nat)
    requires LegalHistory(g, es) && Grounded(HistoryIds(es)) && WellOrdered(HistoryIds(es)) && m <= |es|
    ensures Value(Live(HistoryIds(es)[..m])) <= StakeTotal(g)
  {
    assert HistoryIds(es[..m]) == HistoryIds(es)[..m];
    hide LegalHistory, Grounded, WellOrdered, Value, StakeTotal, Live, Replay, Fees, HistoryIds;
    LiveSupplyConserved(g, es, m);
  }
}
