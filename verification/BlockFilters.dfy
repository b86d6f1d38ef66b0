/** The filter of a block (chain-tx-filter/src/lib.rs): a Bloom filter of view keys and staking
    addresses, known by what was added to it. */
module BlockFilters {
  import opened Wrappers
  import opened Transactions
  import opened Staking

  datatype FilterInput = ViewKey(key: nat) | StakedAddress(address: StakedStateAddress)

  datatype BlockFilter = BlockFilter(added: set<FilterInput>)

  function EmptyFilter(): BlockFilter {
    BlockFilter({})
  }

  /** What a Bloom filter may answer: always yes for what was added, always no when nothing was. */
  predicate MayAnswer(f: BlockFilter, x: FilterInput, hit: bool) {
    (x in f.added ==> hit) && (hit ==> f != EmptyFilter())
  }

  /** The view keys that a transaction with outputs is shared with, as far as its payload decodes. */
  function ViewsOf(tx: TxAux): set<FilterInput> {
    match tx
    case TransferTx(_, _, _, PlainTransfer(t, _)) => set k | k in t.attributes.allowedView :: ViewKey(k)
    case WithdrawUnbondedStakeTx(_, _, _, PlainWithdraw(t)) => set k | k in t.attributes.allowedView :: ViewKey(k)
    case _ => {}
  }

  /** `deliver_tx` adds the address of an updated account. */
  function AddAccount(f: BlockFilter, account: Option<StakedState>): BlockFilter {
    match account
    case None => f
    case Some(a) => BlockFilter(f.added + {StakedAddress(a.address)})
  }

  /** `end_block` adds the view keys of every delivered transaction. */
  function AddViews(f: BlockFilter, txs: seq<TxAux>): BlockFilter {
    if txs == [] then f
    else BlockFilter(AddViews(f, txs[..|txs| - 1]).added + ViewsOf(txs[|txs| - 1]))
  }

  method CollectViews(f: BlockFilter, txs: seq<TxAux>) returns (r: BlockFilter)
    ensures r == AddViews(f, txs)
  {
    r := f;
    for i := 0 to |txs|
      invariant r == AddViews(f, txs[..i])
    {
      assert txs[..i + 1][..i] == txs[..i];
      r := BlockFilter(r.added + ViewsOf(txs[i]));
    }
    assert txs[..|txs|] == txs;
  }

  lemma {:induction false} AddedViews(f: BlockFilter, txs: seq<TxAux>, x: FilterInput)
    ensures x in AddViews(f, txs).added <==> x in f.added || exists tx | tx in txs :: x in ViewsOf(tx)
    decreases |txs|
  {
    if txs != [] {
      var init, tx := txs[..|txs| - 1], txs[|txs| - 1];
      AddedViews(f, init, x);
      assert tx in txs;
      assert txs == init + [tx];
      forall t | t in init ensures t in txs {}
    }
  }
}
