/** The history a client of a running node keeps, and interrupted synchronisation with the blocks of a
    running node. */
module ClientOnChain {
  import opened Wrappers
  import opened Transactions
  import opened Ledger
  import opened LiveOutputs
  import opened AddressIndex
  import opened ClientIndex
  import opened ClientHistory
  import opened AppHashes
  import opened BlockSync
  import opened Genesis
  import opened NodeSteps
  import opened NodeRuns
  import opened IndexOnChain
  import Crash = CrashSafety

  // ---------- History ----------

  /** A transaction of this block, as the block has it. */
  predicate FromBlock(b: Block, item: Item) {
    item.height == b.height && item.time == b.time && item.tx.Id() in Ids(BlockItems(b))
  }

  lemma BlockItemsAre(b: Block, item: Item)
    requires item in BlockItems(b)
    ensures FromBlock(b, item)
  {
    var items := BlockItems(b);
    var i :| 0 <= i < |items| && items[i] == item;
    assert Ids(items)[i] == item.tx.Id();
    hide ValidOnes;
  }

  lemma {:induction false} ItemFromBlock(chain: seq<Block>, n: nat, item: Item) returns (b: nat)
    requires n <= |chain| && item in AllItems(chain, n)
    ensures b < n && FromBlock(chain[b], item)
    decreases n
  {
    hide BlockItems, FromBlock;
    if item in BlockItems(chain[n - 1]) {
      BlockItemsAre(chain[n - 1], item);
      b := n - 1;
    } else {
      b := ItemFromBlock(chain, n - 1, item);
    }
  }

  /** An entry of a history, against the block it comes from. */
  predicate EntryOfBlock(c: TransactionChange, chain: seq<Block>, b: nat) {
    b < |chain| && c.height == b + 1 && c.time == chain[b].time && c.txid in chain[b].txids
  }

  lemma EntryServed(
    genesis: AppHash, commits: seq<CommitRecord>, w: Wallet, chain: seq<Block>, n: nat, a: ExtendedAddr,
    c: TransactionChange)
    requires Serves(genesis, commits, w, chain) && n <= |chain| && c in HistoryAt(AllItems(chain, n), a)
    ensures c.address == a && exists b | 0 <= b < n :: EntryOfBlock(c, chain, b)
  {
    hide AllItems, HistoryAt, Ids, BlockItems, ServesBlock;
    var items := AllItems(chain, n);
    var k := EntryFromItem(items, a, c);
    var b := ItemFromBlock(chain, n, items[k]);
    ServedHandled(commits[b], w, chain[b]);
    ServedPublic(commits[b], w, chain[b]);
    assert EntryOfBlock(c, chain, b);
  }

  /** The history of every address, after handling the first n blocks that a node serves: exactly what
      the handled transactions say, each entry with the height and time of the block that holds the
      transaction. */
  lemma ServedHistory(
    c: InitConfig, time: Timespec, chainHexId: nat, evs: seq<Event>, s: State, w: Wallet, chain: seq<Block>, n: nat,
    a: ExtendedAddr)
    requires Reaches(c, time, chainHexId, evs, s) && DistinctIds(s.past.committed)
    requires Serves(s.past.genesisHash, s.past.commits, w, chain) && Decrypts(chain) && n <= |chain|
    requires Naive(NewIndex(), chain, 0, n).Ok?
    ensures var history := DetailsAt(Naive(NewIndex(), chain, 0, n).value.addresses, a).history;
            && history == HistoryAt(AllItems(chain, n), a)
            && forall x | x in history :: x.address == a && exists b | 0 <= b < n :: EntryOfBlock(x, chain, b)
  {
    hide Reaches, DistinctIds, Serves, Naive, Decrypts, WellOrdered, AllItems, HandleAll, Ids, HistoryAt, EntryOfBlock;
    var items := AllItems(chain, n);
    ServedWellOrdered(c, time, chainHexId, evs, s, w, chain, n);
    NaiveHandles(chain, n);
    assert items[..|items|] == items;
    HistoryIsExact(items, |items|, a);
    forall x | x in HistoryAt(items, a)
      ensures x.address == a && exists b | 0 <= b < n :: EntryOfBlock(x, chain, b)
    {
      EntryServed(s.past.genesisHash, s.past.commits, w, chain, n, a, x);
    }
  }

  // ---------- Interruptions ----------

  /** What crash safety relies on holds of the blocks of a node, once the uninterrupted
      synchronisation succeeds. */
  lemma ServedSetting(
    c: InitConfig, time: Timespec, chainHexId: nat, evs: seq<Event>, s: State, w: Wallet, chain: seq<Block>)
    requires Reaches(c, time, chainHexId, evs, s) && DistinctIds(s.past.committed)
    requires Serves(s.past.genesisHash, s.past.commits, w, chain) && Decrypts(chain)
    requires Naive(NewIndex(), chain, 0, |chain|).Ok?
    ensures Crash.Setting(chain)
  {
    hide Reaches, DistinctIds, Naive, Decrypts, WellOrdered, Ids, AllItems, HandleAll, ServesBlock;
    ServedWellOrdered(c, time, chainHexId, evs, s, w, chain, |chain|);
    Crash.WellOrderedIsCausal(Crash.Everything(chain));
    NaiveHandles(chain, |chain|);
  }

  /** A client of a running node that can synchronise at all can be stopped anywhere and any number
      of times: no step fails, and resuming gives the exact index of everything it handles. */
  lemma CrashedClientRecovers(
    c: InitConfig, time: Timespec, chainHexId: nat, evs: seq<Event>, s: State, w: Wallet, chain: seq<Block>,
    steps: seq<Crash.Step>)
    requires Reaches(c, time, chainHexId, evs, s) && DistinctIds(s.past.committed)
    requires Serves(s.past.genesisHash, s.past.commits, w, chain) && Decrypts(chain)
    requires Naive(NewIndex(), chain, 0, |chain|).Ok?
    ensures var x := Crash.After(chain, steps).x;
            && StoreOk(x.txs) && ChainOk(chain) && InSync(x.global, chain) && x.global.height <= |chain|
            && var r := Naive(x, chain, x.global.height, |chain|);
               r.Ok? && IndexOk(r.value, Ids(AllItems(chain, |chain|))) && r.value.global == GlobalAt(chain, |chain|)
    ensures forall step: Crash.Step | step.StoreTx? || step.UpdateOne? ::
              Crash.Enabled(chain, Crash.After(chain, steps), step) ==>
                Crash.Take(chain, Crash.After(chain, steps), step).cursor.Applying?
  {
    hide Reaches, DistinctIds, Serves, Naive, Decrypts, Crash.Setting, Crash.After, Crash.Enabled, Crash.Take;
    hide StoreOk, ChainOk, InSync, IndexOk, GlobalAt, AllItems, Ids, Fits;
    ServedSetting(c, time, chainHexId, evs, s, w, chain);
    ServedByRun(c, time, chainHexId, evs, s, w, chain);
    Crash.ResumeAnywhere(chain, steps);
    BlocksIndexExact(c, time, chainHexId, evs, s, w, chain, |chain|);
    forall step: Crash.Step |
      (step.StoreTx? || step.UpdateOne?) && Crash.Enabled(chain, Crash.After(chain, steps), step)
      ensures Crash.Take(chain, Crash.After(chain, steps), step).cursor.Applying?
    {
      Crash.StepsNeverFail(chain, steps, step);
    }
  }

  /** In particular a wallet that is told of everything that spends what it sees. */
  lemma WatchingWalletRecovers(
    c: InitConfig, time: Timespec, chainHexId: nat, evs: seq<Event>, s: State, w: Wallet, chain: seq<Block>,
    steps: seq<Crash.Step>)
    requires Reaches(c, time, chainHexId, evs, s) && DistinctIds(s.past.committed)
    requires Serves(s.past.genesisHash, s.past.commits, w, chain) && Decrypts(chain)
    requires |chain| <= |s.past.batches| && Watches(w, s.past.batches, Ids(AllItems(chain, |chain|)), |chain|)
    ensures var x := Crash.After(chain, steps).x;
            x.global.height <= |chain|
            && var r := Naive(x, chain, x.global.height, |chain|);
               r.Ok? && IndexOk(r.value, Ids(AllItems(chain, |chain|))) && r.value.global == GlobalAt(chain, |chain|)
  {
    hide Reaches, DistinctIds, Serves, Naive, Decrypts, Crash.After, Crash.Enabled, Crash.Take, Watches;
    hide StoreOk, ChainOk, InSync, IndexOk, GlobalAt, AllItems, Ids;
    WatchingWalletSucceeds(c, time, chainHexId, evs, s, w, chain, |chain|);
    CrashedClientRecovers(c, time, chainHexId, evs, s, w, chain, steps);
  }
}
