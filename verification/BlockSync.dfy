/** Blocks as the client sees them, and synchronisation with the chain
    (client-index/src/handler/default_block_handler.rs, client-index/src/synchronizer.rs). */
module BlockSync {
  import opened Wrappers
  import opened Transactions
  import opened Staking
  import opened BlockFilters
  import opened AppHashes
  import opened AddressIndex
  import opened ClientIndex

  /** A block with its results. `txids` are the valid transactions. `stakingHit` and `viewKeyHit` are
      the answers of the block filter for the wallet's staking addresses and view key, and
      `decrypted` is the answer of the decryption query. */
  datatype Block = Block(
    height: nat, time: Timespec, appHash: AppHash, txids: seq<TxId>,
    unencrypted: seq<Transaction>, stakingHit: bool, viewKeyHit: bool,
    decrypted: Result<seq<Transaction>, IndexError>)

  /** The valid ones among the unencrypted transactions of the block. */
  function ValidOnes(txs: seq<Transaction>, txids: seq<TxId>): seq<Transaction> {
    if txs == [] then []
    else ValidOnes(txs[..|txs| - 1], txids) + (if txs[|txs| - 1].Id() in txids then [txs[|txs| - 1]] else [])
  }

  function ItemsOf(b: Block, txs: seq<Transaction>): (items: seq<Item>)
    ensures |items| == |txs|
  {
    seq(|txs|, i requires 0 <= i < |txs| => Item(txs[i], b.height, b.time))
  }

  function PublicItems(b: Block): seq<Item> {
    if b.stakingHit then ItemsOf(b, ValidOnes(b.unencrypted, b.txids)) else []
  }

  /** `on_next` of the block handler. */
  function OnNext(x: Index, b: Block): Result<Index, IndexError> {
    match HandleAll(x, PublicItems(b))
    case Err(e) => Err(e)
    case Ok(y) =>
      if !b.viewKeyHit then Ok(Stamped(y, b))
      else match b.decrypted
        case Err(e) => Err(e)
        case Ok(txs) =>
          match HandleAll(y, ItemsOf(b, txs))
          case Err(e) => Err(e)
          case Ok(z) => Ok(Stamped(z, b))
  }

  function Stamped(x: Index, b: Block): Index {
    x.(global := GlobalState(b.height, Some(b.appHash)))
  }

  /** Handling the blocks from height lo + 1 to height hi one after the other. */
  function Naive(x: Index, chain: seq<Block>, lo: nat, hi: nat): Result<Index, IndexError>
    requires hi <= |chain|
  {
    if hi <= lo then Ok(x)
    else match Naive(x, chain, lo, hi - 1)
      case Err(e) => Err(e)
      case Ok(y) => OnNext(y, chain[hi - 1])
  }

  /** What the chain guarantees: heights count from one, a header carries the app hash after the
      block before it, so equal hashes mean that nothing was committed in between, and the filter of
      a block without valid transactions is empty. */
  predicate ChainOk(chain: seq<Block>) {
    && (forall i | 0 <= i < |chain| :: chain[i].height == i + 1)
    && (forall i | 0 <= i < |chain| && chain[i].txids == [] :: !chain[i].viewKeyHit)
    && (forall i, j, k | 0 <= i <= k < j < |chain| && chain[i].appHash == chain[j].appHash :: chain[k].txids == [])
  }

  /** The stored state is that of a block of this chain, or of none, or lies beyond the chain. */
  predicate InSync(g: GlobalState, chain: seq<Block>) {
    if g.height == 0 then g.appHash == None
    else g.height <= |chain| ==> g.appHash == Some(chain[g.height - 1].appHash)
  }

  // ---------- Skipping empty blocks ----------

  lemma {:induction false} NoneValid(txs: seq<Transaction>)
    ensures ValidOnes(txs, []) == []
    decreases |txs|
  {
    if txs != [] { NoneValid(txs[..|txs| - 1]); }
  }

  lemma EmptyBlock(x: Index, b: Block)
    requires b.txids == [] && !b.viewKeyHit
    ensures OnNext(x, b) == Ok(Stamped(x, b))
  {
    NoneValid(b.unencrypted);
    assert HandleAll(x, []) == Ok(x);
  }

  function WithGlobal(r: Result<Index, IndexError>, g: GlobalState): Result<Index, IndexError> {
    match r case Ok(x) => Ok(x.(global := g)) case Err(e) => Err(e)
  }

  lemma {:induction false} GlobalIgnored(x: Index, g: GlobalState, items: seq<Item>)
    ensures HandleAll(x.(global := g), items) == WithGlobal(HandleAll(x, items), g)
    decreases |items|
  {
    if items != [] {
      GlobalIgnored(x, g, items[..|items| - 1]);
      var r := HandleAll(x, items[..|items| - 1]);
      if r.Ok? { GlobalIgnoredOnce(r.value, g, items[|items| - 1]); }
    }
  }

  lemma GlobalIgnoredOnce(x: Index, g: GlobalState, item: Item)
    ensures HandleTx(x.(global := g), item) == WithGlobal(HandleTx(x, item), g)
  {
    hide InputsResolve, AllApply, Updated;
  }

  lemma OnNextIgnoresGlobal(x: Index, g: GlobalState, b: Block)
    ensures OnNext(x.(global := g), b) == OnNext(x, b)
  {
    hide HandleAll, PublicItems, ItemsOf;
    GlobalIgnored(x, g, PublicItems(b));
    var r := HandleAll(x, PublicItems(b));
    if r.Ok? && b.viewKeyHit && b.decrypted.Ok? { GlobalIgnored(r.value, g, ItemsOf(b, b.decrypted.value)); }
  }

  lemma {:induction false} EmptyBlocks(x: Index, chain: seq<Block>, lo: nat, hi: nat)
    requires hi <= |chain| && lo <= hi && forall k | lo <= k < hi :: chain[k].txids == [] && !chain[k].viewKeyHit
    ensures Naive(x, chain, lo, hi) == Ok(if lo == hi then x else Stamped(x, chain[hi - 1]))
    decreases hi - lo
  {
    hide OnNext;
    if lo < hi {
      EmptyBlocks(x, chain, lo, hi - 1);
      EmptyBlock(if lo == hi - 1 then x else Stamped(x, chain[hi - 2]), chain[hi - 1]);
    }
  }

  /** Handling only the last block is as good as handling all of them when the others are empty. */
  lemma SkipTo(x: Index, chain: seq<Block>, lo: nat, hi: nat)
    requires lo < hi <= |chain| && forall k | lo <= k < hi - 1 :: chain[k].txids == [] && !chain[k].viewKeyHit
    ensures Naive(x, chain, lo, hi) == OnNext(x, chain[hi - 1])
  {
    hide OnNext;
    EmptyBlocks(x, chain, lo, hi - 1);
    if lo < hi - 1 {
      OnNextIgnoresGlobal(x, GlobalState(chain[hi - 2].height, Some(chain[hi - 2].appHash)), chain[hi - 1]);
    }
  }

  /** The fast-forward test: a header hash equal to the stored one. */
  lemma FastForward(x: Index, chain: seq<Block>, hi: nat)
    requires ChainOk(chain) && InSync(x.global, chain) && x.global.height < hi <= |chain|
    requires x.global.appHash == Some(chain[hi - 1].appHash)
    ensures Naive(x, chain, x.global.height, hi) == OnNext(x, chain[hi - 1])
  {
    var lo := x.global.height;
    forall k | lo <= k < hi - 1 ensures chain[k].txids == [] && !chain[k].viewKeyHit {
      assert chain[lo - 1].appHash == chain[hi - 1].appHash;
    }
    SkipTo(x, chain, lo, hi);
  }

  lemma {:induction false} NaiveSplit(x: Index, chain: seq<Block>, lo: nat, mid: nat, hi: nat)
    requires lo <= mid <= hi <= |chain|
    ensures Naive(x, chain, lo, hi) ==
            match Naive(x, chain, lo, mid) { case Err(e) => Err(e) case Ok(y) => Naive(y, chain, mid, hi) }
    decreases hi
  {
    hide OnNext;
    if mid < hi { NaiveSplit(x, chain, lo, mid, hi - 1); }
  }

  lemma OnNextStamps(x: Index, b: Block)
    ensures OnNext(x, b).Ok? ==> OnNext(x, b).value.global == GlobalState(b.height, Some(b.appHash))
  {
    hide HandleAll, PublicItems, ItemsOf;
  }

  lemma NaiveStamps(x: Index, chain: seq<Block>, lo: nat, hi: nat)
    requires ChainOk(chain) && lo < hi <= |chain|
    ensures Naive(x, chain, lo, hi).Ok? ==>
              Naive(x, chain, lo, hi).value.global == GlobalState(hi, Some(chain[hi - 1].appHash))
  {
    hide OnNext;
    var r := Naive(x, chain, lo, hi - 1);
    if r.Ok? { OnNextStamps(r.value, chain[hi - 1]); }
  }

  // ---------- The transactions of the blocks ----------

  /** Decryption answers when it is asked. */
  predicate Decrypts(chain: seq<Block>) {
    forall b | b in chain && b.viewKeyHit :: b.decrypted.Ok?
  }

  function BlockItems(b: Block): seq<Item> {
    PublicItems(b) + (if b.viewKeyHit && b.decrypted.Ok? then ItemsOf(b, b.decrypted.value) else [])
  }

  function AllItems(chain: seq<Block>, n: nat): seq<Item>
    requires n <= |chain|
  {
    if n == 0 then [] else AllItems(chain, n - 1) + BlockItems(chain[n - 1])
  }

  lemma {:induction false} HandleAllAppend(x: Index, a: seq<Item>, b: seq<Item>)
    ensures HandleAll(x, a + b) ==
            match HandleAll(x, a) { case Err(e) => Err(e) case Ok(y) => HandleAll(y, b) }
    decreases |b|
  {
    hide HandleTx;
    if b == [] {
      assert a + b == a;
    } else {
      assert (a + b)[..|a + b| - 1] == a + b[..|b| - 1];
      HandleAllAppend(x, a, b[..|b| - 1]);
    }
  }

  lemma OnNextHandles(x: Index, b: Block)
    requires b.viewKeyHit ==> b.decrypted.Ok?
    ensures OnNext(x, b) == WithGlobal(HandleAll(x, BlockItems(b)), GlobalState(b.height, Some(b.appHash)))
  {
    hide HandleAll, PublicItems, ItemsOf;
    if b.viewKeyHit {
      HandleAllAppend(x, PublicItems(b), ItemsOf(b, b.decrypted.value));
    } else {
      assert PublicItems(b) + [] == PublicItems(b);
    }
  }

  function GlobalAt(chain: seq<Block>, n: nat): GlobalState
    requires n <= |chain|
  {
    if n == 0 then GlobalState(0, None) else GlobalState(chain[n - 1].height, Some(chain[n - 1].appHash))
  }

  lemma {:induction false} ItemsPrefix(chain: seq<Block>, b: nat, c: nat)
    requires b <= c <= |chain|
    ensures AllItems(chain, b) <= AllItems(chain, c)
    decreases c
  {
    hide BlockItems;
    if b < c { ItemsPrefix(chain, b, c - 1); }
  }

  /** The transactions of the blocks from height lo + 1 to height hi. */
  function ItemsFrom(chain: seq<Block>, lo: nat, hi: nat): seq<Item>
    requires lo <= hi <= |chain|
  {
    ItemsPrefix(chain, lo, hi);
    AllItems(chain, hi)[|AllItems(chain, lo)|..]
  }

  lemma ItemsFromStep(chain: seq<Block>, lo: nat, hi: nat)
    requires lo < hi <= |chain|
    ensures ItemsFrom(chain, lo, hi) == ItemsFrom(chain, lo, hi - 1) + BlockItems(chain[hi - 1])
  {
    hide BlockItems;
    ItemsPrefix(chain, lo, hi - 1);
  }

  /** Handling blocks is handling their transactions in order. */
  lemma {:induction false} NaiveHandlesFrom(x: Index, chain: seq<Block>, lo: nat, hi: nat)
    requires Decrypts(chain) && lo <= hi <= |chain| && x.global == GlobalAt(chain, lo)
    ensures Naive(x, chain, lo, hi) == WithGlobal(HandleAll(x, ItemsFrom(chain, lo, hi)), GlobalAt(chain, hi))
    decreases hi - lo
  {
    hide OnNext, BlockItems, HandleAll, AllItems;
    if lo == hi {
      NothingHandled(x);
    } else {
      NaiveHandlesFrom(x, chain, lo, hi - 1);
      var items := ItemsFrom(chain, lo, hi - 1);
      ItemsFromStep(chain, lo, hi);
      HandleAllAppend(x, items, BlockItems(chain[hi - 1]));
      var r := HandleAll(x, items);
      if r.Ok? {
        assert chain[hi - 1] in chain;
        OnNextHandles(r.value.(global := GlobalAt(chain, hi - 1)), chain[hi - 1]);
        GlobalIgnored(r.value, GlobalAt(chain, hi - 1), BlockItems(chain[hi - 1]));
      }
    }
  }

  lemma NaiveHandles(chain: seq<Block>, n: nat)
    requires Decrypts(chain) && n <= |chain|
    ensures Naive(NewIndex(), chain, 0, n) == WithGlobal(HandleAll(NewIndex(), AllItems(chain, n)), GlobalAt(chain, n))
  {
    hide Naive, HandleAll, Decrypts;
    NaiveHandlesFrom(NewIndex(), chain, 0, n);
    assert ItemsFrom(chain, 0, n) == AllItems(chain, n);
  }

  lemma NothingHandled(x: Index)
    ensures HandleAll(x, []) == Ok(x)
  {
  }

  // ---------- The chain of a running node ----------

  /** What the client asks the block filter about. */
  datatype Wallet = Wallet(viewKey: nat, stakings: set<StakedStateAddress>)

  /** The hits come from the block filter, which may answer yes too often but not for an empty filter. */
  predicate Filtered(f: BlockFilter, w: Wallet, b: Block) {
    && MayAnswer(f, ViewKey(w.viewKey), b.viewKeyHit)
    && (b.stakingHit ==> f != EmptyFilter())
    && (forall a | a in w.stakings && StakedAddress(a) in f.added :: b.stakingHit)
  }

  predicate SharedWith(id: TxId, key: nat) {
    match id
    case TransferId(t) => key in t.attributes.allowedView
    case WithdrawId(t) => key in t.attributes.allowedView
    case _ => false
  }

  predicate Selection(ks: seq<nat>, n: nat) {
    && (forall i | 0 <= i < |ks| :: ks[i] < n)
    && (forall i, j | 0 <= i < j < |ks| :: ks[i] <= ks[j])
  }

  function Picked(ids: seq<TxId>, ks: seq<nat>): (r: seq<TxId>)
    requires Selection(ks, |ids|)
    ensures |r| == |ks|
  {
    seq(|ks|, i requires 0 <= i < |ks| => ids[ks[i]])
  }

  ghost predicate InOrder(part: seq<TxId>, ids: seq<TxId>) {
    exists ks | Selection(ks, |ids|) :: part == Picked(ids, ks)
  }

  function IdsOf(txs: seq<Transaction>): (ids: seq<TxId>)
    ensures |ids| == |txs|
  {
    seq(|txs|, i requires 0 <= i < |txs| => txs[i].Id())
  }

  /** The decryption query takes the ids one after the other and answers with transactions that have
      outputs, among them all that are shared with the view key. */
  ghost predicate Answers(key: nat, txids: seq<TxId>, txs: seq<Transaction>) {
    && InOrder(IdsOf(txs), txids)
    && (forall id | id in txids && SharedWith(id, key) :: id in IdsOf(txs))
  }

  /** The block data holds the deposits and unbondings in plain, valid or not. */
  predicate PublicData(txs: seq<Transaction>, txids: seq<TxId>) {
    && (forall t | t in txs :: t.DepositStakeTransaction? || t.UnbondStakeTransaction?)
    && (forall id | id in txids && !HasOutputs(id) :: id in IdsOf(txs))
  }

  ghost predicate ServesBlock(c: CommitRecord, w: Wallet, b: Block) {
    && b.txids == c.txids && Filtered(c.filter, w, b)
    && PublicData(b.unencrypted, b.txids)
    && (b.decrypted.Ok? ==> Answers(w.viewKey, b.txids, b.decrypted.value))
  }

  /** The blocks a node serves: header h carries the hash announced by the commit before it. */
  ghost predicate Serves(genesis: AppHash, commits: seq<CommitRecord>, w: Wallet, chain: seq<Block>) {
    && |chain| == |commits|
    && (forall i | 0 <= i < |chain| :: chain[i].height == i + 1 == commits[i].height)
    && (forall i | 0 <= i < |chain| :: chain[i].appHash == LatestHash(genesis, commits[..i]))
    && (forall i | 0 <= i < |chain| :: ServesBlock(commits[i], w, chain[i]))
  }

  /** An empty block announces an empty filter. */
  predicate FiltersMatch(commits: seq<CommitRecord>) {
    forall i | 0 <= i < |commits| && commits[i].txids == [] :: commits[i].filter == EmptyFilter()
  }

  lemma GenesisHashOnlyBeforeContent(genesis: AppHash, commits: seq<CommitRecord>, k: nat, j: nat)
    requires WellChained(genesis, commits) && k <= j < |commits| && commits[j].appHash == genesis
    ensures commits[k].txids == []
  {
    if commits[k].txids != [] {
      StampedSince(genesis, commits, k, j);
      StampedBefore(genesis, commits, k);
      assert false;
    }
  }

  lemma ServedBlock(genesis: AppHash, commits: seq<CommitRecord>, w: Wallet, chain: seq<Block>, i: nat)
    requires Serves(genesis, commits, w, chain) && i < |chain|
    ensures |commits| == |chain| && chain[i].txids == commits[i].txids
    ensures chain[i].appHash == if i == 0 then genesis else commits[i - 1].appHash
  {
    assert chain[i].appHash == LatestHash(genesis, commits[..i]);
    assert ServesBlock(commits[i], w, chain[i]);
  }

  lemma ServedSkip(
    genesis: AppHash, commits: seq<CommitRecord>, w: Wallet, chain: seq<Block>, i: nat, k: nat, j: nat)
    requires WellChained(genesis, commits) && Serves(genesis, commits, w, chain)
    requires i <= k < j < |chain| && chain[i].appHash == chain[j].appHash
    ensures chain[k].txids == []
  {
    hide Serves, WellChained;
    ServedBlock(genesis, commits, w, chain, i);
    ServedBlock(genesis, commits, w, chain, j);
    ServedBlock(genesis, commits, w, chain, k);
    if i == 0 {
      GenesisHashOnlyBeforeContent(genesis, commits, k, j - 1);
    } else {
      SameHashIffEmpty(genesis, commits, i - 1, j - 1);
    }
  }

  lemma ServedNoHit(genesis: AppHash, commits: seq<CommitRecord>, w: Wallet, chain: seq<Block>, i: nat)
    requires FiltersMatch(commits) && Serves(genesis, commits, w, chain) && i < |chain| && chain[i].txids == []
    ensures !chain[i].viewKeyHit
  {
    assert ServesBlock(commits[i], w, chain[i]);
  }

  /** The chain of a node meets what synchronisation relies on. */
  lemma ServedChainOk(genesis: AppHash, commits: seq<CommitRecord>, w: Wallet, chain: seq<Block>)
    requires WellChained(genesis, commits) && FiltersMatch(commits) && Serves(genesis, commits, w, chain)
    ensures ChainOk(chain)
  {
    hide WellChained, LatestHash, FiltersMatch, ServesBlock;
    forall i, j, k | 0 <= i <= k < j < |chain| && chain[i].appHash == chain[j].appHash ensures chain[k].txids == [] {
      ServedSkip(genesis, commits, w, chain, i, k, j);
    }
    forall i | 0 <= i < |chain| && chain[i].txids == [] ensures !chain[i].viewKeyHit {
      ServedNoHit(genesis, commits, w, chain, i);
    }
  }
}
