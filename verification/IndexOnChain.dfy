/** The client's index against the node's history: what a client meets that handles the blocks a node
    serves, and when its balances stay within the supply. */
module IndexOnChain {
  import opened Wrappers
  import opened Coins
  import opened Transactions
  import opened Staking
  import opened Validation
  import opened UtxoDb
  import opened Settlement
  import opened TxVerification
  import opened Ledger
  import opened UtxoHistory
  import opened StakingHistory
  import opened LiveOutputs
  import opened LiveSupply
  import opened AddressIndex
  import opened ClientIndex
  import opened BlockSync
  import opened Genesis
  import opened BlockFilters
  import opened AppHashes
  import opened NodeSteps
  import opened NodeInvariant
  import opened NodeRuns

  // ---------- Lists of blocks ----------

  function Concat(hs: seq<seq<TxId>>): seq<TxId> {
    if hs == [] then [] else Concat(hs[..|hs| - 1]) + hs[|hs| - 1]
  }

  lemma {:induction false} InConcat(hs: seq<seq<TxId>>, id: TxId) returns (b: nat)
    requires id in Concat(hs)
    ensures b < |hs| && id in hs[b]
    decreases |hs|
  {
    var init, last := hs[..|hs| - 1], hs[|hs| - 1];
    if id in last { b := |hs| - 1; } else { b := InConcat(init, id); }
  }

  lemma {:induction false} ConcatHas(hs: seq<seq<TxId>>, b: nat, id: TxId)
    requires b < |hs| && id in hs[b]
    ensures id in Concat(hs)
    decreases |hs|
  {
    if b < |hs| - 1 { ConcatHas(hs[..|hs| - 1], b, id); }
  }

  lemma {:induction false} ConcatTake(hs: seq<seq<TxId>>, b: nat, n: nat)
    requires b < |hs| && n <= |hs[b]|
    ensures |Concat(hs[..b])| + n <= |Concat(hs)|
    ensures Concat(hs)[..|Concat(hs[..b])| + n] == Concat(hs[..b]) + hs[b][..n]
    decreases |hs|
  {
    var init := hs[..|hs| - 1];
    if b < |hs| - 1 {
      ConcatTake(init, b, n);
      assert init[..b] == hs[..b];
    }
  }

  /** Every position in a list of blocks lies in one of them. */
  lemma {:induction false} PrefixOfConcat(hs: seq<seq<TxId>>, m: nat) returns (b: nat, n: nat)
    requires 0 < m <= |Concat(hs)|
    ensures b < |hs| && n <= |hs[b]| && Concat(hs)[..m] == Concat(hs[..b]) + hs[b][..n]
    decreases |hs|
  {
    var init := hs[..|hs| - 1];
    if m <= |Concat(init)| {
      b, n := PrefixOfConcat(init, m);
      assert init[..b] == hs[..b];
      assert Concat(hs)[..m] == Concat(init)[..m];
    } else {
      b, n := |hs| - 1, m - |Concat(init)|;
    }
  }

  /** What holds of the blocks of a node: the inputs of a transaction are outputs of earlier blocks
      and are consumed once, and an id with inputs or outputs does not occur again. */
  ghost predicate GroundedBlocks(bs: seq<seq<TxId>>) {
    && Grounded(Concat(bs)) && InputsOnce(Concat(bs))
    && (forall b, id, p | 0 <= b < |bs| && id in bs[b] && p in InputsOf(id) :: EarlierBlock(bs, b, p))
    && (forall a, b, id | 0 <= a < b < |bs| && id in bs[a] && id in bs[b] :: Outputs(id) == [])
  }

  ghost predicate EarlierBlock(bs: seq<seq<TxId>>, b: nat, p: TxoPointer)
    requires b <= |bs|
  {
    Exists(p) && exists a | 0 <= a < b :: p.id in bs[a]
  }

  /** What a client handles of these blocks: of each block some transactions, in any order. */
  predicate Within(hs: seq<seq<TxId>>, bs: seq<seq<TxId>>) {
    |hs| <= |bs| && forall b, id | 0 <= b < |hs| && id in hs[b] :: id in bs[b]
  }

  lemma WithinConcat(hs: seq<seq<TxId>>, bs: seq<seq<TxId>>, id: TxId)
    requires Within(hs, bs) && id in Concat(hs)
    ensures id in Concat(bs[..|hs|])
  {
    var b := InConcat(hs, id);
    ConcatHas(bs[..|hs|], b, id);
  }

  lemma ConcatPrefix(bs: seq<seq<TxId>>, n: nat, id: TxId)
    requires n <= |bs| && id in Concat(bs[..n])
    ensures id in Concat(bs)
  {
    var b := InConcat(bs[..n], id);
    ConcatHas(bs, b, id);
  }

  lemma DistinctInputs(ids: seq<TxId>, i: TxId, j: TxId, p: TxoPointer)
    requires InputsOnce(ids) && i in ids && j in ids && i != j && p in InputsOf(i)
    ensures p !in InputsOf(j)
  {
    hide InputsOf;
    var k :| 0 <= k < |ids| && ids[k] == i;
    var m :| 0 <= m < |ids| && ids[m] == j;
  }

  lemma WithinAll(hs: seq<seq<TxId>>, bs: seq<seq<TxId>>, id: TxId)
    requires Within(hs, bs) && id in Concat(hs)
    ensures id in Concat(bs)
  {
    WithinConcat(hs, bs, id);
    ConcatPrefix(bs, |hs|, id);
  }

  lemma BlocksInputsOnce(bs: seq<seq<TxId>>)
    requires GroundedBlocks(bs)
    ensures InputsOnce(Concat(bs))
  {
  }

  lemma WithinDistinct(hs: seq<seq<TxId>>, bs: seq<seq<TxId>>, i: TxId, j: TxId, p: TxoPointer)
    requires GroundedBlocks(bs) && Within(hs, bs) && i in Concat(hs) && j in Concat(hs) && i != j
    requires p in InputsOf(i)
    ensures p !in InputsOf(j)
  {
    hide GroundedBlocks, InputsOnce, InputsOf, Concat, Within;
    BlocksInputsOnce(bs);
    WithinAll(hs, bs, i);
    WithinAll(hs, bs, j);
    DistinctInputs(Concat(bs), i, j, p);
  }

  /** Appending transactions that consume only outputs of what came before. */
  lemma WellOrderedAppend(a: seq<TxId>, h: seq<TxId>)
    requires WellOrdered(a) && forall i | 0 <= i < |h| :: NoDuplicates(InputsOf(h[i]))
    requires forall i, j, p | i in a + h && j in a + h && i != j && p in InputsOf(i) :: p !in InputsOf(j)
    requires forall i, p | i in h && p in InputsOf(i) && p.id in a + h :: Exists(p) && p.id in a
    requires forall i, p | i in a && p in InputsOf(i) :: p.id !in h
    ensures WellOrdered(a + h)
  {
    hide InputsOf;
    var all := a + h;
    forall i | 0 <= i < |all| ensures NoDuplicates(InputsOf(all[i])) {
      assert all[i] == if i < |a| then a[i] else h[i - |a|];
    }
    forall i, p | 0 <= i < |all| && p in InputsOf(all[i]) && p.id in all ensures Exists(p) && p.id in all[..i] {
      AppendedInput(a, h, i, p);
    }
    forall i, j, p | 0 <= i < j < |all| && all[i] != all[j] && p in InputsOf(all[i]) ensures p !in InputsOf(all[j]) {
      assert all[i] in all && all[j] in all;
    }
  }

  lemma AppendedInput(a: seq<TxId>, h: seq<TxId>, i: nat, p: TxoPointer)
    requires WellOrdered(a) && i < |a + h| && p in InputsOf((a + h)[i]) && p.id in a + h
    requires forall i, p | i in h && p in InputsOf(i) && p.id in a + h :: Exists(p) && p.id in a
    requires forall i, p | i in a && p in InputsOf(i) :: p.id !in h
    ensures Exists(p) && p.id in (a + h)[..i]
  {
    hide InputsOf;
    var all := a + h;
    if i < |a| {
      assert a[i] in a && all[..i] == a[..i] && p.id in a;
    } else {
      assert h[i - |a|] in h && p.id in a;
      assert a <= all[..i];
    }
  }

  lemma InputBefore(hs: seq<seq<TxId>>, bs: seq<seq<TxId>>, b: nat, id: TxId, p: TxoPointer)
    requires GroundedBlocks(bs) && Within(hs, bs) && b < |hs| && id in hs[b] && p in InputsOf(id)
    ensures Exists(p) && p.id !in hs[b] && (forall c | b <= c < |hs| :: p.id !in hs[c])
    ensures p.id in Concat(hs) ==> p.id in Concat(hs[..b])
  {
    assert EarlierBlock(bs, b, p);
    var a :| 0 <= a < b && p.id in bs[a];
    if p.id in Concat(hs) {
      var c := InConcat(hs, p.id);
      ConcatHas(hs[..b], c, p.id);
    }
  }

  lemma ConcatStep(hs: seq<seq<TxId>>)
    requires hs != []
    ensures Concat(hs) == Concat(hs[..|hs| - 1]) + hs[|hs| - 1]
  {
  }

  /** Whatever a client handles of the blocks of a node, in the order of the blocks and in any order
      within a block, is well ordered. */
  lemma {:induction false} BlocksWellOrdered(hs: seq<seq<TxId>>, bs: seq<seq<TxId>>)
    requires GroundedBlocks(bs) && Within(hs, bs)
    ensures WellOrdered(Concat(hs))
    decreases |hs|
  {
    if hs != [] {
      var n := |hs| - 1;
      var a, h := Concat(hs[..n]), hs[n];
      BlocksWellOrdered(hs[..n], bs);
      ConcatStep(hs);
      hide GroundedBlocks, WellOrdered, InputsOf, Concat;
      forall i | 0 <= i < |h| ensures NoDuplicates(InputsOf(h[i])) { HandledNoDuplicates(hs, bs, n, h[i]); }
      forall i, j, p | i in a + h && j in a + h && i != j && p in InputsOf(i) ensures p !in InputsOf(j) {
        WithinDistinct(hs, bs, i, j, p);
      }
      forall i, p | i in h && p in InputsOf(i) && p.id in a + h ensures Exists(p) && p.id in a {
        InputBefore(hs, bs, n, i, p);
      }
      forall i, p | i in a && p in InputsOf(i) ensures p.id !in h {
        var b := InConcat(hs[..n], i);
        InputBefore(hs, bs, b, i, p);
      }
      WellOrderedAppend(a, h);
    }
  }

  lemma HandledNoDuplicates(hs: seq<seq<TxId>>, bs: seq<seq<TxId>>, b: nat, id: TxId)
    requires GroundedBlocks(bs) && Within(hs, bs) && b < |hs| && id in hs[b]
    ensures NoDuplicates(InputsOf(id))
  {
    ConcatHas(bs, b, id);
    var all := Concat(bs);
    var k :| 0 <= k < |all| && all[k] == id;
  }

  // ---------- Clients that follow their outputs ----------

  /** Whatever consumes an output of a handled transaction is handled too. */
  ghost predicate Follows(hs: seq<seq<TxId>>, bs: seq<seq<TxId>>)
    requires |hs| <= |bs|
  {
    forall b, id, p | 0 <= b < |hs| && id in bs[b] && p in InputsOf(id) && p.id in Concat(hs) :: id in hs[b]
  }

  /** If all that has outputs in one list occurs in another, which spends nothing more of the first,
      then the live outputs of the first are live in the second. */
  lemma LivePart(a: seq<TxId>, b: seq<TxId>)
    requires forall id | id in a && Outputs(id) != [] :: id in b
    requires forall id, p | id in b && p in InputsOf(id) && p.id in a && Exists(p) :: id in a
    ensures Value(Live(a)) <= Value(Live(b))
  {
    forall p | p in Live(a) ensures p in Live(b) && Live(a)[p] == Live(b)[p] {
      CreatedExists(a, p);
      CreatedExists(b, p);
    }
    hide Value, Live;
    ValueOfPart(Live(a), Live(b));
  }

  /** A block handled the way the block handler does: first transactions without outputs, then some
      of the transactions in their order in the block. */
  ghost predicate Handled(h: seq<TxId>, txids: seq<TxId>, ks: seq<nat>) {
    && Selection(ks, |txids|) && |ks| <= |h|
    && h[|h| - |ks|..] == Picked(txids, ks)
    && (forall i | 0 <= i < |h| - |ks| :: Outputs(h[i]) == [])
  }

  /** How far into the block the handler has come after n transactions. */
  function Reached(h: seq<TxId>, ks: seq<nat>, n: nat): nat
    requires |ks| <= |h| && n <= |h|
  {
    if n <= |h| - |ks| then 0 else ks[n - 1 - (|h| - |ks|)] + 1
  }

  lemma HandledReached(h: seq<TxId>, txids: seq<TxId>, ks: seq<nat>, n: nat)
    requires Handled(h, txids, ks) && n <= |h|
    ensures |ks| <= |h| && Reached(h, ks, n) <= |txids|
    ensures forall id | id in h[..n] && Outputs(id) != [] :: id in txids[..Reached(h, ks, n)]
  {
    var m, off := Reached(h, ks, n), |h| - |ks|;
    forall id | id in h[..n] && Outputs(id) != [] ensures id in txids[..m] {
      var i :| 0 <= i < n && h[i] == id;
      assert i >= off;
      assert h[off..][i - off] == id;
      assert txids[..m][ks[i - off]] == id;
    }
  }

  lemma ReachedHandled(h: seq<TxId>, txids: seq<TxId>, ks: seq<nat>, n: nat, q: nat)
    requires Handled(h, txids, ks) && n <= |h| && q < Reached(h, ks, n) <= |txids| && txids[q] in h
    requires forall k | 0 <= k < |txids| && txids[k] == txids[q] :: k == q
    ensures txids[q] in h[..n]
  {
    var off, id := |h| - |ks|, txids[q];
    var i :| 0 <= i < |h| && h[i] == id;
    if i < off {
      assert h[..n][i] == id;
    } else {
      assert h[off..][i - off] == id;
      assert ks[i - off] == q;
      var last := n - 1 - off;
      if i < n {
        assert h[..n][i] == id;
      } else {
        assert ks[last] == q;
        assert h[off..][last] == id;
        assert h[..n][n - 1] == id;
      }
    }
  }

  lemma OnceInBlock(bs: seq<seq<TxId>>, b: nat, q: nat, k: nat)
    requires GroundedBlocks(bs) && b < |bs| && q < |bs[b]| && k < |bs[b]| && bs[b][q] == bs[b][k]
    requires InputsOf(bs[b][q]) != []
    ensures q == k
  {
    var all, off := Concat(bs), |Concat(bs[..b])|;
    ConcatTake(bs, b, |bs[b]|);
    assert all[off + q] == bs[b][q] && all[off + k] == bs[b][k];
  }

  /** The live outputs of a client in the middle of a block, against those of the node somewhere in
      that block. */
  lemma HandledWorth(hs: seq<seq<TxId>>, bs: seq<seq<TxId>>, b: nat, ks: seq<nat>, n: nat)
    requires GroundedBlocks(bs) && Within(hs, bs) && Follows(hs, bs)
    requires b < |hs| && Handled(hs[b], bs[b], ks) && n <= |hs[b]|
    ensures Reached(hs[b], ks, n) <= |bs[b]|
    ensures Value(Live(Concat(hs[..b]) + hs[b][..n])) <= Value(Live(Concat(bs[..b]) + bs[b][..Reached(hs[b], ks, n)]))
  {
    HandledReached(hs[b], bs[b], ks, n);
    var m := Reached(hs[b], ks, n);
    var a, c := Concat(hs[..b]) + hs[b][..n], Concat(bs[..b]) + bs[b][..m];
    hide Value, Live, Handled, Reached, InputsOf, Outputs;
    forall id | id in a && Outputs(id) != [] ensures id in c {
      if id in Concat(hs[..b]) {
        assert bs[..b] == bs[..|hs[..b]|];
        WithinConcat(hs[..b], bs, id);
      }
    }
    forall id, p | id in c && p in InputsOf(id) && p.id in a && Exists(p) ensures id in a {
      HandledToo(hs, bs, b, ks, n, id, p);
    }
    LivePart(a, c);
  }

  lemma PrefixHas(hs: seq<seq<TxId>>, b: nat, n: nat, id: TxId)
    requires b < |hs| && n <= |hs[b]| && id in Concat(hs[..b]) + hs[b][..n]
    ensures id in Concat(hs)
  {
    if id in Concat(hs[..b]) { ConcatPrefix(hs, b, id); } else { ConcatHas(hs, b, id); }
  }

  lemma HandledToo(
    hs: seq<seq<TxId>>, bs: seq<seq<TxId>>, b: nat, ks: seq<nat>, n: nat, id: TxId, p: TxoPointer)
    requires GroundedBlocks(bs) && Within(hs, bs) && Follows(hs, bs)
    requires b < |hs| && Handled(hs[b], bs[b], ks) && n <= |hs[b]| && Reached(hs[b], ks, n) <= |bs[b]|
    requires id in Concat(bs[..b]) + bs[b][..Reached(hs[b], ks, n)] && p in InputsOf(id)
    requires p.id in Concat(hs[..b]) + hs[b][..n]
    ensures id in Concat(hs[..b]) + hs[b][..n]
  {
    var m := Reached(hs[b], ks, n);
    hide GroundedBlocks, Handled, Reached, InputsOf;
    PrefixHas(hs, b, n, p.id);
    if id in Concat(bs[..b]) {
      var d := InConcat(bs[..b], id);
      assert id in hs[d];
      ConcatHas(hs[..b], d, id);
    } else {
      var q :| 0 <= q < m && bs[b][q] == id;
      assert id in hs[b];
      forall k | 0 <= k < |bs[b]| && bs[b][k] == bs[b][q] ensures k == q { OnceInBlock(bs, b, q, k); }
      ReachedHandled(hs[b], bs[b], ks, n, q);
    }
  }

  /** Live outputs of a client that follows its outputs are never worth more than those of the node
      at some point. */
  lemma PrefixWorth(hs: seq<seq<TxId>>, bs: seq<seq<TxId>>, kss: seq<seq<nat>>, m: nat) returns (k: nat)
    requires GroundedBlocks(bs) && Within(hs, bs) && Follows(hs, bs)
    requires |kss| == |hs| && (forall b | 0 <= b < |hs| :: Handled(hs[b], bs[b], kss[b])) && 0 < m <= |Concat(hs)|
    ensures k <= |Concat(bs)| && Value(Live(Concat(hs)[..m])) <= Value(Live(Concat(bs)[..k]))
  {
    hide GroundedBlocks, Follows, Handled, Value, Live, Concat, Reached;
    var b, n := PrefixOfConcat(hs, m);
    HandledReached(hs[b], bs[b], kss[b], n);
    var r := Reached(hs[b], kss[b], n);
    HandledWorth(hs, bs, b, kss[b], n);
    ConcatTake(bs, b, r);
    k := |Concat(bs[..b])| + r;
  }

  /** The balances of a client that follows its outputs never pass what the node's history holds. */
  lemma PrefixFits(
    g: Accounts, es: seq<Entry>, hs: seq<seq<TxId>>, bs: seq<seq<TxId>>, kss: seq<seq<nat>>, m: nat)
    requires ChainHistory(g, es) && StakeTotal(g) <= MAX_COIN && HistoryIds(es) == Concat(bs)
    requires GroundedBlocks(bs) && Within(hs, bs) && Follows(hs, bs)
    requires |kss| == |hs| && (forall b | 0 <= b < |hs| :: Handled(hs[b], bs[b], kss[b])) && m <= |Concat(hs)|
    ensures Fits(Concat(hs)[..m])
  {
    hide ChainHistory, LegalHistory, Grounded, WellOrdered, InputsOnce, GroundedBlocks, Follows, Handled, Value;
    hide Live, LiveAt, StakeTotal, Concat, HistoryIds;
    if m == 0 {
      NothingFits();
      assert Concat(hs)[..0] == [];
    } else {
      var k := PrefixWorth(hs, bs, kss, m);
      HistoryGrounded(g, es);
      HistoryIsLegal(g, es);
      LiveWithin(g, es, k);
      forall a ensures Value(LiveAt(Concat(hs)[..m], a)) <= MAX_COIN { LiveAtPart(Concat(hs)[..m], a); }
    }
  }

  // ---------- The blocks of a running node ----------

  lemma ReachedChainHistory(c: InitConfig, time: Timespec, chainHexId: nat, evs: seq<Event>, s: State)
    requires Reaches(c, time, chainHexId, evs, s) && DistinctIds(s.past.committed)
    ensures ChainHistory(s.past.genesis, s.past.committed)
  {
    hide Reaches, Sound, LegalHistory, Replay, Linked, ValidatorsOk, HashesOk, NodeInvariant.StoreOk;
    hide SpentOnce, CreatedEarlier, UtxoExact, DistinctIds;
    ReachedInvariant(c, time, chainHexId, evs, s);
    assert Stored(s).History() == s.past.committed;
  }

  lemma ReachedGenesis(c: InitConfig, time: Timespec, chainHexId: nat, evs: seq<Event>, s: State)
    requires Reaches(c, time, chainHexId, evs, s)
    ensures StakeTotal(s.past.genesis) <= MAX_COIN
  {
    hide AdmissibleRun, Validated, StakeTotal, Run, AccountMap, InitChain;
    GenesisSupply(c, time);
    GenesisFixed(Initial(c, time, chainHexId), evs);
  }

  function BlockIds(commits: seq<CommitRecord>): (bs: seq<seq<TxId>>)
    ensures |bs| == |commits|
  {
    seq(|commits|, i requires 0 <= i < |commits| => commits[i].txids)
  }

  lemma BatchedTake(commits: seq<CommitRecord>, batches: seq<seq<Entry>>, n: nat)
    requires Batched(commits, batches) && n <= |commits|
    ensures Batched(commits[..n], batches[..n])
  {
    hide BatchOf;
    forall k | 0 <= k < n ensures BatchOf(commits[..n][..k], commits[..n][k], batches[..n][k]) {
      assert commits[..n][..k] == commits[..k];
    }
  }

  lemma AnnouncedBatch(commits: seq<CommitRecord>, batches: seq<seq<Entry>>, k: nat)
    requires Batched(commits, batches) && k < |commits|
    ensures |batches| == |commits| && commits[k].txids == HistoryIds(batches[k])
    ensures commits[k].filter == FilterFor(batches[k])
    ensures forall e | e in batches[k] :: e.base == LatestHeight(commits[..k])
  {
    hide FilterFor;
    assert BatchOf(commits[..k], commits[k], batches[k]);
  }

  lemma HistoryIdsAppend(a: seq<Entry>, b: seq<Entry>)
    ensures HistoryIds(a + b) == HistoryIds(a) + HistoryIds(b)
  {
  }

  /** The ids that the blocks announce, in order, are those of the history. */
  lemma {:induction false} AnnouncedIds(commits: seq<CommitRecord>, batches: seq<seq<Entry>>)
    requires Batched(commits, batches)
    ensures Concat(BlockIds(commits)) == HistoryIds(Flat(batches))
    decreases |commits|
  {
    hide Batched, HistoryIds, FilterFor;
    if commits == [] {
      NothingAnnounced(commits, batches);
    } else {
      var n := |commits| - 1;
      AnnouncedBatch(commits, batches, n);
      BatchedTake(commits, batches, n);
      AnnouncedIds(commits[..n], batches[..n]);
      assert BlockIds(commits)[..n] == BlockIds(commits[..n]);
      HistoryIdsAppend(Flat(batches[..n]), batches[n]);
    }
  }

  lemma NothingAnnounced(commits: seq<CommitRecord>, batches: seq<seq<Entry>>)
    requires Batched(commits, batches) && commits == []
    ensures batches == [] && HistoryIds([]) == []
  {
  }

  lemma {:induction false} BatchInFlat(batches: seq<seq<Entry>>, b: nat, e: Entry)
    requires b < |batches| && e in batches[b]
    ensures e in Flat(batches)
    decreases |batches|
  {
    if b < |batches| - 1 { BatchInFlat(batches[..|batches| - 1], b, e); }
  }

  lemma LaterBase(genesis: AppHash, commits: seq<CommitRecord>, a: nat, b: nat)
    requires WellChained(genesis, commits) && a < b < |commits|
    ensures LatestHeight(commits[..a]) < LatestHeight(commits[..b])
  {
    if a > 0 {
      HeightsIncrease(genesis, commits, a - 1, b - 1);
    } else {
      FirstHeight(genesis, commits, b - 1);
    }
  }

  lemma FirstHeight(genesis: AppHash, commits: seq<CommitRecord>, k: nat)
    requires WellChained(genesis, commits) && k < |commits|
    ensures 0 < commits[k].height
  {
    assert AppHashes.Follows(genesis, commits[..0], commits[0]);
    if k > 0 { HeightsIncrease(genesis, commits, 0, k); }
  }

  /** The entry behind an announced id, and its place in the history. */
  lemma AnnouncedEntry(commits: seq<CommitRecord>, batches: seq<seq<Entry>>, b: nat, id: TxId)
    returns (e: Entry, k: nat)
    requires Batched(commits, batches) && b < |commits| && id in commits[b].txids
    ensures |batches| == |commits| && e in batches[b] && e.tx.Id() == id && e.base == LatestHeight(commits[..b])
    ensures k < |Flat(batches)| && Flat(batches)[k] == e
  {
    hide Batched, FilterFor, Flat;
    AnnouncedBatch(commits, batches, b);
    var i :| 0 <= i < |batches[b]| && HistoryIds(batches[b])[i] == id;
    e := batches[b][i];
    BatchInFlat(batches, b, e);
    k :| k < |Flat(batches)| && Flat(batches)[k] == e;
  }

  lemma BaseBlock(
    genesis: AppHash, commits: seq<CommitRecord>, batches: seq<seq<Entry>>, e: Entry, b: nat)
    returns (a: nat)
    requires WellChained(genesis, commits) && Batched(commits, batches) && b < |commits|
    requires e in Flat(batches) && e.base < LatestHeight(commits[..b])
    ensures a < b && e.tx.Id() in commits[a].txids
  {
    hide WellChained, Batched, FilterFor, Flat, LatestHeight;
    SameLength(commits, batches);
    var k, i := InBatch(batches, e);
    a := k;
    AnnouncedBatch(commits, batches, a);
    assert HistoryIds(batches[a])[i] == e.tx.Id();
    if b < a { LaterBase(genesis, commits, b, a); }
  }

  lemma SameLength(commits: seq<CommitRecord>, batches: seq<seq<Entry>>)
    requires Batched(commits, batches)
    ensures |commits| == |batches|
  {
  }

  lemma CreatorOf(g: Accounts, es: seq<Entry>, k: nat, p: TxoPointer) returns (e: Entry)
    requires ChainHistory(g, es) && k < |es| && p in InputsOf(es[k].tx.Id())
    ensures e in es && e.base < es[k].base && e.tx.Id() == p.id && Exists(p)
  {
    EntryIdFits(g, es, k);
    assert CreatedBefore(es, k, es[k].base, p);
    var j :| 0 <= j < k && Creates(es[j], p) && es[j].base < es[k].base;
    e := es[j];
  }

  lemma InputsFromEarlierBlocks(
    g: Accounts, genesis: AppHash, commits: seq<CommitRecord>, batches: seq<seq<Entry>>,
    b: nat, id: TxId, p: TxoPointer)
    requires ChainHistory(g, Flat(batches)) && WellChained(genesis, commits) && Batched(commits, batches)
    requires b < |commits| && id in commits[b].txids && p in InputsOf(id)
    ensures EarlierBlock(BlockIds(commits), b, p)
  {
    hide ChainHistory, WellChained, Batched, Flat, InputsOf, LatestHeight;
    var e, k := AnnouncedEntry(commits, batches, b, id);
    var d := CreatorOf(g, Flat(batches), k, p);
    var a := BaseBlock(genesis, commits, batches, d, b);
    assert p.id in BlockIds(commits)[a];
  }

  lemma TwoBlocksNoOutputs(
    g: Accounts, genesis: AppHash, commits: seq<CommitRecord>, batches: seq<seq<Entry>>, a: nat, b: nat, id: TxId)
    requires ChainHistory(g, Flat(batches)) && WellChained(genesis, commits) && Batched(commits, batches)
    requires a < b < |commits| && id in commits[a].txids && id in commits[b].txids
    ensures Outputs(id) == []
  {
    hide ChainHistory, WellChained, Batched, Flat, LatestHeight, Outputs;
    var e, k := AnnouncedEntry(commits, batches, a, id);
    var d, m := AnnouncedEntry(commits, batches, b, id);
    LaterBase(genesis, commits, a, b);
    if k < m { RepeatHasNoOutputs(g, Flat(batches), k, m); } else { RepeatHasNoOutputs(g, Flat(batches), m, k); }
  }

  lemma BatchesGrounded(g: Accounts, genesis: AppHash, commits: seq<CommitRecord>, batches: seq<seq<Entry>>)
    requires ChainHistory(g, Flat(batches)) && WellChained(genesis, commits) && Batched(commits, batches)
    ensures GroundedBlocks(BlockIds(commits)) && Concat(BlockIds(commits)) == HistoryIds(Flat(batches))
  {
    hide ChainHistory, WellChained, Batched, Flat, Concat, InputsOf, Outputs, Grounded, InputsOnce;
    hide WellOrdered, EarlierBlock, HistoryIds;
    var bs := BlockIds(commits);
    AnnouncedIds(commits, batches);
    HistoryGrounded(g, Flat(batches));
    forall b, id, p | 0 <= b < |bs| && id in bs[b] && p in InputsOf(id) ensures EarlierBlock(bs, b, p) {
      InputsFromEarlierBlocks(g, genesis, commits, batches, b, id, p);
    }
    forall a, b, id | 0 <= a < b < |bs| && id in bs[a] && id in bs[b] ensures Outputs(id) == [] {
      TwoBlocksNoOutputs(g, genesis, commits, batches, a, b, id);
    }
  }

  lemma ReachedBlocks(c: InitConfig, time: Timespec, chainHexId: nat, evs: seq<Event>, s: State)
    requires Reaches(c, time, chainHexId, evs, s) && DistinctIds(s.past.committed)
    ensures ChainHistory(s.past.genesis, s.past.committed) && GroundedBlocks(BlockIds(s.past.commits))
    ensures Concat(BlockIds(s.past.commits)) == HistoryIds(s.past.committed)
  {
    hide Reaches, ChainHistory, WellChained, ProofsStored, Batched, Flat, Concat, GroundedBlocks, DistinctIds;
    ReachedHashes(c, time, chainHexId, evs, s);
    ReachedChainHistory(c, time, chainHexId, evs, s);
    BatchesGrounded(s.past.genesis, s.past.genesisHash, s.past.commits, s.past.batches);
  }

  // ---------- What the block handler handles ----------

  lemma {:induction false} ValidOnesAre(txs: seq<Transaction>, txids: seq<TxId>, t: Transaction)
    ensures t in ValidOnes(txs, txids) <==> t in txs && t.Id() in txids
    decreases |txs|
  {
    if txs != [] { ValidOnesAre(txs[..|txs| - 1], txids, t); }
  }

  lemma IdsOfItems(b: Block, txs: seq<Transaction>)
    ensures Ids(ItemsOf(b, txs)) == BlockSync.IdsOf(txs)
  {
  }

  lemma IdsAppend(a: seq<Item>, b: seq<Item>)
    ensures Ids(a + b) == Ids(a) + Ids(b)
  {
  }

  lemma PublicIds(b: Block, id: TxId)
    requires PublicData(b.unencrypted, b.txids) && id in Ids(PublicItems(b))
    ensures id in b.txids && Outputs(id) == []
  {
    var txs := ValidOnes(b.unencrypted, b.txids);
    IdsOfItems(b, txs);
    var i :| 0 <= i < |txs| && BlockSync.IdsOf(txs)[i] == id;
    ValidOnesAre(b.unencrypted, b.txids, txs[i]);
  }

  ghost function Order(part: seq<TxId>, ids: seq<TxId>): (ks: seq<nat>)
    requires InOrder(part, ids)
    ensures Selection(ks, |ids|) && part == Picked(ids, ks)
  {
    var ks :| Selection(ks, |ids|) && part == Picked(ids, ks);
    ks
  }

  ghost function OrderIn(b: Block): (ks: seq<nat>) {
    if b.viewKeyHit && b.decrypted.Ok? && InOrder(BlockSync.IdsOf(b.decrypted.value), b.txids)
    then Order(BlockSync.IdsOf(b.decrypted.value), b.txids) else []
  }

  /** A served block is handled public transactions first, then decrypted ones in block order. */
  lemma ServedHandled(c: CommitRecord, w: Wallet, b: Block)
    requires ServesBlock(c, w, b)
    ensures Handled(Ids(BlockItems(b)), c.txids, OrderIn(b))
    ensures forall id | id in Ids(BlockItems(b)) :: id in c.txids
  {
    var pub, ks := Ids(PublicItems(b)), OrderIn(b);
    var dec := Picked(b.txids, ks);
    assert Ids(BlockItems(b)) == pub + dec by {
      if b.viewKeyHit && b.decrypted.Ok? {
        IdsAppend(PublicItems(b), ItemsOf(b, b.decrypted.value));
        IdsOfItems(b, b.decrypted.value);
      } else {
        assert PublicItems(b) + [] == PublicItems(b);
        assert dec == [];
      }
    }
    hide ServesBlock, BlockItems, PublicItems, Ids, OrderIn;
    forall i | 0 <= i < |pub| ensures Outputs(pub[i]) == [] && pub[i] in b.txids {
      ServedPublic(c, w, b);
      PublicIds(b, pub[i]);
    }
    assert (pub + dec)[|pub|..] == dec;
  }

  lemma ServedPublic(c: CommitRecord, w: Wallet, b: Block)
    requires ServesBlock(c, w, b)
    ensures PublicData(b.unencrypted, b.txids) && b.txids == c.txids
  {
  }

  function HandledIds(chain: seq<Block>, n: nat): (hs: seq<seq<TxId>>)
    requires n <= |chain|
    ensures |hs| == n
  {
    seq(n, i requires 0 <= i < n => Ids(BlockItems(chain[i])))
  }

  lemma {:induction false} AllItemsIds(chain: seq<Block>, n: nat)
    requires n <= |chain|
    ensures Ids(AllItems(chain, n)) == Concat(HandledIds(chain, n))
    decreases n
  {
    hide BlockItems;
    if n > 0 {
      AllItemsIds(chain, n - 1);
      IdsAppend(AllItems(chain, n - 1), BlockItems(chain[n - 1]));
      assert HandledIds(chain, n)[..n - 1] == HandledIds(chain, n - 1);
    }
  }

  lemma ServedWithin(genesis: AppHash, commits: seq<CommitRecord>, w: Wallet, chain: seq<Block>, n: nat)
    requires Serves(genesis, commits, w, chain) && n <= |chain|
    ensures |chain| == |commits| && Within(HandledIds(chain, n), BlockIds(commits))
    ensures forall b | 0 <= b < n :: Handled(HandledIds(chain, n)[b], BlockIds(commits)[b], OrderIn(chain[b]))
  {
    hide ServesBlock, Ids, BlockItems, Handled, OrderIn;
    forall b | 0 <= b < n
      ensures Handled(HandledIds(chain, n)[b], BlockIds(commits)[b], OrderIn(chain[b]))
      ensures forall id | id in HandledIds(chain, n)[b] :: id in BlockIds(commits)[b]
    {
      ServedHandled(commits[b], w, chain[b]);
    }
  }

  /** The blocks that a node serves after any run are fit for synchronisation. */
  lemma ServedByRun(
    c: InitConfig, time: Timespec, chainHexId: nat, evs: seq<Event>, s: State, w: Wallet, chain: seq<Block>)
    requires Reaches(c, time, chainHexId, evs, s) && Serves(s.past.genesisHash, s.past.commits, w, chain)
    ensures ChainOk(chain)
  {
    hide Reaches, Serves, ChainOk, FiltersMatch;
    ReachedHashes(c, time, chainHexId, evs, s);
    BatchFilters(s.past.commits, s.past.batches);
    ServedChainOk(s.past.genesisHash, s.past.commits, w, chain);
  }

  lemma BatchFilters(commits: seq<CommitRecord>, batches: seq<seq<Entry>>)
    requires Batched(commits, batches)
    ensures FiltersMatch(commits)
  {
    forall i | 0 <= i < |commits| && commits[i].txids == [] ensures commits[i].filter == EmptyFilter() {
      AnnouncedBatch(commits, batches, i);
      assert batches[i] == [];
    }
  }

  /** What a client handles of the blocks a node serves is well ordered, although the handler takes
      the public transactions of a block before the others. */
  lemma ServedWellOrdered(
    c: InitConfig, time: Timespec, chainHexId: nat, evs: seq<Event>, s: State, w: Wallet, chain: seq<Block>, n: nat)
    requires Reaches(c, time, chainHexId, evs, s) && DistinctIds(s.past.committed)
    requires Serves(s.past.genesisHash, s.past.commits, w, chain) && n <= |chain|
    ensures WellOrdered(Ids(AllItems(chain, n)))
  {
    hide Reaches, ChainHistory, Serves, DistinctIds, GroundedBlocks, Within, Handled, WellOrdered, Ids, AllItems;
    ReachedBlocks(c, time, chainHexId, evs, s);
    ServedWithin(s.past.genesisHash, s.past.commits, w, chain, n);
    BlocksWellOrdered(HandledIds(chain, n), BlockIds(s.past.commits));
    AllItemsIds(chain, n);
  }

  lemma OrderedBlocksIndex(chain: seq<Block>, n: nat)
    requires Decrypts(chain) && n <= |chain| && WellOrdered(Ids(AllItems(chain, n)))
    ensures var items, r := AllItems(chain, n), Naive(NewIndex(), chain, 0, n);
            && (r.Ok? <==> forall m | 0 <= m <= |items| :: Fits(Ids(items[..m])))
            && (r.Ok? ==> IndexOk(r.value, Ids(items)) && r.value.global == GlobalAt(chain, n))
  {
    hide Naive, Decrypts, WellOrdered, Ids, Fits, AddressesOk, HandleAll, AllItems, GlobalAt;
    var items := AllItems(chain, n);
    NaiveHandles(chain, n);
    IndexIsExact(items, |items|);
    assert items[..|items|] == items;
  }

  /** The index after handling the first n blocks that a node serves: exact, and there is one unless
      a balance passes the maximum on the way. */
  lemma BlocksIndexExact(
    c: InitConfig, time: Timespec, chainHexId: nat, evs: seq<Event>, s: State, w: Wallet, chain: seq<Block>, n: nat)
    requires Reaches(c, time, chainHexId, evs, s) && DistinctIds(s.past.committed)
    requires Serves(s.past.genesisHash, s.past.commits, w, chain) && Decrypts(chain) && n <= |chain|
    ensures var items, r := AllItems(chain, n), Naive(NewIndex(), chain, 0, n);
            && (r.Ok? <==> forall m | 0 <= m <= |items| :: Fits(Ids(items[..m])))
            && (r.Ok? ==> IndexOk(r.value, Ids(items)) && r.value.global == GlobalAt(chain, n))
  {
    hide Reaches, Serves, DistinctIds, Naive, Decrypts, WellOrdered, Ids, Fits, IndexOk, AllItems;
    ServedWellOrdered(c, time, chainHexId, evs, s, w, chain, n);
    OrderedBlocksIndex(chain, n);
  }

  // ---------- Wallets that watch their outputs ----------

  /** The wallet's view key was given access, or the wallet's staking addresses are credited. */
  predicate Concerns(w: Wallet, tx: TxAux) {
    if tx.DepositStakeTx? then tx.deposit.toStakedAccount in w.stakings
    else SharedWith(tx.Id(), w.viewKey)
  }

  lemma {:induction false} StakedInHas(es: seq<Entry>, e: Entry)
    requires e in es && e.account.Some?
    ensures StakedAddress(e.account.value.address) in StakedIn(es).added
    decreases |es|
  {
    var init, last := es[..|es| - 1], es[|es| - 1];
    if e in init { StakedInHas(init, e); }
  }

  lemma InTxsOf(es: seq<Entry>, e: Entry)
    requires e in es
    ensures e.tx in TxsOf(es)
  {
    var i :| 0 <= i < |es| && es[i] == e;
    assert TxsOf(es)[i] == e.tx;
  }

  lemma SharedIsAdded(es: seq<Entry>, e: Entry, key: nat)
    requires e in es && IdFits(e.tx) && SharedWith(e.tx.Id(), key)
    ensures ViewKey(key) in FilterFor(es).added
  {
    AddedViews(StakedIn(es), TxsOf(es), ViewKey(key));
    InTxsOf(es, e);
    assert ViewKey(key) in ViewsOf(e.tx);
  }

  lemma CreditedIsAdded(es: seq<Entry>, e: Entry)
    requires e in es && e.account.Some?
    ensures StakedAddress(e.account.value.address) in FilterFor(es).added
  {
    StakedInHas(es, e);
    AddedViews(StakedIn(es), TxsOf(es), StakedAddress(e.account.value.address));
  }

  lemma DepositCredits(before: Accounts, e: Entry)
    requires EntryLegal(before, e) && e.tx.DepositStakeTx?
    ensures e.account.Some? && e.account.value.address == e.tx.deposit.toStakedAccount
  {
  }

  lemma IsHandled(b: Block, id: TxId)
    ensures id in Ids(PublicItems(b)) ==> id in Ids(BlockItems(b))
    ensures b.viewKeyHit && b.decrypted.Ok? && id in BlockSync.IdsOf(b.decrypted.value) ==> id in Ids(BlockItems(b))
  {
    if b.viewKeyHit && b.decrypted.Ok? {
      IdsAppend(PublicItems(b), ItemsOf(b, b.decrypted.value));
      IdsOfItems(b, b.decrypted.value);
    } else {
      assert PublicItems(b) + [] == PublicItems(b);
    }
  }

  lemma PublicIsHandled(b: Block, id: TxId)
    requires b.stakingHit && PublicData(b.unencrypted, b.txids) && id in b.txids && !HasOutputs(id)
    ensures id in Ids(PublicItems(b))
  {
    var i :| 0 <= i < |b.unencrypted| && BlockSync.IdsOf(b.unencrypted)[i] == id;
    var txs := ValidOnes(b.unencrypted, b.txids);
    ValidOnesAre(b.unencrypted, b.txids, b.unencrypted[i]);
    var j :| 0 <= j < |txs| && txs[j] == b.unencrypted[i];
    IdsOfItems(b, txs);
    assert BlockSync.IdsOf(txs)[j] == id;
  }

  /** What is handled of a served block, exactly: the transactions without outputs if the filter answers
      for the staking addresses, and the decrypted ones if it answers for the view key. */
  lemma HandledExactly(c: CommitRecord, w: Wallet, b: Block, id: TxId)
    requires ServesBlock(c, w, b) && (b.viewKeyHit ==> b.decrypted.Ok?)
    ensures id in Ids(BlockItems(b)) <==>
            && id in c.txids
            && ((b.stakingHit && !HasOutputs(id))
                || (b.viewKeyHit && b.decrypted.Ok? && id in BlockSync.IdsOf(b.decrypted.value)))
  {
    hide Ids, BlockItems, PublicItems, ServesBlock, Handled, OrderIn;
    ServedPublic(c, w, b);
    IsHandled(b, id);
    if id in Ids(BlockItems(b)) {
      ServedHandled(c, w, b);
      HandledParts(b, id);
      if id in Ids(PublicItems(b)) { PublicNeedsHit(b, id); }
    }
    if id in c.txids && b.stakingHit && !HasOutputs(id) { PublicIsHandled(b, id); }
  }

  lemma HandledParts(b: Block, id: TxId)
    requires id in Ids(BlockItems(b))
    ensures id in Ids(PublicItems(b))
            || (b.viewKeyHit && b.decrypted.Ok? && id in BlockSync.IdsOf(b.decrypted.value))
  {
    if b.viewKeyHit && b.decrypted.Ok? {
      IdsAppend(PublicItems(b), ItemsOf(b, b.decrypted.value));
      IdsOfItems(b, b.decrypted.value);
    } else {
      assert PublicItems(b) + [] == PublicItems(b);
    }
  }

  lemma PublicNeedsHit(b: Block, id: TxId)
    requires PublicData(b.unencrypted, b.txids) && id in Ids(PublicItems(b))
    ensures b.stakingHit && !HasOutputs(id)
  {
    var txs := ValidOnes(b.unencrypted, b.txids);
    IdsOfItems(b, txs);
    var i :| 0 <= i < |txs| && BlockSync.IdsOf(txs)[i] == id;
    ValidOnesAre(b.unencrypted, b.txids, txs[i]);
  }

  /** A client misses nothing that concerns its wallet: the filter and the queries may show it more,
      but never less. */
  lemma ConcernedIsHandled(before: Accounts, c: CommitRecord, w: Wallet, b: Block, es: seq<Entry>, e: Entry)
    requires ServesBlock(c, w, b) && (b.viewKeyHit ==> b.decrypted.Ok?)
    requires c.txids == HistoryIds(es) && c.filter == FilterFor(es)
    requires e in es && EntryLegal(before, e) && Concerns(w, e.tx)
    ensures e.tx.Id() in Ids(BlockItems(b))
  {
    hide FilterFor, BlockItems, PublicItems, Ids, EntryLegal;
    var i :| 0 <= i < |es| && es[i] == e;
    assert HistoryIds(es)[i] == e.tx.Id();
    IsHandled(b, e.tx.Id());
    if e.tx.DepositStakeTx? {
      DepositCredits(before, e);
      CreditedIsAdded(es, e);
      PublicIsHandled(b, e.tx.Id());
    } else {
      LegalIdFits(before, e);
      SharedIsAdded(es, e, w.viewKey);
    }
  }

  lemma LegalIdFits(before: Accounts, e: Entry)
    requires EntryLegal(before, e)
    ensures IdFits(e.tx)
  {
  }

  /** Every committed transaction that consumes an output of what the client handles in the first n
      blocks concerns the wallet. */
  ghost predicate Watches(w: Wallet, batches: seq<seq<Entry>>, handled: seq<TxId>, n: nat)
    requires n <= |batches|
  {
    forall b, e, p | 0 <= b < n && e in batches[b] && p in e.tx.Inputs() && p.id in handled :: Concerns(w, e.tx)
  }

  lemma CommittedLegal(c: InitConfig, time: Timespec, chainHexId: nat, evs: seq<Event>, s: State)
    requires Reaches(c, time, chainHexId, evs, s)
    ensures LegalHistory(s.past.genesis, s.past.committed)
  {
    hide Reaches, Sound, UtxoInvariant, LegalHistory, Replay, Linked, ValidatorsOk, HashesOk, NodeInvariant.StoreOk;
    ReachedInvariant(c, time, chainHexId, evs, s);
    assert Stored(s).History() == s.past.committed;
  }

  lemma ReachedBatch(c: InitConfig, time: Timespec, chainHexId: nat, evs: seq<Event>, s: State, b: nat, e: Entry)
    returns (before: Accounts)
    requires Reaches(c, time, chainHexId, evs, s) && b < |s.past.batches| && e in s.past.batches[b]
    ensures EntryLegal(before, e) && Batched(s.past.commits, s.past.batches)
  {
    hide Reaches, LegalHistory, EntryLegal, WellChained, ProofsStored, Batched, Flat;
    ReachedHashes(c, time, chainHexId, evs, s);
    CommittedLegal(c, time, chainHexId, evs, s);
    BatchInFlat(s.past.batches, b, e);
    var k :| 0 <= k < |s.past.committed| && s.past.committed[k] == e;
    LegalAt(s.past.genesis, s.past.committed, k);
    before := Replay(s.past.genesis, s.past.committed[..k]);
  }

  /** A client of a running node misses no committed transaction that concerns its wallet. */
  lemma NothingMissed(
    c: InitConfig, time: Timespec, chainHexId: nat, evs: seq<Event>, s: State, w: Wallet, chain: seq<Block>,
    b: nat, e: Entry)
    requires Reaches(c, time, chainHexId, evs, s)
    requires Serves(s.past.genesisHash, s.past.commits, w, chain) && Decrypts(chain)
    requires b < |chain| && b < |s.past.batches| && e in s.past.batches[b] && Concerns(w, e.tx)
    ensures e.tx.Id() in Ids(BlockItems(chain[b]))
  {
    hide Reaches, EntryLegal, Batched, ServesBlock, FilterFor, Concerns, Ids, BlockItems;
    var before := ReachedBatch(c, time, chainHexId, evs, s, b, e);
    AnnouncedBatch(s.past.commits, s.past.batches, b);
    assert chain[b] in chain;
    ConcernedIsHandled(before, s.past.commits[b], w, chain[b], s.past.batches[b], e);
  }

  /** The index of a client that follows its outputs: handling the blocks of a running node never
      fails, and the index is exact. */
  lemma IndexFollowsChain(
    c: InitConfig, time: Timespec, chainHexId: nat, evs: seq<Event>, s: State, w: Wallet, chain: seq<Block>, n: nat)
    requires Reaches(c, time, chainHexId, evs, s) && DistinctIds(s.past.committed)
    requires Serves(s.past.genesisHash, s.past.commits, w, chain) && Decrypts(chain) && n <= |chain|
    requires n <= |s.past.commits| && Follows(HandledIds(chain, n), BlockIds(s.past.commits))
    ensures var r := Naive(NewIndex(), chain, 0, n);
            r.Ok? && IndexOk(r.value, Ids(AllItems(chain, n))) && r.value.global == GlobalAt(chain, n)
  {
    hide Reaches, Serves, DistinctIds, Naive, Decrypts, Ids, Fits, IndexOk, AllItems, Follows;
    var items := AllItems(chain, n);
    forall m | 0 <= m <= |items| ensures Fits(Ids(items[..m])) {
      FollowingFits(c, time, chainHexId, evs, s, w, chain, n);
      IdsTake(items, m);
    }
    BlocksIndexExact(c, time, chainHexId, evs, s, w, chain, n);
  }

  lemma FollowingFits(
    c: InitConfig, time: Timespec, chainHexId: nat, evs: seq<Event>, s: State, w: Wallet, chain: seq<Block>, n: nat)
    requires Reaches(c, time, chainHexId, evs, s) && DistinctIds(s.past.committed)
    requires Serves(s.past.genesisHash, s.past.commits, w, chain) && n <= |chain|
    requires n <= |s.past.commits| && Follows(HandledIds(chain, n), BlockIds(s.past.commits))
    ensures forall m | 0 <= m <= |Ids(AllItems(chain, n))| :: Fits(Ids(AllItems(chain, n))[..m])
  {
    hide Reaches, ChainHistory, Serves, DistinctIds, GroundedBlocks, Within, Handled, Ids, AllItems;
    hide Follows, Fits, Concat, StakeTotal, HistoryIds, HandledIds;
    ReachedBlocks(c, time, chainHexId, evs, s);
    ReachedGenesis(c, time, chainHexId, evs, s);
    ServedWithin(s.past.genesisHash, s.past.commits, w, chain, n);
    AllItemsIds(chain, n);
    var hs, bs := HandledIds(chain, n), BlockIds(s.past.commits);
    var kss := seq(n, b requires 0 <= b < n => OrderIn(chain[b]));
    forall m | 0 <= m <= |Concat(hs)| ensures Fits(Concat(hs)[..m]) {
      PrefixFits(s.past.genesis, s.past.committed, hs, bs, kss, m);
    }
  }

  lemma IdsTake(items: seq<Item>, n: nat)
    requires n <= |items|
    ensures Ids(items)[..n] == Ids(items[..n]) && |Ids(items)| == |items|
  {
  }

  /** Watching is enough to follow. */
  lemma WatchingFollows(
    c: InitConfig, time: Timespec, chainHexId: nat, evs: seq<Event>, s: State, w: Wallet, chain: seq<Block>, n: nat)
    requires Reaches(c, time, chainHexId, evs, s)
    requires Serves(s.past.genesisHash, s.past.commits, w, chain) && Decrypts(chain) && n <= |chain|
    requires n <= |s.past.batches| && Watches(w, s.past.batches, Concat(HandledIds(chain, n)), n)
    ensures n <= |s.past.commits| && Follows(HandledIds(chain, n), BlockIds(s.past.commits))
  {
    var hs, bs := HandledIds(chain, n), BlockIds(s.past.commits);
    hide Reaches, Decrypts, ServesBlock, Concerns, Concat, InputsOf, Ids, BlockItems, Batched, EntryLegal;
    forall b, id, p | 0 <= b < n && id in bs[b] && p in InputsOf(id) && p.id in Concat(hs) ensures id in hs[b] {
      assert id in s.past.commits[b].txids;
      var e := ReachedAnnounced(c, time, chainHexId, evs, s, b, id);
      assert Concerns(w, e.tx);
      NothingMissed(c, time, chainHexId, evs, s, w, chain, b, e);
    }
  }

  lemma ReachedAnnounced(
    c: InitConfig, time: Timespec, chainHexId: nat, evs: seq<Event>, s: State, b: nat, id: TxId)
    returns (e: Entry)
    requires Reaches(c, time, chainHexId, evs, s) && b < |s.past.commits| && id in s.past.commits[b].txids
    ensures b < |s.past.batches| && e in s.past.batches[b] && e.tx.Id() == id && InputsOf(id) == e.tx.Inputs()
  {
    hide Reaches, WellChained, ProofsStored, Batched, Flat, EntryLegal, InputsOf, LatestHeight;
    ReachedHashes(c, time, chainHexId, evs, s);
    var d, k := AnnouncedEntry(s.past.commits, s.past.batches, b, id);
    e := d;
    var before := ReachedBatch(c, time, chainHexId, evs, s, b, e);
    LegalIdFits(before, e);
  }

  /** A wallet that is told of everything that spends what it sees synchronises without failing. */
  lemma WatchingWalletSucceeds(
    c: InitConfig, time: Timespec, chainHexId: nat, evs: seq<Event>, s: State, w: Wallet, chain: seq<Block>, n: nat)
    requires Reaches(c, time, chainHexId, evs, s) && DistinctIds(s.past.committed)
    requires Serves(s.past.genesisHash, s.past.commits, w, chain) && Decrypts(chain) && n <= |chain|
    requires n <= |s.past.batches| && Watches(w, s.past.batches, Ids(AllItems(chain, n)), n)
    ensures var r := Naive(NewIndex(), chain, 0, n);
            r.Ok? && IndexOk(r.value, Ids(AllItems(chain, n))) && r.value.global == GlobalAt(chain, n)
  {
    hide Reaches, Serves, DistinctIds, Naive, Decrypts, Ids, IndexOk, AllItems, Follows, Watches, Concat;
    AllItemsIds(chain, n);
    WatchingFollows(c, time, chainHexId, evs, s, w, chain, n);
    IndexFollowsChain(c, time, chainHexId, evs, s, w, chain, n);
  }
}
