/** Application hashes along the commits of a run (chain-core/src/lib.rs:32-44,
    chain-abci/src/app/commit.rs:118-144). */
module AppHashes {
  import opened Wrappers
  import opened Coins
  import opened Merkle
  import opened Transactions
  import opened TxVerification
  import opened BlockFilters

  datatype RewardsPool = RewardsPool(remaining: Coin, lastHeight: int)

  /** Hashing is free of collisions, and the trie root stands for the accounts below it. */
  datatype AppHash = AppHash(txRoot: Digest<TxId>, accountRoot: Accounts, pool: RewardsPool)

  type TxTree = MerkleTree<TxId>

  function ComputeAppHash(tree: TxTree, root: Accounts, pool: RewardsPool): AppHash {
    AppHash(RootOf(tree.tree), root, pool)
  }

  /** What one block announces: its height, the hash after it, the ids it commits, and its filter. */
  datatype CommitRecord = CommitRecord(height: int, appHash: AppHash, txids: seq<TxId>, filter: BlockFilter)

  function LatestHash(genesis: AppHash, cs: seq<CommitRecord>): AppHash {
    if cs == [] then genesis else cs[|cs| - 1].appHash
  }

  function LatestHeight(cs: seq<CommitRecord>): int {
    if cs == [] then 0 else cs[|cs| - 1].height
  }

  /** What `commit_handler` does with the hash: an empty block keeps it, any other block stamps the
      pool with its height and hashes the ids. */
  predicate Follows(genesis: AppHash, before: seq<CommitRecord>, c: CommitRecord) {
    && LatestHeight(before) < c.height
    && (c.txids == [] ==> c.appHash == LatestHash(genesis, before))
    && (c.txids != [] ==>
          c.appHash.pool.lastHeight == c.height && c.appHash.txRoot == RootOf(BuiltFrom(c.txids).tree))
  }

  predicate WellChained(genesis: AppHash, cs: seq<CommitRecord>) {
    && genesis.pool.lastHeight == 0
    && forall k | 0 <= k < |cs| :: Follows(genesis, cs[..k], cs[k])
  }

  lemma WellChainedPush(genesis: AppHash, cs: seq<CommitRecord>, c: CommitRecord)
    requires WellChained(genesis, cs) && Follows(genesis, cs, c)
    ensures WellChained(genesis, cs + [c])
  {
    var all := cs + [c];
    forall k | 0 <= k < |all| ensures Follows(genesis, all[..k], all[k]) {
      assert all[..k] == if k < |cs| then cs[..k] else cs;
    }
  }

  lemma FollowsAt(genesis: AppHash, cs: seq<CommitRecord>, k: nat)
    requires WellChained(genesis, cs) && 0 < k < |cs|
    ensures cs[k - 1].height < cs[k].height
    ensures cs[k].txids == [] ==> cs[k].appHash == cs[k - 1].appHash
    ensures cs[k].txids != [] ==> cs[k].appHash.pool.lastHeight == cs[k].height
  {
    assert Follows(genesis, cs[..k], cs[k]);
  }

  lemma {:induction false} HeightsIncrease(genesis: AppHash, cs: seq<CommitRecord>, i: nat, j: nat)
    requires WellChained(genesis, cs) && i < j < |cs|
    ensures cs[i].height < cs[j].height
    decreases j
  {
    FollowsAt(genesis, cs, j);
    if i < j - 1 { HeightsIncrease(genesis, cs, i, j - 1); }
  }

  /** The pool was last stamped at or before the height of the commit. */
  lemma {:induction false} StampedBefore(genesis: AppHash, cs: seq<CommitRecord>, k: nat)
    requires WellChained(genesis, cs) && k < |cs|
    ensures cs[k].appHash.pool.lastHeight <= cs[k].height && 0 < cs[k].height
    decreases k
  {
    assert Follows(genesis, cs[..k], cs[k]);
    if k > 0 {
      StampedBefore(genesis, cs, k - 1);
      FollowsAt(genesis, cs, k);
    }
  }

  /** Once a non-empty block is committed, later stamps are no older than its height. */
  lemma {:induction false} StampedSince(genesis: AppHash, cs: seq<CommitRecord>, k: nat, j: nat)
    requires WellChained(genesis, cs) && k <= j < |cs| && cs[k].txids != []
    ensures cs[j].appHash.pool.lastHeight >= cs[k].height
    decreases j
  {
    assert Follows(genesis, cs[..j], cs[j]);
    if k < j {
      StampedSince(genesis, cs, k, j - 1);
      FollowsAt(genesis, cs, j);
      HeightsIncrease(genesis, cs, k, j);
    }
  }

  lemma {:induction false} EmptyKeepsHash(genesis: AppHash, cs: seq<CommitRecord>, i: nat, j: nat)
    requires WellChained(genesis, cs) && i <= j < |cs|
    requires forall k | i < k <= j :: cs[k].txids == []
    ensures cs[i].appHash == cs[j].appHash
    decreases j
  {
    if i < j {
      EmptyKeepsHash(genesis, cs, i, j - 1);
      FollowsAt(genesis, cs, j);
    }
  }

  /** Two commits announce the same hash exactly when every block after the first one, up to and
      including the second one, is empty. */
  lemma SameHashIffEmpty(genesis: AppHash, cs: seq<CommitRecord>, i: nat, j: nat)
    requires WellChained(genesis, cs) && i <= j < |cs|
    ensures cs[i].appHash == cs[j].appHash <==> forall k | i < k <= j :: cs[k].txids == []
  {
    if forall k | i < k <= j :: cs[k].txids == [] {
      EmptyKeepsHash(genesis, cs, i, j);
    } else {
      var k :| i < k <= j && cs[k].txids != [];
      StampedBefore(genesis, cs, i);
      HeightsIncrease(genesis, cs, i, k);
      StampedSince(genesis, cs, k, j);
    }
  }

  // ---------- The stored trees ----------

  /** Every committed height leads to its hash, and the hash of a non-empty block to its tree. */
  predicate ProofsStored(appStates: map<int, AppHash>, trees: map<AppHash, TxTree>, cs: seq<CommitRecord>) {
    forall c | c in cs ::
      && c.height in appStates && appStates[c.height] == c.appHash
      && (c.txids != [] ==> c.appHash in trees && trees[c.appHash] == BuiltFrom(c.txids))
  }

  lemma EarlierHeights(genesis: AppHash, cs: seq<CommitRecord>, c: CommitRecord)
    requires WellChained(genesis, cs) && c in cs
    ensures c.height <= LatestHeight(cs)
  {
    hide Follows;
    var i :| 0 <= i < |cs| && cs[i] == c;
    if i < |cs| - 1 { HeightsIncrease(genesis, cs, i, |cs| - 1); }

  }

  lemma RootsOfRecords(genesis: AppHash, cs: seq<CommitRecord>, c: CommitRecord)
    requires WellChained(genesis, cs) && c in cs && c.txids != []
    ensures c.appHash.pool.lastHeight == c.height && c.appHash.txRoot == RootOf(BuiltFrom(c.txids).tree)
  {
    var i :| 0 <= i < |cs| && cs[i] == c;
    assert Follows(genesis, cs[..i], cs[i]);
  }

  /** A new commit overwrites nothing: both its height and its stamped hash are new. */
  lemma ProofsKept(
    genesis: AppHash, appStates: map<int, AppHash>, trees: map<AppHash, TxTree>, cs: seq<CommitRecord>, c: CommitRecord)
    requires WellChained(genesis, cs) && Follows(genesis, cs, c) && ProofsStored(appStates, trees, cs)
    ensures ProofsStored(
              appStates[c.height := c.appHash],
              if c.txids == [] then trees else trees[c.appHash := BuiltFrom(c.txids)],
              cs + [c])
  {
    forall d | d in cs ensures d.height != c.height {
      EarlierHeights(genesis, cs, d);
    }
    forall d | d in cs && d.txids != [] && c.txids != [] ensures d.appHash != c.appHash {
      RootsOfRecords(genesis, cs, d);
    }
  }

  /** The app hash stored for the height of a committed transaction leads to a tree with a proof for
      its id, and the proof verifies against the root hashed into that app hash. */
  lemma CommittedProofs(
    genesis: AppHash, appStates: map<int, AppHash>, trees: map<AppHash, TxTree>,
    cs: seq<CommitRecord>, c: CommitRecord, txid: TxId)
    requires WellChained(genesis, cs) && ProofsStored(appStates, trees, cs) && c in cs && txid in c.txids
    ensures c.height in appStates && appStates[c.height] in trees
    ensures var tree := trees[appStates[c.height]];
            var proof := GenerateProof(tree, txid);
            && proof.Some? && proof.value.value == txid
            && VerifyProof(proof.value, RootOf(tree.tree))
            && RootOf(tree.tree) == appStates[c.height].txRoot
  {
    RootsOfRecords(genesis, cs, c);
    ProofsOfMembers(c.txids, txid);
  }
}
