/** What an app hash commits to, along runs: the accounts and the rewards pool after the block it was
    announced for. */
module NodeHashes {
  import opened Wrappers
  import opened Coins
  import opened Merkle
  import opened Transactions
  import opened Staking
  import opened UtxoDb
  import opened Settlement
  import opened TxVerification
  import opened Ledger
  import opened UtxoHistory
  import opened StakingHistory
  import opened Genesis
  import opened Validators
  import opened BlockFilters
  import opened AppHashes
  import opened NodeSteps
  import opened NodeInvariant
  import opened NodeRuns

  /** The rewards pool holds its genesis amount and the fees of everything accepted since. */
  ghost predicate PoolOk(s: State) {
    var genesis := s.past.genesisHash.pool.remaining;
    && s.node.last.pool.remaining == genesis + Fees(s.past.committed + s.past.pending)
    && s.node.saved.pool.remaining == genesis + Fees(s.past.committed)
  }

  /** The history up to and including the block of the k-th commit. */
  function Upto(batches: seq<seq<Entry>>, k: nat): seq<Entry>
    requires k < |batches|
  {
    Flat(batches[..k + 1])
  }

  /** This hash is for these accounts and this amount in the pool. */
  predicate Binds(h: AppHash, accounts: Accounts, remaining: nat) {
    h.accountRoot == accounts && h.pool.remaining == remaining
  }

  ghost predicate CommitBinds(past: Past, k: nat)
    requires k < |past.commits| && k < |past.batches|
  {
    var es := Upto(past.batches, k);
    Binds(past.commits[k].appHash, Replay(past.genesis, es), past.genesisHash.pool.remaining + Fees(es))
  }

  ghost predicate CommitsBind(past: Past) {
    |past.commits| == |past.batches| && forall k | 0 <= k < |past.commits| :: CommitBinds(past, k)
  }

  ghost predicate SavedBinds(n: NodeState) {
    n.saved.appHash.accountRoot == n.saved.accountRoot && n.saved.appHash.pool == n.saved.pool
  }

  ghost predicate Bound(s: State) {
    PoolOk(s) && CommitsBind(s.past) && SavedBinds(s.node)
  }

  // ---------- Every step keeps it ----------

  /** What a request other than a commit leaves alone. */
  lemma SavedKept(s: State, ev: Event)
    requires RunStep(s, ev).Some? && !ev.CommitEvent?
    ensures var t := RunStep(s, ev).value;
            && t.node.saved == s.node.saved && t.past.genesis == s.past.genesis
            && t.past.genesisHash == s.past.genesisHash && t.past.committed == s.past.committed
            && t.past.batches == s.past.batches && t.past.commits == s.past.commits
  {
    hide VerifyTx, RestoredPowers, PubKeys, ViewOf, Apply, AddViews;
  }

  lemma QuietKeepsPool(s: State, ev: Event)
    requires RunStep(s, ev).Some? && (ev.BeginBlockEvent? || ev.CheckTxEvent? || ev.EndBlockEvent?)
    ensures RunStep(s, ev).value.node.last.pool == s.node.last.pool
    ensures RunStep(s, ev).value.past.pending == s.past.pending
  {
    hide VerifyTx, Apply, AddViews;
  }

  lemma RestartResetsPool(s: State, kept: set<TxId>)
    requires RunStep(s, RestartEvent(kept)).Some?
    ensures var t := RunStep(s, RestartEvent(kept)).value;
            t.node.last == s.node.saved && t.past.pending == []
  {
    hide RestoredPowers, PubKeys, ViewOf;
  }

  lemma DeliveryAddsFee(s: State, tx: TxAux, minFee: Coin)
    requires Invariant(s) && Admissible(s.node, DeliverTxEvent(tx, minFee)) && PoolOk(s)
    ensures RunStep(s, DeliverTxEvent(tx, minFee)).Some?
    ensures PoolOk(RunStep(s, DeliverTxEvent(tx, minFee)).value)
  {
    hide VerifyTx, RunStep, LedgerOk, Linked, FilterOk, StoreOk, ValidatorsOk, HashesOk, Allowed, Effect;
    hide Acceptable, EntryLegal, Accepted, Current, Stored, Fees;
    VerdictNeverPanics(s, tx, minFee);
    if s.node.Verdict(tx, minFee).Accept? {
      DeliveryAccepts(s, tx, minFee);
      var fa := s.node.Verdict(tx, minFee).value;
      var e := EntryOf(s.node, tx, minFee, fa.0, fa.1);
      FeesPush(s.past.committed + s.past.pending, e);
      assert s.past.committed + (s.past.pending + [e]) == s.past.committed + s.past.pending + [e];
    }
    DeliverTxStep(s, tx, minFee);
  }

  lemma CommittedParts(n: NodeState)
    ensures var t := CommittedState(n);
            && (n.delivered == [] ==> t == n.last)
            && (n.delivered != [] ==>
                  t.accountRoot == n.root && t.appHash.accountRoot == n.root && t.appHash.pool == t.pool)
            && t.pool.remaining == n.last.pool.remaining
  {
    hide BuiltFrom;
  }

  /** A commit saves, and announces, a hash of the accounts and the pool that it saves. */
  lemma CommittedBinds(s: State)
    requires Linked(s) && SavedBinds(s.node) && PoolOk(s)
    requires LedgerOk(s.past.genesis, Current(s)) && LedgerOk(s.past.genesis, Stored(s))
    ensures var t, es := CommittedState(s.node), s.past.committed + s.past.pending;
            && t.appHash.accountRoot == t.accountRoot && t.appHash.pool == t.pool
            && Binds(t.appHash, Replay(s.past.genesis, es), s.past.genesisHash.pool.remaining + Fees(es))
  {
    hide Sound, UtxoInvariant, LegalHistory, Replay, Fees, CommittedState;
    CommittedParts(s.node);
    EmptyBlockKeepsRoot(s);
    assert Current(s).History() == s.past.committed + s.past.pending;
    assert Stored(s).History() == s.past.committed;
    if s.node.delivered == [] {
      assert s.past.pending == [];
      assert s.past.committed + [] == s.past.committed;
    }
  }

  lemma CommitsBindPush(past: Past, c: CommitRecord)
    requires CommitsBind(past) && past.committed == Flat(past.batches)
    requires var es := past.committed + past.pending;
             Binds(c.appHash, Replay(past.genesis, es), past.genesisHash.pool.remaining + Fees(es))
    ensures CommitsBind(past.(committed := past.committed + past.pending, pending := [],
                              batches := past.batches + [past.pending], commits := past.commits + [c]))
  {
    hide Replay, Fees, Binds;
    var next := past.(committed := past.committed + past.pending, pending := [],
                      batches := past.batches + [past.pending], commits := past.commits + [c]);
    var all := next.batches;
    forall k | 0 <= k < |next.commits| ensures CommitBinds(next, k) {
      if k < |past.commits| {
        assert CommitBinds(past, k);
        assert all[..k + 1] == past.batches[..k + 1];
      } else {
        assert all[..k + 1] == all && all[..|all| - 1] == past.batches;
      }
    }
  }

  lemma CommitKeepsBound(s: State)
    requires Invariant(s) && Admissible(s.node, CommitEvent) && Bound(s)
    ensures RunStep(s, CommitEvent).Some? && Bound(RunStep(s, CommitEvent).value)
  {
    hide LedgerOk, StoreOk, ValidatorsOk, FilterOk, RunStep, CommittedState, Replay, Fees, Binds, CommitsBind;
    hide WellChained, ProofsStored, Batched, Flat;
    CommitKeepsLedgers(s);
    CommittedBinds(s);
    CommitsBindPush(s.past, Announced(s.node, s.past.filter));
    CommitStep(s);
    CommitSaves(s);
    CommitPast(s);
    CommittedParts(s.node);
    var es := s.past.committed + s.past.pending;
    assert es + [] == es;
  }

  lemma CommitSaves(s: State)
    requires CommitInRange(s.node.db.Visible(), s.node.delivered)
    ensures StateAfterCommit(s).node.saved == CommittedState(s.node)
    ensures StateAfterCommit(s).node.last == CommittedState(s.node)
  {
    hide CommittedState, CommitPuts, BuiltFrom;
  }

  lemma CommitPast(s: State)
    requires CommitInRange(s.node.db.Visible(), s.node.delivered)
    ensures StateAfterCommit(s).past ==
            s.past.(committed := s.past.committed + s.past.pending, pending := [],
                    batches := s.past.batches + [s.past.pending],
                    commits := s.past.commits + [Announced(s.node, s.past.filter)])
  {
    hide Announced;
  }

  lemma StepKeepsBound(s: State, ev: Event)
    requires Invariant(s) && Admissible(s.node, ev) && Bound(s)
    ensures RunStep(s, ev).Some? && Bound(RunStep(s, ev).value)
  {
    hide Invariant, RunStep, Fees, CommitBinds;
    StepKeepsInvariant(s, ev);
    if ev.CommitEvent? {
      CommitKeepsBound(s);
    } else {
      SavedKept(s, ev);
      SamePastBinds(s.past, RunStep(s, ev).value.past);
      match ev
      case DeliverTxEvent(tx, minFee) => DeliveryAddsFee(s, tx, minFee);
      case RestartEvent(kept) =>
        RestartResetsPool(s, kept);
        assert s.past.committed + [] == s.past.committed;
      case _ => QuietKeepsPool(s, ev);
    }
  }

  lemma SamePastBinds(p: Past, q: Past)
    requires p.genesis == q.genesis && p.genesisHash == q.genesisHash
    requires p.batches == q.batches && p.commits == q.commits && CommitsBind(p)
    ensures CommitsBind(q)
  {
    hide Replay, Fees, Binds;
    forall k | 0 <= k < |q.commits| ensures CommitBinds(q, k) { assert CommitBinds(p, k); }
  }

  lemma {:induction false} RunKeepsBound(s: State, evs: seq<Event>)
    requires Invariant(s) && AdmissibleRun(s, evs) && Bound(s)
    ensures Run(s, evs).Some? && Invariant(Run(s, evs).value) && Bound(Run(s, evs).value)
    decreases |evs|
  {
    hide Invariant, RunStep, Bound, Admissible;
    if evs != [] {
      var init := evs[..|evs| - 1];
      AdmissiblePrefix(s, evs, |evs| - 1);
      RunKeepsBound(s, init);
      StepKeepsInvariant(Run(s, init).value, evs[|evs| - 1]);
      StepKeepsBound(Run(s, init).value, evs[|evs| - 1]);
    }
  }

  lemma StartsBound(c: InitConfig, time: Timespec, chainHexId: nat)
    requires Validated(c, time).Ok?
    ensures Bound(Initial(c, time, chainHexId))
  {
    hide Validated, AccountMap, PubKeys, BuiltFrom;
  }

  lemma ReachedBound(c: InitConfig, time: Timespec, chainHexId: nat, evs: seq<Event>, s: State)
    requires Reaches(c, time, chainHexId, evs, s)
    ensures Bound(s)
  {
    hide Invariant, AdmissibleRun, Validated, Run, Initial, Bound;
    InitialInvariant(c, time, chainHexId);
    StartsBound(c, time, chainHexId);
    RunKeepsBound(Initial(c, time, chainHexId), evs);
  }

  // ---------- Equal hashes ----------

  /** Two nodes, of any runs of any configurations, that have saved equal app hashes have stored equal
      accounts and equal pools. */
  lemma SavedHashBindsState(
    c: InitConfig, time: Timespec, chainHexId: nat, evs: seq<Event>, s: State,
    c': InitConfig, time': Timespec, chainHexId': nat, evs': seq<Event>, s': State)
    requires Reaches(c, time, chainHexId, evs, s) && Reaches(c', time', chainHexId', evs', s')
    requires s.node.saved.appHash == s'.node.saved.appHash
    ensures Stored(s).accounts == Stored(s').accounts && s.node.saved.pool == s'.node.saved.pool
  {
    hide Reaches, PoolOk, CommitsBind;
    ReachedBound(c, time, chainHexId, evs, s);
    ReachedBound(c', time', chainHexId', evs', s');
  }

  /** The hash announced for a block is of the accounts after that block, and of a pool with its
      genesis amount and the fees up to that block. */
  lemma AnnouncedHashBinds(c: InitConfig, time: Timespec, chainHexId: nat, evs: seq<Event>, s: State, k: nat)
    requires Reaches(c, time, chainHexId, evs, s) && k < |s.past.commits|
    ensures |s.past.batches| == |s.past.commits|
    ensures var es, h := Upto(s.past.batches, k), s.past.commits[k].appHash;
            && h.accountRoot == Replay(s.past.genesis, es)
            && h.pool.remaining == s.past.genesisHash.pool.remaining + Fees(es)
  {
    hide Reaches, PoolOk, Replay, Fees, Upto;
    ReachedBound(c, time, chainHexId, evs, s);
    assert CommitBinds(s.past, k);
  }

  /** Two announced blocks, of any runs, with equal hashes leave equal accounts behind. */
  lemma AnnouncedHashesBindAccounts(
    c: InitConfig, time: Timespec, chainHexId: nat, evs: seq<Event>, s: State, k: nat,
    c': InitConfig, time': Timespec, chainHexId': nat, evs': seq<Event>, s': State, k': nat)
    requires Reaches(c, time, chainHexId, evs, s) && Reaches(c', time', chainHexId', evs', s')
    requires k < |s.past.commits| && k' < |s'.past.commits|
    requires s.past.commits[k].appHash == s'.past.commits[k'].appHash
    ensures k < |s.past.batches| && k' < |s'.past.batches|
    ensures Replay(s.past.genesis, Upto(s.past.batches, k)) == Replay(s'.past.genesis, Upto(s'.past.batches, k'))
  {
    hide Reaches, Replay, Fees, Upto;
    AnnouncedHashBinds(c, time, chainHexId, evs, s, k);
    AnnouncedHashBinds(c', time', chainHexId', evs', s', k');
  }

  /** In every reachable state, the rewards pool holds its genesis amount and all fees accepted. */
  lemma PoolCollectsFees(c: InitConfig, time: Timespec, chainHexId: nat, evs: seq<Event>, s: State)
    requires Reaches(c, time, chainHexId, evs, s)
    ensures var genesis := s.past.genesisHash.pool.remaining;
            && Current(s).pool == genesis + Fees(Current(s).History())
            && Stored(s).pool == genesis + Fees(Stored(s).History())
  {
    hide Reaches, Fees, CommitsBind;
    ReachedBound(c, time, chainHexId, evs, s);
    assert Stored(s).History() == s.past.committed;
  }
}
