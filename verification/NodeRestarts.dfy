/** What a crash and a restart bring back: the node as it was between two blocks. */
module NodeRestarts {
  import opened Wrappers
  import opened Merkle
  import opened Coins
  import opened Transactions
  import opened UtxoDb
  import opened Settlement
  import opened TxVerification
  import opened Ledger
  import opened UtxoHistory
  import opened StakingHistory
  import opened Genesis
  import opened Validators
  import opened BlockFilters
  import opened AppHashes
  import opened NodeSteps
  import opened NodeInvariant
  import opened NodeRuns
  import opened NodePowers

  /** Between blocks everything that a block works on is as it was saved. */
  predicate Clean(n: NodeState) {
    n.phase.Idle? ==>
      && n.last == n.saved && n.root == n.saved.accountRoot && n.delivered == [] && n.db.buffered == map[]
      && n.changed == map[] && n.filter == EmptyFilter()
  }

  /** What only a commit changes. */
  predicate SameSaved(a: NodeState, b: NodeState) {
    && a.db.disk == b.db.disk && a.trees == b.trees && a.appStates == b.appStates && a.saved == b.saved
    && a.chainHexId == b.chainHexId
  }

  lemma SavedStays(s: State, ev: Event)
    requires RunStep(s, ev).Some? && !ev.CommitEvent?
    ensures SameSaved(s.node, RunStep(s, ev).value.node)
  {
    hide VerifyTx, RestoredPowers, PubKeys, SpendPuts, PowerChange, StoreAfter;
  }

  lemma {:induction false} SavedStaysAlong(s: State, evs: seq<Event>)
    requires Run(s, evs).Some? && forall k | 0 <= k < |evs| :: !evs[k].CommitEvent?
    ensures SameSaved(s.node, Run(s, evs).value.node)
    decreases |evs|
  {
    hide RunStep;
    if evs != [] {
      var init := evs[..|evs| - 1];
      SavedStaysAlong(s, init);
      SavedStays(Run(s, init).value, evs[|evs| - 1]);
    }
  }

  lemma CommitCleans(s: State)
    requires Invariant(s) && Admissible(s.node, CommitEvent) && PowersOk(s)
    ensures RunStep(s, CommitEvent).Some? && Clean(RunStep(s, CommitEvent).value.node)
  {
    hide LedgerOk, StoreOk, ValidatorsOk, HashesOk, RunStep, InputIds, FilterFor, PubKeys;
    CommitKeepsLedgers(s);
    EmptyBlockKeepsRoot(s);
    CommitPersists(s);
    CommitStep(s);
    CommitLeaves(s);
  }

  lemma CommitLeaves(s: State)
    requires CommitInRange(s.node.db.Visible(), s.node.delivered)
    requires s.node.delivered == [] ==> s.node.root == s.node.saved.accountRoot == s.node.last.accountRoot
    ensures var t := StateAfterCommit(s).node;
            && t.last == t.saved && t.root == t.saved.accountRoot && t.delivered == []
            && t.changed == s.node.changed && t.filter == s.node.filter
  {
    hide CommitPuts, BuiltFrom;
  }

  lemma OthersClean(s: State, ev: Event)
    requires Clean(s.node) && Admissible(s.node, ev) && RunStep(s, ev).Some? && !ev.CommitEvent?
    ensures Clean(RunStep(s, ev).value.node)
  {
    hide VerifyTx, RestoredPowers, PubKeys, SpendPuts, PowerChange, StoreAfter, Emits;
  }

  lemma {:induction false} CleanAlong(s: State, evs: seq<Event>)
    requires Invariant(s) && AdmissibleRun(s, evs) && PowersOk(s) && Clean(s.node)
    ensures Run(s, evs).Some? && Clean(Run(s, evs).value.node)
    decreases |evs|
  {
    hide Invariant, RunStep, PowersOk, Admissible, Clean;
    if evs != [] {
      var init, ev := evs[..|evs| - 1], evs[|evs| - 1];
      AdmissiblePrefix(s, evs, |evs| - 1);
      CleanAlong(s, init);
      RunKeepsPowers(s, init);
      var m := Run(s, init).value;
      StepKeepsInvariant(m, ev);
      if ev.CommitEvent? { CommitCleans(m); } else { OthersClean(m, ev); }
    }
  }

  lemma StartsClean(c: InitConfig, time: Timespec, chainHexId: nat)
    requires Validated(c, time).Ok?
    ensures Clean(Initial(c, time, chainHexId).node)
  {
    hide Validated, AccountMap, PubKeys, BuiltFrom;
  }

  lemma ReachedClean(c: InitConfig, time: Timespec, chainHexId: nat, evs: seq<Event>, s: State)
    requires Reaches(c, time, chainHexId, evs, s)
    ensures Clean(s.node)
  {
    hide Invariant, AdmissibleRun, Validated, Run, Initial, PowersOk, Clean;
    InitialInvariant(c, time, chainHexId);
    StartsPowers(c, time, chainHexId);
    StartsClean(c, time, chainHexId);
    CleanAlong(Initial(c, time, chainHexId), evs);
  }

  /** The two nodes agree on all but the voting powers and the bodies in the enclave. */
  predicate SameButPowers(a: NodeState, b: NodeState) {
    a == b.(power := a.power, store := a.store)
  }

  lemma RestartParts(s: State, kept: set<TxId>)
    requires RunStep(s, RestartEvent(kept)).Some?
    ensures var t := RunStep(s, RestartEvent(kept)).value.node;
            && SameSaved(s.node, t) && t.phase.Idle? && t.keys == PubKeys(s.node.saved.council)
            && t.db == Db(s.node.db.disk, map[])
            && (forall id | id in s.node.store && (id in kept || id in s.node.db.disk) ::
                  id in t.store && t.store[id] == s.node.store[id])
  {
    hide RestoredPowers, PubKeys;
  }

  /** A node that stands between two blocks, goes on without a commit, is stopped at any moment and is
      restored, is what it was, except for the voting powers, which are rebuilt, and the bodies that
      the enclave has kept. */
  lemma RestartReturns(
    c: InitConfig, time: Timespec, chainHexId: nat, evs: seq<Event>, s: State, more: seq<Event>, t: State,
    kept: set<TxId>)
    requires Reaches(c, time, chainHexId, evs, s) && s.node.phase.Idle?
    requires Run(s, more) == Some(t) && Reaches(c, time, chainHexId, evs + more, t)
    requires forall k | 0 <= k < |more| :: !more[k].CommitEvent?
    ensures RunStep(t, RestartEvent(kept)).Some?
    ensures SameButPowers(RunStep(t, RestartEvent(kept)).value.node, s.node)
  {
    hide Reaches, Invariant, Run, RunStep, PubKeys, PowerIs;
    ReachedClean(c, time, chainHexId, evs, s);
    ReachedPowers(c, time, chainHexId, evs, s);
    SavedStaysAlong(s, more);
    ReachedInvariant(c, time, chainHexId, evs + more, t);
    StepKeepsInvariant(t, RestartEvent(kept));
    RestartParts(t, kept);
    RestartClean(t, kept);
  }

  lemma RestartClean(s: State, kept: set<TxId>)
    requires RunStep(s, RestartEvent(kept)).Some?
    ensures Clean(RunStep(s, RestartEvent(kept)).value.node)
  {
    hide RestoredPowers, PubKeys;
  }
}
