/** Building runs step by step: a block is begun, allowed transactions are delivered, and the block
    is ended and committed. */
module RunBuilding {
  import opened Wrappers
  import opened Coins
  import opened Transactions
  import opened Staking
  import opened Validation
  import opened UtxoDb
  import opened Settlement
  import opened TxVerification
  import opened Ledger
  import opened UtxoHistory
  import opened StakingHistory
  import opened Genesis
  import opened Validators
  import opened BlockFilters
  import opened Merkle
  import opened AppHashes
  import opened NodeSteps
  import opened NodeInvariant
  import opened NodeRuns

  /** What a run starts from. */
  datatype Origin = Origin(config: InitConfig, time: Timespec, chainHexId: nat)

  ghost predicate Leads(o: Origin, evs: seq<Event>, s: State) {
    Reaches(o.config, o.time, o.chainHexId, evs, s)
  }

  /** No voting powers are tracked, as before the first restart. */
  predicate Untracked(n: NodeState) {
    n.power == map[] && n.changed == map[]
  }

  ghost predicate Resting(o: Origin, evs: seq<Event>, s: State) {
    && Leads(o, evs, s) && s.node.phase.Idle? && Untracked(s.node) && s.past.pending == []
    && s.node.chainHexId == o.chainHexId && s.node.last.unbondingPeriod == o.config.unbondingPeriod
  }

  /** In a block with this time. */
  ghost predicate Working(o: Origin, evs: seq<Event>, s: State, time: Timespec) {
    && Leads(o, evs, s) && s.node.phase.InBlock? && Untracked(s.node)
    && s.node.Info(0) == ChainInfo(0, o.chainHexId, time, o.config.unbondingPeriod)
  }

  lemma AdmissiblePush(s: State, evs: seq<Event>, ev: Event)
    requires AdmissibleRun(s, evs) && Run(s, evs).Some? && Admissible(Run(s, evs).value.node, ev)
    ensures AdmissibleRun(s, evs + [ev])
    ensures Run(s, evs + [ev]) == RunStep(Run(s, evs).value, ev)
  {
    hide RunStep, Admissible;
    var all := evs + [ev];
    assert all[..|all| - 1] == evs;
    forall k | 0 <= k < |all| && Run(s, all[..k]).Some? ensures Admissible(Run(s, all[..k]).value.node, all[k]) {
      if k < |evs| { assert all[..k] == evs[..k]; } else { assert all[..k] == evs; }
    }
  }

  lemma LeadsPush(o: Origin, evs: seq<Event>, s: State, ev: Event)
    requires Leads(o, evs, s) && Admissible(s.node, ev)
    ensures RunStep(s, ev).Some? && Leads(o, evs + [ev], RunStep(s, ev).value)
  {
    hide RunStep, Admissible, AdmissibleRun, Initial, Invariant, Validated, Run;
    AdmissiblePush(Initial(o.config, o.time, o.chainHexId), evs, ev);
    ReachedInvariant(o.config, o.time, o.chainHexId, evs, s);
    StepKeepsInvariant(s, ev);
  }

  lemma Begin(o: Origin, evs: seq<Event>, s: State, time: Timespec) returns (evs': seq<Event>, t: State)
    requires Resting(o, evs, s)
    ensures Working(o, evs', t, time)
    ensures t.past == s.past && t.node.store == s.node.store && Current(t) == Current(s)
  {
    hide Leads;
    var ev := BeginBlockEvent(time);
    LeadsPush(o, evs, s, ev);
    evs', t := evs + [ev], RunStep(s, ev).value;
  }

  lemma DeliveredParts(s: State, e: Entry)
    requires InRange(s.node.db.Visible(), e.tx.Inputs()) && s.node.last.pool.remaining + e.fee <= MAX_COIN
    ensures var t := StateAfterDelivery(s, e.tx, e);
            && t.node.phase == s.node.phase && t.node.Info(0) == s.node.Info(0)
            && (Untracked(s.node) ==> Untracked(t.node))
            && t.node.store == StoreAfter(s.node.store, e.tx)
            && t.past == s.past.(pending := s.past.pending + [e])
  {
  }

  /** Delivering a transaction that is allowed: it is accepted. */
  lemma Deliver(o: Origin, evs: seq<Event>, s: State, time: Timespec, tx: TxAux)
    returns (evs': seq<Event>, t: State, e: Entry)
    requires Working(o, evs, s, time) && tx.WellFormed()
    requires Allowed(Current(s).meta, Current(s).accounts, s.node.store, tx, s.node.Info(0))
    ensures Working(o, evs', t, time)
    ensures e.tx == tx && e.info == s.node.Info(0) && Effect(Current(s).accounts, tx, e.info, e.fee, e.account)
    ensures t.past == s.past.(pending := s.past.pending + [e])
    ensures t.node.store == StoreAfter(s.node.store, tx) && Current(t) == Accepted(Current(s), e)
    ensures Supply(Current(t)) == Supply(Current(s))
  {
    hide Reaches, VerifyTx, Invariant, RunStep, Allowed, Effect, Accepted, Current, Acceptable, EntryLegal;
    hide StateAfterDelivery, LedgerOk, Untracked, Supply;
    var ev := DeliverTxEvent(tx, 0);
    LeadsPush(o, evs, s, ev);
    ReachedInvariant(o.config, o.time, o.chainHexId, evs, s);
    AcceptsAllowed(s, tx);
    VerdictNeverPanics(s, tx, 0);
    DeliveryAccepts(s, tx, 0);
    DeliverTxStep(s, tx, 0);
    var fa := s.node.Verdict(tx, 0).value;
    e := EntryOf(s.node, tx, 0, fa.0, fa.1);
    DeliveryIsAccepted(s, e);
    DeliveredParts(s, e);
    AcceptedSame(s, e);
    evs', t := evs + [ev], RunStep(s, ev).value;
  }

  lemma AcceptedSame(s: State, e: Entry)
    requires Invariant(s) && Acceptable(Current(s), e)
    ensures Supply(Accepted(Current(s), e)) == Supply(Current(s))
  {
    hide Supply, Acceptable, UtxoInvariant, LegalHistory, Linked, FilterOk, StoreOk, ValidatorsOk, HashesOk, Accepted;
    AcceptConserves(Current(s), e);
  }

  lemma AcceptsAllowed(s: State, tx: TxAux)
    requires Invariant(s) && tx.WellFormed()
    requires Allowed(Current(s).meta, Current(s).accounts, s.node.store, tx, s.node.Info(0))
    ensures s.node.Verdict(tx, 0).Accept?
  {
    hide Invariant, Allowed, VerifyTx, Effect, WithinCap, Current;
    VerdictNeverPanics(s, tx, 0);
    Decides(s, tx);
  }

  lemma Decides(s: State, tx: TxAux)
    requires Invariant(s) && tx.WellFormed()
    ensures s.node.Verdict(tx, 0).Reject? <==>
            !Allowed(Current(s).meta, Current(s).accounts, s.node.store, tx, s.node.Info(0))
  {
    var l := Current(s);
    assert AddressesMatch(l.accounts) && StoreSound(s.node.store);
    hide Invariant, VerifyTx, Allowed, Effect, WithinCap;
    VerificationDecides(l.meta, l.accounts, s.node.store, tx, s.node.Info(0));
  }

  lemma NothingToEmit(keys: Keys)
    ensures Emits(map[], keys, map[], [])
  {
  }

  lemma EndedParts(s: State, height: int)
    requires Untracked(s.node)
    ensures var t := StateAfterEndBlock(s, height, []);
            && t.node.phase.BlockEnded? && Untracked(t.node) && t.node.store == s.node.store
            && t.node.chainHexId == s.node.chainHexId && t.node.last.unbondingPeriod == s.node.last.unbondingPeriod
            && t.node.last.height == height && Current(t) == Current(s)
            && t.past == s.past.(tendermint := Apply(s.past.tendermint, []), filter := t.past.filter)
  {
  }

  lemma CommittedParts(s: State)
    requires CommitInRange(s.node.db.Visible(), s.node.delivered) && Untracked(s.node)
    ensures var t := StateAfterCommit(s);
            && t.node.phase.Idle? && Untracked(t.node) && t.node.store == s.node.store
            && t.node.chainHexId == s.node.chainHexId && t.node.last.unbondingPeriod == s.node.last.unbondingPeriod
            && t.past == s.past.(committed := s.past.committed + s.past.pending, pending := [],
                                 batches := s.past.batches + [s.past.pending], commits := t.past.commits)
            && t.node.saved.height == s.node.last.height
            && |t.past.commits| == |s.past.commits| + 1
            && t.past.commits[|s.past.commits|].height == s.node.last.height
            && s.past.commits <= t.past.commits
  {
    hide CommitPuts, BuiltFrom;
  }

  /** Ending and committing the block. */
  lemma Finish(o: Origin, evs: seq<Event>, s: State, time: Timespec)
    returns (evs': seq<Event>, t: State)
    requires Working(o, evs, s, time)
    ensures Resting(o, evs', t) && t.node.store == s.node.store
    ensures CommitInRange(Current(s).meta, TxsOf(Current(s).pending))
    ensures Current(t) == Closed(Current(s), s.node.saved.height + 1)
    ensures t.past == s.past.(committed := s.past.committed + s.past.pending, pending := [],
                              batches := s.past.batches + [s.past.pending], commits := t.past.commits,
                              tendermint := t.past.tendermint, filter := t.past.filter)
    ensures |t.past.commits| == |s.past.commits| + 1 && s.past.commits <= t.past.commits
    ensures t.past.commits[|s.past.commits|].height == s.node.saved.height + 1 == t.node.saved.height
  {
    hide Reaches, Invariant, RunStep, Current, Closed, StateAfterEndBlock, StateAfterCommit, Apply;
    var end, h := EndBlockEvent(s.node.saved.height + 1, []), s.node.saved.height + 1;
    NothingToEmit(s.node.keys);
    ReachedInvariant(o.config, o.time, o.chainHexId, evs, s);
    KeptUp(s);
    EndBlockStep(s, h, []);
    EndedParts(s, h);
    LeadsPush(o, evs, s, end);
    var m := RunStep(s, end).value;
    LeadsPush(o, evs + [end], m, CommitEvent);
    CommitStores(o.config, o.time, o.chainHexId, evs + [end], m);
    VisibleInRange(m);
    CommitStep(m);
    CommittedParts(m);
    evs', t := evs + [end] + [CommitEvent], RunStep(m, CommitEvent).value;
  }

  lemma KeptUp(s: State)
    requires Invariant(s)
    ensures WellKept(s.node.power, s.node.keys, s.node.changed, s.node.saved.requiredStake)
    ensures TxsOf(s.past.pending) == s.node.delivered
  {
  }

  lemma VisibleInRange(s: State)
    requires CommitInRange(Current(s).meta, TxsOf(Current(s).pending)) && RunStep(s, CommitEvent).Some?
    ensures CommitInRange(s.node.db.Visible(), s.node.delivered)
  {
  }

  /** The state after a block with one more transaction, e. */
  ghost predicate Extends(s: State, t: State, e: Entry) {
    && t.past.genesisHash == s.past.genesisHash
    && t.past.committed == s.past.committed + [e] && t.past.batches == s.past.batches + [[e]]
    && |t.past.commits| == |s.past.commits| + 1 && s.past.commits <= t.past.commits
    && t.past.commits[|s.past.commits|].height == s.node.saved.height + 1 == t.node.saved.height
    && Current(t).accounts == PutAccount(Current(s).accounts, e.account)
  }

  /** A block with one transaction. */
  lemma OneTxBlock(o: Origin, evs: seq<Event>, s: State, time: Timespec, tx: TxAux)
    returns (evs': seq<Event>, t: State, e: Entry)
    requires Resting(o, evs, s) && tx.WellFormed()
    requires Allowed(Current(s).meta, Current(s).accounts, s.node.store, tx,
                     ChainInfo(0, o.chainHexId, time, o.config.unbondingPeriod))
    ensures Resting(o, evs', t) && Extends(s, t, e) && e.tx == tx
    ensures Effect(Current(s).accounts, tx, ChainInfo(0, o.chainHexId, time, o.config.unbondingPeriod),
                   e.fee, e.account)
  {
    hide Leads, Allowed, Effect, Untracked, Supply, AfterSpending, Settled, TxsOf;
    var evs1, s1 := Begin(o, evs, s, time);
    var evs2, s2, d := Deliver(o, evs1, s1, time, tx);
    var evs3, s3 := Finish(o, evs2, s2, time);
    evs', t, e := evs3, s3, d;
    SavedHeights(s, s2);
    assert s.past.pending == [] && s2.past.pending == [e];
  }

  lemma SavedHeights(s: State, t: State)
    ensures Current(s).height == Current(t).height ==> s.node.saved.height == t.node.saved.height
  {
  }

  /** An output of a committed transaction that nothing has consumed can be spent. */
  lemma CanSpend(o: Origin, evs: seq<Event>, s: State, p: TxoPointer, k: nat)
    requires Leads(o, evs, s) && DistinctIds(s.past.committed + s.past.pending)
    requires k < |s.past.committed| && s.past.committed[k].tx.CreatesOutputs()
    requires s.past.committed[k].tx.Id() == p.id && p.index < |Outputs(p.id)|
    requires forall e | e in s.past.committed + s.past.pending :: p !in e.tx.Inputs()
    ensures Unspent(Current(s).meta, p) && p.id in s.node.store
  {
    hide Reaches, NodeAccepts, DistinctIds, SpentOnce;
    UtxosExact(o.config, o.time, o.chainHexId, evs, s);
    var e := s.past.committed[k];
    assert e in Current(s).committed && Creates(e, p);
    assert InUtxoSet(Current(s), p);
    assert NodeAccepts(s.node.db.Visible(), p);
    AcceptsUnspent(s, p);
  }

  lemma AcceptsUnspent(s: State, p: TxoPointer)
    requires NodeAccepts(s.node.db.Visible(), p)
    ensures Unspent(Current(s).meta, p)
  {
  }
}
