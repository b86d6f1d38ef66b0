/** When the supply stays exact along a run. */
module NodeSupply {
  import opened Wrappers
  import opened Coins
  import opened Transactions
  import opened Staking
  import opened UtxoDb
  import opened Settlement
  import opened TxVerification
  import opened Ledger
  import opened UtxoHistory
  import opened StakingHistory
  import opened Genesis
  import opened Validators
  import opened AppHashes
  import opened NodeSteps
  import opened NodeInvariant
  import opened NodeRuns

  ghost predicate SameSupply(s: State) {
    Supply(Stored(s)) == Supply(Current(s))
  }

  lemma SameLedgers(s: State, t: State)
    requires Current(t) == Current(s) && Stored(t) == Stored(s) && SameSupply(s)
    ensures SameSupply(t) && Supply(Current(t)) == Supply(Current(s))
  {
  }

  lemma QuietEventKeepsLedgers(s: State, ev: Event)
    requires RunStep(s, ev).Some? && (ev.BeginBlockEvent? || ev.CheckTxEvent? || ev.EndBlockEvent?)
    ensures Current(RunStep(s, ev).value) == Current(s) && Stored(RunStep(s, ev).value) == Stored(s)
  {
    hide VerifyTx, StoreAfter, Emits, Apply;
  }

  lemma DeliveryKeepsSupply(s: State, tx: TxAux, minFee: Coin)
    requires Invariant(s) && Admissible(s.node, DeliverTxEvent(tx, minFee)) && SameSupply(s)
    ensures RunStep(s, DeliverTxEvent(tx, minFee)).Some?
    ensures var t := RunStep(s, DeliverTxEvent(tx, minFee)).value;
            SameSupply(t) && Supply(Current(t)) == Supply(Current(s))
  {
    hide VerifyTx, RunStep, LedgerOk, Linked, FilterOk, StoreOk, ValidatorsOk, HashesOk, Supply;
    hide Allowed, Effect, Acceptable, EntryLegal, Accepted, Current, Stored;
    VerdictNeverPanics(s, tx, minFee);
    if s.node.Verdict(tx, minFee).Accept? {
      DeliveryAccepts(s, tx, minFee);
      var fa := s.node.Verdict(tx, minFee).value;
      var e := EntryOf(s.node, tx, minFee, fa.0, fa.1);
      DeliveryIsAccepted(s, e);
      AcceptedSupply(s.past.genesis, Current(s), e);
    }
    DeliverTxStep(s, tx, minFee);
  }

  lemma AcceptedSupply(g: Accounts, l: Ledger, e: Entry)
    requires LedgerOk(g, l) && Acceptable(l, e)
    ensures Supply(Accepted(l, e)) == Supply(l)
  {
    AcceptConserves(l, e);
  }

  lemma SoundDelivered(g: Accounts, l: Ledger)
    requires LedgerOk(g, l)
    ensures Delivered(l.meta, TxsOf(l.pending))
  {
  }

  lemma CommitSupply(s: State)
    requires Invariant(s) && Admissible(s.node, CommitEvent)
    ensures RunStep(s, CommitEvent).Some?
    ensures var t := RunStep(s, CommitEvent).value;
            && SameSupply(t) && Supply(Current(t)) <= Supply(Current(s))
            && (Supply(Current(t)) == Supply(Current(s)) <==> LosesNothing(Current(s).meta, TxsOf(Current(s).pending)))
  {
    hide LedgerOk, StoreOk, ValidatorsOk, HashesOk, FilterOk, RunStep, StateAfterCommit, Closed, Supply, LosesNothing;
    CommitKeepsLedgers(s);
    EmptyBlockKeepsRoot(s);
    CommitCloses(s);
    CommitStep(s);
    SoundDelivered(s.past.genesis, Current(s));
    CloseKeepsAtMost(Current(s), s.node.last.height);
    CloseConserves(Current(s), s.node.last.height);
  }

  lemma RestartSupply(s: State, kept: set<TxId>)
    requires Invariant(s) && SameSupply(s)
    ensures RunStep(s, RestartEvent(kept)).Some?
    ensures var t := RunStep(s, RestartEvent(kept)).value;
            SameSupply(t) && Supply(Current(t)) == Supply(Current(s))
  {
    hide LedgerOk, Linked, StoreOk, HashesOk, FilterOk, RunStep, StateAfterRestart, Supply, Current, Stored;
    CouncilStillPresent(s);
    RestartStep(s, kept);
    RestartKeepsRest(s, kept);
  }

  /** The block that the next commit closes writes nothing over unspent outputs. */
  ghost predicate Lossless(s: State, ev: Event) {
    ev.CommitEvent? ==> LosesNothing(Current(s).meta, TxsOf(Current(s).pending))
  }

  lemma SupplyStep(s: State, ev: Event)
    requires Invariant(s) && Admissible(s.node, ev) && SameSupply(s)
    ensures RunStep(s, ev).Some?
    ensures var t := RunStep(s, ev).value;
            && SameSupply(t) && Supply(Current(t)) <= Supply(Current(s))
            && (Supply(Current(t)) == Supply(Current(s)) <==> Lossless(s, ev))
  {
    hide Invariant, RunStep, Supply, Current, Stored, LosesNothing;
    StepKeepsInvariant(s, ev);
    match ev
    case DeliverTxEvent(tx, minFee) => DeliveryKeepsSupply(s, tx, minFee);
    case CommitEvent => CommitSupply(s);
    case RestartEvent(kept) => RestartSupply(s, kept);
    case _ =>
      QuietEventKeepsLedgers(s, ev);
      SameLedgers(s, RunStep(s, ev).value);
  }

  ghost predicate LosslessRun(s: State, evs: seq<Event>) {
    forall k | 0 <= k < |evs| :: Run(s, evs[..k]).Some? && Lossless(Run(s, evs[..k]).value, evs[k])
  }

  lemma LosslessPush(s: State, evs: seq<Event>, ev: Event)
    requires Run(s, evs).Some?
    ensures LosslessRun(s, evs + [ev]) <==> LosslessRun(s, evs) && Lossless(Run(s, evs).value, ev)
  {
    hide RunStep, Lossless, Run;
    var all := evs + [ev];
    assert all[..|evs|] == evs;
    forall k | 0 <= k < |evs| ensures all[..k] == evs[..k] {}
    if LosslessRun(s, all) {
      forall k | 0 <= k < |evs| ensures Run(s, evs[..k]).Some? && Lossless(Run(s, evs[..k]).value, evs[k]) {
        assert all[k] == evs[k] && all[..k] == evs[..k];
      }
      assert all[|evs|] == ev;
    }
  }

  lemma {:induction false} SupplyAlong(s: State, evs: seq<Event>)
    requires Invariant(s) && AdmissibleRun(s, evs) && SameSupply(s)
    ensures Run(s, evs).Some? && Invariant(Run(s, evs).value)
    ensures var t := Run(s, evs).value;
            && SameSupply(t) && Supply(Current(t)) <= Supply(Current(s))
            && (Supply(Current(t)) == Supply(Current(s)) <==> LosslessRun(s, evs))
    decreases |evs|
  {
    hide Invariant, RunStep, Supply, Current, Stored, Lossless, LosslessRun, SameSupply, Admissible;
    if evs == [] {
      NoEventsLossless(s);
    } else {
      var init, ev := evs[..|evs| - 1], evs[|evs| - 1];
      AdmissiblePrefix(s, evs, |evs| - 1);
      SupplyAlong(s, init);
      var m := Run(s, init).value;
      SupplyStep(m, ev);
      StepKeepsInvariant(m, ev);
      LosslessPush(s, init, ev);
      assert init + [ev] == evs;
    }
  }

  lemma NoEventsLossless(s: State)
    ensures LosslessRun(s, [])
  {
  }

  /** The supply is the maximum supply at the end of a run if and only if every block closed on the
      way lost nothing: no transaction created outputs under an id with unspent coins, or under an id
      created earlier in its block, and none consumed an output of such an id. */
  lemma SupplyExactIff(c: InitConfig, time: Timespec, chainHexId: nat, evs: seq<Event>, s: State)
    requires Reaches(c, time, chainHexId, evs, s)
    ensures Supply(Current(s)) == Supply(Stored(s)) <= MAX_COIN
    ensures Supply(Current(s)) == MAX_COIN <==> LosslessRun(Initial(c, time, chainHexId), evs)
  {
    hide Invariant, AdmissibleRun, Validated, Run, Initial, Supply, Current, Stored, LosslessRun;
    var s0 := Initial(c, time, chainHexId);
    InitialInvariant(c, time, chainHexId);
    InitialSupply(c, time, chainHexId);
    SupplyAlong(s0, evs);
  }

  lemma InitialSupply(c: InitConfig, time: Timespec, chainHexId: nat)
    requires c.DistinctAddresses() && Validated(c, time).Ok?
    ensures var s := Initial(c, time, chainHexId);
            SameSupply(s) && Supply(Current(s)) == MAX_COIN
  {
    hide Validated, AccountMap, InitChain, Supply, Invariant;
    InitialInvariant(c, time, chainHexId);
    var g := Validated(c, time).value;
    StartedLedgers(c, g, time, chainHexId);
    InvariantSupply(Initial(c, time, chainHexId));
  }

  lemma InvariantSupply(s: State)
    requires Invariant(s) && Current(s).History() == []
    ensures Supply(Current(s)) == MAX_COIN
  {
    hide Supply, UtxoInvariant, LegalHistory, Linked, FilterOk, StoreOk, ValidatorsOk, HashesOk;
  }
}
