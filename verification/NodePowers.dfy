/** The voting power of every validator along runs, from the accounts and the transactions of a block
    alone. */
module NodePowers {
  import opened Wrappers
  import opened Coins
  import opened Transactions
  import opened Staking
  import opened UtxoDb
  import opened Settlement
  import opened TxVerification
  import opened Ledger
  import opened UtxoHistory
  import opened StakingHistory
  import opened Genesis
  import opened Validators
  import opened BlockFilters
  import opened Merkle
  import opened NodeSteps
  import opened NodeInvariant
  import opened NodeRuns

  // ---------- What a block does to a power ----------

  /** The whole coins that an account has bonded after the first k + 1 transactions of a block. */
  function PowerAfter(start: Accounts, es: seq<Entry>, k: nat, a: StakedStateAddress): nat
    requires k < |es|
  {
    var accounts := Replay(start, es[..k + 1]);
    if a in accounts then accounts[a].bonded / MAX_COIN_DECIMALS else 0
  }

  /** The k-th transaction of a block raises the bond of a validator above its power p, to at least the
      required one. */
  predicate Raises(start: Accounts, es: seq<Entry>, k: nat, a: StakedStateAddress, p: nat, required: nat)
    requires k < |es|
  {
    Target(es[k].tx) == Some(a) && PowerAfter(start, es, k, a) > p && PowerAfter(start, es, k, a) >= required
  }

  /** It leaves it below its power, which was sufficient. */
  predicate Lowers(start: Accounts, es: seq<Entry>, k: nat, a: StakedStateAddress, p: nat, required: nat)
    requires k < |es|
  {
    Target(es[k].tx) == Some(a) && PowerAfter(start, es, k, a) < p && p >= required
  }

  predicate Decides(start: Accounts, es: seq<Entry>, k: nat, a: StakedStateAddress, p: nat, required: nat)
    requires k < |es|
  {
    Raises(start, es, k, a, p, required) || Lowers(start, es, k, a, p, required)
  }

  predicate LastDecides(start: Accounts, es: seq<Entry>, k: nat, a: StakedStateAddress, p: nat, required: nat) {
    && k < |es| && Decides(start, es, k, a, p, required)
    && forall m | k < m < |es| :: !Decides(start, es, m, a, p, required)
  }

  predicate NoneDecides(start: Accounts, es: seq<Entry>, a: StakedStateAddress, p: nat, required: nat) {
    forall k | 0 <= k < |es| :: !Decides(start, es, k, a, p, required)
  }

  /** The power q of a validator after a block that it starts with power p: the last transaction that
      raises or lowers its bond in a way that counts decides; without one the power stays. */
  ghost predicate PowerIs(
    start: Accounts, es: seq<Entry>, a: StakedStateAddress, p: nat, required: nat, q: nat)
  {
    && (NoneDecides(start, es, a, p, required) ==> q == p)
    && (forall k | LastDecides(start, es, k, a, p, required) ::
          q == if Raises(start, es, k, a, p, required) then PowerAfter(start, es, k, a) else 0)
  }

  /** These two cases are all there are. */
  lemma {:induction false} SomeLastDecides(
    start: Accounts, es: seq<Entry>, n: nat, a: StakedStateAddress, p: nat, required: nat) returns (k: nat)
    requires n <= |es| && !NoneDecides(start, es, a, p, required)
    requires forall m | n <= m < |es| :: !Decides(start, es, m, a, p, required)
    ensures LastDecides(start, es, k, a, p, required)
    decreases n
  {
    hide Decides;
    if Decides(start, es, n - 1, a, p, required) {
      k := n - 1;
    } else {
      k := SomeLastDecides(start, es, n - 1, a, p, required);
    }
  }

  // ---------- One more transaction ----------

  lemma PrefixSame(start: Accounts, es: seq<Entry>, e: Entry, k: nat, a: StakedStateAddress, p: nat, required: nat)
    requires k < |es|
    ensures PowerAfter(start, es + [e], k, a) == PowerAfter(start, es, k, a)
    ensures Raises(start, es + [e], k, a, p, required) == Raises(start, es, k, a, p, required)
    ensures Decides(start, es + [e], k, a, p, required) == Decides(start, es, k, a, p, required)
  {
    hide Replay;
    assert (es + [e])[..k + 1] == es[..k + 1];
  }

  lemma NewestDecides(start: Accounts, es: seq<Entry>, e: Entry, a: StakedStateAddress, p: nat, required: nat)
    requires Decides(start, es + [e], |es|, a, p, required)
    ensures PowerIs(start, es + [e], a, p, required,
                    if Raises(start, es + [e], |es|, a, p, required) then PowerAfter(start, es + [e], |es|, a) else 0)
  {
    hide Decides, Raises, PowerAfter;
    assert LastDecides(start, es + [e], |es|, a, p, required);
  }

  lemma NewestIgnored(
    start: Accounts, es: seq<Entry>, e: Entry, a: StakedStateAddress, p: nat, required: nat, q: nat)
    requires !Decides(start, es + [e], |es|, a, p, required) && PowerIs(start, es, a, p, required, q)
    ensures PowerIs(start, es + [e], a, p, required, q)
  {
    hide Decides, Raises, PowerAfter;
    var all := es + [e];
    forall k | 0 <= k < |es|
      ensures PowerAfter(start, all, k, a) == PowerAfter(start, es, k, a)
      ensures Raises(start, all, k, a, p, required) == Raises(start, es, k, a, p, required)
      ensures Decides(start, all, k, a, p, required) == Decides(start, es, k, a, p, required)
    {
      PrefixSame(start, es, e, k, a, p, required);
    }
    forall k | LastDecides(start, all, k, a, p, required)
      ensures q == if Raises(start, all, k, a, p, required) then PowerAfter(start, all, k, a) else 0
    {
      assert LastDecides(start, es, k, a, p, required);
    }
  }

  lemma NothingDecided(start: Accounts, a: StakedStateAddress, p: nat, required: nat)
    ensures PowerIs(start, [], a, p, required, p)
  {
  }

  function Tracked(power: Powers, changed: Powers, a: StakedStateAddress): nat
    requires a in power
  {
    if a in changed then changed[a] else power[a]
  }

  /** Enough stake, worth less than before; or stake that is short of a fraction of a coin only. */
  predicate Mismatched(p: nat, required: Coin, a: StakedState) {
    var power := VotePower(a.bonded);
    if required <= a.bonded then 0 < power < p else 0 < power && p <= power == VotePower(required)
  }

  /** The power noted for an account is the power that a restart would give it, except exactly when the
      account keeps enough stake but loses some, or is short of a fraction of a coin. */
  lemma NotedIsRestoredIff(power: Powers, required: Coin, a: StakedState)
    requires a.address in power && (power[a.address] == 0 || power[a.address] >= VotePower(required))
    ensures Tracked(power, PowerChange(power, map[], required, Some(a)), a.address) == RestoredPower(a, required)
            <==> !Mismatched(power[a.address], required, a)
  {
    PowersInOrder(a.bonded, required);
    hide VotePower;
  }

  lemma PowersInOrder(x: Coin, y: Coin)
    ensures x <= y ==> VotePower(x) <= VotePower(y)
    ensures y <= x ==> VotePower(y) <= VotePower(x)
  {
  }

  /** Twenty coins of stake where ten are required: after taking out five the power noted is zero, and
      after a restart it is fifteen. */
  lemma PartialUnbondingNotedAsZero(address: StakedStateAddress)
    ensures var required, a := 10 * MAX_COIN_DECIMALS, StakedState(1, 15 * MAX_COIN_DECIMALS, 0, 0, address);
            && PowerChange(map[address := 20], map[], required, Some(a)) == map[address := 0]
            && RestoredPower(a, required) == 15
  {
  }

  /** What a delivery notes down, against what the account it leaves behind says. */
  lemma DeliveryNotes(
    start: Accounts, es: seq<Entry>, e: Entry, power: Powers, changed: Powers, required: Coin, a: StakedStateAddress)
    requires EntryLegal(Replay(start, es), e) && a in power
    requires PowerIs(start, es, a, power[a], VotePower(required), Tracked(power, changed, a))
    ensures PowerIs(start, es + [e], a, power[a], VotePower(required),
                    Tracked(power, PowerChange(power, changed, required, e.account), a))
  {
    hide PowerIs, Replay, Effect;
    var all, p, min := es + [e], power[a], VotePower(required);
    NewAccount(start, es, e, a);
    if Decides(start, all, |es|, a, p, min) {
      NewestDecides(start, es, e, a, p, min);
    } else {
      NewestIgnored(start, es, e, a, p, min, Tracked(power, changed, a));
    }
  }

  lemma NewAccount(start: Accounts, es: seq<Entry>, e: Entry, a: StakedStateAddress)
    requires EntryLegal(Replay(start, es), e)
    ensures Target(e.tx) == Some(a) <==> e.account.Some? && e.account.value.address == a
    ensures Target(e.tx) == Some(a) ==> PowerAfter(start, es + [e], |es|, a) == VotePower(e.account.value.bonded)
  {
    var all := es + [e];
    assert all[..|es| + 1] == all && all[..|all| - 1] == es;
    assert Replay(start, all) == PutAccount(Replay(start, es), e.account);
    EffectBalances(Replay(start, es), e);
    hide Replay, Effect;
  }

  // ---------- Along runs ----------

  /** In a block, what is noted for every validator is what the block has done to it so far; otherwise
      nothing is noted. */
  ghost predicate Noted(s: State) {
    match s.node.phase
    case InBlock =>
      forall a | a in s.node.power ::
        PowerIs(s.node.saved.accountRoot, s.past.pending, a, s.node.power[a], VotePower(s.node.saved.requiredStake),
                Tracked(s.node.power, s.node.changed, a))
    case _ => s.node.changed == map[]
  }

  ghost predicate PowersOk(s: State) {
    Noted(s) && s.node.keys == PubKeys(s.node.saved.council)
  }

  lemma {:induction false} ReplayAppend(g: Accounts, a: seq<Entry>, b: seq<Entry>)
    ensures Replay(Replay(g, a), b) == Replay(g, a + b)
    decreases |b|
  {
    if b == [] {
      assert a + b == a;
    } else {
      assert (a + b)[..|a + b| - 1] == a + b[..|b| - 1];
      ReplayAppend(g, a, b[..|b| - 1]);
    }
  }

  /** The accounts of the block in progress are those stored, with its transactions so far. */
  lemma BlockAccounts(s: State)
    requires LedgerOk(s.past.genesis, Current(s)) && LedgerOk(s.past.genesis, Stored(s))
    ensures Current(s).accounts == Replay(s.node.saved.accountRoot, s.past.pending)
  {
    hide Sound, UtxoInvariant, LegalHistory, Replay;
    ReplayAppend(s.past.genesis, s.past.committed, s.past.pending);
    assert Stored(s).History() == s.past.committed;
  }

  /** What moves powers: only the end of a block and a restart. */
  lemma PowersStay(s: State, ev: Event)
    requires RunStep(s, ev).Some? && !ev.EndBlockEvent? && !ev.RestartEvent?
    ensures var t := RunStep(s, ev).value.node;
            && t.power == s.node.power && t.keys == s.node.keys
            && (ev.DeliverTxEvent? || t.changed == s.node.changed)
            && (ev.BeginBlockEvent? ==> t.phase.InBlock?) && (ev.CommitEvent? ==> t.phase.Idle?)
            && (ev.CheckTxEvent? || ev.DeliverTxEvent? ==> t.phase == s.node.phase)
  {
    hide VerifyTx, CommitPuts, BuiltFrom, PowerChange, SpendPuts, StoreAfter;
    match ev
    case BeginBlockEvent(_) =>
    case CheckTxEvent(_, _) =>
    case DeliverTxEvent(_, _) =>
    case CommitEvent =>
  }

  lemma PendingStays(s: State, ev: Event)
    requires RunStep(s, ev).Some? && (ev.BeginBlockEvent? || ev.CheckTxEvent?)
    ensures var t := RunStep(s, ev).value;
            t.past.pending == s.past.pending && t.node.saved == s.node.saved
  {
    hide VerifyTx, StoreAfter;
  }

  lemma IdleIsEmpty(s: State)
    requires Linked(s) && s.node.phase.Idle?
    ensures s.past.pending == []
  {
  }

  lemma BeginKeepsNoted(s: State, ev: Event)
    requires Linked(s) && Admissible(s.node, ev) && RunStep(s, ev).Some? && (ev.BeginBlockEvent? || ev.CheckTxEvent?)
    requires Noted(s)
    ensures Noted(RunStep(s, ev).value)
  {
    hide RunStep, PowerIs, Linked;
    PowersStay(s, ev);
    PendingStays(s, ev);
    var t := RunStep(s, ev).value;
    if ev.BeginBlockEvent? {
      IdleIsEmpty(s);
      forall a | a in t.node.power
        ensures PowerIs(t.node.saved.accountRoot, [], a, t.node.power[a], VotePower(t.node.saved.requiredStake),
                        t.node.power[a])
      {
        NothingDecided(t.node.saved.accountRoot, a, t.node.power[a], VotePower(t.node.saved.requiredStake));
      }
    }
  }

  lemma DeliveredPowers(s: State, e: Entry)
    requires InRange(s.node.db.Visible(), e.tx.Inputs()) && s.node.last.pool.remaining + e.fee <= MAX_COIN
    ensures var t := StateAfterDelivery(s, e.tx, e);
            && t.node.saved == s.node.saved && t.node.power == s.node.power && t.node.phase == s.node.phase
            && t.node.changed == PowerChange(s.node.power, s.node.changed, s.node.last.requiredStake, e.account)
            && t.past.pending == s.past.pending + [e]
  {
    hide PowerChange;
  }

  lemma DeliveryKeepsNoted(s: State, tx: TxAux, minFee: Coin)
    requires Invariant(s) && Admissible(s.node, DeliverTxEvent(tx, minFee)) && Noted(s)
    ensures RunStep(s, DeliverTxEvent(tx, minFee)).Some? && Noted(RunStep(s, DeliverTxEvent(tx, minFee)).value)
  {
    hide VerifyTx, RunStep, LedgerOk, FilterOk, StoreOk, ValidatorsOk, HashesOk, Allowed, Effect, Acceptable;
    hide EntryLegal, Accepted, Replay, PowerIs, PowerChange, StateAfterDelivery, InputIds;
    VerdictNeverPanics(s, tx, minFee);
    if s.node.Verdict(tx, minFee).Accept? {
      DeliveryAccepts(s, tx, minFee);
      var fa := s.node.Verdict(tx, minFee).value;
      var e := EntryOf(s.node, tx, minFee, fa.0, fa.1);
      DeliveredPowers(s, e);
      BlockAccounts(s);
      var n := s.node;
      forall a | a in n.power
        ensures PowerIs(n.saved.accountRoot, s.past.pending + [e], a, n.power[a], VotePower(n.saved.requiredStake),
                        Tracked(n.power, PowerChange(n.power, n.changed, n.saved.requiredStake, e.account), a))
      {
        DeliveryNotes(n.saved.accountRoot, s.past.pending, e, n.power, n.changed, n.saved.requiredStake, a);
      }
    }
    DeliverTxStep(s, tx, minFee);
  }

  lemma EndsNoted(s: State, ev: Event)
    requires Linked(s) && RunStep(s, ev).Some? && (ev.EndBlockEvent? || ev.RestartEvent?)
    ensures var t := RunStep(s, ev).value;
            && Noted(t) && t.node.saved == s.node.saved
            && (ev.EndBlockEvent? ==> t.node.keys == s.node.keys)
            && (ev.RestartEvent? ==> t.node.keys == PubKeys(s.node.saved.council))
  {
    hide RestoredPowers, PubKeys, ViewOf, Apply, AddViews, PowerIs, InputIds;
  }

  lemma StepKeepsPowers(s: State, ev: Event)
    requires Invariant(s) && Admissible(s.node, ev) && PowersOk(s)
    ensures RunStep(s, ev).Some? && PowersOk(RunStep(s, ev).value)
  {
    StepKeepsInvariant(s, ev);
    StakeFixedStep(s, ev);
    hide Invariant, RunStep, PowerIs, PubKeys;
    if ev.EndBlockEvent? || ev.RestartEvent? {
      EndsNoted(s, ev);
    } else {
      PowersStay(s, ev);
      match ev
      case DeliverTxEvent(tx, minFee) => DeliveryKeepsNoted(s, tx, minFee);
      case CommitEvent =>
      case _ => BeginKeepsNoted(s, ev);
    }
  }

  lemma {:induction false} RunKeepsPowers(s: State, evs: seq<Event>)
    requires Invariant(s) && AdmissibleRun(s, evs) && PowersOk(s)
    ensures Run(s, evs).Some? && Invariant(Run(s, evs).value) && PowersOk(Run(s, evs).value)
    decreases |evs|
  {
    hide Invariant, RunStep, PowersOk, Admissible;
    if evs != [] {
      var init := evs[..|evs| - 1];
      AdmissiblePrefix(s, evs, |evs| - 1);
      RunKeepsPowers(s, init);
      StepKeepsInvariant(Run(s, init).value, evs[|evs| - 1]);
      StepKeepsPowers(Run(s, init).value, evs[|evs| - 1]);
    }
  }

  lemma StartsPowers(c: InitConfig, time: Timespec, chainHexId: nat)
    requires Validated(c, time).Ok?
    ensures PowersOk(Initial(c, time, chainHexId))
    ensures var saved := Initial(c, time, chainHexId).node.saved;
            saved.requiredStake == c.requiredStake && saved.council == Validated(c, time).value.council
  {
    hide Validated, AccountMap, PubKeys;
  }

  lemma ReachedPowers(c: InitConfig, time: Timespec, chainHexId: nat, evs: seq<Event>, s: State)
    requires Reaches(c, time, chainHexId, evs, s)
    ensures PowersOk(s) && Invariant(s)
    ensures s.node.saved.requiredStake == c.requiredStake && s.node.saved.council == Validated(c, time).value.council
  {
    hide Invariant, AdmissibleRun, Validated, Run, Initial, PowersOk;
    InitialInvariant(c, time, chainHexId);
    StartsPowers(c, time, chainHexId);
    RunKeepsPowers(Initial(c, time, chainHexId), evs);
    StakeFixed(Initial(c, time, chainHexId), evs);
  }

  // ---------- The results ----------

  /** The update of a validator whose power a block changes. */
  predicate Moved(before: NodeState, after: NodeState, a: StakedStateAddress, u: ValidatorUpdate) {
    && a in before.power && a in after.power && a in before.keys
    && after.power[a] != before.power[a] && u == ValidatorUpdate(before.keys[a], after.power[a])
  }

  /** The end of a block, in every run: the power of every tracked validator is what the transactions
      of the block make of it, starting from the stored accounts; and exactly the validators whose
      power differs are sent, with their keys and new powers. */
  lemma BlockPowers(
    c: InitConfig, time: Timespec, chainHexId: nat, evs: seq<Event>, s: State, height: int,
    updates: seq<ValidatorUpdate>)
    requires Reaches(c, time, chainHexId, evs, s) && Admissible(s.node, EndBlockEvent(height, updates))
    ensures RunStep(s, EndBlockEvent(height, updates)).Some?
    ensures var n, t := s.node, RunStep(s, EndBlockEvent(height, updates)).value.node;
            && t.power.Keys == n.power.Keys
            && (forall a | a in n.power ::
                  PowerIs(Stored(s).accounts, s.past.pending, a, n.power[a], VotePower(c.requiredStake), t.power[a]))
            && (forall u :: u in updates <==> exists a :: Moved(n, t, a, u))
  {
    hide Reaches, LedgerOk, Linked, FilterOk, StoreOk, HashesOk, PowerIs, RunStep, PubKeys, Agrees;
    ReachedPowers(c, time, chainHexId, evs, s);
    var n := s.node;
    EndBlockStep(s, height, updates);
    var t := RunStep(s, EndBlockEvent(height, updates)).value.node;
    MergedPowers(n.power, n.changed);
    forall u ensures u in updates <==> exists a :: Moved(n, t, a, u) {
      forall a ensures UpdateFor(n.power, n.keys, n.changed, a, u) <==> Moved(n, t, a, u) {}
    }
  }

  lemma MergedPowers(power: Powers, changed: Powers)
    requires changed.Keys <= power.Keys
    ensures (power + changed).Keys == power.Keys
    ensures forall a | a in power :: (power + changed)[a] == Tracked(power, changed, a)
  {
  }

  /** No other request moves a power. */
  lemma PowersMoveOnlyAtEnd(
    c: InitConfig, time: Timespec, chainHexId: nat, evs: seq<Event>, s: State, ev: Event)
    requires Reaches(c, time, chainHexId, evs, s) && Admissible(s.node, ev)
    requires !ev.EndBlockEvent? && !ev.RestartEvent?
    ensures RunStep(s, ev).Some? && RunStep(s, ev).value.node.power == s.node.power
  {
    hide Reaches, Invariant, RunStep;
    ReachedInvariant(c, time, chainHexId, evs, s);
    StepKeepsInvariant(s, ev);
    PowersStay(s, ev);
  }

  /** A restart at any moment of any run: the tracked validators are the council nodes of the
      configuration, each with power zero if its stored bond is below the required stake, and with the
      whole coins of that bond otherwise; and so is Tendermint's view. */
  lemma RestartPowers(
    c: InitConfig, time: Timespec, chainHexId: nat, evs: seq<Event>, s: State, kept: set<TxId>, n: CouncilNode)
    requires Reaches(c, time, chainHexId, evs, s) && n in Validated(c, time).value.council
    ensures RunStep(s, RestartEvent(kept)).Some? && n.stakingAccount in Stored(s).accounts
    ensures var t := RunStep(s, RestartEvent(kept)).value;
            var bond := Stored(s).accounts[n.stakingAccount].bonded;
            && n.stakingAccount in t.node.power && n.consensusKey in t.past.tendermint
            && t.node.power[n.stakingAccount] == (if bond < c.requiredStake then 0 else bond / MAX_COIN_DECIMALS)
            && t.past.tendermint[n.consensusKey] == t.node.power[n.stakingAccount]
            && forall a | a in t.node.power :: exists m | m in Validated(c, time).value.council :: m.stakingAccount == a
  {
    hide Reaches, LedgerOk, Linked, FilterOk, StoreOk, HashesOk, PowersOk, RunStep, Validated, WellKept, Agrees;
    hide RestoredPowers, PubKeys, CouncilDistinct, CouncilPresent;
    ReachedPowers(c, time, chainHexId, evs, s);
    CouncilStillPresent(s);
    RestartStep(s, kept);
    RestoredExact(s.node.saved.accountRoot, s.node.saved.council, s.node.saved.requiredStake, n);
    RestartedMaps(s, kept, n);
    assert forall a | a in PubKeys(s.node.saved.council) ::
        exists m | m in s.node.saved.council :: m.stakingAccount == a by { PubKeysShape(s.node.saved.council); }
    RestoredKeys(s.node.saved.accountRoot, s.node.saved.council, s.node.saved.requiredStake);
  }

  lemma RestartedMaps(s: State, kept: set<TxId>, n: CouncilNode)
    requires CouncilPresent(s.node.saved.accountRoot, s.node.saved.council) && CouncilDistinct(s.node.saved.council)
    requires n in s.node.saved.council
    requires n.stakingAccount in PubKeys(s.node.saved.council)
    requires PubKeys(s.node.saved.council)[n.stakingAccount] == n.consensusKey
    ensures n.stakingAccount in s.node.saved.accountRoot
    ensures var t, saved := StateAfterRestart(s, kept), s.node.saved;
            && t.node.power == RestoredPowers(saved.accountRoot, saved.council, saved.requiredStake)
            && (n.stakingAccount in t.node.power ==>
                  && n.consensusKey in t.past.tendermint
                  && t.past.tendermint[n.consensusKey] == t.node.power[n.stakingAccount])
  {
    hide RestoredPowers, PubKeys;
    RestoredWellKept(s.node.saved.accountRoot, s.node.saved.council, s.node.saved.requiredStake);
  }
}
