/** Staking along a history of accepted transactions: unbonding times and nonces. */
module StakingHistory {
  import opened Wrappers
  import opened Coins
  import opened Transactions
  import opened Staking
  import opened Validation
  import opened UtxoDb
  import opened TxVerification
  import opened LiveOutputs
  import opened Ledger

  /** The accounts after a history that starts from the genesis accounts `g`. */
  function Replay(g: Accounts, es: seq<Entry>): Accounts {
    if es == [] then g else PutAccount(Replay(g, es[..|es| - 1]), es[|es| - 1].account)
  }

  predicate StakeRules(before: Accounts, e: Entry) {
    match e.tx
    case UnbondStakeTx(u, _) =>
      Target(e.tx).Some? && Target(e.tx).value in before && UnbondAllowed(u, e.info, before[Target(e.tx).value])
    case WithdrawUnbondedStakeTx(txid, _, _, _) =>
      && Target(e.tx).Some? && Target(e.tx).value in before
      && txid.WithdrawId? && WithdrawAllowed(txid.withdraw, e.info, before[Target(e.tx).value])
    case _ => true
  }

  predicate InputsUnlocked(e: Entry) {
    forall p | p in e.tx.Inputs() ::
      p.index < |Outputs(p.id)| && Unlocked(Outputs(p.id)[p.index], e.info.previousBlockTime)
  }

  /** The id is that of the transaction, also where the transaction is in the payload. */
  predicate IdFits(tx: TxAux) {
    && InputsOf(tx.Id()) == tx.Inputs() && NoDuplicates(tx.Inputs())
    && match tx
       case TransferTx(txid, _, _, PlainTransfer(t, _)) => txid == TransferId(t)
       case WithdrawUnbondedStakeTx(txid, _, _, PlainWithdraw(t)) => txid == WithdrawId(t)
       case _ => !tx.CreatesOutputs()
  }

  predicate EntryLegal(before: Accounts, e: Entry) {
    && AddressesMatch(before)
    && Effect(before, e.tx, e.info, e.fee, e.account)
    && (!e.tx.TransferTx? ==> e.account.Some?)
    && StakeRules(before, e)
    && InputsUnlocked(e)
    && IdFits(e.tx)
  }

  ghost predicate LegalHistory(g: Accounts, es: seq<Entry>) {
    forall k | 0 <= k < |es| :: EntryLegal(Replay(g, es[..k]), es[k])
  }

  predicate IsUnbondOf(e: Entry, a: StakedStateAddress) {
    e.tx.UnbondStakeTx? && Target(e.tx) == Some(a)
  }

  predicate IsWithdrawOf(e: Entry, a: StakedStateAddress) {
    e.tx.WithdrawUnbondedStakeTx? && Target(e.tx) == Some(a)
  }

  function UnlockTime(e: Entry): Timespec {
    e.info.previousBlockTime + e.info.unbondingPeriod
  }

  lemma LegalPush(g: Accounts, es: seq<Entry>, e: Entry)
    requires LegalHistory(g, es) && EntryLegal(Replay(g, es), e)
    ensures LegalHistory(g, es + [e])
    ensures Replay(g, es + [e]) == PutAccount(Replay(g, es), e.account)
  {
    var all := es + [e];
    assert all[..|all| - 1] == es;
    forall k | 0 <= k < |all| ensures EntryLegal(Replay(g, all[..k]), all[k]) {
      if k < |es| {
        assert all[..k] == es[..k];
      } else {
        assert all[..k] == es;
      }
    }
  }

  /** What one entry does to one account. */
  lemma EntryAdvances(before: Accounts, e: Entry, a: StakedStateAddress)
    requires EntryLegal(before, e)
    ensures var after := PutAccount(before, e.account);
            && before.Keys <= after.Keys
            && (Target(e.tx) != Some(a) && a in before ==> after[a] == before[a])
            && (Target(e.tx) == Some(a) ==> a in after)
            && (Target(e.tx) == Some(a) && a in before ==> after[a].nonce == before[a].nonce + 1)
            && (a in before && !IsUnbondOf(e, a) ==> after[a].unbondedFrom == before[a].unbondedFrom)
            && (IsUnbondOf(e, a) ==> after[a].unbondedFrom == UnlockTime(e))
  {
    EffectBalances(before, e);
  }

  lemma ReplayStep(g: Accounts, es: seq<Entry>, k: nat)
    requires k < |es|
    ensures Replay(g, es[..k + 1]) == PutAccount(Replay(g, es[..k]), es[k].account)
  {
    assert es[..k + 1][..k] == es[..k];
  }

  /** Between two unbondings of an account its unlock time is that of the first one. */
  lemma {:induction false} UnlockTimeKept(g: Accounts, es: seq<Entry>, i: nat, k: nat, a: StakedStateAddress)
    requires LegalHistory(g, es) && i < k <= |es| && IsUnbondOf(es[i], a)
    requires forall m | i < m < k :: !IsUnbondOf(es[m], a)
    ensures a in Replay(g, es[..k]) && Replay(g, es[..k])[a].unbondedFrom == UnlockTime(es[i])
    decreases k
  {
    ReplayStep(g, es, k - 1);
    EntryAdvances(Replay(g, es[..k - 1]), es[k - 1], a);
    if k - 1 > i {
      UnlockTimeKept(g, es, i, k - 1, a);
    }
  }

  /** A withdrawal is accepted only once the unbonding period of the latest unbonding is over, and
      its outputs can be consumed, by any entry of the history, only after that time either. */
  lemma WithdrawalWaits(g: Accounts, es: seq<Entry>, i: nat, k: nat, a: StakedStateAddress)
    requires LegalHistory(g, es) && i < k < |es| && IsUnbondOf(es[i], a) && IsWithdrawOf(es[k], a)
    requires forall m | i < m < k :: !IsUnbondOf(es[m], a)
    ensures es[k].info.previousBlockTime >= UnlockTime(es[i])
    ensures forall m, p | 0 <= m < |es| && p in es[m].tx.Inputs() && p.id == es[k].tx.Id() ::
              es[m].info.previousBlockTime >= UnlockTime(es[i])
  {
    UnlockTimeKept(g, es, i, k, a);
    var acc := Replay(g, es[..k])[a];
    assert EntryLegal(Replay(g, es[..k]), es[k]);
    assert WithdrawAllowed(es[k].tx.txid.withdraw, es[k].info, acc);
    forall m, p | 0 <= m < |es| && p in es[m].tx.Inputs() && p.id == es[k].tx.Id()
      ensures es[m].info.previousBlockTime >= UnlockTime(es[i])
    {
      assert EntryLegal(Replay(g, es[..m]), es[m]);
      assert Outputs(p.id)[p.index] in es[k].tx.txid.withdraw.outputs;
    }
  }

  function OperationsOn(es: seq<Entry>, a: StakedStateAddress): nat {
    if es == [] then 0
    else OperationsOn(es[..|es| - 1], a) + (if Target(es[|es| - 1].tx) == Some(a) then 1 else 0)
  }

  /** Every accepted operation on an existing account advances its nonce by exactly one, and nothing
      else does; accounts are never removed. */
  lemma {:induction false} NonceCountsOperations(g: Accounts, es: seq<Entry>, i: nat, k: nat, a: StakedStateAddress)
    requires LegalHistory(g, es) && i <= k <= |es| && a in Replay(g, es[..i])
    ensures a in Replay(g, es[..k])
    ensures Replay(g, es[..k])[a].nonce == Replay(g, es[..i])[a].nonce + OperationsOn(es[i..k], a)
    decreases k
  {
    hide OperationsOn, Replay, Target, EntryLegal, PutAccount;
    if i < k {
      NonceCountsOperations(g, es, i, k - 1, a);
      ReplayStep(g, es, k - 1);
      EntryAdvances(Replay(g, es[..k - 1]), es[k - 1], a);
      OperationsLast(es, i, k, a);
    } else {
      NoOperations(es, i, a);
    }
  }

  lemma NoOperations(es: seq<Entry>, i: nat, a: StakedStateAddress)
    requires i <= |es|
    ensures OperationsOn(es[i..i], a) == 0
  {
  }

  lemma OperationsLast(es: seq<Entry>, i: nat, k: nat, a: StakedStateAddress)
    requires i < k <= |es|
    ensures OperationsOn(es[i..k], a) ==
            OperationsOn(es[i..k - 1], a) + (if Target(es[k - 1].tx) == Some(a) then 1 else 0)
  {
    assert es[i..k][..k - 1 - i] == es[i..k - 1];
  }

  predicate IsDebitOf(e: Entry, a: StakedStateAddress) {
    IsUnbondOf(e, a) || IsWithdrawOf(e, a)
  }

  /** No unbonding and no withdrawal is accepted twice for one account. */
  lemma NoDebitTwice(g: Accounts, es: seq<Entry>, i: nat, k: nat, a: StakedStateAddress)
    requires LegalHistory(g, es) && i < k < |es| && IsDebitOf(es[i], a) && IsDebitOf(es[k], a)
    ensures es[i].tx.Id() != es[k].tx.Id()
  {
    assert EntryLegal(Replay(g, es[..i]), es[i]) && EntryLegal(Replay(g, es[..k]), es[k]);
    NonceCountsOperations(g, es, i, k, a);
    FirstCounts(es[i..k], a);
  }

  lemma {:induction false} FirstCounts(es: seq<Entry>, a: StakedStateAddress)
    requires es != [] && Target(es[0].tx) == Some(a)
    ensures OperationsOn(es, a) >= 1
  {
    if |es| > 1 {
      FirstCounts(es[..|es| - 1], a);
    }
  }
}
