/** Where the stake of an account is along a history of accepted transactions: what is bonded, what is
    unbonded, and what withdrawals pay out. */
module StakingBalances {
  import opened Wrappers
  import opened Coins
  import opened Transactions
  import opened Staking
  import opened Validation
  import opened UtxoDb
  import opened Settlement
  import opened TxVerification
  import opened Ledger
  import opened StakingHistory

  /** What an accepted entry leaves in the account it targets. */
  predicate Moves(before: Option<StakedState>, e: Entry, after: StakedState) {
    match e.tx
    case TransferTx(_, _, _, _) => false
    case DepositStakeTx(d, _) =>
      var amount := InputTotal(d.inputs) - e.fee;
      (match before
       case Some(b) =>
         && after.bonded == b.bonded + amount && after.unbonded == b.unbonded
         && after.unbondedFrom == b.unbondedFrom && after.nonce == b.nonce + 1
       case None =>
         && after.bonded == amount && after.unbonded == 0
         && after.unbondedFrom == e.info.previousBlockTime && after.nonce == 0)
    case UnbondStakeTx(u, _) =>
      && before.Some?
      && after.bonded + u.value + e.fee == before.value.bonded
      && after.unbonded == before.value.unbonded + u.value
      && after.unbondedFrom == UnlockTime(e) && after.nonce == before.value.nonce + 1
    case WithdrawUnbondedStakeTx(txid, _, _, _) =>
      && before.Some?
      && after.bonded == before.value.bonded && after.unbonded == 0
      && OutputTotal(txid) + e.fee == before.value.unbonded
      && after.unbondedFrom == before.value.unbondedFrom && after.nonce == before.value.nonce + 1
  }

  /** An accepted entry moves value in the account it targets, and leaves every other one alone. */
  lemma EntryMoves(before: Accounts, e: Entry, a: StakedStateAddress)
    requires EntryLegal(before, e)
    ensures var after := PutAccount(before, e.account);
            && (Target(e.tx) != Some(a) ==> Lookup(after, a) == Lookup(before, a))
            && (Target(e.tx) == Some(a) ==>
                  a in after && after[a].address == a && Moves(Lookup(before, a), e, after[a]))
  {
    hide InputTotal, OutputTotal;
    EffectBalances(before, e);
  }

  // ---------- Sums along a history ----------

  function BondedAt(accounts: Accounts, a: StakedStateAddress): nat {
    if a in accounts then accounts[a].bonded else 0
  }

  function UnbondedAt(accounts: Accounts, a: StakedStateAddress): nat {
    if a in accounts then accounts[a].unbonded else 0
  }

  /** What an entry deposits to an account. */
  function DepositedBy(e: Entry, a: StakedStateAddress): int {
    match e.tx
    case DepositStakeTx(d, _) => if d.toStakedAccount == a then InputTotal(d.inputs) - e.fee else 0
    case _ => 0
  }

  /** What an entry takes from the bond of an account for unbonding. */
  function UnbondedBy(e: Entry, a: StakedStateAddress): nat {
    match e.tx
    case UnbondStakeTx(u, _) => if Target(e.tx) == Some(a) then u.value else 0
    case _ => 0
  }

  function UnbondFee(e: Entry, a: StakedStateAddress): nat {
    if IsUnbondOf(e, a) then e.fee else 0
  }

  function Deposits(es: seq<Entry>, a: StakedStateAddress): int {
    if es == [] then 0 else Deposits(es[..|es| - 1], a) + DepositedBy(es[|es| - 1], a)
  }

  function Unbondings(es: seq<Entry>, a: StakedStateAddress): nat {
    if es == [] then 0 else Unbondings(es[..|es| - 1], a) + UnbondedBy(es[|es| - 1], a)
  }

  function UnbondFees(es: seq<Entry>, a: StakedStateAddress): nat {
    if es == [] then 0 else UnbondFees(es[..|es| - 1], a) + UnbondFee(es[|es| - 1], a)
  }

  lemma EntryBonds(before: Accounts, e: Entry, a: StakedStateAddress)
    requires EntryLegal(before, e)
    ensures var after := PutAccount(before, e.account);
            && BondedAt(after, a) + UnbondedBy(e, a) + UnbondFee(e, a) == BondedAt(before, a) + DepositedBy(e, a)
            && (!IsWithdrawOf(e, a) ==> UnbondedAt(after, a) == UnbondedAt(before, a) + UnbondedBy(e, a))
            && (IsWithdrawOf(e, a) ==> UnbondedAt(after, a) == 0)
            && (IsWithdrawOf(e, a) ==> OutputTotal(e.tx.Id()) + e.fee == UnbondedAt(before, a))
  {
    hide EntryLegal, PutAccount, InputTotal, OutputTotal;
    EntryMoves(before, e, a);
  }

  /** At every point of a history, the bond of an account is its genesis bond plus its deposits, less
      its unbondings and their fees. */
  lemma {:induction false} BondIsExact(g: Accounts, es: seq<Entry>, k: nat, a: StakedStateAddress)
    requires LegalHistory(g, es) && k <= |es|
    ensures BondedAt(Replay(g, es[..k]), a) + Unbondings(es[..k], a) + UnbondFees(es[..k], a)
            == BondedAt(g, a) + Deposits(es[..k], a)
    decreases k
  {
    hide EntryLegal, PutAccount, BondedAt, UnbondedAt, UnbondedBy, UnbondFee, DepositedBy, OutputTotal, IsWithdrawOf;
    if k > 0 {
      BondIsExact(g, es, k - 1, a);
      ReplayStep(g, es, k - 1);
      EntryBonds(Replay(g, es[..k - 1]), es[k - 1], a);
      assert es[..k][..k - 1] == es[..k - 1];
    }
  }

  predicate NoWithdrawal(es: seq<Entry>, i: nat, k: nat, a: StakedStateAddress)
    requires i <= k <= |es|
  {
    forall m | i <= m < k :: !IsWithdrawOf(es[m], a)
  }

  /** Between withdrawals the unbonded amount of an account grows by exactly what is unbonded. */
  lemma {:induction false} UnbondedGrows(g: Accounts, es: seq<Entry>, i: nat, k: nat, a: StakedStateAddress)
    requires LegalHistory(g, es) && i <= k <= |es| && NoWithdrawal(es, i, k, a)
    ensures UnbondedAt(Replay(g, es[..k]), a) == UnbondedAt(Replay(g, es[..i]), a) + Unbondings(es[i..k], a)
    decreases k
  {
    hide EntryLegal, PutAccount, BondedAt, UnbondedAt, UnbondedBy, UnbondFee, DepositedBy, OutputTotal, IsWithdrawOf;
    hide Replay;
    if i < k {
      UnbondedGrows(g, es, i, k - 1, a);
      ReplayStep(g, es, k - 1);
      EntryBonds(Replay(g, es[..k - 1]), es[k - 1], a);
      assert es[i..k][..k - 1 - i] == es[i..k - 1];
    }
  }

  /** The unbonded amount of an account is what was unbonded since its last withdrawal, or, before the
      first one, its genesis amount and what was unbonded since. */
  lemma UnbondedIsExact(g: Accounts, es: seq<Entry>, i: nat, k: nat, a: StakedStateAddress)
    requires LegalHistory(g, es) && i <= k <= |es| && NoWithdrawal(es, i, k, a)
    requires i == 0 || IsWithdrawOf(es[i - 1], a)
    ensures UnbondedAt(Replay(g, es[..k]), a) == (if i == 0 then UnbondedAt(g, a) else 0) + Unbondings(es[i..k], a)
  {
    hide EntryLegal, PutAccount, BondedAt, UnbondedAt, UnbondedBy, UnbondFee, DepositedBy, OutputTotal, Unbondings;
    UnbondedGrows(g, es, i, k, a);
    if i > 0 {
      ReplayStep(g, es, i - 1);
      EntryBonds(Replay(g, es[..i - 1]), es[i - 1], a);
    } else {
      assert es[..0] == [];
    }
  }

  /** A withdrawal pays out, as outputs and fee, exactly what was unbonded since the one before. */
  lemma WithdrawalPaysUnbonded(g: Accounts, es: seq<Entry>, i: nat, k: nat, a: StakedStateAddress)
    requires LegalHistory(g, es) && i <= k < |es| && NoWithdrawal(es, i, k, a) && IsWithdrawOf(es[k], a)
    requires i == 0 || IsWithdrawOf(es[i - 1], a)
    ensures OutputTotal(es[k].tx.Id()) + es[k].fee
            == (if i == 0 then UnbondedAt(g, a) else 0) + Unbondings(es[i..k], a)
  {
    hide EntryLegal, PutAccount, BondedAt, UnbondedAt, UnbondedBy, UnbondFee, DepositedBy, OutputTotal, Unbondings;
    hide Replay, IsWithdrawOf;
    UnbondedIsExact(g, es, i, k, a);
    EntryBonds(Replay(g, es[..k]), es[k], a);
  }
}
