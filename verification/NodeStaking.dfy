/** The stake of every account along every run of the node. */
module NodeStaking {
  import opened Wrappers
  import opened Coins
  import opened Transactions
  import opened Staking
  import opened Settlement
  import opened TxVerification
  import opened Ledger
  import opened UtxoHistory
  import opened StakingHistory
  import opened StakingBalances
  import opened Genesis
  import opened NodeSteps
  import opened NodeInvariant
  import opened NodeRuns

  lemma ReachedReplay(c: InitConfig, time: Timespec, chainHexId: nat, evs: seq<Event>, s: State)
    requires Reaches(c, time, chainHexId, evs, s)
    ensures LegalHistory(s.past.genesis, Current(s).History())
    ensures Current(s).accounts == Replay(s.past.genesis, Current(s).History())
  {
    hide Reaches, Sound, UtxoInvariant, LegalHistory, Replay, Linked, FilterOk, StoreOk, ValidatorsOk, HashesOk;
    ReachedInvariant(c, time, chainHexId, evs, s);
  }

  /** In every reachable state, the bond of an account is its genesis bond plus the deposits accepted
      for it, less the accepted unbondings and their fees. */
  lemma BondsExact(c: InitConfig, time: Timespec, chainHexId: nat, evs: seq<Event>, s: State, a: StakedStateAddress)
    requires Reaches(c, time, chainHexId, evs, s)
    ensures var h := Current(s).History();
            && s.past.genesis == AccountMap(Validated(c, time).value.accounts)
            && BondedAt(Current(s).accounts, a) + Unbondings(h, a) + UnbondFees(h, a)
               == BondedAt(s.past.genesis, a) + Deposits(h, a)
  {
    hide Reaches, LegalHistory, Replay, Current, BondedAt, Unbondings, UnbondFees, Deposits, Validated, AccountMap;
    var h := Current(s).History();
    ReachedReplay(c, time, chainHexId, evs, s);
    ReachedGenesisAccounts(c, time, chainHexId, evs, s);
    BondIsExact(s.past.genesis, h, |h|, a);
    assert h[..|h|] == h;
  }

  /** In every reachable state, the unbonded amount of an account is what was unbonded since its last
      accepted withdrawal, or, before the first one, its genesis amount and what was unbonded. */
  lemma UnbondedExact(
    c: InitConfig, time: Timespec, chainHexId: nat, evs: seq<Event>, s: State, i: nat, a: StakedStateAddress)
    requires Reaches(c, time, chainHexId, evs, s)
    requires var h := Current(s).History();
             && i <= |h| && NoWithdrawal(h, i, |h|, a) && (i == 0 || IsWithdrawOf(h[i - 1], a))
    ensures UnbondedAt(Current(s).accounts, a)
            == (if i == 0 then UnbondedAt(s.past.genesis, a) else 0) + Unbondings(Current(s).History()[i..], a)
  {
    hide Reaches, LegalHistory, Replay, Current, UnbondedAt, Unbondings, NoWithdrawal, IsWithdrawOf;
    var h := Current(s).History();
    ReachedReplay(c, time, chainHexId, evs, s);
    UnbondedIsExact(s.past.genesis, h, i, |h|, a);
    assert h[..|h|] == h && h[i..|h|] == h[i..];
  }

  /** Along every run, a withdrawal pays out exactly what was unbonded since the one before. */
  lemma WithdrawalsPayUnbonded(
    c: InitConfig, time: Timespec, chainHexId: nat, evs: seq<Event>, s: State, i: nat, k: nat, a: StakedStateAddress)
    requires Reaches(c, time, chainHexId, evs, s)
    requires var h := Current(s).History();
             && i <= k < |h| && NoWithdrawal(h, i, k, a) && (i == 0 || IsWithdrawOf(h[i - 1], a))
             && IsWithdrawOf(h[k], a)
    ensures var h := Current(s).History();
            OutputTotal(h[k].tx.Id()) + h[k].fee
            == (if i == 0 then UnbondedAt(s.past.genesis, a) else 0) + Unbondings(h[i..k], a)
  {
    hide Reaches, LegalHistory, Replay, Current, UnbondedAt, Unbondings, NoWithdrawal, IsWithdrawOf, OutputTotal;
    ReachedReplay(c, time, chainHexId, evs, s);
    WithdrawalPaysUnbonded(s.past.genesis, Current(s).History(), i, k, a);
  }

  /** Along every run, what the k-th accepted transaction does to the accounts: value moves in the one
      it targets, as its kind says, and every other account stays as it is. */
  lemma AcceptedMoves(
    c: InitConfig, time: Timespec, chainHexId: nat, evs: seq<Event>, s: State, k: nat, a: StakedStateAddress)
    requires Reaches(c, time, chainHexId, evs, s) && k < |Current(s).History()|
    ensures var h, g := Current(s).History(), s.past.genesis;
            var before, after := Replay(g, h[..k]), Replay(g, h[..k + 1]);
            && (Target(h[k].tx) != Some(a) ==> Lookup(after, a) == Lookup(before, a))
            && (Target(h[k].tx) == Some(a) ==> a in after && Moves(Lookup(before, a), h[k], after[a]))
  {
    hide Reaches, Replay, Current, EntryLegal, Moves, PutAccount, Target;
    ReachedReplay(c, time, chainHexId, evs, s);
    var h, g := Current(s).History(), s.past.genesis;
    ReplayStep(g, h, k);
    EntryMoves(Replay(g, h[..k]), h[k], a);
  }
}
