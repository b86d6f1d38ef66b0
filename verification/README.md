# Crypto.com Chain: ledger, index and wallet in Dafny

A Dafny model of the Crypto.com Chain node and of the client that follows it, with proofs. `dafny verify dfyconfig.toml` checks the whole project.

**The node.** `ChainNodeApp` takes `init_chain; (begin_block; deliver_tx*; end_block; commit)*` with `check_tx` in between. Its steps are functions on a `NodeState` (`NodeSteps`), its object form is the class `ChainNodeApp.ChainNodeApp`, and a run is any sequence of requests, with a crash and a restore from storage allowed between any two of them. `NodeInvariant` is what every step keeps and `NodeRuns` holds what follows for all runs from all genesis configurations that validate:

- the unspent outputs, the outputs still to be created, the stake and the rewards pool never exceed the maximum supply, and are exactly the maximum supply if and only if no block closed so far created outputs over unspent ones (`NodeSupply`);
- no `expect`, `unwrap` or index in the steps fails;
- the byte-padded bitmaps accept exactly an abstract set of unspent outputs;
- withdrawals wait for the unbonding period and nothing is debited twice;
- the bond of an account is its genesis bond plus its deposits, less its unbondings and their fees, and its unbonded amount is what was unbonded since its last withdrawal (`StakingBalances`, `NodeStaking`);
- app hashes change exactly with non-empty blocks, two nodes with equal saved hashes have stored equal accounts and equal pools (`NodeHashes`), and committed transactions stay provable;
- the power of every validator after a block follows from the accounts and the transactions of the block, and the updates sent are exactly the powers that differ (`NodePowers`); replaying them gives the tracked powers;
- a restart at any moment brings back the node as it was between two blocks (`NodeRestarts`).

`Validation` and `TxVerification` decide what is accepted; `Refusals` says that every refusal names a fault that the transaction has.

**The client.** `ClientIndex` and `AddressIndex` say what the index holds, `IndexStorage` is its storage with the handlers and the synchroniser. `BlockSync` and `IndexStorage.Sync` prove the fast-forward synchronisation equal to handling every block. `IndexOnChain` is about the blocks that a running node serves: what the handler takes of them, public transactions first, is always well ordered, so the index is exact; the history of an address is, entry by entry, what the handled transactions say (`ClientHistory`); nothing that concerns the wallet is missed; and a wallet that is told of everything that spends what it sees never fails. `CrashSafety` interrupts the client between any two writes, and `ClientOnChain` says that a client of a running node recovers from every such interruption. `CompareAndSwap` orders concurrent updates.

**Runs that show the limits.** `RunBuilding` and `SampleRuns` hold three runs of the node: one in which transactions of every kind are accepted, one in which two accepted withdrawals with the same id lose half of the supply, and one in which a client that is not told of a payment counts the supply twice and fails.

**The Merkle tree and the wallet.** `Merkle`, `UnspentTransactions`, `TransactionBuilder`, `RootHash`, `SigningSession`, `SessionRuns`.

## Conventions and hypotheses

- Hashing is free of collisions: digests and transaction ids are terms that hold what was hashed. The root of the account trie stands for the accounts below it.
- Signatures are abstract. An input witness is the set of checks it passes, a staking witness the address it yields for each id, and the MuSig functions are parameters.
- The minimum fee of a request is any coin amount, given with the request; the fee of the builder is any function.
- The public header of a transfer lists the inputs of its payload, as the code that builds the header does (`TxAux.WellFormed`), and the decoder's size limit keeps the number of outputs below 2^16. The pairing of header kind and payload kind is that of the enclave, which is stricter than the in-process stand-in.
- `write_buffered` is visible to later reads and lost in a crash; `write` persists and replaces what was buffered under the same keys.
- Block heights strictly increase; the ids of signing sessions are not drawn twice; a map iterated over yields its entries in any order.
- Where a repeated transaction id matters, the statement says so (`DistinctIds`, about transactions with outputs only): two accounts can produce the same withdrawal id, and `SampleRuns.EqualIdsLoseCoins` shows what that does.
- A block filter is known by what was added to it. It may answer yes for anything once something was added, always answers yes for what was added, and answers no when it is empty. The payload of an accepted transfer or withdrawal decodes, so its view keys are added.
- The decryption query takes the ids of a block in order and answers with transactions that have outputs, among them all that are shared with the view key; or it fails.
- A failed `expect` or `unwrap` is an outcome (`Panic`, `Panicked`, `None`), not a precondition, in every step function. The methods of the classes require that the step they perform does not panic, which `NodeRuns.NodeNeverPanics` gives.

## Model

| member | source | states |
|---|---|---|
| Coins.Add | chain/chain-core/src/init/coin.rs:150-159 | the checked sum exists exactly when it stays within the maximum supply, although the cap lies below 2^64 |
| Coins.Sub | chain/chain-core/src/init/coin.rs:170-179 | the checked difference exists exactly when it is not negative |
| Coins.SumCoins | chain/chain-core/src/init/coin.rs:240-245 | the fold succeeds exactly when the true total is within the maximum, and is that total |
| Coins.VotePower | chain/chain-core/src/init/coin.rs:210-220 | the power is the whole number of coins, and neither conversion can fail |
| Staking.NewInit | chain/chain-core/src/state/account.rs:165-188 | a genesis account holds its amount, bonded or unbonded |
| Staking.Account.Deposit | chain/chain-core/src/state/account.rs:191-194 | in-place deposit, failing exactly where the sum passes the cap, against the value-level update whose stake grows by exactly the amount |
| Staking.Account.Unbond | chain/chain-core/src/state/account.rs:197-204 | in-place unbonding, failing exactly where the bonded amount is too small or the unbonded one would pass the cap: the value and the fee leave the bond, the value is added to the unbonded amount, the unlock time is set, the nonce counts one more |
| StakingBalances.EntryMoves | chain/chain-core/src/state/account.rs:191-210 | an accepted transaction moves value, amount by amount, in the account it targets and leaves every other account alone |
| StakingBalances.BondIsExact | chain/chain-tx-validation/src/lib.rs:315-365 | at every point of a history, the bond of an account is its genesis bond plus its deposits less its unbondings and their fees |
| StakingBalances.UnbondedIsExact | chain/chain-tx-validation/src/lib.rs:342-414 | the unbonded amount of an account is what was unbonded since its last withdrawal, on top of the genesis amount before the first |
| StakingBalances.WithdrawalPaysUnbonded | chain/chain-tx-validation/src/lib.rs:369-414 | a withdrawal pays out, as outputs and fee, exactly what was unbonded since the one before |
| NodeStaking.BondsExact | chain/chain-abci/src/app/mod.rs:132-224 | the law of the bond, in every reachable state, for every account |
| NodeStaking.UnbondedExact | chain/chain-abci/src/app/mod.rs:132-224 | the law of the unbonded amount, in every reachable state, for every account |
| NodeStaking.WithdrawalsPayUnbonded | chain/chain-abci/src/app/mod.rs:132-224 | along every run, a withdrawal pays out exactly what was unbonded since the one before |
| NodeStaking.AcceptedMoves | chain/chain-abci/src/app/mod.rs:145-171 | along every run, what each accepted transaction does to every account |
| Staking.Account.Withdraw | chain/chain-core/src/state/account.rs:207-210 | in-place withdrawal of everything unbonded |
| Validation.CheckInputsBasic | chain/chain-tx-validation/src/lib.rs:161-183 | the set-filling loop computes the first error of the input list |
| Validation.CheckInputs | chain/chain-tx-validation/src/lib.rs:185-226 | the accumulating loop equals the specification that `InputsAccepted` decides |
| Validation.InputsAccepted | chain/chain-tx-validation/src/lib.rs:185-226 | inputs are accepted exactly when every one exists, is unlocked at the block time, has a witness for its address and the total fits; the result is that total |
| Validation.CheckInputOutputSums | chain/chain-tx-validation/src/lib.rs:246-262 | accepted exactly when outputs plus minimum fee are covered; the paid fee is the whole difference |
| Validation.VerifyTransfer | chain/chain-tx-validation/src/lib.rs:266-287 | the sequence of checks, against the specification that `TransferAccepted` decides |
| Validation.TransferAccepted | chain/chain-tx-validation/src/lib.rs:266-287 | a transfer passes exactly when it is allowed, independently of the order of the checks |
| Validation.VerifyBondedDepositCore | chain/chain-tx-validation/src/lib.rs:291-311 | the checks of a deposit, against the specification that `DepositAccepted` decides |
| Validation.VerifyBondedDeposit | chain/chain-tx-validation/src/lib.rs:315-338 | a deposit creates or updates the account with the inputs less the fee |
| Validation.DepositAccepted | chain/chain-tx-validation/src/lib.rs:291-338 | a deposit passes exactly when it is allowed, and its coins are the inputs' value |
| Validation.VerifyUnbonding | chain/chain-tx-validation/src/lib.rs:342-365 | the checks of an unbonding; on acceptance the value and the minimum fee leave the bond, the value is unbonded, and it unlocks one unbonding period after the block time |
| Validation.UnbondAccepted | chain/chain-tx-validation/src/lib.rs:342-365 | an unbonding passes exactly when nonce, amount and fee allow it, and panics only when an account would exceed the supply |
| Validation.VerifyUnbondedWithdraw | chain/chain-tx-validation/src/lib.rs:369-414 | the checks and the account update of a withdrawal |
| Validation.WithdrawAccepted | chain/chain-tx-validation/src/lib.rs:369-404 | a withdrawal passes exactly when the account is unlocked and every output is locked until the account's unlock time |
| Refusals.InputsRefused | chain/chain-tx-validation/src/lib.rs:185-226 | an error of the input loop names an input that does not exist, is locked or lacks a witness, or a total above the maximum |
| Refusals.TransferRefused | chain/chain-tx-validation/src/lib.rs:161-287 | every refusal of a transfer names a fault that the transfer has |
| Refusals.DepositRefused | chain/chain-tx-validation/src/lib.rs:291-311 | the same for a deposit |
| Refusals.UnbondRefused | chain/chain-tx-validation/src/lib.rs:342-365 | the same for an unbonding |
| Refusals.WithdrawRefused | chain/chain-tx-validation/src/lib.rs:369-404 | the same for a withdrawal |
| Refusals.RefusalNamesFault | chain/chain-abci/src/storage/tx.rs:39-143 | every refusal of the node names a fault: an unknown or spent input, a missing or unknown account, a fault of an unbonding, or, for the enclave, that the transaction is not allowed although its inputs are unspent |
| UtxoDb.SpendUtxos | chain/chain-abci/src/app/mod.rs:31-44 | the loop puts, for every named transaction, its bitmap with exactly the named bits set |
| UtxoDb.CheckSpentInputLookup | chain/chain-abci/src/storage/tx.rs:39-66 | the loop with early returns equals the specification that passes exactly on unspent pointers |
| UtxoDb.FirstSpent | chain/chain-abci/src/storage/tx.rs:42-64 | passes exactly when every input has a bitmap, is in its range and is not set |
| UtxoDb.SpendingValue | chain/chain-abci/src/app/mod.rs:31-44 | spending distinct unspent outputs takes exactly their value out of the unspent total |
| UtxoDb.SpendAgain | chain/chain-abci/src/app/commit.rs:31 | spending what is spent puts back what is stored |
| Settlement.SettleBound | chain/chain-abci/src/app/commit.rs:54-117 | a commit never creates more than the delivered outputs, whatever ids repeat |
| Settlement.SettleExact | chain/chain-abci/src/app/commit.rs:54-117 | a commit creates exactly the value of the delivered outputs if and only if it loses nothing, which can be read off the bitmaps and the delivered ids beforehand; it then adds one unset bitmap per delivered transaction with outputs and leaves all others alone |
| TxVerification.ProcessVerifyTx | tx-validation/enclave/src/lib.rs:97-303 | the enclave's answer, and which transaction bodies it keeps |
| TxVerification.Verify | chain/chain-abci/src/storage/tx.rs:70-143 | which lookups happen outside the enclave, in which order, and every refusal reported as the node reports it |
| TxVerification.VerificationDecides | chain/chain-abci/src/storage/tx.rs:70-143 | refused exactly when not allowed; accepted with the stated fee and account; panics only if an account would pass the cap |
| Genesis.CheckCouncil | chain/chain-core/src/init/config.rs:239-272 | the loop with two sets reports the first error, or the list of council nodes |
| Genesis.CouncilAccepted | chain/chain-core/src/init/config.rs:239-272 | the council passes exactly when every node owns the required stake and no account or key repeats |
| Genesis.GetGenesisState | chain/chain-core/src/init/config.rs:193-219 | the loop splits the distribution into staked accounts and the rewards pool |
| Genesis.ValidateConfigGetGenesis | chain/chain-core/src/init/config.rs:227-293 | the whole validation, with the product of stake and node count wrapping at 2^64 |
| Genesis.GenesisSupply | chain/chain-core/src/init/config.rs:193-293 | a configuration that validates allots exactly the maximum supply, gives every council node a bonded account and repeats no key |
| Genesis.ConfigAccepted | chain/chain-core/src/init/config.rs:227-293 | a configuration validates if and only if the incentive addresses are allotted, there is a valid council, the wrapped product of stake and nodes is a coin, and the amounts add up to the maximum supply |
| Genesis.ConfigRefused | chain/chain-core/src/init/config.rs:227-293 | every refusal of a configuration names a fault that it has |
| Genesis.GenesisBalances | chain/chain-core/src/init/config.rs:193-219 | the genesis accounts are exactly the allocations that are not for the pool, with their amounts bonded for council nodes and unbonded otherwise |
| Ledger.EffectBalances | chain/chain-tx-validation/src/lib.rs:246-414 | each kind of transaction only moves value: inputs and old stake equal outputs, fee and new stake |
| Ledger.AcceptConserves | chain/chain-abci/src/app/mod.rs:132-224 | accepting a transaction leaves the supply as it is |
| Ledger.CloseConserves | chain/chain-abci/src/app/commit.rs:41-156 | closing a block leaves the supply as it is if and only if no delivered transaction creates outputs under an id with unspent coins or created earlier in the block, or consumes an output of such an id |
| Ledger.CloseKeepsAtMost | chain/chain-abci/src/app/commit.rs:41-156 | closing a block never adds to the supply |
| Ledger.AcceptKeepsSound | chain/chain-abci/src/app/mod.rs:132-224 | accepting keeps the ledger invariant: matching addresses, fitting bitmaps, supply bound |
| Ledger.CloseKeepsSound | chain/chain-abci/src/app/commit.rs:41-156 | closing keeps the ledger invariant |
| UtxoHistory.AcceptKeepsUtxo | chain/chain-abci/src/app/mod.rs:132-224 | accepting keeps the bitmaps equal to the abstract set of unspent outputs, and every input created in an earlier block |
| UtxoHistory.CloseKeepsUtxo | chain/chain-abci/src/app/commit.rs:24-37 | closing a block does too |
| UtxoHistory.NeverInItsOwnBlock | chain/chain-abci/src/app/mod.rs:139-143 | no output is consumed in the block that creates it |
| StakingHistory.WithdrawalWaits | chain/chain-tx-validation/src/lib.rs:369-414 | a withdrawal, and whatever spends its outputs, comes no earlier than the latest unbonding plus the unbonding period |
| StakingHistory.NonceCountsOperations | chain/chain-core/src/state/account.rs:191-210 | the nonce of an account counts exactly the accepted operations on it |
| StakingHistory.NoDebitTwice | chain/chain-tx-validation/src/lib.rs:342-414 | no unbonding and no withdrawal is accepted twice for one account |
| Validators.EmitUpdates | chain/chain-abci/src/app/mod.rs:270-285 | the loop emits exactly the changed powers, in whatever order, and merges them into the power map |
| Validators.ReplayAgrees | chain/chain-abci/src/app/mod.rs:270-285 | replaying the emitted updates gives the tracked powers; each is zero or at least the required stake's power |
| Validators.GetValidatorMapping | chain/chain-abci/src/app/app_init.rs:113-144 | the loop rebuilds powers and keys from the council and the accounts |
| Validators.RestoredWellKept | chain/chain-abci/src/app/app_init.rs:113-144 | the rebuilt maps are over the same validators, with different keys |
| Validators.RestoredExact | chain/chain-abci/src/app/app_init.rs:113-144 | the rebuilt power of a council node is zero when its bond is below the required stake and the whole coins of its bond otherwise; its key is its consensus key |
| NodePowers.DeliveryNotes | chain/chain-abci/src/app/mod.rs:173-192 | what a delivery notes down keeps the noted power equal to what the last transaction of the block that raises or lowers the bond against the power at its start says |
| NodePowers.NotedIsRestoredIff | chain/chain-abci/src/app/mod.rs:173-192 | the power noted for an account is the one a restart gives it if and only if the account does not keep enough stake while losing whole coins, and is not short of a fraction of a coin |
| NodePowers.PartialUnbondingNotedAsZero | chain/chain-abci/src/app/mod.rs:187-190 | a bond of twenty coins reduced to fifteen, ten being required, is noted as zero and restored as fifteen |
| NodePowers.BlockPowers | chain/chain-abci/src/app/mod.rs:270-285 | at the end of every block of every run, the power of every validator is what the accounts at the start of the block and its transactions say, and the updates sent are exactly the keys whose power differs, with the new power |
| NodePowers.PowersMoveOnlyAtEnd | chain/chain-abci/src/app/mod.rs:66-296 | in every run, only the end of a block and a restart change a power |
| NodePowers.RestartPowers | chain/chain-abci/src/app/app_init.rs:113-144 | a restart at any moment of any run tracks the council nodes of the configuration, each with the power of its stored bond |
| AppHashes.SameHashIffEmpty | chain/chain-abci/src/app/commit.rs:118-126 | two commits have the same hash exactly when all blocks after the first, up to the second, are empty |
| AppHashes.ProofsKept | chain/chain-abci/src/app/commit.rs:127-144 | a commit overwrites neither a stored hash nor a stored tree |
| AppHashes.CommittedProofs | chain/chain-abci/src/app/commit.rs:46-52 | the hash stored for a height leads to a tree that proves every id committed there |
| NodeHashes.CommittedBinds | chain/chain-core/src/lib.rs:32-44 | the hash that a commit saves and announces is of the accounts and the pool that it saves |
| NodeHashes.SavedHashBindsState | chain/chain-abci/src/app/commit.rs:118-126 | two nodes, of any runs of any configurations, with equal saved hashes have stored equal accounts and equal pools |
| NodeHashes.AnnouncedHashBinds | chain/chain-abci/src/app/commit.rs:118-126 | the hash announced for a block is of the accounts after that block and of a pool with all fees up to it |
| NodeHashes.AnnouncedHashesBindAccounts | chain/chain-abci/src/app/commit.rs:118-126 | blocks of any two runs with equal announced hashes leave equal accounts behind |
| NodeHashes.PoolCollectsFees | chain/chain-abci/src/app/mod.rs:211-218 | in every reachable state, the rewards pool holds its genesis amount and all fees accepted |
| BlockFilters.AddedViews | chain/chain-abci/src/app/mod.rs:230-258 | the filter after the loop holds exactly what it held before and the view keys of the delivered transactions |
| BlockFilters.CollectViews | chain/chain-abci/src/app/mod.rs:230-258 | the loop over the delivered transactions, against the specification that `AddedViews` decides |
| ChainNodeApp.ChainNodeApp.InitChain | chain/chain-abci/src/app/app_init.rs:386-464 | the fields after `init_chain`, against the step function |
| ChainNodeApp.ChainNodeApp.BeginBlock | chain/chain-abci/src/app/mod.rs:113-128 | sets the block time |
| ChainNodeApp.ChainNodeApp.ValidateTxReq | chain/chain-abci/src/app/validate_tx.rs:57-99 | verifies against uncommitted accounts, buffered bitmaps and the block time; code 0 exactly on acceptance; only the enclave's store changes |
| ChainNodeApp.ChainNodeApp.CheckTx | chain/chain-abci/src/app/mod.rs:93-98 | no effect beyond the enclave's store |
| ChainNodeApp.ChainNodeApp.DeliverTx | chain/chain-abci/src/app/mod.rs:132-224 | the whole new state, against the step function |
| ChainNodeApp.ChainNodeApp.TakeIn | chain/chain-abci/src/app/mod.rs:137-221 | accounts, noted powers, filter, delivered list, pool and buffered bitmaps of an accepted transaction, against the step whose account moves `AcceptedMoves` and whose powers `BlockPowers` decide |
| ChainNodeApp.ChainNodeApp.EndBlock | chain/chain-abci/src/app/mod.rs:227-289 | validator updates and block filter sent, power maps merged, filter emptied, height set |
| ChainNodeApp.ChainNodeApp.Commit | chain/chain-abci/src/app/commit.rs:41-156 | what is written, what is saved, and the announced hash, against the step function whose hash `CommittedBinds` decides |
| ChainNodeApp.ChainNodeApp.PrepareCommit | chain/chain-abci/src/app/commit.rs:46-126 | the new state and trees of an empty and of a non-empty block, against the state whose hash `CommittedBinds` decides |
| ChainNodeApp.CollectPuts | chain/chain-abci/src/app/commit.rs:53-117 | the loop over delivered transactions collects the puts of `CommitPuts` |
| ChainNodeApp.ChainNodeApp.Restore | chain/chain-abci/src/app/app_init.rs:207-259 | what a restart brings back and what it drops |
| NodeRestarts.RestartReturns | chain/chain-abci/src/app/app_init.rs:207-259 | a node that stands between two blocks, goes on without a commit and is stopped at any moment comes back as it was, but for rebuilt powers and the bodies that the enclave kept |
| NodeRuns.CheckOnlyTeaches | chain/chain-abci/src/app/mod.rs:93-98 | in every reachable state, `check_tx` changes nothing but what the enclave knows, and makes it know what it accepts |
| NodeInvariant.VerdictNeverPanics | chain/chain-core/src/state/account.rs:191-204 | verification panics in no reachable state, because a deposit or unbonding that passes its checks fits under the supply bound |
| NodeInvariant.DeliveryAccepts | chain/chain-abci/src/app/mod.rs:132-224 | every accepted transaction finds its bitmaps, its account and room in the pool |
| NodeInvariant.CommitPersists | chain/chain-abci/src/app/commit.rs:145-152 | after a commit nothing is only buffered: the puts of the second spending persist the spent bits |
| NodeInvariant.CommitKeeps | chain/chain-abci/src/app/commit.rs:41-156 | a commit does not panic and keeps the node invariant |
| NodeInvariant.DeliverTxKeeps | chain/chain-abci/src/app/mod.rs:132-224 | a delivery does not panic and keeps the node invariant |
| NodeInvariant.EndBlockKeeps | chain/chain-abci/src/app/mod.rs:227-289 | the end of a block does not panic and keeps the node invariant |
| NodeInvariant.RestartKeeps | chain/chain-abci/src/app/app_init.rs:207-259 | a restart at any moment finds every council account and keeps the node invariant |
| NodeRuns.NodeNeverPanics | chain/chain-abci/src/app/mod.rs:66-296 | in no run, from no valid configuration, does a step panic |
| NodeRuns.SupplyConserved | chain/chain-abci/src/app/mod.rs:132-224 | in every reachable state, current and stored supply are at most the maximum, and exactly the maximum while ids with outputs differ |
| NodeSupply.SupplyExactIff | chain/chain-abci/src/app/commit.rs:54-117 | in every reachable state, current and stored supply are the same, and are the maximum if and only if every commit of the run lost nothing |
| NodeSupply.SupplyStep | chain/chain-abci/src/app/mod.rs:66-296 | no request adds to the supply, and only a commit that loses something takes from it |
| NodeRuns.UtxosExact | chain/chain-abci/src/storage/tx.rs:39-66 | in every reachable state in which no id with outputs repeats, the accepted pointers are exactly the unspent ones, the enclave knows them all, and nothing was spent twice |
| NodeRuns.ConsumedLaterThanCreated | chain/chain-abci/src/app/mod.rs:139-143 | in every run, whatever is consumed was created in an earlier block, and nowhere else while ids with outputs differ |
| NodeRuns.SecondSpendChangesNothing | chain/chain-abci/src/app/commit.rs:24-37 | in every reachable state, the second `spend_utxos` leaves the visible bitmaps as they are |
| NodeRuns.WithdrawalsWait | chain/chain-tx-validation/src/lib.rs:209-213 | in every run, withdrawals and the spending of their outputs respect the unbonding period |
| NodeRuns.DebitsNeverRepeat | chain/chain-tx-validation/src/lib.rs:342-414 | in every run, no unbonding or withdrawal of an account is accepted twice |
| NodeRuns.DeliveredAtBlockTime | chain/chain-abci/src/app/validate_tx.rs:70-88 | in every run, a transaction is validated and recorded with the time of its own block's `begin_block` and the configured unbonding period |
| NodeRuns.CrashLosesOnlyTheBlock | chain/chain-abci/src/app/app_init.rs:207-259 | a restart at any moment of any run brings back exactly the stored ledger |
| NodeRuns.CommitStores | chain/chain-abci/src/app/commit.rs:41-156 | a commit closes the block, and the stored ledger is then the current one |
| NodeRuns.HashesChangeWithContent | chain/chain-abci/src/app/commit.rs:41-156 | in every run, equal hashes of two commits mean exactly that nothing was committed in between |
| NodeRuns.CommittedIsRecorded | chain/chain-abci/src/app/commit.rs:46-52 | every accepted transaction of a finished block is among the ids of a commit of a greater height than the one it was delivered on |
| NodeRuns.BlocksAnnounced | chain/chain-abci/src/app/commit.rs:46-52 | in every run, the transactions of the blocks in order are the history, and each block announces the ids of its transactions and a filter of their accounts and view keys |
| NodeRuns.ProofsPersist | chain/chain-core/src/common/merkle_tree.rs:139-180 | what was committed at some point of a run can be proved, against the stored app hash, at every later point |
| NodeRuns.ValidatorsReplayed | chain/chain-abci/src/app/mod.rs:270-285 | in every run, replaying the updates since the maps were built gives the tracked powers |
| NodeRuns.UpdatesZeroOrEnough | chain/chain-abci/src/app/mod.rs:173-192 | in every run, every update carries zero or at least the power of the required stake |
| Merkle.NewMerkleTree | chain/chain-core/src/common/merkle_tree.rs:246-273 | the bottom-up pairing loop builds the recursive tree of section 2.1 of RFC 6962, and counts the ceiling of log2 as its height |
| Merkle.PairUpLevel | chain/chain-core/src/common/merkle_tree.rs:370-376 | one round of pairing takes the blocks of one power of two to those of the next |
| Merkle.RfcTreeShape | chain/chain-abci/benches/hashes.rs:22-36 | the leaves of the recursive tree are the values in order, and every hash is that of what is below it |
| Merkle.PathsOfLeaves | chain/chain-core/src/common/merkle_tree.rs:71-111 | a path is found exactly for the leaves and hashes up to the root |
| Merkle.ProofsOfMembers | chain/chain-core/src/common/merkle_tree.rs:300-311 | a generated proof exists exactly for members, verifies against the root and carries the value |
| Merkle.RootBindsValues | chain/chain-core/src/common/merkle_tree.rs:277-279 | equal roots mean equal lists, for values that are not empty |
| Merkle.StoredRootsEqual | chain/chain-core/src/common/merkle_tree.rs:9-13 | for byte strings, empty ones included: equal stored roots mean equal lists, except that no value and one empty value have the same root |
| AddressIndex.AddressDetails.ApplyMementoOperation | chain/client-index/src/service/address_service.rs:50-66 | one operation in place, with its error |
| AddressIndex.AddressDetails.ApplyMementoOperations | chain/client-index/src/service/address_service.rs:31-48 | the loop, skipped when the transaction is noted, and noting it at the end |
| AddressIndex.AppliedOnce | chain/client-index/src/service/address_service.rs:36-39 | applying a memento again changes nothing |
| AddressIndex.SpendsApply | chain/client-index/src/handler/default_transaction_handler.rs:120-149 | spending unspent outputs never fails and keeps balance, unspent value and history equal |
| AddressIndex.CreatesApply | chain/client-index/src/handler/default_transaction_handler.rs:151-176 | creating outputs fails exactly when the balance would pass the maximum, and keeps the three equal |
| ClientIndex.GetOutput | chain/client-index/src/service/transaction_service.rs:56-79 | nothing for an unknown transaction, the output when it exists, an error otherwise |
| ClientIndex.HandleStep | chain/client-index/src/handler/default_transaction_handler.rs:182-205 | handling one more transaction succeeds exactly when all balances fit, and the index is exact for the longer list |
| ClientIndex.IndexIsExact | chain/client-index/src/handler/default_transaction_handler.rs:42-176 | after any well-ordered list, every address holds exactly the outputs created and not spent, with balance and history to match; failure exactly when a balance passes the maximum |
| ClientIndex.ItemRefused | chain/client-index/src/service/transaction_service.rs:56-79 | an error of the transaction handler names an input without outputs, an output that does not exist, or a balance that does not fit |
| ClientHistory.OpsChanges | chain/client-index/src/handler/default_transaction_handler.rs:120-176 | the operations of a transaction at an address add one outgoing entry for each known consumed output of the address, then one incoming entry for each created one, with value, id, height and time |
| ClientHistory.HistoryIsExact | chain/client-index/src/handler/default_transaction_handler.rs:42-176 | after any well-ordered list, the history of every address is exactly the entries of the handled transactions, in order, nothing being added a second time |
| ClientOnChain.ServedHistory | chain/client-index/src/handler/default_block_handler.rs:66-102 | after any run, the history of an address over the served blocks is exact, and every entry carries the height and time of the block that holds its transaction |
| LiveSupply.LiveSupplyConserved | chain/chain-tx-validation/src/lib.rs:246-414 | outputs by pointer, stake and fees add up to the genesis stake at every point of a history |
| IndexOnChain.BlocksWellOrdered | chain/client-index/src/handler/default_block_handler.rs:72-97 | whatever is handled of a node's blocks, block after block and in any order within a block, is created before it is consumed and consumed once |
| IndexOnChain.AnnouncedIds | chain/chain-abci/src/app/commit.rs:46-52 | the ids of the announced blocks, in order, are those of the history |
| IndexOnChain.ServedWellOrdered | chain/client-index/src/handler/default_block_handler.rs:72-97 | after any run, what the handler takes of the served blocks, public transactions before decrypted ones, is well ordered |
| IndexOnChain.BlocksIndexExact | chain/client-index/src/handler/default_block_handler.rs:66-102 | after any run, the index of the first n served blocks is exact, and there is one if and only if no balance passes the maximum on the way |
| IndexOnChain.HandledExactly | chain/client-index/src/handler/default_block_handler.rs:66-102 | of a served block, exactly the transactions without outputs are handled when the filter answers for the staking addresses, and the decrypted ones when it answers for the view key |
| IndexOnChain.NothingMissed | chain/client-index/src/synchronizer.rs:232-270 | after any run, every committed transaction that is shared with the wallet's view key or deposits to its staking addresses is handled: the filter and the queries hide nothing |
| IndexOnChain.IndexFollowsChain | chain/client-index/src/service/address_service.rs:50-66 | after any run, a client that handles whatever spends an output of what it handles never fails, and its index is exact |
| IndexOnChain.WatchingWalletSucceeds | chain/client-index/src/handler/default_block_handler.rs:66-102 | the same for a wallet that everything which spends what it sees concerns |
| IndexOnChain.HandledWorth | chain/client-index/src/handler/default_block_handler.rs:72-97 | in the middle of a block, the live outputs of such a client are worth no more than those of the node at some point of that block |
| IndexOnChain.ServedByRun | chain/chain-abci/src/app/mod.rs:259-268 | the blocks served after any run meet what synchronisation relies on |
| RunBuilding.Deliver | chain/chain-abci/src/app/mod.rs:132-224 | in any state of a run, a transaction that is allowed is accepted, and the ledger moves by it |
| SampleRuns.EveryKindAccepted | chain/chain-abci/src/app/mod.rs:66-296 | a run in which a withdrawal, transfers, a deposit and an unbonding are accepted and committed, and the node is restarted |
| SampleRuns.EqualIdsLoseCoins | chain/chain-abci/src/app/commit.rs:110-115 | a run in which two accounts withdraw to equal outputs at nonce 0: both are accepted, their ids are equal, and half of the supply is gone |
| SampleRuns.MissedSpendOverflows | chain/client-common/src/balance/balance_change.rs:24-33 | a run, and the blocks it serves, in which a client that is not told of one payment handles everything that concerns it, counts the supply twice and fails |
| BlockSync.SkipTo | chain/client-index/src/synchronizer.rs:165-229 | handling only the last block equals handling all when the others are empty |
| BlockSync.FastForward | chain/client-index/src/synchronizer.rs:199-229 | a header hash equal to the stored one makes skipping harmless |
| BlockSync.ServedChainOk | chain/chain-abci/src/app/commit.rs:118-126 | equal header hashes of a node's chain mean that the blocks in between are empty, and the empty filter of an empty block answers no |
| BlockSync.NaiveHandlesFrom | chain/client-index/src/handler/default_block_handler.rs:66-102 | handling blocks, from any stored height, is handling their transactions in order, then stamping height and hash |
| IndexStorage.AddressMemento.AddOperation | chain/client-index/src/service/address_service.rs:131-138 | appends to the operations of one address |
| IndexStorage.IndexStorage.BuildMemento | chain/client-index/src/handler/default_transaction_handler.rs:42-176 | the loops over inputs and outputs give every address exactly its operations, whose entries `OpsChanges` decides, or the first lookup error |
| IndexStorage.IndexStorage.UpdateAddress | chain/client-common/src/storage/memory_storage.rs:58-83 | read, apply, write back, nothing written on error |
| IndexStorage.IndexStorage.ApplyMementoAll | chain/client-index/src/service/address_service.rs:186-206 | one address after the other, in any order, with an order-independent result |
| IndexStorage.IndexStorage.OnTransaction | chain/client-index/src/handler/default_block_handler.rs:47-57 | stores the transaction, then applies its memento everywhere |
| IndexStorage.IndexStorage.HandleBlock | chain/client-index/src/handler/default_block_handler.rs:66-102 | unencrypted then decrypted transactions, then the synchronisation state |
| IndexStorage.FastForwardTo | chain/client-index/src/synchronizer.rs:165-229 | either nothing happens or the index is that of handling every block up to that height |
| IndexStorage.Sync | chain/client-index/src/synchronizer.rs:63-142 | for every chain, start height and positive batch size: succeeds exactly when handling every block does, with the same addresses, transactions and state; height ends at the maximum |
| IndexStorage.SyncAll | chain/client-index/src/synchronizer.rs:145-162 | the same from genesis |
| CrashSafety.ResumeAnywhere | chain/client-index/src/service/address_service.rs:186-206 | stopped between any two writes and restarted from the stored height or genesis, any number of times, in any iteration order: synchronising from there succeeds and gives the uninterrupted index |
| CrashSafety.ResyncAnywhere | chain/client-index/src/synchronizer.rs:145-162 | the same when synchronising again from genesis |
| CrashSafety.StepsNeverFail | chain/client-index/src/handler/default_transaction_handler.rs:182-205 | in every such state, storing the next transaction and updating the next address succeed |
| CrashSafety.HandleAgain | chain/client-index/src/service/address_service.rs:36-39 | handling a transaction that was handled before, wholly or in part, succeeds and brings the data no further than handling it once |
| CrashSafety.CrashesLeaveNoTrace | chain/client-index/src/service/address_service.rs:186-206 | once the stored height is that of the last block, the index is the uninterrupted one |
| CrashSafety.StepKeeps | chain/client-index/src/handler/default_block_handler.rs:66-102 | every write keeps the stored data a prefix of the uninterrupted synchronisation, plus part of one transaction |
| CrashSafety.OpsSame | chain/client-index/src/handler/default_transaction_handler.rs:120-149 | a memento rebuilt later, with more transactions stored, is the same memento |
| ClientOnChain.ServedSetting | chain/client-index/src/handler/default_block_handler.rs:66-102 | the blocks served after any run meet the conditions of crash safety as soon as an uninterrupted synchronisation succeeds |
| ClientOnChain.CrashedClientRecovers | chain/client-index/src/synchronizer.rs:63-162 | a client of a running node that can synchronise at all recovers from every interruption with the exact index, and no write fails on the way |
| ClientOnChain.WatchingWalletRecovers | chain/client-index/src/synchronizer.rs:63-162 | so does every wallet that is told of everything that spends what it sees |
| CompareAndSwap.Linearizable | chain/client-common/src/storage/sled_storage.rs:72-93 | every interleaving has a serial order of the lock-based calls with the same value, the same results and the real-time order kept |
| CompareAndSwap.ExactlyOnce | chain/client-index/src/service/address_service.rs:186-206 | any number of threads applying one memento change the address exactly once: if it applies, every call that returns succeeds and the value is changed from the first return on; if not, every one fails and nothing changes |
| UnspentTransactions.SortShape | chain/client-core/src/unspent_transactions.rs:177-188 | sorting orders the list, is a permutation, and keeps the order of equal values |
| UnspentTransactions.SortedByValue | chain/client-core/src/unspent_transactions.rs:177-188 | the two sorters put the values in descending and in ascending order |
| UnspentTransactions.UnspentTransactions.ApplyAll | chain/client-core/src/unspent_transactions.rs:72-85 | all sorts in turn, in place; the last one decides the order |
| UnspentTransactions.Select | chain/client-core/src/unspent_transactions.rs:94-112 | the accumulating loop, against the specification that `SelectIsRight` decides |
| UnspentTransactions.SelectIsRight | chain/client-core/src/unspent_transactions.rs:94-112 | the shortest non-empty prefix that reaches the amount and its exact excess; which error when, in terms of prefixes alone |
| UnspentTransactions.FewestInputs | chain/client-core/src/unspent_transactions.rs:94-112 | after sorting by highest value, no non-empty choice of fewer outputs reaches the amount |
| UnspentTransactions.InsufficientMeansNone | chain/client-core/src/unspent_transactions.rs:111 | an insufficient balance means that no choice reaches the amount |
| TransactionBuilder.OneRound | chain/client-core/src/transaction_builder/default_transaction_builder.rs:79-104 | one round: the transaction spends the shortest list of first outputs that reaches what is needed, pays what was ordered and the change to the return address, and what is encrypted are the witnesses that signing gave for it and for the selected outputs; which error when |
| TransactionBuilder.RoundBalances | chain/client-core/src/transaction_builder/default_transaction_builder.rs:120-139 | one round spends exactly its outputs, the change and the fees it was made for, and passes the validator's sum check |
| TransactionBuilder.Build | chain/client-core/src/transaction_builder/default_transaction_builder.rs:65-112 | terminates for any fee function; every round is made for the fee of the round before, each asking for more, and the last one decides the answer; on success the result is that round's, its inputs equal outputs plus fees, the fees cover its fee, and the validator's sum check passes |
| RootHash.CombosComplete | chain/client-core/src/service/root_hash_service.rs:142-158 | every selection of m keys is one of the combinations, up to order |
| RootHash.CombosSound | chain/client-core/src/service/root_hash_service.rs:142-158 | every combination is a selection of m of the keys |
| RootHash.CombosOnce | chain/client-core/src/service/root_hash_service.rs:142-158 | of distinct keys, no combination occurs twice |
| RootHash.AddressAccepted | chain/client-core/src/service/root_hash_service.rs:41-74 | an address is made if and only if the number of signers is between one and all keys, the own key is among them, and every combination can be combined |
| RootHash.SingleSigner | chain/client-core/src/service/root_hash_service.rs:134-140 | with one required signer, every key has a proof that carries the key itself |
| RootHash.ProofForEverySelection | chain/client-core/src/service/root_hash_service.rs:77-100 | every selection of m keys, in any order, has a proof that verifies and carries the combined key of the sorted selection |
| RootHash.OrderDoesNotMatter | chain/client-core/src/service/root_hash_service.rs:95 | the proof depends on the selected keys only |
| RootHash.ProofOnlyForSelections | chain/client-core/src/service/root_hash_service.rs:77-100 | with combined keys that differ, exactly the selections of m keys have proofs |
| RootHash.RootHashService.NewRootHash | chain/client-core/src/service/root_hash_service.rs:41-74 | which arguments are refused; the address is stored under its root, and every stored address was made from keys and is stored under its own root |
| RootHash.RootHashService.GenerateProofOf | chain/client-core/src/service/root_hash_service.rs:77-100 | a proof verifies against the root asked for and carries the combined key of the sorted selection; there is one for every selection of m of the address's keys, and for nothing else when combined keys differ |
| RootHash.RootHashService.RequiredSigners | chain/client-core/src/service/root_hash_service.rs:103-113 | the number of keys a proof needs, at least one and at most all |
| SigningSession.IndexOfFinds | chain/client-core/src/service/multi_sig_session_service.rs:284-288 | on sorted signers, binary search finds a key exactly when it is there |
| SigningSession.BinarySearch | chain/client-core/src/service/multi_sig_session_service.rs:284-288 | the halving loop equals the search that `IndexOfFinds` decides |
| SigningSession.SignersAreFound | chain/client-core/src/service/multi_sig_session_service.rs:389-403 | in every session of every run the signers stay sorted and include the current one |
| SigningSession.RecordedStays | chain/client-core/src/service/multi_sig_session_service.rs:321-351 | along every run, recorded commitments, nonces and partial signatures never change |
| SessionRuns.RevealsInOrder | chain/client-core/src/service/multi_sig_session_service.rs:86-173 | along every run, a nonce is revealed only after the commitments of all signers were received or made, a partial signature only after all nonces too, the signature only after all partial signatures |
| SessionRuns.Provenance | chain/client-core/src/service/multi_sig_session_service.rs:40-63 | every value recorded in a session after a run was brought by a request for that signer, or is the current signer's own answer |
| SessionRuns.DistinctKeysComplete | chain/client-core/src/service/multi_sig_session_service.rs:321-351 | a session with distinct keys has all values of a kind once one was put for every key |
| SessionRuns.RepeatedKeyNeverCompletes | chain/client-core/src/service/multi_sig_session_service.rs:284-288 | a session with a repeated key never has all values of any kind |
| SessionRuns.RepeatedKeysAccepted | chain/client-core/src/service/multi_sig_session_service.rs:377-425 | such a session is created |
| SessionRuns.SessionCreated | chain/client-core/src/service/multi_sig_session_service.rs:377-425 | a session is created if and only if there are two or more keys, the own one among them, and they can be combined; it has these keys, sorted, and nothing recorded |
| SessionRuns.SessionsAreMade | chain/client-core/src/service/multi_sig_session_service.rs:377-425 | every session after a run was made by a request of the run and still has its id, message, key and signers |
| SessionRuns.CommitsForSession | chain/client-core/src/service/multi_sig_session_service.rs:66-83 | along every run, the own commitment is made for the session and the place of the current signer |
| SessionRuns.SignsForSession | chain/client-core/src/service/multi_sig_session_service.rs:176-238 | along every run, the signature is computed from all commitments, nonces and partial signatures recorded, signer by signer |
| SessionRuns.SignatureUsesShares | chain/client-core/src/service/multi_sig_session_service.rs:123-238 | the partial signature and the signature are computed for the same context, commitments and nonces |
| SessionRuns.AnswersOnceCollected | chain/client-core/src/service/multi_sig_session_service.rs:86-282 | along every run, a request for nonce, partial signature or signature says which values are missing, in the order of the rounds, and once none is gives the library's answer |
| SigningSession.SignsWhatWasCommitted | chain/client-core/src/service/multi_sig_session_service.rs:464-510 | the commitments the partial signature is computed from are those the nonce was revealed for |
| SigningSession.PutsRecord | chain/client-core/src/service/multi_sig_session_service.rs:40-63 | a received value is taken if and only if its key is a signer without one; it is recorded for that signer and nowhere else; which error otherwise |
| SigningSession.GetsRecord | chain/client-core/src/service/multi_sig_session_service.rs:428-510 | after an own value is returned, it or an earlier one is recorded for the current signer |
| SigningSession.SignsOnce | chain/client-core/src/service/multi_sig_session_service.rs:499-510 | asking again for the partial signature gives the same one |
| SigningSession.MultiSigSessionService.CreateSession | chain/client-core/src/service/multi_sig_session_service.rs:377-425 | the new session or the error, against the step function |
| SigningSession.MultiSigSessionService.Commitment | chain/client-core/src/service/multi_sig_session_service.rs:428-440 | own commitment, recorded the first time |
| SigningSession.MultiSigSessionService.ReceiveCommitment | chain/client-core/src/service/multi_sig_session_service.rs:443-461 | a co-signer's commitment, refused when there is one |
| SigningSession.MultiSigSessionService.Nonce | chain/client-core/src/service/multi_sig_session_service.rs:464-475 | own nonce, recorded the first time |
| SigningSession.MultiSigSessionService.ReceiveNonce | chain/client-core/src/service/multi_sig_session_service.rs:478-496 | a co-signer's nonce, refused when there is one |
| SigningSession.MultiSigSessionService.PartialSignature | chain/client-core/src/service/multi_sig_session_service.rs:499-510 | own partial signature, recorded the first time |
| SigningSession.MultiSigSessionService.ReceivePartialSignature | chain/client-core/src/service/multi_sig_session_service.rs:513-531 | a co-signer's partial signature, refused when there is one |
| SigningSession.MultiSigSessionService.Signature | chain/client-core/src/service/multi_sig_session_service.rs:534-537 | the combined signature or what is missing |

## Left out

- SCALE encoding and decoding, and undecodable requests: bytes are already decoded values.
- The fee policy: the minimum fee is a parameter of each request.
- The account trie and its storage: a root stands for a map of accounts.
- SGX calls, sealing, remote attestation, TLS, and the loss of a commit between the enclave and the database: a commit is one step.
- Elliptic-curve, MuSig and AEAD primitives: abstract functions.
- Overflow of nonces (64 bits) and of times: unbounded integers.
- The bits of the block filter: it is known by what was added, and its answers by what they may be; encrypted payloads, whose view keys the node could not read.
- Queries, the transaction bodies and witnesses stored for them, CLI, JSON-RPC and websocket.
- Voting power before the first restart: `init_chain` fills in keys only, so no power is tracked until the maps are rebuilt. `NodePowers` says what the tracked powers are, which is not always what the stake is worth.
- Decryption queries that leave out shared transactions, or block data that leave out public ones: what a node serves is complete for each block (`BlockSync.ServesBlock`).
- Soundness of arbitrary `Proof` values: `verify` relates root and path, not the value; the statements are about generated proofs.
- Concurrent callers of one signing session: they read and write separately; each call is one step here.
- CompareAndSwap.Linearizable: one key, and calls that fail for storage reasons are not modelled.
- UnspentTransactions.SortShape: the library's stable sort is modelled by its result, not by its algorithm.
- SigningSession.BinarySearch: the library's search of that time, which returns some position when keys repeat.
