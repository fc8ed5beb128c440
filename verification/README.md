# A verified model of the block emulator's protocols

BlockEmulator-X runs a sharded blockchain: shard leaders execute transactions and agree on blocks by PBFT, a
supervisor injects transactions and re-partitions the accounts, and either relay transactions or brokers carry
payments across shards. An agent layer on top compiles agent traces into plans and turns the chains back into
per-agent ledgers. This project models that behaviour in Dafny and proves what its protocols are for.

Classes follow the source's objects: each method is proved against a specification function on values, and the
protocols are transition systems whose steps are those same functions. A run is any sequence of enabled steps from
the initial state; a theorem about runs holds for every number of shards or nodes, every interleaving and every
reordering of messages.

The five layers, bottom to top of each:

1. **Dynamic sharding.** `Accounts`, `Transactions`, `Execute`, `TxPool`, `Chain`, `Migration` and `RelayOps` are the
   objects; `DynamicShardOp` and `ClpaRelay` prove the leader and the supervisor classes equal to the transitions of
   `Sharding`. `ShardingInvariant` and `ShardingSteps` hold the invariant and its preservation by every step,
   `TxCounts` counts transactions by any measure over one step; `Conservation` draws up the books with it, and
   `ShardingOnce` follows every payment through a run. `ShardingTheorems` has the results on epochs and migration,
   `ShardingRouting` where every transaction is sent and what a commit reports, `ConservationRuns` the exact condition
   for a constant total and the runs that burn and mint.
2. **PBFT.** `ViewSeqs`, `PriorityQueues`, `MsgPools`, `PbftMeta` and `PbftNode` are one node. `PbftSystem` is n nodes
   with their round machines and chains, some of them faulty, catching up included, on an adversarial network.
   `PbftAgreement` has the invariant of the rounds, `PbftPrepared` what stands behind every vote and decision,
   `PbftChains` and `PbftCatchup` the invariant of the chains, `PbftAsking` when a node asks to catch up. `PbftRuns` and
   `PbftRounds` build runs, with which `PbftSplit`, `PbftEarly`, `PbftLag` and `PbftStale` make each condition exact.
3. **Broker protocol.** `Broker`, `StaticBroker` and `BrokerRouting` are the objects, `BrokerSystem` the system with
   its chains, `BrokerLifeCycle` and `BrokerSolvency` the invariants, `BrokerPayments` what payers and payees end up
   with, `BrokerBooks` what the committee's two ledgers hold, `BrokerCounterexample` the run that breaks solvency in
   every system where a broker may send, and so the exact condition.
4. **CLPA partitioning.** `Graph`, `Clpa` (weights), `ClpaRun` (visits and passes), `ClpaState` (the class) and
   `ClpaDrift` (a move that leaves wrong weights).
5. **Agents.** `AgentLedger`, `LedgerRestart` (a drained agent), `Registry`, `AgentPlan`, `PlanMeaning` (what a plan
   contains for a trace), `TraceGen`, `TextFormats`, `TraceSource` and `RelayStats`.

## What the code does that its promise does not say

The model follows the code. Where a promised law fails, the project proves exactly when it holds.

- **Conservation.** Held balances plus value in transit plus `burned` equal the initial money plus `minted`, in every
  reachable state. `burned` is the value of relay-2 transactions packed into a block whose preview overdrafts (the
  packed list is dropped); `minted` is one initial balance for each account a block leaves empty, which the state
  database forgets and later creates anew. The total is constant throughout a run exactly when neither happens in it,
  and there are runs for both.
- **Exactly once.** Payment by payment: as often as it was injected, it is still in the system, was committed whole or as
  a first leg, or was lost with an aborted pack, and the same for the second legs of committed first ones. With nothing
  left in the system it was debited and credited as often as injected exactly when no aborted pack had it.
- **Agreement.** The quorum is 2f+1 with f = (n-1)/3, whatever n is. Two correct nodes decide the same digest in a
  round, in all runs, if and only if 2(2f+1) > n + |faulty|, or the leader is correct, or fewer than two nodes are
  correct. So n = 3f+1 with at most f faulty is safe for digests, while for n = 3f+3 with f of them faulty, among them
  the leader, there is a run (f >= 1) in which two correct nodes decide differently. Nobody compares a digest with the
  block it comes with, so blocks agree, in all runs, if and only if the leader is correct or fewer than two nodes are,
  whatever the quorum. All of this holds with catch-ups in between, as long as they lead to later rounds. The condition
  for decisions is also that for commit votes. That a commit vote of a correct node has 2f+1 prepare votes behind it, and
  a prepare vote a validated proposal, holds in every run at all.
- **Height and sequence number.** With a correct leader they stay in step on every correct node in every run, as long as
  answers are taken only if they fit: own height plus the number of blocks is the adopted sequence number plus one. The
  source does not check this, nor does `AddBlock` check a block's number, nor does the round machine wait for a block
  that fails. In any run at all, the nodes are in step throughout exactly when every decided block executes and carries
  the height of its round and every answer taken leads to the round it is taken for; there is a run for each way to fail.
- **Catch-up.** However much happens between request and answer, the node ends with the chain and state the leader had
  as it answered exactly when its height is still the one it asked from and the leader was not below it. Otherwise an
  answer can take a node back to an earlier round, or, with nobody faulty at all, add blocks for the second time. A
  request more than the fetch limit behind is refused, and a block that fails leaves the catch-up open, so that none is
  started again. A catch-up is triggered by any proposal far ahead, whoever sent it; it means being behind only if no
  node is faulty. A proposal of a later view, whoever sent it, keeps a node from asking at all.
- **Early messages.** A vote that comes early is never lost if and only if the rounds a node adopts are strictly later
  than the one it is in, or are such that no answer ever names them. The source adopts whatever the answer says, and one
  late answer is enough to lose votes, again with nobody faulty at all.
- **Incremental CLPA weights.** A move keeps them equal to a recomputation exactly when the moved vertex has no
  self-loop. A shard no edge touches makes every score minus infinity, so that nothing moves at all. Once penalty times
  weight exceeds the minimum weight the score is negative, and then more neighbours make it lower, not higher.
- **Byte packing.** The loop's comparison makes it all or nothing: the whole queue if the first transaction is at least
  as large as the limit, otherwise nothing.
- **Migration block.** The fallback for an account nobody sent is taken exactly for the accounts that go to other
  shards, never for one that comes here.
- **Broker solvency.** With two or more shards, no second leg ever finds its broker short of money if and only if no
  account that may send transactions is a broker; otherwise there is a run in which the debit wraps below zero. A
  reservation whose raw transaction is refused stays pending for good: the pending deduction is exactly the unconfirmed
  payments reserved there and what such refusals have left behind.
- **Ledger.** A ledger balance is the chain's balance exactly when no earlier block has left the account drained;
  otherwise it is short by one initial balance for each time that happened, and two blocks are enough for that.
- **Relay statistics.** An inner transaction with the hash of a half-seen relayed one throws its entry away; hashes apart,
  the pairing is exact.

## Model

| member | source | states |
|---|---|---|
| Accounts.DefaultAccountLoc | pkg/partition/accountloc.go:10-15 | The default location of every address is a valid shard. |
| Execute.Executor.NormalTxExecute | pkg/chain/txexecute.go:47-66 | Succeeds exactly when the value fits 256 bits and the (lazily created) sender can pay; then debits and credits; on failure no balance reads differently. |
| Execute.Executor.RelayTxExecute | pkg/chain/txexecute.go:68-107 | Relay 1 debits the sender in its shard, relay 2 credits the recipient in its shard, elsewhere nothing happens; failure changes no balance. |
| Execute.Executor.SetInitBalanceIfNotExist | pkg/chain/txexecute.go:156-162 | Exactly the named accounts come into existence, and no read balance or nonce changes. |
| Execute.Executor.TxExecute | pkg/chain/chain.go:419-459 | Dispatch by transaction type, equal to the specified outcome. |
| Execute.Executor.ExecuteAll | pkg/chain/chain.go:579-591 | A block executes in order, and fails as soon as one of its transactions fails. |
| Execute.TxMovesItsEffect | pkg/chain/txexecute.go:47-107 | A transaction in a shard that can run it changes every account by exactly its effect and no nonce. |
| Execute.BlockMovesItsEffects | pkg/chain/chain.go:579-591 | A block changes every account by the sum of the effects of its transactions. |
| Execute.BlockLeavesOthers | pkg/chain/txexecute.go:47-107 | A block leaves the stored state of accounts of other shards alone. |
| TxPool.TxPool.AddTxs | pkg/core/txpool/queue/queue.go:40-47 | Appends in order. |
| TxPool.TxPool.PackTxs | pkg/core/txpool/queue/queue.go:81-95 | Takes the longest prefix within the limit; packed followed by kept is the old queue. |
| TxPool.TxPool.PackTxsByBytes | pkg/core/txpool/queue/queue.go:97-123 | FIFO split; all of the queue if its first transaction is at least as large as the limit, else nothing. |
| Chain.Chain.constructor | pkg/chain/chain.go:310-325 | A new chain is valid, has the genesis block alone, at height 1, and an empty state. |
| Chain.Chain.GetAccountLocationsInTxs | pkg/chain/chain.go:378-401 | Every account of the transactions gets its stored location, or its default one. |
| Chain.Chain.CalcStateModification | pkg/chain/chain.go:579-619 | The state after a block: transactions executed and empty accounts forgotten, or migrated accounts installed and all locations set. |
| Chain.Chain.InstallAll | pkg/chain/chain.go:598-616 | Exactly the moved accounts that come to this shard get their state here; every moved account gets its new location, in whatever order they are taken. |
| Chain.Chain.GenerateBlock | pkg/chain/chain.go:82-135 | Proposes the next height on the current header exactly when the preview applies. |
| Chain.Chain.AddBlock | pkg/chain/chain.go:137-177 | Applies and appends exactly when the block's changes can be computed, else changes nothing; keeps the chain linked when the block follows the header. |
| Chain.Chain.UpdateEpoch | pkg/chain/chain.go:291-293 | Sets the epoch and nothing else. |
| Chain.Chain.GetBlocksAfterHeight | pkg/chain/chain.go:233-281 | Returns the contiguous blocks from the given height to the current one, none when beyond the end, and refuses a non-positive height or more blocks than the limit. |
| Chain.ReplayedAppend | pkg/chain/chain.go:137-177 | Adding two lists of blocks one after the other is adding their concatenation, failures included. |
| Chain.ExtendedReplays | consensus/pbft/node.go:362-367 | All of a list of blocks is added exactly when it replays from the present state, and then leads there; otherwise the blocks before the first failing one stay. |
| Migration.AccMigrateMetadata.MigrationStatusReset | consensus/pbft/migration/migration.go:39-50 | Ends the epoch: no map, no states, not ready; epoch and early messages stay. |
| Migration.AccMigrateMetadata.UpdateByRepartitionStartMsg | consensus/pbft/migration/migration.go:52-77 | A start is taken exactly when its epoch is the next one; then messages that came early for it are replayed. |
| Migration.AccMigrateMetadata.CollectStatesByMsg | consensus/pbft/migration/migration.go:79-103 | Refuses old messages and foreign destinations, buffers future ones, records current ones by source. |
| Migration.AccMigrateMetadata.GetMigratedAddrStates | consensus/pbft/migration/migration.go:105-144 | Refused until every shard has been heard; then one entry for each account of the map, with a collected state, or with the initial one if nobody sent it. |
| Migration.MergeCollected | consensus/pbft/migration/migration.go:114-120 | The merged states are collected states, and every collected account is among them, for any iteration order. |
| Migration.MergeIsUnique | consensus/pbft/migration/migration.go:105-144 | If senders agree wherever they overlap, the merge does not depend on the iteration order. |
| Migration.UnsentIsFresh | consensus/pbft/migration/migration.go:126-141 | An account of the map that nobody sent enters the block with the initial balance and nonce zero, as one never touched. |
| Migration.MigrateAccounts | consensus/pbft/insideop/migrationblockop/migrationblockop.go:85-139 | One message for every shard, each with exactly the accounts that live here and move there, in their current state. |
| RelayOps.PackCountIsLeast | consensus/pbft/insideop/dynamicshardop.go:163-216 | Packing pops the least prefix of the pool that holds a full block of local transactions, or the whole pool, and never exceeds the limit. |
| RelayOps.PackValidTxsInRelay | consensus/pbft/insideop/dynamicshardop.go:163-216 | Terminates; packs the local transactions of that prefix in order, files the others under the shard of their key account, leaves the rest pooled. |
| RelayOps.PackingConserves | consensus/pbft/insideop/dynamicshardop.go:163-216 | Any measure of the pool is shared out among packed, forwarded and kept transactions: nothing is lost or invented. |
| RelayOps.PackedOrForwarded | consensus/pbft/insideop/dynamicshardop.go:163-216 | Every popped transaction is packed if its key account lives here, and otherwise sent, as often, to that account's shard and no other. |
| RelayOps.MigrateTxsInRelay | consensus/pbft/insideop/dynamicshardop.go:294-327 | Pooled transactions of moving accounts are filed under the new shard; the others go to the back of the pool. |
| RelayOps.MigratedOrKept | consensus/pbft/insideop/dynamicshardop.go:294-327 | A pooled transaction goes to its account's new shard or stays, with its multiplicity. |
| RelayOps.MigratingConserves | consensus/pbft/insideop/dynamicshardop.go:294-327 | Any measure of the pool is shared out between what is sent and what stays. |
| RelayOps.ModifyTxRelayOpt | consensus/pbft/insideop/txblockop/relaytxblockop.go:90-149 | Local transactions are tagged as inner, relay 1 or relay 2, in order; foreign ones are dropped. |
| RelayOps.TaggedIs | consensus/pbft/insideop/txblockop/relaytxblockop.go:90-149 | A packed transaction keeps its place and its parties; it stays plain exactly if its recipient lives here, and else leaves as relay 1 with its own hash as the original one. |
| RelayOps.TaggedRunHere | consensus/pbft/insideop/txblockop/relaytxblockop.go:90-149 | Tagging local transactions drops none, names the same accounts, keeps the value in transit, and yields only transactions this shard executes. |
| RelayOps.SplitTxs | consensus/pbft/insideop/txblockop/relaytxblockop.go:151-180 | An executed block is reported as inner, relay-1 and relay-2 transactions, each in order. |
| RelayOps.SendRelayedTxs | consensus/pbft/insideop/txblockop/relaytxblockop.go:212-241 | Each relay-1 transaction yields one relay-2 leg, filed under the shard where the location map has its recipient, migrated or not; what is filed under a shard has its recipient there. |
| RelayOps.RelayingConserves | consensus/pbft/insideop/txblockop/relaytxblockop.go:212-241 | Committing relay-1 transactions puts exactly their value in transit. |
| ShardingInvariant.InitHolds | supervisor/committee/clparelay.go:30-61 | The invariant holds before anything has happened. |
| ShardingSteps.DeliverTxs | consensus/pbft/insideop/dynamicshardop.go:85-104 | Receiving transactions keeps the invariant. |
| ShardingSteps.DeliverStart | consensus/pbft/migration/migration.go:52-77 | A start always carries the leader's epoch plus one, and replaying what came early keeps the invariant. |
| ShardingSteps.DeliverMigration | consensus/pbft/migration/migration.go:79-103 | A migration message under way is always accepted, and keeps the invariant. |
| ShardingSteps.HandleInfoOk | supervisor/committee/clparelay.go:87-123 | A block report, however late, keeps the invariant. |
| ShardingSteps.InjectOk | supervisor/committee/clparelay.go:159-174 | Injection keeps the invariant. |
| ShardingSteps.SyncedMeansOver | supervisor/committee/partitionrunner.go:19-37 | When the supervisor is synced, every shard has finished the epoch and no start, migration message or early message is left anywhere. |
| ShardingSteps.RepartitionOk | supervisor/committee/clparelay.go:129-157 | Any new placement keeps the invariant. |
| ShardingSteps.ProposeTxsOk | consensus/pbft/insideop/dynamicshardop.go:106-118 | A transaction proposal keeps the invariant. |
| ShardingSteps.SendAccountsOk | consensus/pbft/insideop/dynamicshardop.go:120-137 | Sending the migrating accounts freezes the shard and keeps the invariant. |
| ShardingSteps.ProposeMigrationOk | consensus/pbft/insideop/dynamicshardop.go:120-150 | A migration proposal keeps the invariant. |
| ShardingSteps.CommitTxsOk | consensus/pbft/insideop/txblockop/relaytxblockop.go:62-88 | Committing transactions keeps the invariant. |
| ShardingSteps.CommitMigrationOk | consensus/pbft/insideop/migrationblockop/migrationblockop.go:141-152 | Committing a migration block keeps the invariant, and every shard is frozen when it happens. |
| ShardingSteps.MergedStates | consensus/pbft/migration/migration.go:105-144 | A migration block covers exactly the moving accounts; those that come here carry the state their old owner still has, and none comes from here. |
| ShardingSteps.RunKeepsInv | supervisor/committee/clparelay.go:63-85 | The invariant holds in every reachable state. |
| Conservation.LocalIsHeld | consensus/pbft/insideop/dynamicshardop.go:67-75 | A shard that has not frozen owns every account its map places there. |
| Conservation.CommittedBalance | pkg/chain/chain.go:579-597 | A committed block changes each account by its effects, and gives an account it drains the initial balance anew. |
| Conservation.CommitTxsBalances | pkg/chain/chain.go:579-597 | All balances together change by the relay-2 value less the relay-1 value of the block, plus what is minted. |
| Conservation.InstalledState | pkg/chain/chain.go:598-616 | The new owner installs exactly the last state the old owner has. |
| Conservation.StepKeepsBooks | consensus/pbft/insideop/txblockop/relaytxblockop.go:62-88 | Every step keeps the books balanced. |
| Conservation.MoneyIsConserved | consensus/pbft/insideop/dynamicshardop.go:163-216 | In every reachable state, across any number of epochs and reorderings, held balances plus value in transit plus burned equal the initial money plus minted. |
| TxCounts.StepCounts | consensus/pbft/insideop/dynamicshardop.go:67-104 | By any measure of transactions that does not tell a payment from its first leg, every step balances: what the system held and what is injected and relayed is what it holds afterwards and what was committed or lost with an aborted pack. |
| ShardingOnce.RunCounts | consensus/pbft/insideop/dynamicshardop.go:67-104 | The same over whole runs. |
| ShardingOnce.ExactlyOnce | consensus/pbft/insideop/txblockop/relaytxblockop.go:62-88 | In every run, across migrations and reorderings, each payment is as often as it was injected in the system unpaid, committed whole or as a first leg, or aborted; and as often as its first leg was committed its second is in the system, committed or aborted. |
| ShardingOnce.NeverTwice | consensus/pbft/insideop/txblockop/relaytxblockop.go:212-241 | No payment is debited more often than it was injected, nor credited more often than debited. |
| ShardingOnce.PaidInFullExactlyWhen | consensus/pbft/insideop/dynamicshardop.go:106-118 | With nothing of a payment left in the system, it has been debited and credited as often as it was injected if and only if no aborted pack had it. |
| ShardingTheorems.TotalIsConstant | consensus/pbft/insideop/txblockop/relaytxblockop.go:90-149 | In every reachable state, balances plus transit are the initial money if and only if as much has been burned as minted. |
| ConservationRuns.ConstantExactlyWhen | consensus/pbft/insideop/dynamicshardop.go:106-118 | In any run the total never changes if and only if no pack is aborted with a relay-2 transaction of some value in it and no committed block leaves an account empty. |
| ConservationRuns.CleanStep | consensus/pbft/insideop/txblockop/relaytxblockop.go:62-88 | A step without such an abort or drain neither burns nor mints, and any other step burns and mints different amounts. |
| ConservationRuns.AbortBurns | consensus/pbft/insideop/dynamicshardop.go:106-118 | In every system of two or more shards there is a run in which a second leg, packed with a transaction that cannot be paid for, is lost together with its value. |
| ConservationRuns.DrainingMints | pkg/chain/chain.go:579-597 | In every system there is a run in which a block drains an account, which then has its initial balance again. |
| ShardingTheorems.BalancesAreBounded | pkg/chain/txexecute.go:47-107 | No account ever holds more than all the money there is, so unchecked credits cannot wrap while that stays below 2^256. |
| ShardingTheorems.EpochBarrier | supervisor/committee/partitionrunner.go:19-37 | For every shard: reported epoch, chain epoch, metadata epoch, supervisor epoch, reported epoch plus one, never decreasing in this order. |
| ShardingTheorems.NothingIsRefused | consensus/pbft/migration/migration.go:52-103 | Under any reordering a start is never refused and a migration message never out of date. |
| ShardingTheorems.MigrationNeedsEverybody | consensus/pbft/migration/migration.go:105-111 | A migration block waits for one message from every shard, each frozen and each heard in full. |
| ShardingTheorems.OldMapOrNewMap | pkg/chain/chain.go:543-572 | A shard's location map is the complete old placement or the complete new one, the new one exactly after its migration block. |
| ShardingTheorems.LocationAgreement | pkg/partition/clpa.go:228-234 | Whenever the supervisor is synced, every shard agrees with it on every account, and nothing of the epoch is under way. |
| ShardingTheorems.ProposalsExecute | pkg/chain/chain.go:203-231 | A proposed transaction block always executes on commit, and skips no transaction as foreign. |
| ShardingTheorems.TouchedIsHeld | consensus/pbft/insideop/txblockop/relaytxblockop.go:90-149 | Single ownership: what a proposal debits or credits is owned by the proposing shard. |
| ShardingTheorems.MigratingIsUntouched | consensus/pbft/insideop/dynamicshardop.go:67-75 | From the snapshot of an account to the commit of its new owner, no proposal anywhere debits or credits it. |
| ShardingTheorems.StepKeepsFrozen | consensus/pbft/insideop/dynamicshardop.go:67-75 | No single step changes the state of a frozen migrating account. |
| ShardingTheorems.RunKeepsFrozen | consensus/pbft/insideop/dynamicshardop.go:67-75 | Nor does any stretch of a run within the epoch. |
| ShardingTheorems.RunKeepsEpochs | pkg/chain/chain.go:287-293 | Supervisor and chain epochs never go back in any run. |
| ShardingTheorems.MigrationIsExact | consensus/pbft/insideop/migrationblockop/migrationblockop.go:45-152 | Whatever happens in between, the new owner installs the very balance and nonce the account had at its snapshot. |
| ShardingTheorems.NobodyIsMissing | consensus/pbft/migration/migration.go:126-141 | The account of a migration block was sent here if and only if it comes here, so the missing-account fallback never affects a balance. |
| ShardingTheorems.MergeIsDetermined | consensus/pbft/migration/migration.go:105-144 | In every reachable state the migration block does not depend on map iteration order. |
| ShardingTheorems.NobodyMovesHome | consensus/pbft/insideop/migrationblockop/migrationblockop.go:105-117 | The branch for an account that moves to its own shard is unreachable. |
| ShardingRouting.SentIsAimed | consensus/pbft/insideop/dynamicshardop.go:163-216 | Whatever an injection, a proposal or a commit sends, it sends to the shard where the placement it goes by has the account that transaction waits for: sender, or recipient of a second leg. |
| ShardingRouting.ForwardedByMigration | consensus/pbft/insideop/dynamicshardop.go:294-327 | A transaction sent by a migration goes to the new shard of the account it waits for. |
| ShardingRouting.FreezingHandsOver | consensus/pbft/insideop/dynamicshardop.go:294-327 | When a shard freezes, each pooled transaction that waits for a moving account is sent, as often, to the account's new shard and is pooled no more; every other one stays, and nothing else of the leader changes. |
| ShardingRouting.ProposalsAreRouted | consensus/pbft/insideop/txblockop/relaytxblockop.go:90-149 | In every run a proposed block holds payments between two accounts of the shard, first legs of senders here to recipients elsewhere with their own hash, and second legs of recipients here. |
| ShardingRouting.CommitIsReported | consensus/pbft/insideop/txblockop/relaytxblockop.go:182-210 | In every run a committed block is reported once and first of all, with shard and epoch; the three lists share out the block into what stays, what leaves and what arrives. |
| ShardingRouting.LegsLeave | consensus/pbft/insideop/txblockop/relaytxblockop.go:212-241 | In every run each committed first leg sends its second leg, to the shard where the committing shard has the recipient, which is another one. |
| ShardingRouting.SettledUntilNextEpoch | supervisor/committee/partitionrunner.go:19-37 | Once the supervisor is synced, every shard stays out of migration and goes by the supervisor's placement until the next epoch begins. |
| ShardingRouting.SecondLegIsHome | consensus/pbft/insideop/dynamicshardop.go:163-216 | A second leg sent while the supervisor is synced is at home for the rest of the epoch: it is never forwarded, and each copy is in the next block or still pooled. |
| ShardingRouting.InjectedIsHome | supervisor/committee/clparelay.go:159-174 | An injected transaction goes to the shard that has its sender, and is never forwarded from there in that epoch. |
| DynamicShardOp.SendWrappedTxs2Shards | pkg/message/senderfunc.go:14-44 | One message for each shard with a non-empty list. |
| DynamicShardOp.DynamicShardOp.BuildProposal | consensus/pbft/insideop/dynamicshardop.go:67-75 | One proposal attempt of the object is exactly the leader's transition, and its block follows the chain. |
| DynamicShardOp.DynamicShardOp.BuildBlockProposal | consensus/pbft/insideop/dynamicshardop.go:106-118 | Packs, forwards and proposes as the transition does; a failing preview loses what was packed. |
| DynamicShardOp.DynamicShardOp.BuildPartitionProposal | consensus/pbft/insideop/dynamicshardop.go:120-150 | Sends accounts and transactions once, and proposes a migration block when all shards have been heard. |
| DynamicShardOp.DynamicShardOp.Migrate | consensus/pbft/insideop/dynamicshardop.go:120-137 | What goes out is the account messages and the transactions of moving accounts; the rest stays pooled. |
| DynamicShardOp.DynamicShardOp.ProposalCommitAndDeliver | consensus/pbft/insideop/dynamicshardop.go:85-104 | A commit is exactly the leader's commit transition; followers send nothing. |
| DynamicShardOp.DynamicShardOp.MigrationBlockCommit | consensus/pbft/insideop/migrationblockop/migrationblockop.go:141-152 | Installs the block, takes over the epoch and resets the metadata. |
| DynamicShardOp.DynamicShardOp.BlockCommitAndDeliver | consensus/pbft/insideop/txblockop/relaytxblockop.go:62-88 | Adds the block; the leader then does what the commit transition does, whose report and legs ShardingRouting.CommitIsReported and ShardingRouting.LegsLeave pin down. |
| DynamicShardOp.DynamicShardOp.HandleMsgOutsideShard | consensus/pbft/migration/migration.go:52-103 | Handling a message from outside is the leader's receive transition. |
| ClpaRelay.PackShardTxs | supervisor/committee/committee.go:37-56 | Every transaction is filed in order under the shard the location function gives; a shard out of range drops it. |
| ClpaRelay.CLPARelayCommittee.CheckEpochSyncAndMark | supervisor/committee/partitionrunner.go:19-37 | Synced exactly when it was, or when every shard has reported the supervisor's epoch. |
| ClpaRelay.CLPARelayCommittee.HandleMsg | supervisor/committee/clparelay.go:87-123 | A report raises the shard's epoch, never lowers it, adds its executed transactions as edges, and counts as empty or not once everything has been injected; a shard out of range is refused. |
| ClpaRelay.CLPARelayCommittee.Repartition | supervisor/committee/clparelay.go:129-157 | Starts the next epoch, tells every shard exactly which vertices change place, and begins the stop count anew. |
| ClpaRelay.CLPARelayCommittee.ReadTxsAndSend | supervisor/committee/clparelay.go:159-174 | Every transaction goes to the shard of its sender and is no longer unsent; when the source fails nothing is sent. |
| ClpaRelay.CLPARelayCommittee.SendTxsAndConsensus | supervisor/committee/clparelay.go:63-85 | One tick of the object is a wait, an inject transition, a failed read or a repartition transition. |
| ClpaRelay.StopCountIsTail | supervisor/committee/clparelay.go:105-127 | With everything injected, the stop count is the length of the latest run of empty reports, neither longer nor shorter. |
| ViewSeqs.CompareIsTotalOrder | consensus/pbft/basicstructs/viewseq.go:8-26 | Comparison is a total order, zero only for equal pairs. |
| PriorityQueues.UpStep | consensus/pbft/basicstructs/pq.go:18-54 | One swap upwards moves the only violation of the heap to the parent. |
| PriorityQueues.DownStep | consensus/pbft/basicstructs/pq.go:18-54 | One swap with the lesser child moves the only violation downwards. |
| PriorityQueues.RootIsLeast | consensus/pbft/basicstructs/pq.go:18-54 | The root of a heap is least. |
| PriorityQueues.RootReplaced | consensus/pbft/basicstructs/pq.go:39-54 | Exchanging the root with the last element and dropping it leaves a heap but for the new root, and the other elements. |
| PriorityQueues.PriorityQueue.PushItem | consensus/pbft/basicstructs/pq.go:48-50 | Stays a heap and gains exactly the pushed message. |
| PriorityQueues.PriorityQueue.PopItem | consensus/pbft/basicstructs/pq.go:52-54 | Stays a heap, loses exactly the element returned, and that one is least of all that were there. |
| MsgPools.ReadUpTo | consensus/pbft/basicstructs/pool.go:24-50 | The drain loop returns exactly the messages up to the given round, in order, and keeps exactly the others. |
| MsgPools.ReadMembers | consensus/pbft/basicstructs/pool.go:24-106 | A message is read if and only if its key is at most the end, and kept if and only if it is beyond. |
| MsgPools.MsgPool.ReadPreprepareMsg | consensus/pbft/basicstructs/pool.go:24-50 | The same for proposals. |
| MsgPools.MsgPool.ReadPrepareMsg | consensus/pbft/basicstructs/pool.go:52-78 | The same for prepare votes. |
| MsgPools.MsgPool.ReadCommitMsg | consensus/pbft/basicstructs/pool.go:80-106 | The same for commit votes. |
| PbftMeta.ConsensusMeta.constructor | consensus/pbft/pbftmeta.go:59-82 | A node starts in round (0, 0) with f = (n-1)/3 and nothing heard. |
| PbftMeta.ConsensusMeta.CurateMsg | consensus/pbft/pbftmeta.go:85-130 | Takes a valid proposal of the round if there is none, then counts exactly the senders of matching votes and keeps later votes. |
| PbftMeta.ConsensusMeta.Step2Next | consensus/pbft/pbftmeta.go:133-174 | One stage step, as the transition takes it: a proposal, 2f+1 prepares, 2f+1 commits; after the last, a clean next round. PbftPrepared states over all runs what each step waits for. |
| PbftMeta.ConsensusMeta.UpdateLatestViewSeq | consensus/pbft/pbftmeta.go:177-182 | Keeps the later of the two rounds. |
| PbftMeta.ConsensusMeta.CatchupOverAndReset | consensus/pbft/pbftmeta.go:194-206 | Adopts the given round with clean sets and closes the catch-up. |
| PbftMeta.ReadVotes | consensus/pbft/pbftmeta.go:107-129 | Counting what a read returns counts the senders of all matching votes in the pool, and later votes stay. |
| PbftAgreement.RunKeepsInv | consensus/pbft/node.go:229-373 | The invariant of n nodes holds in every run against any faulty set, catch-ups to later rounds included. |
| PbftAgreement.QuorumsMeet | consensus/pbft/pbftmeta.go:133-174 | Two quorums that together outnumber all nodes plus the faulty ones share a correct node. |
| PbftAgreement.StepOk | consensus/pbft/node.go:376-423 | A stage step of a correct node keeps the invariant: it votes at most once for each kind and round, and decides only with a quorum of commits sent. |
| PbftAgreement.ReceiveOk | consensus/pbft/node.go:346-373 | An adopted answer to a strictly later round keeps the invariant: nothing counted for the rounds left behind is needed again. |
| PbftAgreement.Agreement | consensus/pbft/pbftmeta.go:85-174 | No two correct nodes decide different digests in the same round, when quorums meet outside the faulty nodes or the leader is correct, with any catch-ups to later rounds in between. |
| PbftAgreement.SameProposal | consensus/pbft/node.go:229-258 | Under a correct leader two correct nodes decide the same proposal in a round, block and all, for any number of faulty nodes. |
| PbftAgreement.DecisionsArePrefixes | consensus/pbft/node.go:376-423 | With 3f+1 nodes, at most f of them faulty, and no catch-up, one correct node's decided digests are a prefix of the other's. |
| PbftAgreement.NothingHeardIsLost | consensus/pbft/pbftmeta.go:85-130 | After curating with a proposal, the quorum sets are exactly the senders of all matching votes ever handled, whatever round the node was in when they came and however often it has caught up to a later round. |
| PbftPrepared.RunTrail | consensus/pbft/node.go:229-423 | The trail of a correct node in every run at all, adoptions of any round included: what its round machine holds was heard or validated, and every stage it has reached was voted for. |
| PbftPrepared.CommitVotesArePrepared | consensus/pbft/pbftmeta.go:145-153 | In every run, behind each commit vote of a correct node there are 2f+1 nodes whose prepare votes for that round and digest have been sent, its own among them. |
| PbftPrepared.PrepareVotesAreBased | consensus/pbft/node.go:245-257 | In every run, a correct node votes to prepare only for a proposal in the leader's name that was sent to it and passed its validation. |
| PbftPrepared.DecisionsAreValidated | consensus/pbft/node.go:376-423 | In every run, a correct node decides only what it has validated, has voted to commit, and a quorum has prepared. |
| PbftPrepared.RunPreparesOnce | consensus/pbft/node.go:407-411 | As long as adopted rounds are later ones, a correct node votes to prepare one digest a round. |
| PbftPrepared.MayProposeExactlyWhen | consensus/pbft/node.go:148-189 | A correct leader that waits for a proposal may propose if and only if it has not yet proposed in this round. |
| PbftPrepared.CommitVotesAgree | consensus/pbft/pbftmeta.go:145-153 | When quorums meet outside the faulty nodes or the leader is correct, and adopted rounds are later ones, no two correct nodes ever send commit votes for different digests in one round. |
| PbftPrepared.CommitVotesAgreeExactlyWhen | consensus/pbft/pbftmeta.go:59-82 | They agree in all such runs if and only if quorums meet outside the faulty nodes, or the leader is correct, or fewer than two nodes are correct. |
| PbftLag.NeverLosesExactlyWhen | consensus/pbft/pbftmeta.go:194-206 | Let a guard say which rounds a node may adopt. In every configuration: no run that respects the guard loses a vote if and only if it lets strictly later rounds through and no others; or there is no correct follower; or nobody is faulty and the others are the first few rounds, which no answer ever names. |
| PbftLag.LaggingRun | consensus/pbft/node.go:312-373 | With nobody faulty: for every round from the threshold on and every later or equal one there is a run in which a node that lagged, asked and reached the latter by itself adopts the former and loses votes. |
| PbftEarly.LosingRun | consensus/pbft/pbftmeta.go:107-129 | With any node faulty and the leader correct or not: for every pair of rounds, the adopted one not later than the current one, and every correct follower, there is a run in which it adopts that round and a vote it has heard is gone for good. |
| PbftSplit.SplitDecides | consensus/pbft/pbftmeta.go:133-174 | Given two groups of correct nodes, each a quorum together with the faulty ones (or all together, when the digests are equal), there is a run in which each decides its own proposal. |
| PbftSplit.DisagreementOtherwise | consensus/pbft/pbftmeta.go:133-174 | Outside the safe condition, with two correct nodes, there is a run in which two of them decide different digests in one round. |
| PbftSplit.AgreementExactlyWhen | consensus/pbft/pbftmeta.go:59-82 | Agreement on digests in all runs holds if and only if quorums meet outside the faulty nodes, or the leader is correct, or fewer than two nodes are correct. |
| PbftSplit.TwoBlocksOneDigest | consensus/pbft/node.go:229-258 | With a faulty leader and two correct nodes there is a run in which they decide different blocks under one digest, in every configuration, the safe ones included. |
| PbftSplit.BlocksAgreeExactlyWhen | consensus/pbft/node.go:229-258 | Agreement on blocks in all runs holds if and only if the leader is correct or fewer than two nodes are correct. |
| PbftSplit.DecidesOnce | consensus/pbft/pbftmeta.go:133-174 | A correct node decides at most once in a round. |
| PbftChains.NextLined | consensus/pbft/node.go:346-468 | With a correct leader there is one line of blocks; every event, catch-up included, keeps every correct node, proposal, request and answer on it, and only a proposal lengthens it. |
| PbftChains.RunLined | consensus/pbft/node.go:148-189 | Every run with a correct leader and fitting answers has such a line: every correct node's chain is the line up to its height, and its state what that replays to. |
| PbftChains.FittingAnswer | consensus/pbft/node.go:346-373 | An answer whose blocks lead from the node's height to the adopted round turns its chain and state into those of the leader as it answered. |
| PbftCatchup.CorrectLeaderKeepsStep | consensus/pbft/node.go:148-189 | In every run with a correct leader and fitting answers, n nodes, any faulty followers, any reordering: after every event every correct node's height is its sequence number plus one, its chain is linked and numbered, its state is the replay of its chain, and of two correct nodes one has a prefix of the other's chain. |
| PbftCatchup.InStepExactlyWhen | consensus/pbft/node.go:346-423 | In any run, whoever is faulty, heights and rounds stay in step throughout if and only if every decided block executes and carries the height of its round, and every answer taken leads to the round it is taken for. |
| PbftCatchup.CatchupExactlyWhen | consensus/pbft/node.go:312-373 | With a correct leader and earlier answers that fitted, and after whatever happened between request, answer and arrival: the answer is adopted and leaves the node with exactly the chain and state the leader had as it answered if and only if the node's height on arrival is still the one it asked from and the leader was not below it; equivalently, if its own height plus the number of blocks matches the round. |
| PbftCatchup.DueMeansBehindExactlyWhen | consensus/pbft/pbftmeta.go:177-192 | With a correct leader, a catch-up is due only when the leader really is the threshold ahead, in every run, if and only if no node is faulty: one forged proposal is enough to raise the alarm. |
| PbftAsking.WaitsExactlyWhen | consensus/pbft/pbftmeta.go:184-206 | In every run a catch-up is open exactly from the request to the adoption of an answer. |
| PbftAsking.AsksExactlyWhen | consensus/pbft/pbftmeta.go:177-192 | As long as adopted rounds are later ones: a follower asks if and only if it awaits no answer, has validated a proposal of its view at least the threshold ahead, and none of a later view. |
| PbftStale.AlwaysInStepExactlyWhen | consensus/pbft/node.go:376-423 | If answers are taken only when they fit, all correct nodes are in step in every run if and only if the leader is correct or nobody is. |
| PbftStale.WrongNumber | pkg/chain/chain.go:137-177 | For every wrong block number there is a run in which a faulty leader's block of that number is decided and added, out of step. |
| PbftStale.FailingBlock | consensus/pbft/node.go:387-396 | There is a run in which a faulty leader's block of the right number does not execute: the round goes on, the chain does not. |
| PbftStale.BackInTime | consensus/pbft/node.go:346-373 | With a correct leader, for any two rounds: a node asks in the earlier, is answered that there is nothing new, gets to the later, and then the answer takes it back, with the blocks of all rounds in between on its chain. |
| PbftLag.AddsBlocksTwice | consensus/pbft/node.go:362-370 | With a correct leader, and even with nobody faulty: a node falls behind, asks, decides the missing blocks by itself, and then the answer adds all of them once more; height and round stay in step all the same. |
| PbftNode.Node.constructor | consensus/pbft/node.go:52-139 | A new node is in step: height is sequence number plus one. |
| PbftNode.Node.HandlePreprepare | consensus/pbft/node.go:229-258 | A proposal of a past round is ignored, a valid one is pooled and noted as the latest round seen. |
| PbftNode.Node.HandlePrepare | consensus/pbft/node.go:260-284 | Votes of past rounds are ignored, all others pooled. |
| PbftNode.Node.HandleCommit | consensus/pbft/node.go:286-310 | The same for commit votes. |
| PbftNode.OneTurn | consensus/pbft/node.go:376-423 | One turn of the stage loop stops, sends one vote, or ends the round. |
| PbftNode.Node.RunStages | consensus/pbft/node.go:376-423 | The loop steps as far as the votes reach, sends the votes of the stages passed, and advances the sequence number exactly when it decides; what stands behind each vote over all runs is in PbftPrepared. |
| PbftNode.Node.Step2NextStage | consensus/pbft/node.go:376-423 | A decided block is added if it applies; from a node in step, height and sequence number stay in step if and only if nothing is decided, or the block applies and carries the height of its round, which PbftCatchup.CorrectLeaderKeepsStep derives for whole runs. |
| PbftNode.Node.Propose | consensus/pbft/node.go:426-468 | Proposes as the system's leader does: the next block in the current round exactly when its preview applies; in step, with the height of the round. |
| PbftNode.Node.CatchUpStart | consensus/pbft/node.go:494-514 | Asks for everything above the own height and opens the catch-up. |
| PbftNode.Node.HandleCatchupReq | consensus/pbft/node.go:312-344 | Answers as the system's leader does: with the chain from that height on and the current round, or not at all beyond the limit. |
| PbftNode.Node.AddBlocks | consensus/pbft/node.go:362-367 | Blocks are added in order up to the first that fails; what was added before stays. |
| PbftNode.ExtendingStops | consensus/pbft/node.go:362-367 | What follows a failing block makes no difference. |
| PbftNode.Node.HandleCatchupResp | consensus/pbft/node.go:346-373 | The node becomes what the system makes of it: it follows the leader's round exactly when the answer was wanted and all its blocks apply; otherwise the round machine is unchanged and the catch-up stays open. |
| Graph.Graph.AddVertex | pkg/partition/graph.go:26-28 | One more vertex, the same edges. |
| Graph.Graph.AddEdge | pkg/partition/graph.go:31-40 | The adjacency lists stay those of the edge list with one edge more, and both ends are vertices. |
| Graph.NeighboursSum | pkg/partition/graph.go:31-40 | A sum over an adjacency list is a sum over the edges at that vertex. |
| Graph.NeighboursSymmetric | pkg/partition/graph.go:31-40 | u is as often a neighbour of v as v is of u. |
| Clpa.WeightsSumUp | pkg/partition/clpa.go:68-105 | The weights of all shards add up to the edges plus the cut edges. |
| Clpa.TallyIsWeight | pkg/partition/clpa.go:68-105 | The cut and half the inner adjacency entries of a shard are the number of edges that touch it. |
| Clpa.CrossTallySums | pkg/partition/clpa.go:68-105 | Every cut edge is tallied twice. |
| Clpa.CorrectionIs | pkg/partition/clpa.go:107-123 | The incremental correction is the change of the recomputed weight, short by one in both shards for each self-loop of the moved vertex. |
| ClpaRun.IncrementalIsExactIff | pkg/partition/clpa.go:107-123 | Incremental weights agree with recomputation after a move if and only if the moved vertex has no self-loop. |
| ClpaDrift.SelfLoopDrifts | pkg/partition/clpa.go:107-174 | From right weights, one visit of a vertex with a self-loop, for any penalty up to one, moves it and leaves the weights wrong. |
| ClpaRun.BestIsBest | pkg/partition/clpa.go:144-162 | The chosen shard holds a neighbour and none scores higher, not-a-number and infinities included. |
| ClpaRun.ScoreIs | pkg/partition/clpa.go:207-226 | Cleared of its quotients: score times degree times minimum weight is neighbours times (minimum weight less penalty times weight). |
| ClpaRun.HeavierScoresLower | pkg/partition/clpa.go:207-226 | With a positive penalty and minimum and as many neighbours, the strictly heavier shard scores strictly lower. |
| ClpaRun.MoreNeighboursScore | pkg/partition/clpa.go:207-226 | At equal weights more neighbours score higher if and only if penalty times weight is below the minimum, and lower if and only if it is above. |
| ClpaRun.FirstOfBest | pkg/partition/clpa.go:149-162 | Of several equally good shards the first one met is chosen. |
| ClpaRun.MovesExactlyWhen | pkg/partition/clpa.go:139-174 | A visited vertex moves if and only if it has moves left, does not leave its shard empty, and some neighbouring shard scores above the floor; the move is counted and recorded. |
| ClpaRun.MovesToLightest | pkg/partition/clpa.go:139-174 | A vertex never goes to a shard when a strictly lighter one, other than its own, holds as many of its neighbours. |
| ClpaRun.VisitKeeps | pkg/partition/clpa.go:139-174 | A visit keeps the bookkeeping: counts, move limits, moved map, non-empty shards, and weights when there are no self-loops. |
| ClpaRun.MovesAreGood | pkg/partition/clpa.go:139-174 | A vertex moves only to a best-scored shard that holds a neighbour, and never out of a shard it is alone in. |
| ClpaRun.PassesKeep | pkg/partition/clpa.go:126-192 | After any number of passes in any orders: counts are exact, no shard was emptied, no vertex moved beyond the limit, weights are exact without self-loops. |
| ClpaRun.ResultIsDifference | pkg/partition/clpa.go:126-192 | The returned map is exactly the difference between the final and the original placement. |
| ClpaRun.NothingMovesPast | pkg/partition/clpa.go:207-226 | While some shard has no edge, a visit changes nothing. |
| ClpaRun.IdleShardStopsAll | pkg/partition/clpa.go:126-192 | With such a shard at the start, no pass ever moves anything. |
| ClpaState.CLPAState.AddVertex | pkg/partition/clpa.go:195-204 | A new vertex enters at its default shard and is counted there. |
| ClpaState.CLPAState.AddEdge | pkg/partition/clpa.go:44-58 | One more edge; only new vertices get a place, their default one. |
| ClpaState.CLPAState.TallyVertex | pkg/partition/clpa.go:75-91 | The neighbours of one vertex are added to its shard as inner or as cross entries. |
| ClpaState.CLPAState.ComputeEdges2Shard | pkg/partition/clpa.go:68-105 | The weights are the numbers of edges touching each shard, the least is their minimum, the cut number is the number of cut edges. |
| ClpaState.CLPAState.ChangeShardRecompute | pkg/partition/clpa.go:107-123 | Every weight changes by the sum of the corrections over the moved vertex's neighbours. |
| ClpaState.CLPAState.GetShardScore | pkg/partition/clpa.go:207-226 | The score of the abstract visit, whose meaning ClpaRun.ScoreIs, ClpaRun.HeavierScoresLower and ClpaRun.MoreNeighboursScore state. |
| ClpaState.CLPAState.ChooseShard | pkg/partition/clpa.go:144-162 | Scoring each neighbouring shard once chooses the same shard as scoring every neighbour. |
| ClpaState.CLPAState.MoveVertex | pkg/partition/clpa.go:164-173 | Placement, counts and weights change as in one abstract move. |
| ClpaState.CLPAState.VisitVertex | pkg/partition/clpa.go:139-174 | The visit of one vertex is the abstract visit. |
| ClpaState.CLPAState.Pass | pkg/partition/clpa.go:138-175 | A pass visits every vertex once, in any order. |
| ClpaState.CLPAState.CLPAPartition | pkg/partition/clpa.go:126-192 | A repartition is that many passes from freshly computed weights, returns exactly the difference of the placements and the number of cut edges, and ends with exact weights. |
| Broker.Manager.CreateRawTx | pkg/broker/broker.go:91-127 | Refused for an unknown broker or a known hash; else one new entry, ready for its first leg, with the next broker nonce. |
| Broker.Manager.CreateBrokerTxs | pkg/broker/broker.go:129-162 | Emits the legs of both ready lists, in order, and empties the lists. |
| Broker.Manager.ConfirmBrokerTx | pkg/broker/broker.go:164-194 | A first-leg report readies the second leg, a second-leg report ends the payment, anything else is refused and changes nothing. |
| StaticBroker.StaticBrokerCommittee.TryBroker | supervisor/committee/staticbroker.go:179-198 | A broker with enough available balance is reserved; the reservation stays even when no raw transaction comes of it. |
| StaticBroker.StaticBrokerCommittee.ReserveBroker | supervisor/committee/staticbroker.go:164-213 | Brokers are tried in the given order until one accepts. |
| StaticBroker.StaticBrokerCommittee.HandleMsg | supervisor/committee/staticbroker.go:93-148 | What a report lists as first legs is confirmed and earns, and then what it lists as second legs is confirmed and spends, in order, whatever legs they really are; refused ones change nothing. |
| StaticBroker.ReportSettles | supervisor/committee/staticbroker.go:112-145 | A report that lists each leg as what it is settles them as the legs they are, one after the other. |
| StaticBroker.StaticBrokerCommittee.ClassifyTxs | supervisor/committee/staticbroker.go:233-260 | Every payment is either inner or across shards, none lost, and inner exactly when one shard or a broker is involved. |
| BrokerSystem.BrokerTxExecute | pkg/chain/txexecute.go:109-154 | Executes a leg as the system's step does, and on failure no account reads differently; what the step does to payer and payee is BrokerSystem.LegMovesValue. |
| BrokerSystem.LegMovesValue | pkg/chain/txexecute.go:109-154 | On every account as read: a first leg moves its value from sender to broker in the sender's shard, a second leg from a broker that can pay to the recipient in the recipient's shard; elsewhere nothing, and never a nonce. |
| BrokerSystem.LegFailsExactlyWhen | pkg/chain/txexecute.go:109-154 | A leg fails if and only if its value is no 256-bit number or its sender cannot pay the first leg. |
| BrokerLifeCycle.NewLegsAre | pkg/broker/broker.go:129-162 | An emission contains exactly the legs of the ready entries, each once. |
| BrokerLifeCycle.RunKeepsOrder | pkg/broker/broker.go:91-194 | In every run ready lists do not dangle or repeat, and every leg under way is wanted. |
| BrokerLifeCycle.RunKeepsHistory | pkg/broker/broker.go:91-194 | In every run the entries are exactly the accepted payments not yet confirmed on both legs. |
| BrokerLifeCycle.LifeCycle | pkg/broker/broker.go:91-232 | Every accepted payment emits its first leg once, its second at most once and only after the first was confirmed; (broker, nonce) pairs are unique. |
| BrokerLifeCycle.FinishedIff | pkg/broker/broker.go:196-200 | The manager is finished if and only if both legs of every accepted payment have been confirmed. |
| BrokerSolvency.BrokerCanPay | pkg/chain/txexecute.go:135-147 | A second leg under way is covered by its broker's money in its shard. |
| BrokerSolvency.LegMovesMoney | pkg/chain/txexecute.go:109-154 | Executing a leg changes each broker's money by exactly what the committee has still to hear. |
| BrokerSolvency.ReportIsExact | supervisor/committee/staticbroker.go:112-145 | A reported leg is always confirmed, and the clamp of the pending deduction to zero never takes effect. |
| BrokerSolvency.BrokerSolvency | supervisor/committee/staticbroker.go:93-213 | In every run in which no broker sends transactions of its own, for each broker and shard: mirrored balance at least the pending deduction, at least the value of unconfirmed payments reserved there, for any delay of execution and report. |
| BrokerSolvency.DebitsNeverUnderflow | pkg/chain/txexecute.go:135-147 | In every such run, no unchecked second-leg debit goes below zero, and no clamp takes effect. |
| BrokerPayments.BalanceIsLegs | pkg/chain/txexecute.go:109-154 | In every run in which no broker sends: each balance in each shard is the initial one, what plain transactions did, and its share of every executed leg, once each. |
| BrokerPayments.PaymentSettles | pkg/broker/broker.go:128-194 | In every such run, once both legs of an accepted payment are confirmed, the two together have debited its payer once and credited its payee once, in their shards, and the broker has passed the value on from one shard to the other. |
| BrokerPayments.FinishedLegs | pkg/broker/broker.go:196-200 | When the manager is finished, exactly the legs of all accepted payments have been executed. |
| BrokerPayments.AllIsPaid | pkg/broker/broker.go:91-200 | When the manager is finished in such a run, every balance is what the accepted payments make of it, each counted once. |
| BrokerBooks.ReservationIs | supervisor/committee/staticbroker.go:166-198 | A payment not yet under way goes to the first broker asked that has enough left in the recipient's shard, where exactly its value is set aside; it gets none only if none has enough. |
| BrokerBooks.RefusalLeaks | supervisor/committee/staticbroker.go:179-198 | A payment that is already under way is refused after every broker asked that has enough left has set its value aside. |
| BrokerBooks.MirrorIsExact | supervisor/committee/staticbroker.go:112-145 | In every run, whoever sends: the mirrored balance is the broker's initial one and its share of every confirmed leg. |
| BrokerBooks.MirrorFollowsChain | supervisor/committee/staticbroker.go:112-145 | In every run in which no broker sends, the mirror differs from the broker's balance on chain by what is executed and not yet reported and by what plain transactions paid it. |
| BrokerBooks.PendingIsExact | supervisor/committee/staticbroker.go:128-145 | In every such run the pending deduction is the value of the unconfirmed payments reserved there, plus what refused payments have left behind. |
| BrokerCounterexample.NeverWrapsExactlyWhen | pkg/chain/txexecute.go:109-154 | For every system and every set of accounts that may send transactions: no second leg ever finds its broker short, in any run, if and only if no permitted sender is a broker, or there is one shard only. |
| BrokerCounterexample.BrokerSenderUnderflows | supervisor/committee/staticbroker.go:154-231 | For two or more shards and every broker that may send there is a run that ends with a second leg its broker cannot pay. |
| BrokerCounterexample.SecondLegWraps | pkg/chain/txexecute.go:135-147 | Executing that leg wraps the broker's balance around to 2^256 - 1. |
| BrokerRouting.PackShardTxs | supervisor/committee/staticbroker.go:262-283 | Each shard gets exactly the transactions located there, in order. |
| BrokerRouting.ReserveAll | supervisor/committee/staticbroker.go:166-213 | Payments that find no broker, and no others, fall back to relaying. |
| BrokerRouting.ReadTxsAndSend | supervisor/committee/staticbroker.go:154-231 | One injection sends inner payments, fallbacks and the due legs of both kinds, each to its shard, none lost. |
| BrokerRouting.SentIsExecuted | supervisor/committee/staticbroker.go:262-283 | A transaction goes to a shard if and only if that shard executes it. |
| BrokerRouting.SplitTxs | consensus/pbft/insideop/txblockop/brokertxblockop.go:92-149 | A block is reported in five lists, each in order. |
| BrokerRouting.LegsComeBack | consensus/pbft/insideop/txblockop/brokertxblockop.go:92-149 | An executed leg comes back in exactly the list from which the committee confirms it. |
| AgentLedger.SortStable | agentsupervisor/agentcsv.go:183-199 | Sorts by time, shard, height and index, and keeps every reference. |
| AgentLedger.BuildAgentRows | agentsupervisor/agentcsv.go:159-255 | The rows of every agent are the debits and credits of the sorted references, with running balances. |
| AgentLedger.SortIsUnique | agentsupervisor/agentcsv.go:183-199 | References at different places can be sorted in one way only. |
| AgentLedger.SortKeepsShardOrder | agentsupervisor/agentcsv.go:183-199 | With block times not decreasing in a shard, the global order restricted to it is its execution order. |
| AgentLedger.ChainBalance | pkg/chain/txexecute.go:47-107 | An account's balance on chain is the initial balance, its effects, and one more initial balance for each time it was drained. |
| AgentLedger.HomeBalance | agentsupervisor/agentcsv.go:201-253 | The running balance counts exactly what the home shard has executed so far, whatever other shards did. |
| AgentLedger.LedgerRefinesExecution | agentsupervisor/agentcsv.go:159-255 | With static locations and block times not decreasing in a shard: the running balance is the agent's balance in its home shard right after that transaction, if and only if no earlier block left the account drained. |
| LedgerRestart.DrainedAgentDiffers | agentsupervisor/agentcsv.go:201-253 | For any number of shards: two blocks after which an agent that was drained in the first has one in the ledger and one more than a new account on chain. |
| AgentLedger.RowShowsBalance | agentsupervisor/agentcsv.go:201-253 | With distinct accounts, each row shows the balance after its whole transaction. |
| AgentLedger.RowNames | agentsupervisor/agentcsv.go:201-253 | A row gives height, time, sender, recipient, value and original hash of its transaction, in this order of parties. |
| AgentLedger.RowCount | agentsupervisor/agentcsv.go:201-253 | An account has one row for each debit and one for each credit, and no others. |
| AgentLedger.RowIsExecution | agentsupervisor/agentcsv.go:159-255 | Under static locations a row is a transaction of a block of the home shard: its height, time, parties and value, and the balance there right after it, less one initial balance for every restart. |
| TextFormats.HexRoundTrip | pkg/utils/hex2byte.go:27-38 | Encoding and decoding bytes as hexadecimal is the identity. |
| TextFormats.PrefixedRoundTrip | pkg/utils/hex2byte.go:12-38 | The same with the prefix, and for addresses of twenty bytes. |
| TextFormats.DecimalRoundTrip | agentsupervisor/agentsupervisor.go:382-399 | Printing and parsing a number in decimal is the identity. |
| TextFormats.PaddedIsInjective | scripts/gen_pay_trace.py:43-51 | Different agent numbers print as different names, whatever the padding. |
| Registry.Registry.Join | agentsupervisor/registry.go:54-69 | An empty name is refused; a known agent becomes active again with its identity, a new one gets an identity; says which. |
| Registry.Registry.Leave | agentsupervisor/registry.go:71-81 | An unknown or inactive agent is refused; else it becomes inactive and keeps its identity. |
| Registry.ActiveExactlyWhen | agentsupervisor/registry.go:54-90 | After any joins and leaves, refused ones included, an agent is found active if and only if it has a name and has joined and not left since; it keeps the identity it was given first. |
| Registry.AllocatedAddress | agentsupervisor/registry.go:121-124 | The address read back from an allocated identity is the agent's. |
| AgentPlan.AgentSupervisor.Process | agentsupervisor/agentsupervisor.go:99-107 | Compiles record by record, and fails with the first that fails. |
| AgentPlan.AgentSupervisor.ProcessOne | agentsupervisor/agentsupervisor.go:109-135 | One record opens a link and dispatches by action. |
| AgentPlan.AgentSupervisor.ProcessIdentity | agentsupervisor/agentsupervisor.go:237-269 | Appends the contract call of a join or leave, or fails without an address. |
| AgentPlan.AgentSupervisor.ProcessPay | agentsupervisor/agentsupervisor.go:159-185 | Plans a payment between two active agents, or fails; PlanMeaning.PlansTheTrace states from whom to whom. |
| AgentPlan.AgentSupervisor.ProcessRawTx | agentsupervisor/agentsupervisor.go:190-217 | Appends a raw transaction between two well-formed addresses, or fails. |
| AgentPlan.AgentSupervisor.AppendTx | agentsupervisor/agentsupervisor.go:271-290 | The transaction takes its sender's next nonce and is linked to the current action. |
| AgentPlan.PlanNumbersSenders | agentsupervisor/agentsupervisor.go:271-290 | A plan numbers every sender's transactions 0, 1, 2 and so on across all kinds of actions, with one link for each record and every transaction linked once, in order. |
| PlanMeaning.PlansTheTrace | agentsupervisor/agentsupervisor.go:99-290 | The k-th link of a compiled plan is that of the k-th record and holds what it stands for: a payment from the agent's address to the target's of the amount, without data; a raw transaction as written; the register or revoke call of a join or leave; with its time and its measurement. |
| PlanMeaning.AgentsAreJoined | agentsupervisor/agentsupervisor.go:137-157 | After a compiled trace exactly those agents are active that have joined and not left since. |
| PlanMeaning.PaymentsBalance | agentsupervisor/agentsupervisor.go:159-185 | What an agent with an address of its own pays in the plan, less what it is paid, is the same difference in the trace. |
| TraceGen.JoinAll | scripts/gen_pay_trace.py:43-51 | The joins compile from an empty registry and activate everyone. |
| TraceGen.Rotate | scripts/gen_pay_trace.py:55-72 | A rejoin and a leave keep the trace compiling and the pools a partition. |
| TraceGen.EmitPay | scripts/gen_pay_trace.py:74-79 | A payment is between two different active agents, of 1 to 100, and compiles. |
| TraceGen.RecordCompiles | agentsupervisor/agentsupervisor.go:109-185 | Joins, leaves of active agents and payments between active agents are always compiled, with the active set as expected. |
| TraceGen.GenPayTrace | scripts/gen_pay_trace.py:36-79 | For any two or more agents, any number of payments, any period and any choices: the trace compiles from an empty registry, active and left partition the agents, two at least stay active. |
| TraceSource.WritePlan | agentsupervisor/agentsupervisor.go:374-427 | One line for each transaction, in order. |
| TraceSource.LineRoundTrip | supervisor/txsource/tracesource/tracesource.go:88-119 | A printed line reads back as the same sender, recipient, value, nonce and data. |
| TraceSource.TraceSourceJSONL.ReadTxs | supervisor/txsource/tracesource/tracesource.go:50-81 | Returns the next lines up to the size asked for, fails at the first line that does not parse, and is done at the end. |
| TraceSource.PlanReadsBack | supervisor/txsource/tracesource/tracesource.go:50-119 | A written plan read in chunks of any sizes yields its transactions in order, as many as asked for. |
| RelayStats.RelayStats.UpdateMeasureRecord | supervisor/measure/relaystats/relaystats.go:85-184 | A report counts for its epoch and moves the epoch's earliest proposal and latest commit; then its inner transactions, its first legs and its second legs are recorded. |
| RelayStats.RelayStats.RecordLeg | supervisor/measure/relaystats/relaystats.go:137-181 | The first leg seen opens an entry, the second writes a line, closes it, and adds both latencies to their epochs. |
| RelayStats.PairingIsExact | supervisor/measure/relaystats/relaystats.go:137-181 | With each hash at most once on each leg, in any order of arrival: lines are written for exactly the hashes seen on both legs, once each, and exactly the half-seen hashes stay open. |
| RelayStats.OrderDoesNotMatter | supervisor/measure/relaystats/relaystats.go:137-181 | Two orders of the same legs leave the same open entries and the same lines. |
| RelayStats.LatenciesAddUp | supervisor/measure/relaystats/relaystats.go:197-201 | Over all epochs, the two latency sums add up to final commit minus creation of the paired transactions. |
| RelayStats.SumsAreExact | supervisor/measure/relaystats/relaystats.go:197-201 | Each epoch's first sum is first commit minus creation, its second sum second commit minus first, over the pairs completed in that epoch, whichever leg came last. |
| RelayStats.ReportSumsAreExact | supervisor/measure/relaystats/relaystats.go:137-201 | The same over whole reports with inner transactions in between, hashes apart. |
| RelayStats.InnersAreExact | supervisor/measure/relaystats/relaystats.go:114-135 | Whatever the relayed ones: one line for each inner transaction, in order, with its creation and its block's times, and each epoch's sum is commit minus creation over them. |
| RelayStats.ReportsPairExactly | supervisor/measure/relaystats/relaystats.go:114-181 | Over whole reports, inner transactions in between: the lines of relayed transactions are one for each hash seen on both legs, and open are exactly the half-seen ones, if no inner transaction has the hash of a relayed one. |
| RelayStats.InnersLeaveCross | supervisor/measure/relaystats/relaystats.go:114-135 | Inner transactions leave the open entries alone if and only if none of them has the hash of an open one; the lines of relayed transactions they always leave alone. |
| RelayStats.InnerClosesOpen | supervisor/measure/relaystats/relaystats.go:114-135 | An inner transaction with the hash of a half-seen one throws its entry away. |
| RelayStats.EpochsAreExact | supervisor/measure/relaystats/relaystats.go:99-112 | After any reports, an epoch's times are its earliest proposal and its latest commit, it has them exactly if something was reported of it, and its transactions of all three kinds are counted in full. |

## Left out

- The virtual machine and contract execution, deployment of contracts, gas.
- Merkle tries, bolt and level databases: states and locations are maps, the state root is the state, and hashes of
  headers and of broker payments are injective functions of what they hash.
- gob, JSON, RLP, CSV, gRPC, libp2p, logging, process launching, YAML, plotting. Messages are values and networks are
  bags; the JSON line of a plan is a record of its text fields.
- Storage failures, hence the partial updates `AddBlock` leaves behind when a later store fails.
- Miner and time fields of headers in dynamic sharding; the ledger has block times of its own.
- PbftNode.Node.HandlePreprepare: the verdict of `ValidateBlock` is a parameter; runs hold for any verdicts.
- A proposal's own hash: a correct leader's digest is any number, as nothing depends on its being the hash.
- View change and new view (not implemented in the source), liveness, tickers, block intervals, stop thresholds.
- Sender names in PBFT messages are taken to be true: a faulty node sends under its own name only. Requests to catch up
  come from correct nodes, since answering one changes nothing at the leader.
- PbftAgreement.DecisionsArePrefixes: needs runs without catch-up, since an adopted block is not a decision; for
  chains, catch-ups included, PbftCatchup.CorrectLeaderKeepsStep states the prefix property.
- PbftCatchup.CatchupExactlyWhen: needs earlier answers to have fitted, without which the node's chain may be nobody's.
- Followers of a shard in dynamic sharding: each shard is its leader. A leader's own migration message reaches its own
  buffer directly and is handled before its next proposal, which the guard of the propose step states.
- Transaction source order in dynamic sharding: injected lists are any plain transfers.
- Overflow of credits at 256 bits: balances are unbounded integers, and BalancesAreBounded proves that they fit.
- Wrap-around of 64-bit nonces, epochs, heights and sequence numbers.
- The broker side of dynamic sharding (clpa_broker), broker statistics and the brokers' configuration file: the
  relay and static-broker arguments again with more cases.
- Blocks of broker legs: legs are executed one at a time, and a leg whose block aborts is lost.
- Relaying of static-broker fallbacks: `sendRelayedTxs` of the broker operation does what RelayOps.SendRelayedTxs states.
- Which brokers are tried in which order, which agents pay or leave, and the order of map iteration are arbitrary.
- Negative payment values in broker transactions, which the acceptance step excludes.
- Floating point: weights and scores are reals, with the infinities and not-a-number of a division by zero explicit.
- The order of addresses within a migration block, which no result depends on.
- The library sort of the ledger, replaced by an insertion sort with the same order.
- sha256, contract-call packing and address derivation, which are given functions.
- The scanner's line limit and read errors of a plan file; a file is the list of its lines.
- Averages and rates of each epoch in the relay statistics, and the file they are written to.
- Execute.Executor.TxExecute: leaves out contract transactions; the broker types are BrokerSystem.BrokerTxExecute.
- StaticBroker.StaticBrokerCommittee.HandleMsg: leaves out the stop count, which is that of ClpaRelay.
- TraceSource.WritePlan: a plan is the list of the text fields of its lines, without the metrics written beside it.
- TraceSource.TraceSourceJSONL.ReadTxs: starts from decoded lines, without JSON and scanner errors.
- RelayStats.PairingIsExact: needs each hash at most once on each leg and both legs with one creation time, which the relay
  protocol provides and the statistics do not check.
