# Highwater: a verified model

Highwater is a durable, partitioned stream processor. This project models the parts of it whose correctness
spans many steps or many actors, and proves what they keep.

- **Journal.** Each partition is a linked log in an object store whose head moves by compare-and-swap
  (`JournalLog`, `JournalProtocol`, `ConditionalJournal`). The protocol is a state machine over single object-store
  operations: any number of clients, stale cursors, lost and late replies, read-backs, recoveries in between.
- **Durable store.** Overlay transactions and write batches (`Transactions`), replay of shards with disjoint keys
  (`ShardedReplay`), crashes at any point of log write, apply, flush, checkpoint and cleanup (`Durability`,
  `LocalStore`), nodes that share a journal (`Replication`, `Serializability`), the remote checkpoint pointer and
  reopening from it (`CheckpointPointer`, `RemoteOpen`).
- **Keyed processes.** One shard's mailbox, ready entries, leases, counters, outcomes and key states
  (`ProcessShard`), the invariant every transaction keeps (`ProcessInvariant` to `ProcessGrowth`), owners, epochs and
  handoff (`ProcessPartition`, `ProcessRuns`), what follows for every run (`ProcessTheorems`, `ProcessExact`,
  `ProcessLimits`), per-key order (`ProcessOrder`, `ProcessOvertaking`, `StreamDispatch`, `StreamCounts`), and the
  transactions in the form of the code (`ProcessGrants`, `ProcessWork`, `ProcessStore`), what each of them answers and
  does, told by the fields alone (`ProcessAdmission`, `ProcessDispatch`, `ProcessPolling`, `ProcessResults`,
  `ProcessOwnership`), and the outbox that their messages reach (`Outbox`, `OutboxFeed`).
- **Incremental operators.** Normalization and retractable top-n (`TopN`, `Relational`, `RelationalMeaning`,
  `RelationalOperator`), temporal join with compaction (`TemporalJoin`), interval join with retractions
  (`IntervalJoin`), sliding windows with count, sum and retractable maximum (`SlidingWindows`); each against batch recomputation.
- **Encodings.** Candidate keys whose byte order is multi-column order (`CandidateKeys`), floating-point keys
  (`FloatOrder`), the packed batch writer and reader (`PackedBatch`).
- **Dataflow graphs.** The search for cycles, reachability and retraction fixpoint (`Dataflow`, `CycleSearch`,
  `Wiring`), the client's validation (`DagPlan`, `Dag`), the server's registry of operators and edges over whole runs
  (`OperatorRegistry`, `RegistryRuns`), and that both agree (`DagDeployment`).

Code that changes state step by step is a class or a method with loops here, proved against a specification
function; the theorems are about those functions and about runs of them. The file `dfyconfig.toml` covers all files:
`dafny verify dfyconfig.toml`.

## Assumptions

- Sync, operation and append of one shard's commit are one critical section (crates/server/src/state.rs:84-107).
  `Replication.CriticalSectionsSerialize` uses it; `Serializability.SerialExactlyWhen` says precisely what is lost
  without it.
- The limits of a process shard do not change during a run, and process settings are positive, as creation demands
  (crates/server/src/process.rs:824-846).
- No transaction deletes its partition's owner record.
- Each shard's transactions write keys of that shard only (`ShardedReplay.Within`).
- Times and sums are exact reals. Clock values, fresh lease tokens, identifiers and record paths are parameters;
  a token or path that is already in use cannot be chosen.
- A conditional put succeeds exactly when the expected version is current, and versions are never reused.
- MessagePack, JSON, base64 and content digests are injective codecs; JSON and UTF-8 validity are predicates.

## Model

| member | source | states |
|---|---|---|
| JournalProtocol.ChainAlwaysComplete | crates/server/src/journal.rs:558-716 | In every state of every run the chain from the head reaches down to position 1 without a gap, with epochs rising by 0 or 1 |
| JournalProtocol.OneRecordPerWin | crates/server/src/journal.rs:558-665 | The log grows by exactly one record for each head update that wins, and by nothing else |
| JournalProtocol.OkIsForever | crates/server/src/journal.rs:558-665 | An append that returned Ok keeps its payload at its returned position in every later state, whatever other writers, stale cursors and lost replies do |
| JournalProtocol.CommittedNeverDisplaced | crates/server/src/journal.rs:558-665 | No rejected, fenced or ambiguous append ever displaces a committed record |
| JournalProtocol.LoggedExactlyWhen | crates/server/src/journal.rs:590-665 | In every state of every run a record is in the log if and only if its head update reached the store while the version it expected was current |
| JournalProtocol.RejectedExactlyWhen | crates/server/src/journal.rs:590-665 | An append that was reported as rejected is in the log, now or later, exactly under that condition, and then keeps its record and place for ever |
| JournalProtocol.RejectedMayBeCommitted | crates/server/src/journal.rs:620-665 | A run in which that happens: the reply to a winning update is lost, a rival appends on top, and the read-back reports an error |
| JournalProtocol.RecoveryNeverBails | crates/server/src/journal.rs:667-716 | A recovery never finds a missing, broken or misnumbered record, whatever other clients do between its reads |
| JournalProtocol.RecoveryIsTheSuffix | crates/server/src/journal.rs:667-716 | What a recovery returned is, now and in every later state, the log above `after` up to the head it read, record by record and at the right positions |
| ConditionalJournal.PartitionJournal.Append | crates/server/src/journal.rs:558-665 | The append in code form, with rivals acting between its requests: an epoch is refused exactly if it is zero, or neither its cursor's nor the one after; at the current head with nobody in between it is Ok, lost reply or not, and adds exactly its record; at any other cursor it errs; and the store only grows |
| JournalProtocol.StartsExactlyWhen | crates/server/src/journal.rs:571-582 | An idle client may start an append exactly under a positive epoch that is its cursor's or the one after it; without a cursor under any positive epoch |
| JournalProtocol.HeadCanAlwaysAppend | crates/server/src/journal.rs:558-665 | From any state of any run a client whose cursor is the head can append under the head's epoch and under the one after it: the run goes on to the answer Ok, with its record on top of the log |
| ConditionalJournal.PartitionJournal.Recover | crates/server/src/journal.rs:667-716 | The recovery loop returns the suffix of the log and never bails on a well-formed store |
| Transactions.OverlayCommits | crates/server/src/state.rs:303-338 | The mutations of an overlay, applied as one write batch, make of the database exactly what the overlay shows less the rows in pending range deletions |
| Transactions.ReadsMatchCommit | crates/server/src/state.rs:163-275 | For an open transaction: a point read equals the read after its mutations are applied exactly if it finds no row in a pending range deletion, a scan exactly if none of the rows it lists lies in one, and a limited scan exactly if none of the rows it lists does |
| Transactions.PutIntoPendingRangeIsLost | crates/server/src/state.rs:277-338 | A transaction that puts a row, deletes a range around it and reads it back sees the row; after its mutations are applied the row is gone; for every database, row and range |
| Transactions.Transaction.Get | crates/server/src/state.rs:163-174 | A point read sees the transaction's own puts and deletes over the database |
| Transactions.Transaction.Scan | crates/server/src/state.rs:203-222 | A scan lists the overlaid rows under the prefix in key order |
| Transactions.Transaction.ScanLimit | crates/server/src/state.rs:224-275 | Stopping the store cursor after `limit` live rows and merging the overlay's puts still gives the first `limit` overlaid rows in key order |
| Transactions.Transaction.IntoMutations | crates/server/src/state.rs:303-338 | The mutations, encoded as a log record and applied, are the overlay's commit, and put no key twice |
| Transactions.ApplyRecord | crates/server/src/storage.rs:474-526 | A log record's puts, deletes and range deletes, applied in turn, give the specified table |
| Transactions.EncodeRecord | crates/server/src/storage.rs:398-440 | A list of mutations is sorted into the parts of a log record without loss or reordering within a part |
| Transactions.RecordAt | crates/server/src/storage.rs:474-526 | A log record, key by key: a key it deletes, or in one of its ranges with the start included and the end excluded, is gone; any other has the value of its last put, or is as before |
| Transactions.RangeThroughLast | crates/server/src/process.rs:1799-1803 | A range that ends with a key and a zero byte after it covers exactly the keys up to that key |
| ShardedReplay.AnyInterleaving | crates/server/src/storage.rs:213-275 | When shards write disjoint keys, replaying them one after the other gives the database that any interleaving of their commits gave |
| ShardedReplay.ApplyHolds | crates/server/src/storage.rs:474-526 | Applying one shard's next record keeps the database, key by key, the replay of each shard's prefix |
| Durability.RunKeeps | crates/server/src/storage.rs:390-460 | Through any commits, flushes, checkpoints, cleanups and crashes the invariant holds, logs only grow, acknowledgements stay, and the published vector regresses in no shard |
| Durability.ReopenedExactly | crates/server/src/storage.rs:149-275 | After any history, crashes at every point included, reopening finds no gap and yields every acknowledged transaction plus at most one in-flight record per shard, and the active snapshot is always there |
| Durability.AlwaysServesAcknowledged | crates/server/src/storage.rs:390-460 | In every run a serving process answers from the fold of exactly the acknowledged transactions |
| Durability.PublishesExactlyWhen | crates/server/src/storage.rs:564-620 | A publication moves the pointer exactly if the snapshot covers, in every shard, what the active one covers; otherwise it changes nothing |
| Durability.CheckpointGoesThrough | crates/server/src/storage.rs:528-645 | A checkpoint that a serving process takes while nothing is in flight is accepted, and holds exactly what was acknowledged |
| LocalStore.FileStore.Open | crates/server/src/storage.rs:149-275 | The opening code restores the directory or the active snapshot and replays the log files; it fails nowhere and ends with every shard's whole log applied |
| LocalStore.FileStore.Commit | crates/server/src/storage.rs:390-460 | Log file first, then database: the shard's log and the database each gain exactly the record |
| LocalStore.FileStore.Publish | crates/server/src/storage.rs:564-645 | The manifest moves exactly to snapshots that cover the active one in every shard, and exactly the covered log files go |
| LocalStore.FileStore.TrimSnapshots | crates/server/src/storage.rs:622-642 | Cleanup removes exactly the snapshots older than the active one other than the last of them by name, and never the active one |
| LocalStore.KeptExactly | crates/server/src/storage.rs:622-642 | A snapshot is kept exactly if it covers in all at least as much as the active one, or is the last by name of those that cover less |
| CheckpointPointer.NeverRegresses | crates/server/src/journal.rs:430-538 | Over every interleaving of publishers, races and lost replies no component of the published vector regresses, and whoever is told it published did |
| CheckpointPointer.PublishesExactlyWhen | crates/server/src/journal.rs:430-538 | A publisher that nobody interferes with succeeds exactly if its vector covers the published one, component by component, even if the reply to its update is lost; otherwise it is refused |
| CheckpointPointer.AppliedExactlyWhen | crates/server/src/journal.rs:430-538 | Whatever other publishers do between a publisher's check and its update, the update is applied exactly if none of them published |
| RemoteOpen.ReopensExactly | crates/server/src/storage.rs:149-240 | After any run of journals, nodes, checkpoint preparations and publishers, restoring whatever came to be published and replaying what each journal's recovery returns above its vector gives, for each shard, exactly the records up to the head that was read; at the ends of the journals, the replay of them all |
| RemoteOpen.ReopensFromNothing | crates/server/src/storage.rs:196-240 | The same without a checkpoint |
| RemoteOpen.PublishedTruthful | crates/server/src/storage.rs:528-562 | Whatever came to be published holds, key by key, the first records of each shard that its vector counts, because it was prepared from a node's database under all sequence locks |
| Replication.NodesReplay | crates/server/src/storage.rs:358-381 | At every moment of every run, ambiguous appends included, a node's database is the replay of the first `sequence` records and it appends right after them |
| Replication.CriticalSectionsSerialize | crates/server/src/state.rs:84-142 | With the critical section, every committed transaction was computed from the replay of exactly the records before it |
| Replication.ComputedFromAllBefore | crates/server/src/storage.rs:358-460 | Without it, each record was computed from the replay of a prefix, which is all the records before it exactly if its node did not read on |
| Serializability.SerialExactlyWhen | crates/server/src/storage.rs:358-460 | At any moment of any run the log is a serial order precisely when no committed transaction's node was synchronized with newer records between its operation and its append |
| Replication.ReaderSyncLosesUpdate | crates/server/src/storage.rs:358-381 | For any record that writes the owner record: a run in which two nodes commit it and the second, synchronized by a reader inside its section, never saw the first |
| Replication.JournalEpochIsOwnerEpoch | crates/server/src/storage.rs:462-472 | Each record, journalled under the epoch of its first put of the owner record or else of its node's own database, carries the epoch in the owner record that replaying the journal up to and including it gives |
| Replication.Replica.OwnerEpochFor | crates/server/src/storage.rs:462-472 | The loop over a record's puts and the fallback to the database compute that epoch |
| Replication.Replica.SyncRemote | crates/server/src/storage.rs:358-381 | The loop that applies recovered records ends at the end of the log with its replay |
| Replication.Replica.CommitShard | crates/server/src/storage.rs:390-460 | The epoch sent to the journal is the computed one, no append is made without one, and the record is applied locally only if the journal put it right after what the node had read |
| ProcessInvariant.AdmitKeeps | crates/server/src/process.rs:1031-1232 | An ingress batch keeps the shard invariant, refused or accepted |
| ProcessAdmission.RefusedExactlyWhen | crates/server/src/process.rs:1031-1165 | The answer to an ingress batch, exactly, told by the batch and the shard before it: a missing key, a missing identifier, no room for its new events together, or the first event that repeats an identity with another body, is of a finalized key, or finds the numbers used up |
| ProcessAdmission.AcceptedIsLedgered | crates/server/src/process.rs:1124-1232 | After an accepted batch every event is known under its identity with its own body, new ones under the next numbers in order; what was known is as it was, and nothing else is known |
| ProcessAdmission.RepeatsAcceptedExactlyWhen | crates/server/src/process.rs:1124-1153 | A batch that only repeats admitted events is accepted exactly if it repeats their bodies, and then numbers and records nothing |
| ProcessInvariant.DispatchKeeps | crates/server/src/process.rs:515-547 | Dispatch keeps the shard invariant |
| ProcessDispatch.DispatchesExactly | crates/server/src/process.rs:515-547 | Of the oldest waiting events, as many as may run at once, a dispatch starts only the oldest of a key that nothing runs for, as a first attempt from the key's committed state; one of them waits only if its key is busy, or the shard is full and nothing younger started |
| ProcessFinish.CommitKeeps | crates/server/src/process.rs:711-810 | Accepting a transition keeps it, and neither an outcome nor a message conflicts |
| ProcessFinish.RetryKeeps | crates/server/src/process.rs:588-655 | A charged attempt keeps it, whether the event is retried or given up |
| ProcessSteps.SelectFair | crates/server/src/process.rs:1774-1795 | A poll passes over an eligible entry only if the batch is full, or it is a retry and every free retry slot is taken |
| ProcessSteps.SelectedSound | crates/server/src/process.rs:1710-1795 | A poll selects distinct entries that are due, in order, within the batch and the free retry slots |
| ProcessSteps.PollKeeps | crates/server/src/process.rs:1690-1853 | A grant keeps the shard invariant |
| ProcessPolling.SelectedExactly | crates/server/src/process.rs:1710-1795 | A poll selects only entries available now, of a build the worker serves and among the first 16384 ready ones, oldest first; such an entry is passed over only if older ones filled the batch, or it is a retry and older retries took the slots |
| ProcessPolling.PollIdles | crates/server/src/process.rs:1690-1768 | A poll changes nothing unless the runtime holds the partition and enough is due: anything, or a full batch while it may wait |
| ProcessPolling.PollSpends | crates/server/src/process.rs:1768-1798 | A poll that finds enough draws the next activation number, even if nothing can be granted under it, and fails only when no number is left |
| ProcessPolling.PollGrants | crates/server/src/process.rs:1768-1853 | If something due can be granted, the poll opens one lease under the owner's epoch and the number it drew; its members are exactly the selection, which leaves ready and is leased unchanged |
| ProcessSteps.CompleteKeeps | crates/server/src/process.rs:1896-1971 | A completion is accepted exactly when it names every execution of its lease with a well-formed item, and then keeps the invariant |
| ProcessResults.CompletesExactlyWhen | crates/server/src/process.rs:1896-1971 | A completion is accepted exactly from the live owner, for a lease of its own epoch named with its epoch and activation, with one good item per execution |
| ProcessResults.CompletedEach | crates/server/src/process.rs:577-810 | An accepted completion ends its lease; each failed execution is charged exactly one attempt and is ready again later or given up, and each successful one is in the history, committed, with the one message it emitted |
| ProcessResults.BackoffDoubles | crates/server/src/process.rs:629-632 | The wait before a retry starts at a tenth of a second and doubles with each attempt, up to five seconds |
| ProcessSteps.LoseKeeps | crates/server/src/maintenance.rs:58-134 | An expired lease fails all it holds and keeps the invariant |
| ProcessResults.RecoversExactly | crates/server/src/maintenance.rs:58-134 | After a recovery by the runtime that holds the partition a lease is gone if and only if it was listed and there, and had run out or was an earlier owner's while those are collected; every other lease and what it holds are untouched, and each execution of an ended lease was charged exactly one attempt; any other runtime changes nothing |
| ProcessSteps.ReturnAllKeeps | crates/server/src/maintenance.rs:352-386 | A drained lease puts all it holds back without charging an attempt and keeps the invariant |
| ProcessResults.ReturnsExactly | crates/server/src/maintenance.rs:352-386 | The second commit of a transfer ends every lease and makes each execution ready exactly as it was, with all outcomes unchanged |
| ProcessSteps.FinalizeKeeps | crates/server/src/process.rs:2169-2209 | Finalizing a key keeps the invariant |
| ProcessOwnership.ClosesExactlyWhen | crates/server/src/process.rs:2169-2209 | A key may be finalized, by the live owner, exactly if it is already or each of its admitted events has its final outcome |
| ProcessRuns.DoOk | crates/server/src/process.rs:1690-2034 | Every transaction of a partition, by any runtime, keeps the partition invariant and takes nothing back |
| ProcessTheorems.RunForward | crates/server/src/process.rs:1031-2034 | No run takes back an admission, a terminal outcome, a transition, a message, finality, an epoch or a consumed lease |
| ProcessTheorems.OutcomesAreFinal | crates/server/src/process.rs:252-316 | An admitted event keeps its record and number for ever, and a terminal outcome and its message never change |
| ProcessTheorems.OutcomeByPlace | crates/server/src/process.rs:252-316 | Every admitted event is in one place, and the place decides its outcome and charged attempts |
| ProcessTheorems.CommittedOnce | crates/server/src/process.rs:711-810 | In every state the partition invariant holds of, two places of the committed history hold different events, by number and by identity |
| ProcessTheorems.FailsWhenSpent | crates/server/src/process.rs:577-655 | An event fails exactly when `max_attempts` attempts were charged, and none is charged more |
| ProcessTheorems.OneMessagePerEmit | crates/server/src/process.rs:318-373 | A committed event has one message, with the emitted payload, exactly if its transition emitted; no other event has any |
| ProcessTheorems.NoLostUpdate | crates/server/src/process.rs:657-810 | A key's committed state is the handler folded over its committed events in commit order, through retries, expiry, recovery and handoff |
| ProcessTheorems.OneExecutionPerKey | crates/server/src/process.rs:515-547 | Two live executions never share a key, and each starts from its key's committed state |
| ProcessTheorems.FencedForever | crates/server/src/process.rs:1896-2034 | Once a later epoch exists, no completion or renewal under an earlier one is accepted again |
| ProcessTheorems.ConsumedForever | crates/server/src/process.rs:1896-2034 | A consumed lease is never honoured again |
| ProcessTheorems.CompletesOnce | crates/server/src/process.rs:1896-1971 | An accepted completion, repeated at any later time, is refused |
| ProcessTheorems.PairsIncrease | crates/server/src/keyspace.rs:586-657 | Issued pairs of owner epoch and activation strictly increase over every run, across acquisition, restart and transfer |
| ProcessTheorems.EpochsFitTheJournal | crates/server/src/keyspace.rs:586-632 | Each transaction moves the owner epoch as the journal's epoch rule admits |
| ProcessOwnership.OnlyTheHolderWrites | crates/server/src/keyspace.rs:682-699 | Whatever a transaction changes in a partition, it was asked for by the active owner while its time ran, or is the return of a transfer that has begun |
| ProcessOwnership.AcquiresExactlyWhen | crates/server/src/keyspace.rs:586-632 | An acquisition takes a partition without an owner, and otherwise exactly one that is not its own already and not held elsewhere: its time has run out, or its node is the same; the epoch rises by one and activation numbers go on |
| ProcessOwnership.NeverStolen | crates/server/src/keyspace.rs:586-632 | While the owner's time runs, no other node takes the partition, however often it tries |
| ProcessOwnership.RenewalLasts | crates/server/src/keyspace.rs:659-680 | Renewing leaves the active owner more than half of its time, never takes time away, and does nothing for anyone else |
| ProcessOwnership.ExtendsExactlyWhen | crates/server/src/process.rs:2008-2034 | A lease is extended exactly for the live owner that granted it, named with its epoch and activation, and for a positive time |
| ProcessOwnership.ExtendedLease | crates/server/src/process.rs:2008-2034 | An extended lease lasts as long as was asked, at most five minutes on, or as it did before if that is longer, and nothing else changes |
| ProcessOwnership.BeginsExactlyWhen | crates/server/src/maintenance.rs:337-351 | A transfer begins exactly for the active owner at its own epoch, which then drains |
| ProcessOwnership.TransferGoesThrough | crates/server/src/maintenance.rs:321-412 | A transfer that no one interferes with goes through: after its three commits a runtime of the target node takes the partition over at once, two epochs on, with nothing leased and the activation numbers going on |
| ProcessTheorems.TransferLeavesNothing | crates/server/src/maintenance.rs:321-412 | When a transfer's last commit succeeds no lease and no leased execution of the partition is left, despite the three separate commits |
| ProcessTheorems.FinalizedForever | crates/server/src/process.rs:2169-2209 | A finalized key keeps its state and gets no work for ever |
| ProcessTheorems.EveryEventCounted | crates/server/src/process.rs:1095-1114 | In every run the sequence counter is the sum of the six counters, each counter is the number of what it stands for, and running, retries and total stay within the limits |
| ProcessTheorems.NeverConflicts | crates/server/src/process.rs:252-373 | No transaction of any run meets an outcome or a message of another event |
| ProcessExact.DequeueExact | crates/server/src/process.rs:515-547 | Starting a waiting event subtracts from a counter that has it |
| ProcessExact.GrantExact | crates/server/src/process.rs:1774-1828 | A granted batch's saturating subtractions take exactly what is there, and no ready retry still holds an ordinary slot |
| ProcessExact.ReleaseExact | crates/server/src/process.rs:563-569 | Releasing a finished execution subtracts from a counter that counts it |
| ProcessExact.PutBackExact | crates/server/src/maintenance.rs:352-386 | So does putting a drained execution back |
| ProcessLimits.ProcessWide | crates/server/src/process.rs:549-561 | With the configured bounds divided by rounding up, all shards together exceed a bound by less than one event per shard, and their shares reach it |
| ProcessOrder.AlwaysInOrder | crates/server/src/process.rs:1190-1202 | On direct ingress each key's events start in sequence order in every run whose limits are orderly |
| ProcessOvertaking.OrderedExactlyWhen | crates/server/src/process.rs:526-547 | Every run keeps each key's order if and only if a shard may hold at most two events more than it runs at once, or runs one at a time without retries |
| ProcessGrants.RangeIsSelection | crates/server/src/process.rs:1798-1812 | For entries at adjacent scan positions the one contiguous range delete removes exactly the selected ready entries |
| ProcessGrants.Scan | crates/server/src/process.rs:1710-1745 | The scan finds the eligible entries with their positions |
| ProcessGrants.Choose | crates/server/src/process.rs:1774-1795 | The selection loop computes the selection |
| ProcessWork.ShardWork.Append | crates/server/src/process.rs:1031-1232 | The ingress transaction in code form is the specified admission, or refuses and changes nothing it commits |
| ProcessWork.ShardWork.DispatchWaiting | crates/server/src/process.rs:515-547 | The dispatch loop is the specified dispatch |
| ProcessWork.ShardWork.FailExecution | crates/server/src/process.rs:588-655 | The retry-or-quarantine code is the specified step |
| ProcessWork.ShardWork.FinishExecution | crates/server/src/process.rs:711-810 | The commit code is the specified step, refusals included |
| ProcessWork.ShardWork.PollBatch | crates/server/src/process.rs:1690-1853 | Scan, selection, range delete and counter updates make exactly the specified grant |
| ProcessWork.ShardWork.CompleteBatch | crates/server/src/process.rs:1896-1971 | The completion code is the specified completion, refusals included |
| ProcessWork.ShardWork.ReturnBatch | crates/server/src/maintenance.rs:352-386 | The drain loop is the specified return |
| ProcessWork.ShardWork.FinalizeKey | crates/server/src/process.rs:2169-2209 | The finalize transaction is the specified one |
| ProcessStore.PartitionStore.PollPartition | crates/server/src/process.rs:1690-1853 | The poll transaction checks ownership, advances the activation and follows the partition's specification |
| ProcessStore.PartitionStore.CompletePartition | crates/server/src/process.rs:1896-1971 | The completion transaction follows the specification |
| ProcessStore.PartitionStore.RenewBatch | crates/server/src/process.rs:2008-2034 | The renewal transaction follows the specification |
| ProcessStore.PartitionStore.RecoverTasks | crates/server/src/maintenance.rs:58-134 | The recovery loop loses exactly the leases that are expired, fenced or orphaned |
| ProcessStore.PartitionStore.Initialize | crates/server/src/keyspace.rs:586-632 | Acquisition follows the specification: a new epoch exactly for a new owner |
| ProcessStore.PartitionStore.FinishTransfer | crates/server/src/maintenance.rs:386-412 | The last commit of a transfer follows the specification |
| Outbox.OneEntryPerMessage | crates/server/src/maintenance.rs:24-56 | A promotion of the listed markers gives a sink each of them once, with its payload, and nothing else, and repeating it changes nothing |
| OutboxFeed.EachEmittedOnce | crates/server/src/process.rs:318-373 | After any run of all shards' transactions and of the outbox, a promotion leaves exactly one message, with its payload, for each event that committed with an output, none for any other event, nothing else, and repeating it changes nothing; names are shown to be fresh |
| OutboxFeed.WorkMarkers | crates/server/src/process.rs:711-810 | A shard's transaction adds exactly the markers of its new messages and overwrites none |
| Outbox.NeverAfterAck | crates/server/src/maintenance.rs:449-530 | In every run an acknowledged message stays so and is never delivered again |
| Outbox.AckedByItsReceiver | crates/server/src/maintenance.rs:500-530 | Only the latest receiver can acknowledge, exactly while its lease lasts, and no two deliveries of a message overlap |
| Outbox.DeliversExactlyWhen | crates/server/src/maintenance.rs:449-498 | A poll delivers a message exactly if it was promoted, is not acknowledged, and every earlier delivery of it has run out: again as soon as its lease ends, and never before |
| Outbox.CollidesExactlyWhen | crates/server/src/maintenance.rs:24-56 | A promotion is refused exactly if two payloads claim one message, and otherwise inserts each marker once, unleased, and nothing else |
| Outbox.OutboxStore.Promote | crates/server/src/maintenance.rs:24-56 | The promotion loop is the specified merge |
| Outbox.OutboxStore.Lease | crates/server/src/maintenance.rs:449-498 | A poll leases exactly an available message |
| Outbox.OutboxStore.Acknowledge | crates/server/src/maintenance.rs:500-530 | The acknowledgement is the specified one |
| StreamDispatch.AlwaysInStreamOrder | crates/server/src/process.rs:152-241 | A stream-fed process starts each key's events in stream order in every run, at any concurrency and whatever is eligible when |
| StreamDispatch.DispatchesExactly | crates/server/src/process.rs:152-188 | Of the oldest waiting events, as many as may run at once, a dispatch starts only eligible ones, each the oldest of a key that is not busy; one of them waits only if the process is full, its key is busy, or an event of its key, not younger, is not eligible |
| StreamDispatch.FinishFrees | crates/server/src/process.rs:375-513 | A finished execution leaves its key free, or busy with a waiting event that started at once, and every other execution goes on |
| StreamDispatch.StreamProcess.Dispatch | crates/server/src/process.rs:152-188 | The dispatch loop with its set of seen keys is the specified dispatch |
| StreamDispatch.StreamProcess.Finish | crates/server/src/process.rs:375-513 | A finished execution frees its key and dispatches as specified |
| StreamCounts.AlwaysExact | crates/server/src/process.rs:152-241 | In every run of a stream-fed process the counters are exact and first attempts stay within the concurrency |
| StreamCounts.FinishedExact | crates/server/src/process.rs:375-513 | What a finished execution subtracts is there |
| TopN.TopIsTop | crates/server/src/relational.rs:233-252 | The bounded walk over candidates takes exactly the first n with multiplicity |
| TopN.Winners | crates/server/src/relational.rs:233-252 | The loop computes that walk |
| Relational.ChangesMeanTable | crates/server/src/relational.rs:314-378 | In append, retract or upsert mode the normalized unit changes lead from the denoted table before a record to the one after it, never removing what is not there |
| RelationalMeaning.KeyedAcceptsExactlyWhen | crates/server/src/relational.rs:314-378 | A keyed table accepts a record exactly if its kind has a meaning in the mode and it has a primary key; a removal must find its key, and in retract mode its very row; an addition must find its key free, unless the mode is upsert; and a row it adds must have a group |
| RelationalMeaning.KeyedChangesOneKey | crates/server/src/relational.rs:314-378 | An accepted record changes only its own key, to its row or to nothing; a row that is already there keeps its time |
| RelationalMeaning.UnkeyedIsABag | crates/server/src/relational.rs:253-335 | A table without a key is a bag: an addition adds one of its row, a removal takes one away and must find it |
| RelationalMeaning.RemovalUndoes | crates/server/src/relational.rs:314-378 | Removing what was just added gives back the table, keyed or not |
| RelationalMeaning.GroupsTell | crates/server/src/relational.rs:129-135 | Rows of a ranking are in one group exactly if they agree in the partition columns |
| RelationalOperator.Maintained | crates/server/src/relational.rs:233-423 | After every accepted record the maintained rows are, row by row, the first n of each group of the denoted table with multiplicity (or the whole table), and what the unit changes sum to |
| RelationalOperator.CandidateOrder | crates/server/src/relational.rs:191-223 | The arrangement's key order is the specified ranking of the rows |
| RelationalOperator.Operator.EmitDelta | crates/server/src/relational.rs:282-312 | An emitted change moves the output bag and the log together and never underflows |
| RelationalOperator.Operator.Refresh | crates/server/src/relational.rs:380-441 | A record is accepted exactly when the specification accepts it, and a refused one changes nothing |
| CandidateKeys.KeyOrderIsColumnOrder | crates/server/src/relational.rs:137-224 | Byte order of candidate keys is multi-column order by each column's direction with nulls last |
| CandidateKeys.SortPart | crates/server/src/relational.rs:191-223 | The loop that builds a key is refused exactly when a column is missing, unsortable or of a changed kind, and otherwise builds the specified text and records the kinds |
| FloatOrder.OrderedIsTotalOrder | crates/server/src/keyspace.rs:700-707 | The key of a 64-bit pattern orders all patterns as IEEE 754-2019 section 5.10 totalOrder does |
| FloatOrder.WordIsTotalOrder | crates/server/src/keyspace.rs:700-707 | The same for the word as computed, by exclusive or and complement of its bits |
| FloatOrder.OrderedIsNumeric | crates/server/src/relational.rs:139-189 | For finite numbers with -0 normalized, key order is numeric order |
| TemporalJoin.CompactionAgrees | crates/server/src/operators.rs:237-272 | A compacted store answers every time at or past the frontier as the uncompacted one |
| TemporalJoin.CompactedExactly | crates/server/src/operators.rs:237-272 | Compaction keeps exactly what is newer than the frontier and, of each key's older versions, the one that no other outdates; everything without a frontier, and nothing past the end |
| TemporalJoin.CompactAgain | crates/server/src/operators.rs:237-272 | Compaction after compaction at advancing frontiers still agrees with the whole history |
| TemporalJoin.LateArrival | crates/server/src/operators.rs:182-218 | A version beyond the frontier changes no answer already emitted |
| TemporalJoin.SeesExactly | crates/server/src/operators.rs:220-235 | A probe sees the addition of its key, not after its time, that no other version of the key up to that time outdates, by time and then by record; and nothing exactly if there is none or the latest is a removal |
| TemporalJoin.VersionKeyOrder | crates/server/src/keyspace.rs:304-314 | Stored version keys of one key sort by time in totalOrder and then by sequence |
| TemporalJoin.TemporalJoinOperator.Refresh | crates/server/src/operators.rs:274-356 | Exactly the due probes are emitted, each once, with the version that all versions ever received give it; no output is rewritten; and the change log grows by exactly those that a left join puts out, or that found a version, and holds each of them once and nothing else |
| TemporalJoin.TemporalJoinOperator.Cleanup | crates/server/src/operators.rs:237-272 | The backward loop keeps exactly the versions newer than the frontier or current at it |
| TemporalJoin.TemporalJoinOperator.LatestVersion | crates/server/src/operators.rs:220-235 | The last eligible version in key order is the maximum by time and sequence |
| IntervalJoin.AddedExactlyWhen | crates/server/src/operators.rs:487-583 | After any addition the outputs are the pairs of the live records if and only if no live record that it joins was dropped by retention |
| IntervalJoin.AddedSafelyExactlyWhen | crates/server/src/operators.rs:487-640 | Told from the frontiers alone: every state they allow keeps exact outputs when a record is added, if and only if they have not passed both the record's time and the time of its oldest partner |
| IntervalJoin.MissedRetractionExactlyWhen | crates/server/src/operators.rs:431-485 | A retraction that finds nothing leaves the outputs right if and only if the record had no pair |
| IntervalJoin.LateRecordMissesItsPair | crates/server/src/operators.rs:487-640 | Whenever the frontiers have passed both, an addition, a retention and a late addition leave the outputs without a pair |
| IntervalJoin.ClosedMissesLater | crates/server/src/operators.rs:585-640 | A record retention removes joins no later admissible record |
| IntervalJoin.ClosedExactlyWhen | crates/server/src/operators.rs:585-640 | Retention may drop a record exactly when its own time is passed and every record it joins would come at a time that the other side has passed |
| IntervalJoin.ExactMeans | crates/server/src/operators.rs:487-583 | A pair is put out exactly if both records are there, under one key, with the right time within the bounds of the left one, ends included |
| IntervalJoin.IntervalJoinOperator.Add | crates/server/src/operators.rs:487-583 | The addition emits exactly the pairs with the arranged records of the other side, and keeps the outputs exact unless the frontiers have passed both or nothing was dropped yet |
| IntervalJoin.IntervalJoinOperator.Remove | crates/server/src/operators.rs:431-485 | A retraction, in time or late, removes an arranged record of that key, time and value and exactly its pairs, and the change log still sums to the outputs; it finds nothing only if none is arranged, and in time only if none is live |
| IntervalJoin.IntervalJoinOperator.Retain | crates/server/src/operators.rs:585-640 | Retention drops exactly the closed records of either side |
| SlidingWindows.WindowOperator.Index | crates/server/src/stream_engine.rs:262-399 | The loop ends and gives the contribution to exactly the aligned windows at or after `start_at` that contain the time, or is refused exactly if one of them cannot take it |
| SlidingWindows.WindowOperator.Contribute | crates/server/src/stream_engine.rs:292-390 | A contribution is taken exactly if the count and, for a maximum, the value's own count stay non-negative; the rows and what the change log sums to move together |
| SlidingWindows.MaximumOfLive | crates/server/src/stream_engine.rs:318-352 | For a maximum the stored row is always the count and greatest of the live multiset, and a retraction is taken exactly when its value is live |
| SlidingWindows.TakesExactlyWhen | crates/server/src/stream_engine.rs:292-352 | While every retraction found its value, an addition is always taken and a retraction exactly if its value is live, or, unless for a maximum, anything is |
| SlidingWindows.TumblingCoversOnce | crates/server/src/stream_engine.rs:262-291 | Windows as long as they are apart cover every time from the start on, each exactly once |
| SlidingWindows.RowsAreBatch | crates/server/src/stream_engine.rs:262-399 | Every row of the operator is the count, sum or maximum of what its window holds live, always for a maximum and otherwise if every retraction found its value |
| SlidingWindows.RowExactlyWhen | crates/server/src/stream_engine.rs:300-317 | One more accepted contribution keeps a right row right if and only if it adds, or retracts a live value |
| SlidingWindows.RowsExactlyWhen | crates/server/src/stream_engine.rs:262-399 | Over a whole run every row is the batch aggregate at every step if and only if every accepted retraction found its value live |
| SlidingWindows.AbsentValueRetracted | crates/server/src/stream_engine.rs:300-308 | A count or a sum takes the retraction of a value that is not live exactly when anything is live, and its row is then wrong |
| SlidingWindows.KeptIsLive | crates/server/src/stream_engine.rs:300-317 | The running count, sum and value counts, which restart when a window empties, are those of the live multiset of the whole history |
| SlidingWindows.TurnedLog | crates/server/src/stream_engine.rs:353-390 | The changes logged for a window keep the log summing to the stored rows |
| PackedBatch.AcceptedExactly | crates/server/src/process.rs:1584-1629 | With documents kept as bytes, a body parses to a list of events if and only if it is the writer's encoding of that list, for 1 to 100000 events: nothing cut, nothing left over, no second encoding but for spellings of one JSON document |
| PackedBatch.ReadWritten | src/highwater/client.py:216-243 | Parsing what was written gives back the events |
| PackedBatch.PackedTells | src/highwater/client.py:216-243 | Two batches with the same bytes hold the same events |
| PackedBatch.Layout | src/highwater/client.py:216-243 | The bytes of a batch, position by position: the letters TCP1, the number of events, then each event where the ones before it end, with its time, lengths, identifier, key and value; nothing follows the last |
| PackedBatch.Parse | crates/server/src/process.rs:1574-1629 | The cursor-moving parser is the specified reader, with its errors |
| PackedBatch.Write | src/highwater/client.py:216-243 | The loop that extends a byte array is the specified encoding |
| CycleSearch.Search.Run | src/highwater/dag.py:371-395 | The depth-first search passes exactly when the graph has no cycle |
| DagPlan.LoopsAgree | src/highwater/dag.py:371-395 | Streams and operators form a cycle exactly when some stream feeds itself |
| Wiring.RetractingStreams | src/highwater/dag.py:354-361 | The loop ends, at the least fixpoint: exactly the streams that a collection's output reaches |
| Wiring.StreamReachesAny | crates/server/src/stream_engine.rs:85-108 | With its shared visited set the search is true exactly when a target is reachable over active edges |
| DagBuilder.Dag.Validate | src/highwater/dag.py:332-395 | Nothing is reported exactly when the plan is well formed, and what is reported is there |
| DagBuilder.Dag.AddOperator | src/highwater/dag.py:129-146 | An operator joins with its streams, and exactly its inputs and output become known by name; a conflicting one changes nothing, and a blank output is refused only after the operator is in |
| DagBuilder.Dag.DeclareStream | src/highwater/dag.py:119-127 | A declaration replaces an inferred or equal one and conflicts with any other |
| OperatorRegistry.CollectionProblem | crates/server/src/relational.rs:581-619 | The server's check refuses exactly the registries in which a collection must read retractions it cannot, or a deduplicate reads a retracting stream |
| OperatorRegistry.OperatorStore.CreateOperator | crates/server/src/stream_api.rs:897-1049 | Creating an operator follows the registry's specification for every kind |
| OperatorRegistry.OperatorStore.UpdateOperator | crates/server/src/process.rs:911-971 | A process may change its references unless they close a loop |
| OperatorRegistry.OperatorStore.ConnectOperator | crates/server/src/stream_api.rs:1110-1180 | Connecting an output follows the specification |
| RegistryRuns.StepAcyclic | crates/server/src/stream_api.rs:1110-1180 | A step keeps the stored graph free of loops, except exactly one that takes over another kind's id and closes one |
| RegistryRuns.RunLoopFree | crates/server/src/stream_api.rs:1110-1180 | Over a whole run no loop is ever stored, exactly when no step takes an id over and closes one |
| RegistryRuns.DistinctIdsStayLoopFree | crates/server/src/relational.rs:442-466 | With one kind to an id, no run ever stores a loop |
| RegistryRuns.ConnectRefusedExactly | crates/server/src/stream_api.rs:1120-1128 | An edge is refused as a loop exactly when the graph with it would have one |
| RegistryRuns.ConnectsExactlyWhen | crates/server/src/stream_api.rs:1110-1180 | An output is connected exactly if the names and the operator are there, the stream is declared as source-managed and no other operator writes it, and the operator writes it already, or writes nothing yet and the new graph has no loop and sound collections |
| RegistryRuns.IdTakenExactlyWhen | crates/server/src/relational.rs:442-466 | An id is refused as taken exactly to a collection whose id any other kind has, and to any other kind whose id a collection has |
| RegistryRuns.ReferencesRefusedExactly | crates/server/src/process.rs:938-952 | New references are refused as a loop exactly when they would close one |
| RegistryRuns.RunSound | crates/server/src/relational.rs:581-619 | Over a whole run no deduplicate ever reads retractions, exactly when no unchecked step brings retractions to an output that leads to one |
| RegistryRuns.TakeoverClosesALoop | crates/server/src/process.rs:909-1008 | In a run from the empty registry a process created under a filter's id makes a stream feed itself |
| RegistryRuns.ReferencesLeakRetractions | crates/server/src/process.rs:938-965 | In a run from the empty registry an accepted change of references lets a deduplicate read retractions |
| DagDeployment.DeployedExactlyWhen | src/highwater/dag.py:285-303 | In whatever order a plan's operators are created and outputs connected, the server accepts all of it exactly when outputs are source-managed and unshared, collections sound and the graph free of loops; the client's validation passes exactly when besides every output stream has explicit options; and the registry then holds just that graph |

## Findings

Properties the source does not have without a condition, each with a run or input that shows it and the exact condition.

| property | source | shown by | holds exactly when |
|---|---|---|---|
| A rejected append is not in the log | crates/server/src/journal.rs:620-665 | `JournalProtocol.RejectedMayBeCommitted` | its head update never reached the store while the version it expected was current (`JournalProtocol.RejectedExactlyWhen`) |
| Reads before commit agree with reads after it | crates/server/src/state.rs:277-338 | `Transactions.PutIntoPendingRangeIsLost` | none of the rows the read returns lies in a pending range deletion (`Transactions.ReadsMatchCommit`) |
| The journal is a serial order of its transactions | crates/server/src/storage.rs:358-381 | `Replication.ReaderSyncLosesUpdate` | no committed transaction's node was synchronized with newer records between operation and append (`Serializability.SerialExactlyWhen`) |
| Direct ingress keeps each key's order | crates/server/src/process.rs:526-547 | `ProcessOvertaking.OvertakingRun` | per-shard capacity is at most concurrency plus two, or the shard runs one at a time without retries (`ProcessOvertaking.OrderedExactlyWhen`) |
| Window rows are the batch aggregate | crates/server/src/stream_engine.rs:300-308 | `SlidingWindows.AbsentValueTaken` | every accepted retraction found its value live (`SlidingWindows.RowsExactlyWhen`); always for a maximum |
| Interval-join outputs are the pairs of live records | crates/server/src/operators.rs:487-640 | `IntervalJoin.LateRecordMissesItsPair` | the frontiers have not passed both the new record and its oldest partner (`IntervalJoin.AddedSafelyExactlyWhen`); for one state, no live record it joins was dropped (`IntervalJoin.AddedExactlyWhen`, `IntervalJoin.MissedRetractionExactlyWhen`) |
| The stored operator graph has no loop | crates/server/src/process.rs:909-1008 | `RegistryRuns.TakeoverClosesALoop` | no step takes over the id of an operator whose output reaches what the new one reads (`RegistryRuns.RunLoopFree`) |
| No deduplicate reads retractions | crates/server/src/process.rs:938-965 | `RegistryRuns.ReferencesLeakRetractions` | no unchecked step brings retractions to an output that leads to a deduplicate (`RegistryRuns.RunSound`) |

## Left out

- Transactions.ApplyRecord: does not apply records of the older log format, nor write the row that counts a shard's applied records in the same batch; the count is a field beside the database.
- StreamDispatch.StreamProcess.Finish: does not write the key state, outcome and output of the same transaction; those are modelled for sharded processes.
- Replication.Replica.CommitShard: takes the journal's answer to its append as a parameter; the journal itself is `JournalProtocol` and `ConditionalJournal`.
- PackedBatch.AcceptedExactly: keeps a document as its bytes, so two spellings of one JSON document are two events here.
- HTTP routing, authorization, CORS, the console, the command line and the website.
- RocksDB, S3, MessagePack, base64 and UUID internals; partial file copies during a restore; the upload of checkpoint files.
- Several processes on one shard: a shard holds one process here, and an ingress batch is for it.
- Batch deadlines are a flag that says whether a batch still waits; latency summaries and autoscaling are not modelled.
- Build and queue filters of a poll are one set of accepted builds.
- A process's status is always ACTIVE; workflow start, completion and replay are not modelled.
- The change log of process outputs and the contents of a finalization marker.
- Overflow of 64-bit counters and of signed multiplicities, except the sequence and epoch limits that the code checks.
- Event-time gates of stream-fed processes are a set of eligible events chosen at each step; watermark refresh and late policies are not modelled, nor the refusal of operators on streams with the accepting late policy.
- State-version migrations of a process; a refused upgrade changes nothing.
- Process-wide shard 0 keeps the constant epoch 1; one partition's journal is modelled at a time.
- Leased executions are stored by number and a lease lists its members; the code stores them inside the lease record.
- A temporal join takes versions only beyond the frontier; what late arrivals do to answers already emitted is not stated.
- Interval joins of a stream with itself.
- Floating-point rounding in window sums; a window over a non-numeric value is refused before it reaches the model.
- Relational.Scalar: JSON numbers are identified by value, so 1 and 1.0 are one number, although the serialized row identity keeps them apart; two rows that differ only so count as one row here.
- The candidate arrangement of a ranking is a bag scanned in key order; row names are an injective naming.
- Parsing of JSON and UTF-8 in a packed batch is two predicates on byte strings.
- Messages of the control shard go to the outbox directly; here every shard leaves markers.
- Edge status: every stored edge is active, as nothing in the code changes it; only the reachability search filters by it.
- White space is a fixed set of characters: Unicode's for the server, four separators more for the client.
- Order of iteration over sets and dictionaries, and which of several problems a validation reports first.
