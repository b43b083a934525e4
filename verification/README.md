# Transactional protocols of the game server, modelled in Dafny

The repository is a game server whose hard logic is a set of small protocols over shared
state: a request ledger that runs each mutation exactly once, a journal of revision counters
with an outbox that many workers drain, resumable migrations of legacy data, a deployment that
compensates its own failures, and a few smaller pieces. This project models those protocols and
proves what they promise. Running `dafny verify dfyconfig.toml` in this directory checks all of it.

## How the model is built

Each protocol is one or a few modules, in the form its source has.

- **Imperative code is imperative Dafny.** Code that changes a database or an object step by step
  is a class whose methods are proved equal to a specification function of the old state
  (`InputEvents.Connection`, `OutboxDispatcher.Outbox`, `Migration.Migrator`,
  `BattleResults.Importer`, `SseParser.Parser`, `ReleaseController.Host`, `PlayAudit.Session`,
  `DiplomacyLedger.Store`, `SharedPools.Pools`, `IconSync.Store`, `CoverageActivation.Coverage`).
  The promises are then lemmas about those functions.
- **Concurrency is a state machine over single statements.** `InputEventMachine`,
  `RevisionJournal`, `OutboxLeases`, `OutboxFlow`, `BattleResultsOverlap` and `BoundedWorkers`
  interleave any number of participants, one SQL statement (or one stretch between two awaits) at a time, with crashes, aborts and
  commits that take effect although the caller sees an error. The main theorems hold in every
  state of every run. `InputEventTheorems.CommitIsAtomic` ties the interleaved machine to the
  atomic specification that `InputEvents.Connection` implements.
- **Failures of the outside world are inputs.** Whether a call fails, and whether it took effect
  all the same, is a parameter or a script field, so every combination is covered.

### Reading aid

| file | contents |
|---|---|
| `common.dfy`, `key_order.dfy`, `lock_order.dfy` | options and results, string order, no circular wait |
| `canonical_json.dfy` | canonical form of JSON values |
| `request_scope.dfy` | identities of the calls of one batched request |
| `input_events.dfy` | what one execution of a request means, and the transaction that does it |
| `input_event_machine.dfy`, `input_event_safety.dfy`, `input_event_theorems.dfy` | concurrent callers: statements, invariant, theorems |
| `revision_keys.dfy`, `revision_journal.dfy`, `coverage_activation.dfy` | revision counters and outbox rows |
| `outbox_dispatcher.dfy`, `outbox_leases.dfy`, `outbox_flow.dfy` | one dispatcher; many dispatchers; requests, journal and dispatchers together |
| `upsert.dfy`, `paging.dfy`, `migration.dfy`, `migration_history.dfy` | id-cursor migration and its histories |
| `battle_result_source.dfy`, `battle_results.dfy`, `battle_results_history.dfy`, `battle_results_overlap.dfy` | per-season import; runs of one source; several sources at once |
| `bounded_workers.dfy`, `user_icons.dfy`, `icon_sync.dfy` | user icons |
| `sse_parser.dfy`, `sse_standard.dfy` | event-stream parser and the WHATWG standard |
| `release_controller.dfy`, `release_theorems.dfy`, `release_outcomes.dfy`, `release_agreement.dfy` | deploy and compensate; what each stage leaves; how it ends, told from calls and polls; when the host stays in agreement with itself |
| `play_audit.dfy`, `diplomacy_ledger.dfy`, `shared_pools.dfy` | auditing, replay ledger, pool table |

### Assumptions

- A digest stands for an injective function: the canonical value, the file content or the event
  itself takes the place of its SHA-256.
- Business code writes only through the transaction it is given; what it writes is kept as a ghost
  log of effects.
- A transaction sees committed data plus its own writes; a row lock lasts until its transaction
  ends; an insert that meets a conflict waits for the other transaction, does nothing, and still
  uses up a serial. Serials are not given back on rollback.
- Every writer of the journal takes its keys in one statement, in normalized order; business code
  takes no fence, request or revision locks of its own (`InputEventTheorems.NoDeadlock`).
- Outbox workers that are alive at the same time have different owner names, and all statements
  read one clock that never runs backwards.
- Migration sources append with rising non-negative ids; rows of a rescanned table may also change
  in place between runs, but keep their id and conflict key. One source writes a target table.
- Runs of one battle-result source exclude each other, as the advisory lock ensures; runs of
  different sources overlap freely. A delete sees the rows committed when it starts and skips rows
  whose deletion commits while it waits; an insert that meets a committed row updates it.

### Where the code departs from what one might expect

- **Stuck full migrations.** `FullRunCanBeStuck`: two rows with one conflict key, imported by
  separate runs, make every later full run fail; `FullRunSucceedsIff` gives the exact condition.
- **Empty event names.** `EmptyNameDiffers`: the parser keeps an emptied event name where section
  9.2.6 of the WHATWG HTML Standard falls back to `message`; it also dispatches data still pending
  at the end of the stream, which the standard discards. `AgreesWithStandardIff` is exact.
- **Publishing.** After a failed publish the ref is put back but processes and artifact stay new.
  `PublishAgreesIff` says exactly when ref and active release still name one commit;
  `PublishCanPart` is an input after which they do not.
- **Stopping.** A failure while the old processes are stopped is not compensated: `StopSparesIff` says
  exactly when they are all still up. After `StopCanPart` one is missing; after `StopCanSilence` all
  are in the process table and none is up. `DeployKeepsIff` and `SeriesConsistentIff` put all stages
  together, for one deployment and for any series, of whatever releases.
- **Default pictures.** `ResetAgainIff`: a rejected icon whose source is the default picture with a
  cache suffix is reset again by every later sync; `DefaultIsResetForever` is such an icon.
- **Zero workers.** `ResultsKeepOrder`: with concurrency zero the bounded map completes at once with
  no results (`ZeroWorkersDoNothing`). Zero arrives only as the option of that name, which the
  repository's own callers leave at its default.
- **Checkpoints of several sources.** Battle-result rows are stored per profile but checkpointed, and
  locked, per source. `CheckpointsAgreeIff`: a checkpoint describes its season's rows exactly if its
  files are those of the season's latest import, by any source, together with the rows that this
  import neither saw nor wrote. After `OverlapCanMix` a season holds the files of two sources and
  the checkpoint of the later one names only its own.

## Model

| member | source | states |
|---|---|---|
| CanonicalJson.CanonicalIffEquivalent | app/game-api/src/inputEventBoundary.ts:46-72 | two payloads have the same canonical form exactly when they are equal up to member order at every depth |
| CanonicalJson.CanonicalIdempotent | app/game-api/src/inputEventBoundary.ts:46-62 | the canonical form of a canonical value is itself, so a stored result is replayed unchanged |
| RequestScope.SameScopeIff | app/game-api/src/trpc.ts:63-64 | for all paths and positions: two calls share an identity exactly if both are the same, or the one at position zero spells out the other's path with its position appended |
| RequestScope.ScopesAreDistinct | app/game-api/src/trpc.ts:63-64 | calls of one batch have distinct identities whenever no path holds a colon |
| InputEvents.IdentityDecides | app/game-api/src/inputEventBoundary.ts:64-72 | identities are equal exactly for equivalent payloads and never equal the empty placeholder of an old row |
| InputEvents.EvolvesTransitive | app/game-api/src/inputEventBoundary.ts:147-191 | row evolution composes, so a payload is adopted at most once |
| InputEvents.ExecuteEvolves | app/game-api/src/inputEventBoundary.ts:193-339 | whatever runs, fails or is recorded late, a committed row keeps its identity, its attempts only grow and a success never changes |
| InputEvents.Connection.InsertPendingIfAbsent | app/game-api/src/inputEventBoundary.ts:81-121 | inserts a waiting row only if the request has none, and uses up a serial either way |
| InputEvents.Connection.WriteReadModelChangeJournal | packages/infra/src/readModelChangeJournal.ts:65-125 | raises every normalized key by one and stores exactly one row announcing those revisions; nothing for no keys |
| InputEvents.Connection.MarkUnexpectedFailure | app/game-api/src/inputEventBoundary.ts:193-239 | its own transaction changes the ledger exactly as the late-failure specification says |
| InputEvents.Connection.RunBusiness | app/game-api/src/inputEventBoundary.ts:283-319 | the savepoint leaves either the completed row with effects and journal, or the failed row alone |
| InputEvents.Connection.Attempt | app/game-api/src/inputEventBoundary.ts:258-319 | insert, lock, claim and run equal the atomic meaning of a transaction on the request |
| InputEvents.Connection.ExecuteInputEvent | app/game-api/src/inputEventBoundary.ts:241-339 | for every way the call can end, database and answer are those of the atomic meaning and no transaction stays open |
| InputEvents.Connection.RunMutation | app/game-api/src/trpc.ts:66-125 | the dispatcher is woken exactly when this call executed and stored an outbox row |
| InputEvents.RaiseEach | packages/infra/src/readModelChangeJournal.ts:78-100 | the key-by-key bump in sorted order raises each key once |
| InputEventSafety.StepInv | app/game-api/src/inputEventBoundary.ts:81-339 | every statement of every caller, and every other journal writer, keeps the invariant of the boundary |
| InputEventTheorems.ExactlyOnce | app/game-api/src/inputEventBoundary.ts:258-339 | in every reachable state the effects of a request are committed at most once, and exactly when its row became a success |
| InputEventTheorems.NeverUnfinished | app/game-api/src/inputEventBoundary.ts:81-239 | no committed state shows a waiting or processing row that was not there at the start |
| InputEventTheorems.LedgerHistory | app/game-api/src/inputEventBoundary.ts:170-239 | between any two moments a row only evolves: type and actor fixed, attempts growing, payload replaced at most by one adoption |
| InputEventTheorems.SuccessAbsorbs | app/game-api/src/inputEventBoundary.ts:207-233 | once told a result, a caller's row never changes again; a rejected caller stays rejected, and every answer stays true of the row |
| InputEventTheorems.NoBusinessAfterSuccess | app/game-api/src/inputEventBoundary.ts:258-319 | while a request's row is a success no caller of it is running business code |
| InputEventTheorems.LateCallerIsAnswered | app/game-api/src/inputEventBoundary.ts:170-191 | a call that arrives after a success ends with the stored result if it matches, as rejected if not, or with the loss of its own transaction; it never starts business code |
| InputEventTheorems.Agreement | app/game-api/src/inputEventBoundary.ts:261-304 | two callers of one request that got a result got the same one, the replay being its canonical form |
| InputEventTheorems.FailureStaysRetryable | app/game-api/src/inputEventBoundary.ts:147-239 | the row written by a failed run or a late record admits the same request, and any with an equivalent payload |
| InputEventTheorems.CommittedFailureStaysRetryable | app/game-api/src/inputEventBoundary.ts:147-239 | in every run, once a failure or a late record is committed, every later retry of that request, or of one with an equivalent payload, runs or is replayed |
| InputEventTheorems.RetryNeverRejected | app/game-api/src/inputEventBoundary.ts:170-191 | once a row carries a request's identity, every later retry runs or is replayed |
| InputEventTheorems.RowNeverDisappears | app/game-api/src/inputEventBoundary.ts:123-145 | the row a caller is about to lock is always there |
| InputEventTheorems.EndToEnd | app/game-api/src/trpc.ts:74-107 | a success with marked keys owns an outbox row announcing exactly those keys; any other request owns none |
| InputEventTheorems.CommitRaisesByOne | packages/infra/src/readModelChangeJournal.ts:78-100 | the commit of a success raises each of its keys by exactly one and announces it at that revision in one new row; other commits leave heads and outbox alone |
| InputEventTheorems.OneOutboxRow | app/game-api/src/trpc.ts:83-107 | no request ever owns two outbox rows |
| InputEventTheorems.BoundaryRevisionHistory | packages/infra/src/readModelChangeJournal.ts:69-125 | with other writers included, announced revisions are consecutive and ordered as their rows |
| InputEventTheorems.CommitIsAtomic | app/game-api/src/inputEventBoundary.ts:258-319 | at every commit, in any interleaving, the database changes as if the whole transaction ran at that instant |
| InputEventTheorems.RecorderIsAtomic | app/game-api/src/inputEventBoundary.ts:193-239 | the same for the recorder of a late failure |
| InputEventTheorems.NoDeadlock | app/game-api/src/inputEventBoundary.ts:258-319 | callers, other writers of the journal and coverage activations never wait in a circle for fence, request, activation, version and revision locks |
| RevisionKeys.NormalizeSound | packages/common/src/realtime/changeJournal.ts:77-95 | normalized keys are sorted, distinct and the same set |
| RevisionKeys.NormalizeOrderFree | packages/common/src/realtime/changeJournal.ts:68-95 | the normalized list depends only on the set of marked keys |
| RevisionJournal.StepInv | packages/infra/src/readModelChangeJournal.ts:65-125 | bump, row, commit, rollback and seeding keep locks, ranges and order of every key |
| RevisionJournal.RevisionHistory | packages/infra/src/readModelChangeJournal.ts:69-125 | every revision after the initial head is announced by exactly one row, and a smaller row id carries a smaller revision |
| RevisionJournal.HeadsOnlyGrow | packages/infra/src/readModelCoverageActivation.ts:51-57 | no step, seeding included, lowers a head |
| LockOrder.NoCircularWait | packages/infra/src/readModelChangeJournal.ts:69-73 | taking locks in one global order rules out a circle of waiting transactions |
| CoverageActivation.Coverage.Activate | packages/infra/src/readModelCoverageActivation.ts:27-75 | succeeds exactly for the expected or the current version, seeds the missing heads found by then and raises the version; the compare-and-set is never lost |
| CoverageActivation.GateStaysOk | packages/infra/src/readModelCoverageActivation.ts:19-75 | however activations and writers interleave, an open gate stays open with every shared head there, and no head is lost or lowered |
| CoverageActivation.ActivationIsRepeatable | packages/infra/src/readModelCoverageActivation.ts:41-75 | after a success every later activation with a legal expectation succeeds and changes nothing |
| OutboxDispatcher.RetryDelayBounded | packages/infra/src/readModelOutboxDispatcher.ts:46-49 | the backoff never shrinks with attempts and stays between base and maximum |
| OutboxDispatcher.PickSound | packages/infra/src/readModelOutboxDispatcher.ts:65-85 | a claim takes the oldest eligible rows in id order and passes none over for a later one |
| OutboxDispatcher.PickStaleSound | packages/infra/src/readModelOutboxDispatcher.ts:187-204 | pruning takes the oldest rows delivered before the limit and nothing undelivered |
| OutboxDispatcher.Outbox.Claim | packages/infra/src/readModelOutboxDispatcher.ts:51-88 | refuses an owner of white space only, otherwise leases exactly the picked rows and returns them as they now are |
| OutboxDispatcher.Outbox.MarkDelivered | packages/infra/src/readModelOutboxDispatcher.ts:90-109 | changes the row exactly if the owner still holds it undelivered |
| OutboxDispatcher.Outbox.Release | packages/infra/src/readModelOutboxDispatcher.ts:111-131 | gives the row back exactly if the owner still holds it undelivered |
| OutboxDispatcher.Outbox.DispatchItems | packages/infra/src/readModelOutboxDispatcher.ts:150-182 | an item counts as delivered exactly if it was published and marked while still owned; an error of the release statement ends the batch; rows change only as these statements say, whatever others do between |
| OutboxDispatcher.Outbox.DispatchBatch | packages/infra/src/readModelOutboxDispatcher.ts:133-185 | with defaults and bounds applied to the options, claims the specified batch and accounts for every item attempted as delivered or failed |
| OutboxDispatcher.Outbox.Prune | packages/infra/src/readModelOutboxDispatcher.ts:187-204 | deletes exactly the specified delivered rows and returns their number |
| OutboxLeases.StepInv | packages/infra/src/readModelOutboxDispatcher.ts:51-204 | claim, publish, mark, release, prune and crash keep the lease invariant for any number of workers |
| OutboxLeases.LeaseSafety | packages/infra/src/readModelOutboxDispatcher.ts:90-131 | a worker whose row was claimed again changes nothing, also when owner names are reused after a crash; one that changes it owns it under the latest claim and has published it when it delivers |
| OutboxLeases.NoLoss | packages/infra/src/readModelOutboxDispatcher.ts:90-204 | a row is undelivered exactly until it is delivered once, after being published; pruning loses none |
| OutboxLeases.DeliveredWasPublished | packages/infra/src/readModelOutboxDispatcher.ts:150-167 | a delivered row was published under its latest claim |
| OutboxLeases.BoundedRecovery | packages/infra/src/readModelOutboxDispatcher.ts:65-85 | whatever crashed, an undelivered row is claimable once the larger of lease and maximum delay passed since it was last touched |
| OutboxLeases.OldestIsClaimed | packages/infra/src/readModelOutboxDispatcher.ts:65-85 | the oldest claimable row is in the next batch of whoever claims |
| OutboxFlow.AnnouncementsArrive | packages/infra/src/readModelOutboxDispatcher.ts:51-204 | with callers, other writers and dispatchers running together, every committed announcement, and nothing else, is waiting to be delivered or was delivered once after being published |
| OutboxFlow.RevisionsArrive | packages/infra/src/readModelOutboxDispatcher.ts:51-204 | every revision after the initial head is announced by exactly one row, which is still to be delivered or has been |
| OutboxFlow.RequestArrives | app/game-api/src/trpc.ts:74-125 | a request that became a success did so by one effect; if it marked keys, exactly one outbox row is its own, announces these keys, and is waiting to be delivered or was delivered once; if not, none is |
| Upsert.ScanKeepsLast | tools/legacy-db-migration/src/db.ts:133-147 | per conflict key the last row wins, while preserved columns keep their first value |
| Upsert.OverlappingScans | tools/legacy-db-migration/src/db.ts:111-149 | scans of overlapping stretches compose into one scan |
| Upsert.StoreMissingAt | tools/legacy-db-migration/src/db.ts:138-147 | without columns to update, rows that are there stay and every other key is added |
| Upsert.UpsertRows | tools/legacy-db-migration/src/db.ts:111-149 | a batch is stored as a whole or not at all: with columns to update it fails exactly when it repeats a conflict key, without any it never fails and skips conflicting rows |
| Paging.SelectIsSlice | tools/legacy-db-migration/src/db.ts:78-83 | a page query by id cursor reads exactly the next slice of an ascending log |
| Paging.PagesAreSlice | tools/legacy-db-migration/src/db.ts:67-90 | the pages read while the source grows are one contiguous stretch, with no row skipped or repeated |
| Paging.ReachedFloor | tools/legacy-db-migration/src/db.ts:77-89 | paging does not stop before everything visible at its start was read |
| Paging.MovePagesIsStore | tools/legacy-db-migration/src/game.ts:112-118 | a table moves exactly when every page maps and no page repeats a key, and then as one scan of what was read |
| Migration.NextPage | tools/legacy-db-migration/src/db.ts:76-89 | the cursor left by a page is the right start for the remaining pages |
| Migration.StartAtMeasured | tools/legacy-db-migration/src/db.ts:92-99 | the measured maximum id marks exactly the measured prefix |
| Migration.Migrator.LoadCursor | tools/legacy-db-migration/src/incremental.ts:69-100 | an incremental run starts at the checkpoint, and is refused without one, with another fingerprint or a regressed maximum |
| Migration.Migrator.MigrateSimpleTable | tools/legacy-db-migration/src/game.ts:98-125 | the paging loop equals moving the specified pages, counts its rows, and writes nothing in a dry run |
| Migration.Migrator.SaveCheckpoints | tools/legacy-db-migration/src/game.ts:612-627 | records the maximum measured before paging for each appended table |
| Migration.Migrator.Migrate | tools/legacy-db-migration/src/game.ts:575-690 | a run leaves either all its tables and checkpoints or none, for every fault, process death before and after the commit included; a run that returns normally is marked completed, and only process death hides a completed one |
| MigrationHistory.PlansOk | tools/legacy-db-migration/src/game.ts:586-627 | the tables of the game and of the gateway database qualify for every history |
| MigrationHistory.NeverRegresses | tools/legacy-db-migration/src/gateway.ts:384-401 | on an append-only source an incremental cursor is refused only for a missing checkpoint |
| MigrationHistory.MoveExtendsScan | tools/legacy-db-migration/src/game.ts:98-125 | reading on from a checkpoint and upserting amounts to one longer scan |
| MigrationHistory.RescanIsScan | tools/legacy-db-migration/src/game.ts:98-125 | a rescan of a table whose rows changed in place since they were read ends in the scan of the source as it is now |
| MigrationHistory.ForeignChangesNothing | tools/legacy-db-migration/src/incremental.ts:88-100 | an incremental run under another fingerprint changes no table and no checkpoint |
| MigrationHistory.StepSound | tools/legacy-db-migration/src/game.ts:586-690 | growth and change of the source and every kind of run keep each appended table a scan, each rescanned table an outline of one, and each checkpoint within what was read |
| MigrationHistory.Convergence | tools/legacy-db-migration/src/game.ts:586-690 | after any history each appended table is one scan, in id order, of a prefix of its source; a rescanned one has the keys, ids and preserved columns of such a scan |
| MigrationHistory.CheckpointedRowsAreThere | tools/legacy-db-migration/src/incremental.ts:102-129 | every source row at or below a checkpoint is in the target under its key, with the last content read for it |
| MigrationHistory.CompletedRunIsFullScan | tools/legacy-db-migration/src/game.ts:575-690 | a run that completes while the source is quiet leaves what one full scan would leave, rescanned tables included |
| MigrationHistory.HistoriesAgree | tools/legacy-db-migration/src/game.ts:575-690 | two histories over one source agree after a completed quiet run |
| MigrationHistory.RunSucceedsIff | tools/legacy-db-migration/src/incremental.ts:69-129 | a run in either mode over a quiet source succeeds exactly when every table can be read on from where it starts: for an incremental run a checkpoint of this fingerprint, not beyond the source, and behind it only rows that map, with no repeated key in a block of one page size |
| MigrationHistory.FullRunSucceedsIff | tools/legacy-db-migration/src/db.ts:127-148 | a full run over a quiet source succeeds exactly when every row maps and no block of one page size repeats a conflict key |
| MigrationHistory.FullRunCanBeStuck | tools/legacy-db-migration/src/db.ts:141-147 | a concrete source that incremental runs import and no full run can |
| BattleResultSource.ManifestIdentifiesFiles | tools/legacy-db-migration/src/battleResultSource.ts:253-266 | two listings of a season give one manifest exactly when they hold the same files |
| BattleResultSource.GroupFiles | tools/legacy-db-migration/src/battleResultSource.ts:268-284 | the grouping loop accepts exactly the listings without repeated or oversized files and groups them by season |
| BattleResultSource.ListSeasons | tools/legacy-db-migration/src/battleResultSource.ts:268-285 | one manifest per season, each describing all and only that season's files in ascending order |
| BattleResults.StoredIsFiles | tools/legacy-db-migration/src/battleResults.ts:98-131 | a season's rows are its files, one each and nothing else |
| BattleResults.CountsAddUp | tools/legacy-db-migration/src/battleResults.ts:181-230 | discovered seasons, files and bytes are the unchanged ones plus the pending ones |
| BattleResults.Plan | tools/legacy-db-migration/src/battleResults.ts:197-230 | refuses vanished, changed or foreign seasons exactly as specified and splits the others into unchanged and pending |
| BattleResults.FlushesAreFiles | tools/legacy-db-migration/src/battleResults.ts:105-129 | the flushes of a season concatenate to its files, none lost, repeated or moved |
| BattleResults.FlushesBounded | tools/legacy-db-migration/src/battleResults.ts:114-128 | every flush holds at most 100 rows and 4 MiB |
| BattleResults.Importer.UpsertSeason | tools/legacy-db-migration/src/battleResults.ts:79-131 | rewrites a season exactly to its manifest's files in bounded flushes, or does nothing if a re-read differs |
| BattleResults.Importer.Migrate | tools/legacy-db-migration/src/battleResults.ts:165-317 | a run equals its specification wherever it stops, whatever others did to the target between planning and locking, between its transactions and during them |
| BattleResultsHistory.CheckpointsAgree | tools/legacy-db-migration/src/battleResults.ts:257-289 | while one source imports, in every reachable state, also midway and with stale plans, each checkpointed season's rows are exactly the files its manifest describes |
| BattleResultsHistory.CompletedSeasonIff | tools/legacy-db-migration/src/battleResults.ts:197-289 | after a completed run a season is in place exactly if the last of its imports that wrote it, or found that others had been at work, left it so; or else if it was so when the lock was taken |
| BattleResultsHistory.CompletedRunMirrors | tools/legacy-db-migration/src/battleResults.ts:197-289 | a run that completes while no other source writes leaves exactly the source's seasons checkpointed and stored, and other seasons alone |
| BattleResultsHistory.ResumedEqualsUninterrupted | tools/legacy-db-migration/src/battleResults.ts:207-289 | however often interrupted, a completed import ends as an uninterrupted one |
| BattleResultsHistory.NothingLeftToDo | tools/legacy-db-migration/src/battleResults.ts:208-222 | after a completed run the same source has nothing pending in either mode |
| BattleResultsOverlap.StepInv | tools/legacy-db-migration/src/battleResults.ts:87-163 | every row deleted, every row written, every commit and abort of any number of sources keeps the stored rows what the committed imports mean |
| BattleResultsOverlap.CommitSettles | tools/legacy-db-migration/src/battleResults.ts:94-131 | at its commit a transaction leaves its files and those rows that its delete could not see |
| BattleResultsOverlap.CommitIsImport | tools/legacy-db-migration/src/battleResults.ts:252-289 | in any interleaving a commit changes the target as the import of the season at that instant, with the unseen rows spared, which is what a migration run does per season |
| BattleResultsOverlap.CheckpointsAgreeIff | tools/legacy-db-migration/src/battleResults.ts:94-163 | in every reachable state of any number of overlapping sources: a checkpointed season holds exactly its manifest's files if and only if these are the latest import's files and the rows that survived it |
| BattleResultsOverlap.SurvivorsOverlapped | tools/legacy-db-migration/src/battleResults.ts:94-131 | what survives an import is a file of an import that committed after its delete began |
| BattleResultsOverlap.SerialCheckpointsIff | tools/legacy-db-migration/src/battleResults.ts:94-163 | if the latest import overlapped with no other, a checkpoint agrees exactly if it is of the same files |
| BattleResultsOverlap.OverlapCanMix | tools/legacy-db-migration/src/battleResults.ts:240-270 | two sources import one season at once and the later checkpoint names one of three stored files |
| SseParser.Parser.Push | tools/load-tests/src/sse.ts:34-43 | scanning a chunk for lines equals reading it character by character |
| SseParser.Parser.Finish | tools/load-tests/src/sse.ts:45-49 | an unfinished last line is consumed and pending data dispatched |
| SseParser.ChunkingIsInvisible | tools/load-tests/src/sse.ts:34-43 | however a stream is cut into chunks, the parser ends in the same state |
| SseParser.RoundTrip | tools/load-tests/src/sse.ts:51-69 | printed events are parsed back, in whatever chunks they arrive |
| SseStandard.SplitsAlike | tools/load-tests/src/sse.ts:34-43 | without a bare CR the parser sees the lines of the standard |
| SseStandard.EventsUpToNames | tools/load-tests/src/sse.ts:51-69 | before the end of the stream the events are the standard's, except for emptied names |
| SseStandard.AgreesWithStandardIff | tools/load-tests/src/sse.ts:45-69 | the events equal the standard's exactly when no data block ends with an emptied name and nothing is pending at the end |
| SseStandard.EmptyNameDiffers | tools/load-tests/src/sse.ts:62-67 | an empty event name is kept where the standard says message |
| ReleaseController.Host.StartDefinitions | app/release-controller/src/releaseController.ts:476-494 | starts the definitions in order and, on a failure, deletes those started before it, last one first |
| ReleaseController.Host.StopManagedProcesses | app/release-controller/src/releaseController.ts:496-514 | stops and deletes every managed process that is there, last one first, and reports any failed delete |
| ReleaseController.Host.WaitForReadiness | app/release-controller/src/releaseController.ts:516-557 | polls until one poll in time shows endpoints up and every expected process online without restarts |
| ReleaseController.Host.PublishRelease | app/release-controller/src/releaseController.ts:447-474 | the effect on ref and active release of every way its four calls can end |
| ReleaseController.Host.DeployRelease | app/release-controller/src/releaseController.ts:363-474 | the state and the report of a deployment for every way its calls and polls can end |
| ReleaseController.Host.RunOnce | app/release-controller/src/releaseController.ts:278-355 | the same for one claimed operation and its record |
| ReleaseTheorems.StartAt | app/release-controller/src/releaseController.ts:476-494 | a successful start has every definition running from the workspace; no start touches other processes |
| ReleaseTheorems.StopManagedAt | app/release-controller/src/releaseController.ts:496-514 | a successful stop leaves nothing managed; no stop touches or moves other processes |
| ReleaseTheorems.CompensateSound | app/release-controller/src/releaseController.ts:424-446 | a successful compensation has the previous artifact and exactly the previous workspace's processes back, ready; no compensation moves ref or active release |
| ReleaseTheorems.DeployStages | app/release-controller/src/releaseController.ts:363-474 | for every stage at which it ends: what runs, what is served, where ref and active release stand |
| ReleaseOutcomes.PublishAgreesIff | app/release-controller/src/releaseController.ts:447-474 | from any host: after a publication ref and active release name one commit exactly if the outcomes of its four calls, told case by case, say so |
| ReleaseOutcomes.DeployFinishesIff | app/release-controller/src/releaseController.ts:363-474 | from any host: a deployment finishes exactly if its calls, counted from the processes it finds, succeed and one poll in time shows everything ready |
| ReleaseOutcomes.DeployRefAgreesIff | app/release-controller/src/releaseController.ts:363-474 | from any host, first deployments and redeployments included: when a deployment leaves ref and active release at one commit; nothing before its publication can part them |
| ReleaseOutcomes.SwitchEnd | app/release-controller/src/releaseController.ts:396-424 | how a switch ends, told from its calls and polls: the next call, the processes left, whether all are up, and the artifact |
| ReleaseOutcomes.QuietDeployFinishesIff | app/release-controller/src/releaseController.ts:363-474 | when all calls succeed, a deployment finishes exactly if the new processes show ready in time |
| ReleaseAgreement.StopSparesIff | app/release-controller/src/releaseController.ts:496-514 | a failed stop leaves a running host running exactly if the listing failed or no stop and no delete took effect |
| ReleaseAgreement.CompensateIff | app/release-controller/src/releaseController.ts:424-446 | a compensation has the previous processes back and up exactly if it clears the others and its starts and polls end well, or if the same workspace's processes were left up untouched |
| ReleaseAgreement.DeployKeepsIff | app/release-controller/src/releaseController.ts:363-474 | a deployment of any release, from a host whose active release is up, served and named by the ref, leaves it so exactly if the calls and polls end as specified stage by stage |
| ReleaseAgreement.FinishedIsConsistent | app/release-controller/src/releaseController.ts:363-474 | a finished deployment leaves its release up, served and named by the ref, whatever was before |
| ReleaseAgreement.SeriesConsistentIff | app/release-controller/src/releaseController.ts:278-474 | the active release is up, served and named by the ref after every operation of a series exactly if the calls and polls of each operation end as specified |
| ReleaseAgreement.RecordedSoundly | app/release-controller/src/releaseController.ts:278-355 | an operation is recorded as succeeded only after a finished deployment that runs, and as failed only under its lease |
| ReleaseAgreement.PublishCanPart | app/release-controller/src/releaseController.ts:459-472 | a publication that took effect but reported an error, with the ref swapped back, leaves ref and active release at different commits |
| ReleaseAgreement.StopCanPart | app/release-controller/src/releaseController.ts:496-514 | a stop that deletes one process and fails on the next leaves the active release without all its processes |
| ReleaseAgreement.StopCanSilence | app/release-controller/src/releaseController.ts:496-514 | a stop whose stops all succeed and whose deletes all fail leaves every process in the table and none up |
| PlayAudit.Session.WithAuditSavepoint | packages/infra/src/playAuditBestEffort.ts:4-63 | a failed audit leaves the state before it plus the gap record; both outcomes restore timeouts, savepoints and a usable transaction |
| PlayAudit.TimeoutsStayTight | packages/infra/src/playAuditBestEffort.ts:17-22 | every statement of audit work that leaves the timeouts alone runs within the caller's limits and the audit's own |
| PlayAudit.SucceedsIff | packages/infra/src/playAuditBestEffort.ts:24-46 | audit work is kept exactly when it met no error, caught or not, and stayed in budget, and then with all its writes |
| PlayAudit.GapSpansFailures | packages/infra/src/playAuditBestEffort.ts:52-57 | within one season the record holds the first and the latest failing month |
| PlayAudit.GapKeepsFirst | packages/infra/src/playAuditBestEffort.ts:52-57 | an existing record of the season keeps its first month |
| PlayAudit.AnonymousGapIsLatest | packages/infra/src/playAuditBestEffort.ts:53-56 | without a server id the first month is always the latest |
| DiplomacyLedger.ReadBackIff | packages/infra/src/playAuditDiplomacy.ts:82-89 | reading back what was inserted detects exactly the lists that contradict the ledger or themselves |
| DiplomacyLedger.Store.Persist | packages/infra/src/playAuditDiplomacy.ts:65-91 | for any batch size: succeeds exactly for coherent lists, stores every event, and never alters a stored row |
| DiplomacyLedger.ReplayChangesNothing | packages/infra/src/playAuditDiplomacy.ts:82-89 | replaying a stored list succeeds and changes nothing |
| DiplomacyLedger.ConflictAlwaysFails | packages/infra/src/playAuditDiplomacy.ts:82-89 | an id with other content fails every list that brings it, and the stored row stays |
| DiplomacyLedger.ListsCompose | packages/infra/src/playAuditDiplomacy.ts:71-89 | storing two lists one after the other stores what storing them together does |
| SharedPools.CountsAreHandles | packages/infra/src/postgres.ts:94-113 | in every run an entry's count is its unreleased handles; its pool is ended exactly once, when none is left |
| SharedPools.HandedOutIsOpen | packages/infra/src/postgres.ts:73-98 | what an acquire hands out is a pool that was never ended |
| SharedPools.EndedStaysEnded | packages/infra/src/postgres.ts:98-113 | an entry once removed is never handed out again |
| SharedPools.GuardIsRedundant | packages/infra/src/postgres.ts:107-110 | whenever a live handle is released the table still holds its entry |
| SharedPools.Pools.AcquireSharedPool | packages/infra/src/postgres.ts:73-98 | shares the entry of a key or opens one, and keeps the invariant |
| SharedPools.Pools.ReleaseHandle | packages/infra/src/postgres.ts:102-113 | a repeated release does nothing; the last one removes and ends the pool |
| SharedPools.Connector.Disconnect | packages/infra/src/postgres.ts:199-213 | gives the handle back exactly once, also when the client or the ending of the pool fails, and reports that failure |
| BoundedWorkers.StepInv | tools/legacy-db-migration/src/legacyUserIcons.ts:250-265 | no interleaving hands one index to two workers or loses one |
| BoundedWorkers.TakenOnce | tools/legacy-db-migration/src/legacyUserIcons.ts:257-263 | indices are taken once each, in order, with at most the given number of calls in flight |
| BoundedWorkers.ResultsKeepOrder | tools/legacy-db-migration/src/legacyUserIcons.ts:250-265 | when all workers finish the results are the mapped list in input order, exactly if there was a worker or nothing to do |
| BoundedWorkers.ZeroWorkersDoNothing | tools/legacy-db-migration/src/legacyUserIcons.ts:250-265 | with no worker three values give no result, without an error |
| UserIcons.SplitSound | tools/legacy-db-migration/src/legacyUserIcons.ts:296-366 | validated rows split into icons of members that are not excluded and rejections of excluded ones |
| UserIcons.CheckPictures | tools/legacy-db-migration/src/legacyUserIcons.ts:367-374 | the owner map accepts exactly the lists where no picture has two members |
| UserIcons.Prepare | tools/legacy-db-migration/src/legacyUserIcons.ts:267-400 | when preparation succeeds, exactly; and then the rejected members are exactly the exclusions |
| IconSync.Store.LinkOne | tools/legacy-db-migration/src/legacyUserIcons.ts:475-507 | links an account that still shows its source picture and adds the picture to the library once |
| IconSync.Store.SyncImported | tools/legacy-db-migration/src/legacyUserIcons.ts:442-510 | fails exactly on a picture owned by another account or a missing account, and otherwise counts what it changed |
| IconSync.SecondSyncIsIdle | tools/legacy-db-migration/src/legacyUserIcons.ts:442-510 | a second sync of prepared icons succeeds, links and inserts nothing and changes nothing |
| IconSync.ResetAgainIff | tools/legacy-db-migration/src/legacyUserIcons.ts:403-440 | a later sync resets a rejected account again exactly if it was reset and its picture is the default one but for a cache suffix |
| IconSync.DefaultIsResetForever | tools/legacy-db-migration/src/legacyUserIcons.ts:403-440 | an account that shows the default picture with a cache suffix is reset, and counted, by one sync after the other |

## Left out

- JSON text: canonical values are modelled, not their serialization; numbers are reals.
- The member order that a jsonb column gives back; a replayed result is compared as a canonical value.
- Database collation: sorted SQL results use code-unit order, as the normalization in the code does.
- The consistency checks on rows returned by the journal statement (packages/infra/src/readModelChangeJournal.ts:26-59): they compare the database's answer with the request.
- `executeInputEvent` without a transaction (app/game-api/src/inputEventBoundary.ts:254-256): it has no protocol.
- Error texts of late failures and of released outbox rows beyond their presence, and log output.
- OutboxDispatcher.Outbox.DispatchBatch: what other workers do to the table while an item is published is an arbitrary input; their interplay is the subject of OutboxLeases.
- Liveness of the dispatcher beyond claimability: that some worker keeps polling is not modelled.
- `migrateStorage`: it rescans a table whose rows are deleted and re-created, so the argument for growing logs does not apply.
- MigrationHistory.CompletedRunIsFullScan: rows of rescanned tables change between runs, not while a run is reading them, and are not deleted.
- Row mappers: a row either maps or fails; columns are one key, one preserved part and one refreshed part. The check for inconsistent row shapes cannot fail for mapped rows.
- MigrationHistory.Convergence: compares stored rows without the id of the import run that last wrote them, because runs differ in it by design.
- Rescanned gateway tables other than through the preserved-columns law of `Upsert.ScanKeepsLast`; account collisions are not modelled.
- Battle results: import run ids and timestamps of rows, decoding of file contents (a read either succeeds or fails), and the order of seasons by locale.
- Reading files and talking to the image service, image validation and upload signatures: an icon is valid, invalid or broken.
- UserIcons.Prepare: rows are validated in input order; that the concurrent map gives the same list is BoundedWorkers.ResultsKeepOrder.
- The leading byte order mark of an event stream and the `id` and `retry` fields; bare carriage returns, which the parser does not treat as line ends.
- ReleaseController.Host.DeployRelease: building, staging, leases and migration are one preparation stage of calls that may fail; cleanup of workspaces and artifacts is not modelled.
- Cancellation and lease renewal timers of the release controller: whether the operation is still its own is an input.
- PlayAudit.Session.WithAuditSavepoint: a failing rollback or gap update ends the outer transaction and is not modelled.
- The Prisma client behind a connector, whose calls succeed or fail, and pool statistics.
- The game clock fence of the boundary beyond its lock.
- Among overlapping imports, those of a season that reads back changed: they roll back before their delete. Which of two deadlocked sources is aborted is left open.
