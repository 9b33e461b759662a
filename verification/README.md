# Verification of solana-snapshot-etl

A Dafny model of the parts of solana-snapshot-etl on which its data depends,
with proofs of what those parts promise.

The program reads Solana snapshot archives and keeps two groups of ClickHouse
tables, an active one that is served and a `_bak` one in which the next
generation is built. A watcher chooses archives, imports them, and exchanges
the groups; its journal lets it continue after a crash at any point.

The project is layered as the program is:

- **Storage and token formats** (`Bytes`, `AppendVec`, `Token2022Metadata`,
  `Token2022Extensions`): walking account records, the length-prefixed metadata
  reader, the TLV scan. Parsers are proved against encoders and against
  declarative meanings, on all inputs.
- **Importing** (`Order`, `Versions`, `MetadataPatches`, `ImportOutput`,
  `Accounts`, `Workers`, `Fanout`, `Channel`, `SinkRows`, `Parallel`,
  `FanoutParallel`, `ClickhouseSink`, `MetadataRows`, `KeptCandidates`,
  `ImportCounts`): what one account does is a list of effects; which candidate,
  which columns and which counts come of a whole stream is stated of its
  accounts directly. Outputs form a commutative monoid, so the division of an
  archive among workers does not show. The fanout that feeds both groups from
  one pass equals two separate imports, with any number of workers. Over every
  run of the bounded channel, success means that each row of the archive was
  accepted by the server exactly once.
- **The tables** (`Ledger`, `HotState`, `WalletBalance`, `IncrementalImport`,
  `BalanceRecords`, `BalanceAgreement`, `ImportedRows`, `LedgerBalances`,
  `BalanceExamples`, `UnreadableFiles`): a ledger of account records is the
  reference. Imports, interrupted anywhere and repeated on other archives, make
  the hot-state table read as the ledger; when the incrementally kept balances
  equal the full aggregation is decided exactly, and over an exact table both
  are the sum of the amounts the ledger records.
- **The watcher** (`FrozenMints`, `Selection`, `Watcher`, `WatcherInvariant`,
  `WatcherRuns`, `WatcherProcess`, `StagingWork`, `Quiescence`): a state machine
  over journal, mint files, table identities and process memory, with crashes.
  The invariant shows that no defensive check can fail; what a crash interrupts
  is taken up again and nothing that was to be waited for is skipped. The class
  in `WatcherProcess` is written as the program is and refines the machine.
- **Both together** (`Generations`, `ServingData`, `ServingBalances`,
  `ServedLedger`, `SharedLoads`, `WatermarkExample`): which rows stand behind
  each lane through resets, imports, exchanges and crashes. The main results are
  that every promoted generation is exact, and that in every reachable state the
  record of what each balance was computed from decides whether it is right,
  that is whether it is the sum the ledger records.

Parameters stand for what lies outside: directory listings, clocks, the
outcome of imports and of the server, frozen mint sets, archive contents, UTF-8
validity and the outcomes of the SPL, Token-2022 and Metaplex unpackers. A
table is the sequence of rows inserted into it; FINAL and argMax keep the
highest slot, and of equal slots the last inserted. EXCHANGE and TRUNCATE are
single steps, and so is persisting the journal.

What is assumed of the chain is stated in `Ledgers.Lifecycle`: all versions of
a token account keep its mint and owner, and its only other successor is a
record that counts as a close; a recognised token account is initialised and
paid for. What is assumed of archives is stated in `Ledgers.IsIncremental` and
`Ledgers.IsFull`.

## What the proofs brought to light

- A full baseline never contains a storage file of slot 0, because the loader is
  opened with watermark 0 and keeps only higher slots. It is exact if and only
  if no positive hot account was last written there
  (`HotState.BaselineExactIff`, `HotState.BaselineMissesSlotZero`).
- The fanout counts a storage file without accounts only if the file is not
  empty; a standalone import counts it always. Rows and patches agree in any
  case, the statistics exactly when no file is empty
  (`Fanout.StagingEqualsFullImport`).
- Completing a shared full load assigns the archive's slot to active even when
  active is further ahead. The watcher still comes to rest
  (`Quiescence.WatermarkGoesBack`, `Quiescence.ImportsAreBounded`), and the
  convergence result holds for a watermark that is behind what the table has
  already seen (`HotState.ImportSettlesAt`).
- A mint set is written one name a line and read back line by line. It comes
  back as it was if and only if it is not empty and no name is empty, contains a
  line feed or ends in a carriage return (`FrozenMints.RoundTripIff`); only an
  empty set is refused where mints are frozen. With any other unusable set the
  next start fails or goes on with different mints
  (`WatcherRuns.RestartKeepsMintsIff`). The results over runs are for runs in
  which every frozen set is usable (`Watcher.FreezesUsable`), as sets of base58
  names are.
- An incremental refresh writes balances at the slot of its archive into a table
  whose highest slot wins. After a shared load or a promotion has taken the
  watermark back (`WatermarkExample.WatermarkWentBack`), an archive may end
  below balances that are already stored; a pair that changed then keeps its old
  balance. The balances agree again if and only if no such pair changed
  (`IncrementalImport.ImportAgreesIff`, with the input in
  `BalanceExamples.OvertakenRefresh`).
- An import cut off between its tombstones and its refresh can leave balances
  wrong that its repetition does not touch (`BalanceExamples.TornImport`). The
  repetition makes all balances right if and only if each account with a
  positive amount that the cut attempt marked deleted is of a pair that was
  refreshed before the cut or is touched again
  (`BalanceAgreement.RepetitionRestoresIff`). Over whole runs, what decides is
  from which state of the table each balance was computed
  (`ServingBalances.ServedBalancesAgree`). A shared load that is cut off is
  always repaired by its repetition (`SharedLoads.RepeatedLoadRestores`).
- An import passes over storage files it cannot read and succeeds, so the
  watermark moves over what they held. The table is right all the same if and
  only if it neither shows nor should show any account whose last record was
  missed (`UnreadableFiles.ImportSettlesIff`, with an input where it is not in
  `UnreadableFiles.MissedClose`); no later import delivers what was missed
  (`UnreadableFiles.HoleStays`).
- The set of invalid archives in the watcher's loop never has an effect: the
  only insertion is followed by leaving the loop
  (src/bin/solana-snapshot-etl/main.rs:2438-2447), so the model has no such set.
- The paths for `full_loading` without a shared checkpoint, for an active lane
  in `full_loading` or `full_merging`, and for `waiting_for_full` cannot be
  reached from a first start without `--bootstrap`; the machine has an outcome
  of its own for them, and `WatcherRuns.RunSafe` excludes it.

## Model

| member | source | states |
|---|---|---|
| Watcher.DecideStep | src/bin/solana-snapshot-etl/main.rs:2106-2451 | a decision touches no table, no file and no cutover checkpoint, describes no committed data differently, enters no fanout and ends no background work: a merge wait or an import that is finished afterwards was finished before |
| WatcherInvariant.ExchangeKeeps | src/bin/solana-snapshot-etl/clickhouse.rs:2643-2674 | exchanging an original pair swaps it, leaves every other pair as it was, and keeps all twelve tables distinct |
| WatcherInvariant.ExchangePairSafe | src/bin/solana-snapshot-etl/clickhouse.rs:2656-2665 | the error that a cutover cannot safely be resumed is never met |
| WatcherInvariant.JoinBuildSafe | src/bin/solana-snapshot-etl/main.rs:2014-2074 | a finished merge wait always finds staging in full_merging |
| WatcherInvariant.JoinWorkerSafe | src/bin/solana-snapshot-etl/main.rs:2076-2104 | joining the first staging incremental keeps every consistency property while making the cutover pending on both lanes |
| WatcherInvariant.DecideSafe | src/bin/solana-snapshot-etl/main.rs:2106-2451 | no decision meets a missing marker, a missing watermark, a conflicting worker or a phase of another protocol |
| WatcherInvariant.DecideStagingSafe | src/bin/solana-snapshot-etl/main.rs:2271-2340 | restarting staging work never finds its marker, its watermark or its mint set missing |
| WatcherInvariant.DecideIncrementalSafe | src/bin/solana-snapshot-etl/main.rs:2381-2433 | selecting an incremental never finds staging without a watermark or without mints |
| WatcherInvariant.SharedStepsSafe | src/bin/solana-snapshot-etl/main.rs:2122-2191 | each step of a shared attempt finds the checkpoint, the phases, the marker and the resume slot it was written with |
| WatcherInvariant.PersistSharedSafe | src/bin/solana-snapshot-etl/main.rs:1708-1750 | the shared checkpoint keeps the journal, file and memory invariants, with the new mint file in place first |
| WatcherInvariant.FanoutDoneSafe | src/bin/solana-snapshot-etl/main.rs:1789-1796 | completing a shared load keeps all invariants although active's watermark is reassigned |
| WatcherInvariant.CleanupSafe | src/bin/solana-snapshot-etl/main.rs:1424-1475 | removing unused mint files never removes one a working lane needs |
| WatcherInvariant.LoadActiveSafe | src/bin/solana-snapshot-etl/main.rs:1937-1956 | after any crash the mint file the journal names exists and its text loads as a set, because the frozen sets were usable |
| WatcherInvariant.FreezeActiveSafe | src/bin/solana-snapshot-etl/main.rs:1939-1948 | freezing a usable set leaves a file that loads as exactly that set |
| FrozenMints.RoundTripIff | src/bin/solana-snapshot-etl/main.rs:1487-1520 | a written set is read back as it was if and only if it is not empty and no name in it is empty, contains a line feed or ends in a carriage return, in whatever order it was written |
| FrozenMints.UnusableSets | src/bin/solana-snapshot-etl/main.rs:1487-1520 | concrete sets that are written and then refused, or read back as another set |
| FrozenMints.WriteMints | src/bin/solana-snapshot-etl/main.rs:1389-1392 | the writing loop produces each name followed by a line feed, in the order of the walk |
| FrozenMints.LoadMints | src/bin/solana-snapshot-etl/main.rs:1494-1514 | the reading loop refuses the first empty line, and a file without lines, and otherwise returns the set of the lines |
| FrozenMints.LinesOfWritten | src/bin/solana-snapshot-etl/main.rs:1494-1501 | names without line feeds come back as the lines, in order, each without one trailing carriage return |
| WatcherRuns.RestartKeepsMintsIff | src/bin/solana-snapshot-etl/main.rs:1937-1956 | for any non-empty set that a first start freezes, the start after a crash goes on with the same mints if and only if the set is usable, and otherwise fails or goes on with others |
| WatcherInvariant.PromoteSafe | src/bin/solana-snapshot-etl/main.rs:1851-1866 | promotion happens with every pair exchanged and keeps all invariants |
| WatcherRuns.NextSafe | src/bin/solana-snapshot-etl/main.rs:1890-2469 | from a consistent state every step that freezes no unusable set leads to a consistent state; no defensive error and no legacy path is reachable in one step |
| WatcherRuns.RunSafe | src/bin/solana-snapshot-etl/main.rs:1890-2469 | the same over all runs in which the frozen sets are usable, with crashes anywhere |
| WatcherRuns.ReachableStates | src/bin/solana-snapshot-etl/main.rs:1759-1785 | in every reachable state: a shared checkpoint implies the phases, the marker and the captured resume slot; cutover is pending on both lanes or neither; cutover tables are known; referenced mint files exist and load |
| WatcherRuns.CutoverMovesForward | src/bin/solana-snapshot-etl/main.rs:1819-1873 | over any step, the pairs still to be exchanged only become fewer, the checkpoint does not change, and it is cleared only when no pair is left |
| WatcherRuns.CheckpointIsOriginal | src/bin/solana-snapshot-etl/main.rs:1841-1846 | a checkpoint is taken of the tables as they are, before any exchange |
| WatcherRuns.PendingEnteredQuietly | src/bin/solana-snapshot-etl/main.rs:2083-2091 | cutover becomes pending only from a ready active lane, without a shared load and with no background work left |
| WatcherRuns.StepKeepsMintFiles | src/bin/solana-snapshot-etl/main.rs:1424-1467 | no step rewrites a mint file, and none removes one that the journal refers to before or after the step |
| WatcherRuns.FrozenMintsSurvive | src/bin/solana-snapshot-etl/main.rs:1424-1467 | while the journal refers to a mint file, through any crashes, the file exists with the content it had when the reference was made |
| WatcherProcess.SnapshotWatcher.BeginSharedFullLoad | src/bin/solana-snapshot-etl/main.rs:1708-1750 | fails without effect exactly when no mint is enabled; otherwise performs a run of the machine that ends with the shared checkpoint durable and the set on disk and in memory, consistent if the set is usable |
| WatcherProcess.SnapshotWatcher.CompleteSharedFullLoad | src/bin/solana-snapshot-etl/main.rs:1752-1817 | performs a run of the machine; on success both lanes carry the archive's slot, on a failed import the journal is as before |
| WatcherProcess.SnapshotWatcher.ApplyActiveIncremental | src/bin/solana-snapshot-etl/main.rs:1570-1605 | checkpoint, import, checkpoint as a run of the machine; the watermark moves only on success and only up |
| WatcherProcess.SnapshotWatcher.FinishCutover | src/bin/solana-snapshot-etl/main.rs:1819-1873 | from any partial exchange, ends with all six pairs exchanged relative to the recorded identities and staging's lane promoted |
| WatcherProcess.SnapshotWatcher.ExchangeTableGroups | src/bin/solana-snapshot-etl/clickhouse.rs:2626-2675 | the loop over the pairs never fails and ends with every pair handled |
| WatcherProcess.SnapshotWatcher.JoinStagingBuild | src/bin/solana-snapshot-etl/main.rs:2014-2074 | the join of the merge wait is the machine's step, or the end of the process |
| WatcherProcess.SnapshotWatcher.JoinStagingIncremental | src/bin/solana-snapshot-etl/main.rs:2076-2104 | the join of staging's incremental is the machine's step, or the end of the process |
| WatcherProcess.SnapshotWatcher.DecideNext | src/bin/solana-snapshot-etl/main.rs:2106-2451 | the sequence of tests in the loop body is the machine's decision and never ends in an error |
| WatcherProcess.SnapshotWatcher.Iterate | src/bin/solana-snapshot-etl/main.rs:1973-2468 | one whole iteration, with whatever mints are enabled, refines a run of the machine: back to the top of the loop, or the durable state of a crash |
| WatcherProcess.AllSwapped | src/bin/solana-snapshot-etl/clickhouse.rs:2643-2675 | at the end of an attempt the serving tables are exactly the recorded staging tables and the other way round |
| StagingWork.OnlyReportsEnd | src/bin/solana-snapshot-etl/main.rs:2014-2104 | over every step, a merge wait or staging import that has ended had ended before, unless the step is its own report, with that outcome |
| StagingWork.MergeIsAwaited | src/bin/solana-snapshot-etl/main.rs:2285-2296 | over all runs with crashes anywhere, a staging lane in full_merging stays there until a merge wait has been reported done: no crash lets it be skipped |
| StagingWork.CutoverIsEarned | src/bin/solana-snapshot-etl/main.rs:2076-2104 | over all runs, no cutover becomes pending unless a staging import has been reported done |
| StagingWork.UnfinishedIsTakenUp | src/bin/solana-snapshot-etl/main.rs:2106-2340 | whatever a crash has taken from memory, the next decision goes on with what the journal leaves undone: the pending cutover, the shared load, an unfinished merge wait on staging's full, or staging's incremental on the best archive that fits its watermark, given up exactly when none fits |
| StagingWork.SelectedIsApplied | src/bin/solana-snapshot-etl/main.rs:2434-2450 | a selected archive that fits a ready active lane is imported there |
| StagingWork.ImportIsRecorded | src/bin/solana-snapshot-etl/main.rs:1592-1605 | the end of that import makes active ready at the archive's slot, and leaves staging as it was |
| StagingWork.DisabledNamesNothing | src/bin/solana-snapshot-etl/main.rs:1424-1475 | over all runs, a disabled staging lane names no mint file, so that clean-up may remove what it named |
| StagingWork.ClearedLanes | src/bin/solana-snapshot-etl/main.rs:1477-1485 | a process first makes disabled lanes forget their paths, and nothing else |
| StagingWork.CleanupRemoves | src/bin/solana-snapshot-etl/main.rs:1424-1475 | clean-up keeps the file of every enabled lane with its content, and of the others only those whose removal fails |
| Quiescence.ImportsAreBounded | src/bin/solana-snapshot-etl/main.rs:1875-1888 | in a fixed directory, over any run with any crashes and failures, completed imports plus the measure of remaining work never exceed the measure at the start |
| Quiescence.StepPaid | src/bin/solana-snapshot-etl/main.rs:1973-2468 | no step raises the measure and every recorded completion lowers it |
| Quiescence.WatermarkGoesBack | src/bin/solana-snapshot-etl/main.rs:1789-1796 | active's watermark can fall only when a shared load completes or a generation is promoted, and then to exactly which slot |
| WatermarkExample.WatermarkWentBack | src/bin/solana-snapshot-etl/main.rs:1752-1796 | a run from a first start on tables that reach any slot to the completion of a shared load of any full archive: active's watermark is then the archive's slot, lower or not |
| Quiescence.IdleMeansNothingToDo | src/bin/solana-snapshot-etl/main.rs:2352-2468 | when an iteration finds nothing to do, no archive of the directory fits a ready lane's watermark and no full is newer than active's generation with staging disabled |
| Quiescence.GenerationIsBest | src/bin/solana-snapshot-etl/main.rs:2352-2379 | a generation is begun on the preferred full newer than active's full slot, only with staging disabled and active ready |
| Quiescence.ResumedIsBest | src/bin/solana-snapshot-etl/main.rs:2227-2269 | an interrupted active import restarts on the preferred archive that fits the committed watermark, if and only if one fits, and is given up otherwise |
| Quiescence.SelectedIsBest | src/bin/solana-snapshot-etl/main.rs:2381-2433 | a selected archive is the preferred one for staging if staging is ready and has one, with its worker started at staging's watermark, and otherwise the preferred one for active |
| Quiescence.PersistSharedPaid | src/bin/solana-snapshot-etl/main.rs:1708-1750 | beginning a generation lowers the count of newer fulls enough to pay for all staging work |
| Generations.PlainKeepsViews | src/bin/solana-snapshot-etl/main.rs:1819-1873 | no step outside imports, resets and promotion changes the watermark, the mints or any of the six tables of either generation; an exchange moves tables between groups only |
| Generations.ExchangeKeepsViews | src/bin/solana-snapshot-etl/clickhouse.rs:2666-2674 | all six tables of each generation are the same before and after a pair is exchanged |
| Generations.PromoteViews | src/bin/solana-snapshot-etl/main.rs:1851-1866 | what serves after promotion is what staging had committed: its watermark, its mints and its six tables, under active's names |
| Generations.StepKeepsFrozen | src/bin/solana-snapshot-etl/main.rs:1708-1750 | whatever the step, staging goes on with the set of mints that was read when its generation was begun, and no crash or clean-up changes it |
| Generations.JoinWorkerViews | src/bin/solana-snapshot-etl/main.rs:2083-2091 | joining the finished incremental advances staging's watermark to the archive's slot and nothing else |
| Generations.FanoutDoneViews | src/bin/solana-snapshot-etl/main.rs:1789-1796 | completion gives both lanes the archive's slot, each with its own mints and tables |
| ServingData.MoveKeepsData | src/bin/solana-snapshot-etl/main.rs:1973-2468 | every step and every write of an import keeps the data invariant of both generations |
| ServingData.RunKeepsData | src/bin/solana-snapshot-etl/main.rs:1973-2468 | the data invariant over all runs |
| ServingData.RunKeepsFrozen | src/bin/solana-snapshot-etl/main.rs:1708-1750 | over all runs of steps and writes, a staging lane that is not disabled names a file with the mints read when its generation was begun |
| ServingData.PromotedGenerationIsExact | src/bin/solana-snapshot-etl/main.rs:1819-1873 | after any run, a completed cutover serves staging's six tables; the accounts are settled at the promoted watermark for the mints read when that generation was begun, and exact there if no interrupted attempt reached further |
| ServingData.ServingStaysCurrent | src/bin/solana-snapshot-etl/main.rs:1570-1605 | in every reachable state after a promotion, live accounts within the watermark read as the ledger has them; before a bridge so do closed ones |
| ServingData.RowsRemovedOnlyWhileLoading | src/bin/solana-snapshot-etl/clickhouse.rs:1910-1924 | of all six kinds of table only those behind _bak are ever truncated, and only under a durable shared checkpoint in full_loading; no table of active and no committed table is truncated or loses a row |
| ServingData.PreparedIsEmpty | src/bin/solana-snapshot-etl/main.rs:2130-2159 | a preparation that reports success has truncated every table of the group |
| ServingData.FanoutCompletesKeepsData | src/bin/solana-snapshot-etl/main.rs:1786-1796 | a completed fanout leaves an exact baseline in staging and current live accounts in active |
| ServingData.ClearsStagingKeepsData | src/bin/solana-snapshot-etl/main.rs:882-908 | clearing a failed staging generation leaves the serving one as it was |
| Ledgers.AccountPart | src/bin/solana-snapshot-etl/clickhouse.rs:4408-4458 | an account yields its live row with its pair, or its close, and no other row, pair or candidate |
| Ledgers.ImportTokens | src/bin/solana-snapshot-etl/clickhouse.rs:4624-4660 | the rows of an import are exactly the live rows of the records in its stream; `ImportedRows.TokenRows` says the same column by column |
| Ledgers.ImportPairs | src/bin/solana-snapshot-etl/clickhouse.rs:4696-4701 | an incremental remembers exactly the pairs of the rows it writes |
| Ledgers.ImportCloses | src/bin/solana-snapshot-etl/clickhouse.rs:4783-4800 | the candidates are exactly the closed pubkeys, each with the highest slot at which it was seen closed |
| HotState.Newest | src/bin/solana-snapshot-etl/clickhouse.rs:4847-4852 | the version a FINAL read keeps: in the table, of that pubkey, and not older than any other |
| HotState.TombstonesAre | src/bin/solana-snapshot-etl/clickhouse.rs:4870-4888 | a delete version is written for a candidate exactly when its look-up yields an older live row, with that row's pair |
| HotState.TombstoneRows | src/bin/solana-snapshot-etl/clickhouse.rs:4870-4905 | the columns of a delete version: the pair of the older live row, zero amount and state, no delegate and no close authority, marked deleted at the slot of the close |
| HotState.ImportSound | src/bin/solana-snapshot-etl/clickhouse.rs:4815-4930 | every row a table holds after an import stands for a ledger record, and every new one is above the watermark |
| HotState.ImportDeliversOnly | src/archived.rs:302-304 | reading above a watermark delivers only ledger rows above it, and candidates only for closes |
| HotState.IncrementalDelivers | src/bin/solana-snapshot-etl/clickhouse.rs:4408-4458 | every account whose last record is above the watermark is delivered: as a live row if hot, as a candidate if closed |
| HotState.ClosedAt | src/bin/solana-snapshot-etl/clickhouse.rs:4847-4888 | if the last record is a close, no live row is newest afterwards, including for accounts created and closed in between and for skipped tombstones |
| HotState.ImportSettlesAt | src/bin/solana-snapshot-etl/clickhouse.rs:4815-4930 | a completed import makes every pubkey read as the ledger at the archive's end, whatever earlier attempts left above the watermark, even if the recorded watermark is behind what the table has seen |
| HotState.AttemptKeepsHealthy | src/bin/solana-snapshot-etl/clickhouse.rs:948-1077 | completed or interrupted anywhere, an attempt keeps what was settled settled |
| HotState.ReplayConverges | src/bin/solana-snapshot-etl/clickhouse.rs:4408-4458 | any history of interrupted and completed attempts converges: once the watermark has caught up with everything attempted, every positive live hot account, and no other, reads as in the ledger |
| HotState.BaselineExactIff | src/bin/solana-snapshot-etl/main.rs:1786-1787 | a full baseline is exact if and only if no hot positive account was last written at slot 0, which the loader's filter drops |
| HotState.BaselineMissesSlotZero | src/archived.rs:302-304 | a concrete archive whose baseline is not exact, because of slot 0 |
| HotState.BridgeKeepsLive | src/bin/solana-snapshot-etl/clickhouse.rs:1481-1491 | the tail of a full archive and any later incremental keep every live account current on active |
| HotState.MoreRowsStaySettled | src/bin/solana-snapshot-etl/clickhouse.rs:4847-4888 | rows of ledger records above the watermark disturb nothing that was settled |
| WalletBalance.FinalRowsAreNewest | src/bin/solana-snapshot-etl/clickhouse.rs:2141-2163 | the FINAL row list holds exactly what single-key reads return |
| WalletBalance.FinalRowsOfPairs | src/bin/solana-snapshot-etl/clickhouse.rs:2412-2431 | choosing newest versions and selecting pairs commute when versions keep their pair |
| WalletBalance.PairBalanceIsBalance | src/bin/solana-snapshot-etl/clickhouse.rs:2299-2312 | the pair-restricted argMax aggregation equals the aggregation over FINAL for every selected pair; what either adds up is said in `LedgerBalances.BalanceIsLedgerBalance` |
| WalletBalance.ReassignedAccountIsStale | src/bin/solana-snapshot-etl/clickhouse.rs:2308-2313 | without the lifecycle assumption it does not: a concrete reassigned account |
| WalletBalance.BalanceTable.RefreshIncremental | src/bin/solana-snapshot-etl/clickhouse.rs:2316-2402 | one row for each touched pair is inserted at the archive's slot, zeros included, on any balance table |
| WalletBalance.RefreshReads | src/bin/solana-snapshot-etl/clickhouse.rs:2370-2385 | after a refresh a touched pair reads as recomputed unless its stored balance has a higher slot; then, and for every other pair, it reads as before |
| WalletBalance.RefreshAgreesIff | src/bin/solana-snapshot-etl/clickhouse.rs:2299-2402 | an incremental refresh from agreement restores agreement with the full aggregation for all pairs if and only if no touched pair whose stored balance is above the archive's slot has changed |
| WalletBalance.RebuildAgrees | src/bin/solana-snapshot-etl/clickhouse.rs:2141-2163 | a full refresh agrees for all pairs, and may skip FINAL when each pubkey has one row; frozen accounts are among what is summed (`LedgerBalances.BalanceIsLedgerBalance`) |
| WalletBalance.SoundTablesKeepPairs | src/bin/solana-snapshot-etl/clickhouse.rs:2308-2313 | in a table that stands for a ledger, all versions of a pubkey carry one pair |
| LedgerBalances.ExactShows | src/bin/solana-snapshot-etl/clickhouse.rs:4847-4852 | an exact table shows an account if and only if its last record is a hot token account with a positive amount, and then with the amount and the other columns of that record |
| LedgerBalances.BalanceIsLedgerBalance | src/bin/solana-snapshot-etl/clickhouse.rs:2139-2163 | over an exact table the balance of a pair is the sum of the recorded amounts over all pubkeys whose last record is a hot token account of that pair, frozen ones included |
| LedgerBalances.AggregationsAreLedgerBalances | src/bin/solana-snapshot-etl/clickhouse.rs:2412-2431 | so are the incremental aggregation and the full one, with FINAL or without |
| LedgerBalances.AgreesWithLedgerIff | src/bin/solana-snapshot-etl/clickhouse.rs:2139-2163 | a balance table agrees with an exact state table if and only if every balance read from it is that sum |
| IncrementalImport.HotStateTable.WriteCloseTombstones | src/bin/solana-snapshot-etl/clickhouse.rs:4815-4930 | the batched loop appends exactly the delete versions a single pass would, and reports their number and pairs |
| IncrementalImport.LookupUnchanged | src/bin/solana-snapshot-etl/clickhouse.rs:4847-4888 | tombstones committed by earlier batches change no later look-up |
| IncrementalImport.ImportIncremental | src/bin/solana-snapshot-etl/clickhouse.rs:948-1077 | parse, insert, tombstones, refresh, at any slot: the state table is the import's, and the balance table gains one recomputed row for each pair touched |
| IncrementalImport.AddedRowsAreTouched | src/bin/solana-snapshot-etl/clickhouse.rs:4696-4701 | every row an import adds, live or tombstone, belongs to a touched pair |
| IncrementalImport.ImportAgreesIff | src/bin/solana-snapshot-etl/clickhouse.rs:2299-2402 | after an uninterrupted import that started from agreement, balances and state agree for every pair if and only if no pair whose stored balance is above the archive's slot has changed |
| IncrementalImport.HighImportRestoresBalances | src/bin/solana-snapshot-etl/clickhouse.rs:2299-2402 | they always agree when the archive does not end below the slots of the stored balances |
| BalanceRecords.BalanceByNewest | src/bin/solana-snapshot-etl/clickhouse.rs:2412-2431 | a balance is determined by the newest versions of the accounts of its pair |
| BalanceRecords.ComputedIsRightIff | src/bin/solana-snapshot-etl/clickhouse.rs:2299-2402 | a balance computed from an earlier state of the table, of a pair none of whose accounts has a new live version since, is still right if and only if no account that counted then with a positive amount has been marked deleted since |
| BalanceRecords.RefreshKeepsRecord | src/bin/solana-snapshot-etl/clickhouse.rs:2370-2402 | whatever pairs are refreshed, every stored balance stays the one of the state recorded for its pair |
| BalanceAgreement.CutKeepsTracked | src/bin/solana-snapshot-etl/clickhouse.rs:948-1077 | an import cut off anywhere, after any part of its rows, tombstones and refreshed pairs, keeps the record: stored balances are the recorded computations, and live changes not yet followed are above the watermark |
| BalanceAgreement.DueIsTouched | src/bin/solana-snapshot-etl/clickhouse.rs:4815-4930 | an account with a live version above the watermark and within the archive's end is delivered again by a completed import, live or as a close whose look-up finds it, so its pair is refreshed |
| BalanceAgreement.CompletionKeepsTracked | src/bin/solana-snapshot-etl/clickhouse.rs:948-1077 | a completed import follows every live change up to its end, except of pairs whose stored balance is ahead of the archive |
| BalanceAgreement.RepetitionRestoresIff | src/bin/solana-snapshot-etl/clickhouse.rs:948-1077 | repeating a cut import, on its archive or one that ends later, makes every balance right if and only if each account with a positive amount that the cut attempt marked deleted is of a pair refreshed before the cut or touched by the repetition |
| BalanceAgreement.CutAfterRefreshAgreesIff | src/bin/solana-snapshot-etl/main.rs:1592-1596 | an attempt cut off after its refresh but before the watermark is recorded leaves all balances right if and only if no pair whose stored balance is ahead of the archive has changed |
| BalanceExamples.TornImport | src/bin/solana-snapshot-etl/clickhouse.rs:4870-4888 | an account live at 100 and closed at 150, an archive from 100 to 150, an attempt cut off between tombstone and refresh: its repetition touches no pair, and the balance reads 5 where the state says 0 |
| BalanceExamples.OvertakenRefresh | src/bin/solana-snapshot-etl/clickhouse.rs:2370-2385 | a ledger and three archives: one ending at 200, a full one at 150 whose tail is empty and takes the watermark back, one from 150 to 180 that delivers an account closed at 190; the state says 7, the balance stays 5 |
| ImportedRows.ImportRows | src/bin/solana-snapshot-etl/clickhouse.rs:936-1000 | the token rows of an import are the live rows of its stream, each as often as the stream has it |
| ImportedRows.TokenAccounts | src/bin/solana-snapshot-etl/clickhouse.rs:4460-4552 | what counts as a token account: the two programs by name, 165 bytes for the first, and what the unpackers made of it |
| ImportedRows.TokenRows | src/bin/solana-snapshot-etl/clickhouse.rs:4624-4660 | a token row is written if and only if the stream has an account of a hot mint, not empty in a baseline, from which it takes pubkey, mint, owner, amount, delegate, delegated amount, state and close authority, each named, not deleted and at the slot of the file |
| ImportedRows.MintRows | src/bin/solana-snapshot-etl/clickhouse.rs:4492-4570 | the same of mint rows: authority, supply, decimals, initialisation and freeze authority each from its own place, at the snapshot's slot |
| ImportedRows.AccountRows | src/bin/solana-snapshot-etl/clickhouse.rs:4408-4430 | an account row has the account's own columns, at the snapshot's slot, and every account has one |
| ImportedRows.CloseCandidates | src/bin/solana-snapshot-etl/clickhouse.rs:4408-4522 | the candidates of an incremental, and the slot of each, by what the account's bytes, lamports, owner and size say |
| ImportCounts.ImportCounted | src/bin/solana-snapshot-etl/clickhouse.rs:4408-4612 | each statistic of an import is the number of accounts or files of its kind, the kinds given by owner, size and outcome of the unpackers |
| ImportCounts.CountsBalance | src/bin/solana-snapshot-etl/clickhouse.rs:4358-4384 | every account of a token program is counted once as parsed or as one of the failures, and every file is counted |
| KeptCandidates.FieldsKept | src/bin/solana-snapshot-etl/clickhouse.rs:504-562 | the fields an import keeps for a mint, some exactly if an account offers some: offered by an account of the stream, none offered of a higher slot, none of that slot of a later source, Metaplex before stand-alone before embedded, and of these none greater in the declared order of the rest |
| KeptCandidates.ExtensionsKept | src/bin/solana-snapshot-etl/clickhouse.rs:545-562 | the same of extensions: of the highest slot, and of these the greatest text |
| ServingBalances.MoveKeepsBooks | src/bin/solana-snapshot-etl/main.rs:1973-2468 | every step and every write keeps the record of the balance tables of both generations |
| ServingBalances.PromotedBalancesAgree | src/bin/solana-snapshot-etl/main.rs:1819-1873 | after any run, when a cutover completes: each stored balance is the one of the state recorded for its pair, and of a pair without a later live version it is right if and only if no account that counted there has been marked deleted since; if no pair is behind and no attempt reached further than what is promoted, all balances are right if and only if nothing is stale |
| ServingBalances.ServedBalancesAgree | src/bin/solana-snapshot-etl/main.rs:1570-1605 | the same of the serving tables in every reachable state after a promotion; and a later live version of a pair that is not behind is above the watermark, so that the next completed import delivers it |
| ServedLedger.PromotedBalancesAreLedger | src/bin/solana-snapshot-etl/main.rs:1819-1873 | after any run, when a cutover completes with no pair behind and no attempt beyond what is promoted: every promoted balance is the sum the ledger records for its pair at the promoted slot if and only if nothing is stale |
| ServedLedger.ServedBalancesAreLedger | src/bin/solana-snapshot-etl/main.rs:1570-1605 | the same of the balances that are served, in every reachable state in which no shared load has bridged the serving tables and they hold nothing beyond the watermark |
| SharedLoads.TailRestores | src/bin/solana-snapshot-etl/main.rs:1781-1796 | the tail of a full archive as a whole makes every balance right when all that changed since they were computed are rows of that tail and none is stored beyond it |
| SharedLoads.LoadMoveKeeps | src/bin/solana-snapshot-etl/main.rs:1752-1796 | under one shared checkpoint every move, of an attempt that is cut off, a failure, a crash or a start, leaves only rows of the tail to be followed |
| SharedLoads.RepeatedLoadRestores | src/bin/solana-snapshot-etl/main.rs:1752-1817 | a shared load completed after any number of interrupted attempts, failures and restarts leaves every served balance right if all were right when it began, nothing was left to follow and no balance was stored beyond the archive; staging's balances are rebuilt |
| UnreadableFiles.HeldOrUnreadable | src/archived.rs:170-206 | every record of an archive without broken entries is in a file that is read or in one that cannot be |
| UnreadableFiles.ImportSettlesIff | src/bin/solana-snapshot-etl/clickhouse.rs:982-1000 | an import that passes over unreadable files leaves the table healthy at the archive's end if and only if the table neither shows nor should show any account whose last record above the watermark was not read and is not stored already |
| UnreadableFiles.HoleIsUnreadable | src/bin/solana-snapshot-etl/clickhouse.rs:982-1000 | of a truthful archive, such a record lies in a file that could not be read |
| UnreadableFiles.HoleStays | src/bin/solana-snapshot-etl/clickhouse.rs:982-1000 | what was missed is delivered by no later import: the account reads as it did until it changes again |
| UnreadableFiles.BaselineReadIff | src/bin/solana-snapshot-etl/clickhouse.rs:982-1000 | a baseline read in part is exact if and only if the last record of every positive hot account was read and is above slot 0 |
| UnreadableFiles.PositiveIsHeld | src/archived.rs:170-206 | of a full archive, the last record of an account with a positive balance is in a file that is read or in one that could not be |
| UnreadableFiles.MissedClose | src/bin/solana-snapshot-etl/clickhouse.rs:982-1000 | a close in an unreadable file: the import succeeds with nothing written, and the table still shows the account at the new watermark |
| Accounts.ArchiveIterator.Next | src/archived.rs:170-203 | yields, entry by entry, the files above the watermark and an error for every entry or file that cannot be read, passing over other names and, unread, over old slots |
| Accounts.ItemsAreAbove | src/archived.rs:170-203 | the readable items are exactly the readable files above the watermark, in archive order |
| Accounts.ErrorsAre | src/archived.rs:170-203 | the iterator yields an error if and only if an entry is broken or a file above the watermark cannot be read |
| Accounts.AboveElements | src/archived.rs:302-304 | the filtered stream holds exactly the files above the watermark |
| Workers.GroupSink.RecordMetadataFields | src/bin/solana-snapshot-etl/clickhouse.rs:526-543 | a candidate replaces the stored one exactly if that is before it: of a lower slot, or of the same slot and an earlier source, or in the declared order of the rest; no other mint changes |
| Workers.GroupSink.RecordTokenExtensions | src/bin/solana-snapshot-etl/clickhouse.rs:545-562 | a candidate replaces the stored one exactly if that is of a lower slot, or of the same slot and a smaller text; no other mint changes |
| Workers.Worker.InsertAccount | src/bin/solana-snapshot-etl/clickhouse.rs:4408-4458 | the worker's fields become the total of its earlier effects and those of the account |
| Workers.Worker.InsertSplToken | src/bin/solana-snapshot-etl/clickhouse.rs:4460-4522 | dispatch by size and by the outcome of unpacking has the specified effects |
| Workers.Worker.InsertToken2022 | src/bin/solana-snapshot-etl/clickhouse.rs:4524-4612 | base account, base mint, standalone metadata and failure have the specified effects |
| Workers.Worker.WriteHotTokenAccountRow | src/bin/solana-snapshot-etl/clickhouse.rs:4624-4660 | a zero balance is omitted and counted by a baseline, written by a delta; the row written has each column from the account |
| Workers.Worker.InsertAll | src/bin/solana-snapshot-etl/clickhouse.rs:948-1077 | the sequential loop's output is the import of the stream |
| Fanout.FullFanoutWorker.InsertAccount | src/bin/solana-snapshot-etl/clickhouse.rs:3878-3938 | one decoding feeds both groups as two separate processors would |
| Fanout.FullFanoutWorker.WriteTokenAccountRow | src/bin/solana-snapshot-etl/clickhouse.rs:4113-4166 | each group's own policy and mints decide what it gets; the row has each column from the account |
| Fanout.FullFanoutWorker.OnAppendVec | src/bin/solana-snapshot-etl/clickhouse.rs:3854-3876 | active takes the file exactly when it is above the resume slot |
| Fanout.StagingEqualsFullImport | src/bin/solana-snapshot-etl/clickhouse.rs:1481-1491 | staging gets the rows and patches of a standalone full import; the statistics agree if and only if the stream has no empty file |
| Fanout.ActiveEqualsIncrementalImport | src/bin/solana-snapshot-etl/clickhouse.rs:1481-1491 | an import that keeps no statistics, as the fanout's active half keeps none, has the rows, patches, candidates and pairs of the one that keeps them |
| ParallelFanout.ParallelFanoutIsTwoImports | src/bin/solana-snapshot-etl/clickhouse.rs:1492-1690 | for any assignment of files to fanout workers and any interleaving of their updates to the two shared patch tables, the merged outputs and the patches are those of two standalone imports |
| ParallelFanout.ImportFullSnapshotFanout | src/bin/solana-snapshot-etl/clickhouse.rs:1523-1690 | each worker's part, merged in the order of joining, is a standalone full import for staging and a standalone incremental of the tail for active |
| ParallelFanout.SuccessfulFanoutIsTwoImports | src/bin/solana-snapshot-etl/clickhouse.rs:1507-1690 | over any run of the channel with at least two workers: on success the reports are those of two standalone imports and the rows accepted for each group are that import's, each once; a failed run has committed none but those |
| ImportOutput.MergeMonoid | src/bin/solana-snapshot-etl/clickhouse.rs:4358-4384 | merging outputs is commutative and associative with the empty output as unit |
| ImportOutput.TotalPermutation | src/bin/solana-snapshot-etl/clickhouse.rs:526-562 | any reordering of the same effects gives the same output |
| ImportOutput.ApplyIsMerge | src/bin/solana-snapshot-etl/clickhouse.rs:4783-4800 | updating in place is merging in the effect's own output |
| MetadataPatches.FieldsOrderTotal | src/bin/solana-snapshot-etl/clickhouse.rs:504-511 | the derived order on field candidates is total: equal only for equal candidates, and reversed by exchange |
| MetadataPatches.ExtensionsOrderTotal | src/bin/solana-snapshot-etl/clickhouse.rs:512-517 | the derived order on extension candidates is total |
| MetadataPatches.GreaterFieldsJoin | src/bin/solana-snapshot-etl/clickhouse.rs:526-543 | keeping the greater candidate is commutative, associative and idempotent |
| MetadataPatches.GreaterExtensionsJoin | src/bin/solana-snapshot-etl/clickhouse.rs:545-562 | the same for extensions |
| Order.CompareTransitive | src/bin/solana-snapshot-etl/clickhouse.rs:504-517 | the derived lexicographic comparison is transitive |
| Order.NumberOrder | src/bin/solana-snapshot-etl/clickhouse.rs:504-517 | the comparison of numbers is that of the numbers, smaller first |
| Order.TextOrder | src/bin/solana-snapshot-etl/clickhouse.rs:504-517 | and of texts that of the first character in which they differ, a prefix before the longer text |
| MetadataPatches.CandidateOrder | src/bin/solana-snapshot-etl/clickhouse.rs:454-511 | a field candidate is less than another if and only if the first difference says so, in the order slot, source, account, name, symbol, address, authority, mutability, standard, fee, creators |
| MetadataPatches.ExtensionsOrder | src/bin/solana-snapshot-etl/clickhouse.rs:512-517 | an extension candidate is less if and only if its slot is lower, or equal with a smaller text |
| Parallel.ParallelWorkerStats.Merge | src/bin/solana-snapshot-etl/clickhouse.rs:4358-4384 | folding one worker's report in: pointwise maximum of slots, union of pairs, sum of counts |
| Parallel.MergedWorkers | src/bin/solana-snapshot-etl/clickhouse.rs:1315-1323 | the merged reports are the import of the concatenated work |
| Parallel.ImportPermutation | src/bin/solana-snapshot-etl/clickhouse.rs:1085-1331 | the order in which storage files are imported does not matter |
| Parallel.ParallelEqualsSequential | src/bin/solana-snapshot-etl/clickhouse.rs:1085-1331 | for any assignment of files to workers and any interleaving of patch updates, the outputs are those of the sequential import |
| Parallel.SuccessfulImportIsSequential | src/bin/solana-snapshot-etl/clickhouse.rs:1085-1335 | over any run of the channel: on success the merged reports are the sequential import of the readable files and the rows the server has accepted are exactly its rows; a failed run has committed none but those |
| SinkRows.FilesHold | src/bin/solana-snapshot-etl/clickhouse.rs:948-1077 | the rows written file by file are, as bags, the rows of the import |
| Channels.ChannelRunInv | src/bin/solana-snapshot-etl/clickhouse.rs:1098-1335 | in every reachable state each readable item is in exactly one place, the producer drops one only with an error, and every worker has written exactly the rows of its items so far |
| Channels.WorkerNext | src/bin/solana-snapshot-etl/clickhouse.rs:1136-1262 | an item stays with the worker that received it, and a worker leaves only a closed, empty queue |
| Channels.NextKeepsRows | src/bin/solana-snapshot-etl/clickhouse.rs:1176-1248 | whatever a worker does, and wherever inserts are finalised, it has written the rows of its items and of what it still holds; after a final flush all of them are committed |
| Channels.ExactlyOnceOnSuccess | src/bin/solana-snapshot-etl/clickhouse.rs:1098-1335 | the queue never exceeds its capacity and no row is committed more often than the archive has it; on success every readable item was processed by exactly one worker and every row is committed exactly once |
| MetadataRows.MetadataTable.WriteMergedPatches | src/bin/solana-snapshot-etl/clickhouse.rs:3550-3613 | afterwards each patched mint reads as its merged row, unless its stored row has a higher slot; then, and for every other mint, it reads as before |
| MetadataRows.MetadataTable.LoadExisting | src/bin/solana-snapshot-etl/clickhouse.rs:3571-3595 | batched look-ups return exactly the newest stored rows of the mints asked for |
| MetadataRows.MergedColumns | src/bin/solana-snapshot-etl/clickhouse.rs:3615-3634 | the written row takes each component from the patch, else from the stored row of an incremental, else the defaults, each named |
| MetadataRows.IndependentRegisters | src/bin/solana-snapshot-etl/clickhouse.rs:3550-3634 | after any run of incrementals at any slots, fields and extensions each come from the last archive that patched that component and was not below what the mint's row had reached, and the row is at the highest slot |
| MetadataRows.RisingTakesLatest | src/bin/solana-snapshot-etl/clickhouse.rs:3550-3634 | when slots do not go back, that is the last archive that patched the component |
| MetadataRows.RunIncrementals | src/bin/solana-snapshot-etl/clickhouse.rs:3550-3634 | the table after a run of passes at any slots reads as the run says |
| ClickhouseSinks.TableStream.Write | src/bin/solana-snapshot-etl/clickhouse.rs:3270-3289 | written rows stay equal to committed plus pending, in order, whether the insert takes the row or fails before it does; the timestamp is the time of the first pending row; at every 1,024th row a batch of 1,000,000 rows or 256 MiB is committed, and otherwise the row is added to what is pending |
| ClickhouseSinks.TableStream.CheckBatchLimit | src/bin/solana-snapshot-etl/clickhouse.rs:3784-3813 | the counter never overflows its 16 bits; at a check, and only then, 1,000,000 pending rows or 268,435,456 pending bytes are committed, fewer are left, and the bound on pending rows is restored |
| ClickhouseSinks.TableStream.ForceAged | src/bin/solana-snapshot-etl/clickhouse.rs:3727-3761 | an insert is finalised exactly when its first row is at least five seconds old, and otherwise left with all its rows |
| ClickhouseSinks.SinkIsRowLog | src/bin/solana-snapshot-etl/clickhouse.rs:1176-1248 | whatever the sink does is what a worker of the channel may do: write rows, commit some of those pending, or commit all |
| ClickhouseSinks.ClickhouseSink.WriteTokenAccount | src/bin/solana-snapshot-etl/clickhouse.rs:3291-3310 | one row more is written to that table only, unless the insert refuses it; all four streams stay conserved and bounded, and the rows move as a worker's may |
| ClickhouseSinks.ClickhouseSink.MaybeForceCommit | src/bin/solana-snapshot-etl/clickhouse.rs:3354-3399 | at every 1,024th call, and only then, no insert is left open whose first row is five seconds old; nothing written changes, only pending rows are committed, and all invariants hold again |
| ClickhouseSinks.ClickhouseSink.ForceCommitAll | src/bin/solana-snapshot-etl/clickhouse.rs:3401-3482 | on success everything written so far is committed in order |
| ClickhouseSinks.ClickhouseSink.End | src/bin/solana-snapshot-etl/clickhouse.rs:3506-3548 | on success every row ever written is committed, once and in order |
| Selection.NewestEligibleIsBest | src/incremental.rs:117-154 | the choice fits the watermark, is preferred to every other fitting archive, and is none exactly when none fits; what fits and what is preferred is said in `Selection.IncrementalChoice` |
| Selection.IncrementalChoice | src/incremental.rs:117-154 | among incrementals one is chosen if and only if some has base <= watermark < slot; the choice satisfies that, no such archive has a higher slot, and of equal slots none has a path that comes before it at the first differing character |
| Selection.CandidatesInOrder | src/incremental.rs:128-134 | the candidates come by falling slot, and of equal slots by path |
| Selection.GenerationChoice | src/bin/solana-snapshot-etl/main.rs:1875-1888 | the same of fulls: one is chosen if and only if some is above active's full slot, of the highest slot, and of equal slots with the first path |
| Selection.SortSorts | src/incremental.rs:128-134 | sorting by preference sorts |
| Selection.BeforeIsOrder | src/incremental.rs:128-134 | preference by slot and path is a total order |
| Selection.NewestFullGeneration | src/bin/solana-snapshot-etl/main.rs:1875-1888 | the scan that keeps the last of equals finds the preferred newer full: one exactly if some full is above active's slot, and none has a higher slot |
| Selection.NewestGenerationIsBest | src/bin/solana-snapshot-etl/main.rs:1875-1888 | the generation to build is the preferred full newer than active's, and none exactly when there is none; in slots and paths in `Selection.GenerationChoice` |
| AppendVecs.GetSlice | src/append_vec.rs:255-272 | with wrapping arithmetic a slice is returned exactly when it ends within the used length, and the next offset is the least multiple of 8 behind it |
| AppendVecs.GetAccount | src/append_vec.rs:285-302 | an account moves the offset by at least its header, to an aligned place |
| AppendVecs.AccountEnds | src/append_vec.rs:39-44 | the successor of an account starts at the least multiple of 8 not below the end of its 136-byte header and its data |
| AppendVecs.AccountLayout | src/append_vec.rs:285-302 | where each field of an account stands, byte by byte, in the 48, 56 and 32 bytes before its data |
| AppendVecs.RecordRoundTrip | src/append_vec.rs:285-302 | one encoded record decodes to itself wherever it stands and leads to its successor |
| AppendVecs.EncodeWalkRoundTrip | src/lib.rs:63-107 | walking the encoding of any account list, its records 8 bytes aligned, returns that list |
| AppendVecs.WalkShape | src/append_vec.rs:39-44 | on arbitrary bytes every offset is a multiple of 8, each the least one behind the header and data of the account before, every account ends within the used length, and n accounts need 136 n bytes |
| AppendVecs.CutIsPrefix | src/append_vec.rs:255-302 | cutting the used length yields a prefix of the accounts |
| AppendVecs.AppendVecIter | src/lib.rs:63-79 | the offset scan collects the offsets of the walk |
| AppendVecs.AppendVecAccounts.Next | src/lib.rs:99-107 | the cursor yields the walk one account at a time |
| AppendVecs.Stream | src/lib.rs:87-107 | draining the streaming iterator gives the walk in order |
| AppendVecs.HandlesOpenOnStream | src/lib.rs:114-121 | every remembered offset opens again, on the account that was streamed |
| Bytes.LeRoundTrip | src/bin/solana-snapshot-etl/clickhouse.rs:593-599 | little-endian numbers read as written |
| Bytes.ByteWeighs | src/bin/solana-snapshot-etl/clickhouse.rs:593-599 | the byte behind k others weighs 256 to the power of k |
| Token2022Metadata.ParseToken2022MetadataValue | src/bin/solana-snapshot-etl/clickhouse.rs:634-668 | the reader with its moving offset computes the parse of the whole value |
| Token2022Metadata.Token2022MetadataReader.ReadString | src/bin/solana-snapshot-etl/clickhouse.rs:601-608 | a length-prefixed string or the error of its first defect |
| Token2022Metadata.Token2022MetadataReader.SkipPairs | src/bin/solana-snapshot-etl/clickhouse.rs:655-658 | the loop over additional pairs stops where the pairs end or at the first defect |
| Token2022Metadata.PairsAt | src/bin/solana-snapshot-etl/clickhouse.rs:648-654 | a list of pairs that parses has eight bytes for each pair, so the guard rejects nothing that would parse |
| Token2022Metadata.ParseEncoded | src/bin/solana-snapshot-etl/clickhouse.rs:634-668 | parsing an encoding followed by any tail returns what was encoded |
| Token2022Metadata.StrictPrefixRejected | src/bin/solana-snapshot-etl/clickhouse.rs:634-668 | no strict prefix of an encoding is accepted |
| Token2022Metadata.ParseOfPrefix | src/bin/solana-snapshot-etl/clickhouse.rs:634-668 | a value accepted on a prefix is the value of the whole |
| Token2022Extensions.ParseToken2022MintExtensions | src/bin/solana-snapshot-etl/clickhouse.rs:854-909 | the loop with its set of seen types returns the declarative outcome for every input |
| Token2022Extensions.ParseExtension | src/bin/solana-snapshot-etl/clickhouse.rs:823-837 | an unsupported type is an error; metadata comes with the metadata type only, and is what the extension shows |
| Token2022Extensions.AcceptedIff | src/bin/solana-snapshot-etl/clickhouse.rs:725-852 | which types are supported, by number, and of each exactly the values that decode: their length, or their byte |
| Token2022Extensions.PlainExtensions | src/bin/solana-snapshot-etl/clickhouse.rs:760-778 | the bytes 0, 1 and 2 are uninitialized, initialized and frozen; the mark for non-transferable mints has no value; metadata is what its value parses to |
| Token2022Extensions.TransferFeeRoundTrip | src/bin/solana-snapshot-etl/clickhouse.rs:733-759 | every kept field of a fee configuration is read from its own place in the layout of 108 bytes |
| Token2022Extensions.KeysRoundTrip | src/bin/solana-snapshot-etl/clickhouse.rs:780-822 | hook, pointer, delegate and close authority read each key from its own place, an all-zero key as none |
| Token2022Extensions.MeaningIsFirstOccurrences | src/bin/solana-snapshot-etl/clickhouse.rs:854-909 | what is kept are the decodings of the first occurrences of supported types in physical order, the warnings are exactly those of the first occurrences that fail, in order, and the metadata is that of the first metadata entry |
| Token2022Extensions.SplitEncoded | src/bin/solana-snapshot-etl/clickhouse.rs:866-888 | every well-formed area is accepted and splits into the entries it was made of |
| Token2022Extensions.SplitSound | src/bin/solana-snapshot-etl/clickhouse.rs:866-888 | every accepted area is well formed |
| Token2022Extensions.ScanAcceptsExactlyWellFormed | src/bin/solana-snapshot-etl/clickhouse.rs:854-909 | the scan succeeds if and only if the area behind the first 166 bytes is well formed, and then returns its meaning |

## Left out

- HotState.BridgeKeepsLive: claims live accounts only, because full archives carry no deletions; an account closed before the archive's end may linger on active until the next promotion.
- ServingData.ServingStaysCurrent: after a bridge it claims live accounts only, for the same reason.
- ServingData.PromotedGenerationIsExact: exactness is claimed when no interrupted attempt on the generation ended beyond what was promoted, and for ledgers without a token account written at slot 0.
- ServingData.MoveKeepsData: over whole runs the streams are those of archives whose storage files can all be read; `UnreadableFiles.ImportSettlesIff` and `UnreadableFiles.BaselineReadIff` decide the single imports in which some cannot.
- WatcherRuns.RunSafe: for runs in which every frozen set can be read back; `WatcherRuns.RestartKeepsMintsIff` shows that the others fail or change.
- ServingBalances.PromotedBalancesAgree: of a pair with a live version that is still to be followed, and of one that an archive ending below its stored balance left behind, it says from which state the balance was computed, and not whether the sums happen to agree.
- ServingBalances.ServedBalancesAgree: the same; a shared load counts a pair as behind if an account of it was due and closed by the archive's slot, because a full archive delivers no closes.
- SharedLoads.RepeatedLoadRestores: says that the served balances are right again, and not in which other states a completed load would make them right.
- ServingBalances.BookAfter: a rebuilt balance table gets its rows when the fanout completes, and the rebuild reads its state table with FINAL; without FINAL the result is the same when each pubkey has one row (`WalletBalance.RebuildAgrees`).
- WalletBalance.RebuildAgrees: that a baseline has one row for each pubkey is a condition here; it holds when an archive stores each record once.
- ClickhouseSinks.ClickhouseSink: four inserters with their counters and timestamps are four objects of one class, and a failed finalisation leaves the rows pending; what the client library does with them then is not modelled.
- Channels.ExactlyOnceOnSuccess: covers the rows that workers write; the merged metadata rows are written after the workers have been joined (`MetadataRows.MetadataTable.WriteMergedPatches`).
- IncrementalImport.ImportIncremental: candidates and pairs are taken in an arbitrary order, the program sorts them first; the result does not depend on it.
- ServingData.Move: the rows an import has written before it completes are modelled as an interrupted attempt that the completion repeats, so a table may hold a row twice; no read distinguishes this.
- Watcher.Next: covers first starts and restarts of the current journal version; `--bootstrap`, the migration of older journal versions and the loading of a cold active group are not modelled.
- Persisting is atomic: the case in which it reports an error and the loop goes on is not modelled.
- Removal of processed archives and of superseded mint files that fail to be removed, beyond their being harmless.
- SQL text, HTTP, schema validation, permits, timeouts and the settling of merges.
- Decompression, tar and manifest parsing, progress and logging, command line and URL parsing, base58 and JSON text.
- The unpackers of SPL tokens, Token-2022 base states and Metaplex metadata; accounts carry their outcomes.
- The opcode statistics tool and the standalone import of hot tokens.
- Wrap-around of 64-bit balance sums; balances are natural numbers.
- Rows of `raw_account`, `raw_token_mint` and `hot_token_info` beyond what the importer hands to its sinks.
- Selection.Before: paths are compared by their characters; the program compares them by components, which is the same for the archives of one directory.
