# Verified models of laxcode

Laxcode runs coding agents for many users. Four parts of it keep promises across crashes, concurrent
clients and unreliable calls; this project models them in Dafny and proves those promises. Everything is
plain Dafny: `dafny verify dfyconfig.toml` checks the whole project. All files start from `Words.dfy`
(64-bit arithmetic with its wrap-around, bytes, options).

**Network quota** (`Quota*.dfy`). A manager keeps two stores in step: a SQLite ledger of epochs (bytes
granted, received, sent; active or closed) and four kernel maps that a packet hook reads and charges
while the manager writes them.

- `QuotaLedger` holds the transactions on the ledger and the usage report, `QuotaKernel` the maps and the
  locked charge of the hook.
- `QuotaProtocol` is the protocol as a transition system. A step is one transaction, one map operation,
  one clock reading or one locked charge. Syncs and cleanups of all users, packets inside the hook,
  failed calls, manager restarts with another configuration, reboots, pin resets and clock changes
  interleave freely. History fields count the bytes let through and remember the clock readings.
- `QuotaInvariant`, `QuotaPreservation` and `QuotaSafety` carry the invariants through every step;
  `QuotaTheorems` has the results. `QuotaRegression` has the one promise that fails: when a user's
  captured day goes backwards (a clock set back) and a reboot and an unfinished cleanup come together, a
  stale active row is initialized a second time and the limit is exceeded. The limit holds in every
  reachable state exactly when no captured day can go backwards. `QuotaLateness` says how late a packet may be
  charged, `QuotaLimits` which limit a day gets.
- `QuotaManager` is the manager in its own imperative form, proved to take only steps of the transition
  system (with the lemmas of `QuotaSolo`).

**Conversations**. A session is a working set of numbered messages with provenance lists.

- `Messages`, `Lineage` and `SessionState` hold the messages, the provenance lists and the aggregate (class
  `Session`, `Validate`). `Provenance` has runs of its operations.
- `ToolGroups` and `Compress` are the protected start and the deterministic compression, `Summary` the merge
  of a summary, each as the loops of the source against a specification; `CompressedTexts` says what text every
  message is left with.
- `Pairing` says how calls and results belong together. `Agent` is a state machine of `Chat` and `Resume`
  by any number of agents on one stored session; each may fail between any two effects, and a commit may
  run without its result being heard. `ReactService` is the service as a class: compaction, recovery, and
  the loop between model and tools; `AgentService` shows that its commits and recoveries are runs of `Agent`.
- `Repository` holds the transactions on the session's tables (class `SqliteSessionRepo`) and `Clients` is a
  state machine of concurrent clients using them.

**Files**. `Edits` has batch edits: every match planned on one snapshot, applied from the back. `BufferedReader`
is Go's `bufio.Reader.ReadLine` over the bytes of a file, `PagedRead` paged reading on top of it.

**Task events**. `Tasks` is the task table, `TaskEvents` publishers, the event log and subscribers as a state
machine and as the source's loops, `TaskOutcomes` says where logged events and final statuses come from. `Reducer` is
the web client's reducer, `ReducerEnds` how its messages stand while the task runs and what its end leaves of them.

Where the code and its comments or documents differ, the models follow the code:

- The comment above the hook's deadline speaks of 30 seconds of grace. The deadline is computed from a
  wall-clock reading and a boot-clock reading taken one after the other, so a packet may be charged up to 30
  seconds plus the time between the two readings after the day's end (`QuotaTheorems.ChargedOnTime`). A published
  epoch can be charged beyond the 30 seconds if and only if time passed between its two readings
  (`QuotaLateness.LateExactlyWithDelay`), and every such delay is reachable (`QuotaLateness.AnyDelayIsReached`).
- `closeSnapshot` does not look at the row's status and may lower `granted` to the kernel's value; the hook
  reads the grant before it takes the lock. Both are modelled as they are.
- `Compress` reports a reasoning text's whole estimate as saved, although the empty text it leaves may have a
  cost of its own. The report is exact if and only if the empty text costs nothing or the goal does not reach the
  old reasonings: the archived old outputs save enough, or there is no old reasoning (`Compress.SavedIsExactForGoal`).
  The fallback estimator gives an empty text a cost of one, and then too much is reported
  (`Compress.SavingsOverstated`).
- Paged reading promises that every line ends with one line feed, including a last line without one. When that
  last line fills the read buffer exactly, its end is not seen and the line feed is missing
  (`PagedRead.OneBufferIsCut`); the pages make the promised text if and only if the last line does not fill it
  (`PagedRead.ReadAll`), which for a last line without carriage returns is a matter of its length
  (`BufferedReader.FillsByLastLine`).
- The reducer drops all later text of an answer whose first delta is empty
  (`Reducer.EmptyFirstDeltaHidesTheAnswer`); empty deltas later on do no harm. It shows exactly the log if and only
  if no message begins with an empty delta and has text later (`Reducer.ReplayShowsTheLog`).
- When a recount does not fall, the local compaction loop stops without recording the new count; the summary
  phase counts again before anything is committed, which is why the recorded window input is still exact.

Nothing was executed; the statements below are what the verifier proves about the models.

## Model

| member | source | states |
|---|---|---|
| `QuotaKernel.Charge` | laxcode-manager/ebpf/quota.c:97-112 | under wrap-around arithmetic a packet passes exactly when used bytes and its length fit the limit read before the lock; then exactly its bytes are counted, otherwise none |
| `QuotaLedger.EnsureKeepsLedger` | laxcode-manager/ledger.go:142-162 | getting or creating the day's active row keeps every row within its grant, one active row per user and day, and held grants within the limit |
| `QuotaLedger.CheckpointFunds` | laxcode-manager/ledger.go:164-206 | on a snapshot that fits the row no check fires and nothing wraps, only this row changes, and its grant is as before or, on refill, exactly one chunk beyond the usage or as far as the day's limit goes; a refill leaves a whole chunk or an exhausted day |
| `QuotaLedger.CloseSnapshotFits` | laxcode-manager/ledger.go:208-223 | closing at kernel values that fit the row succeeds, changes only this row and keeps the ledger's constraints |
| `QuotaLedger.SumSplits` | laxcode-manager/ledger.go:264-266 | for any rows: confirmed + uncertain + unused bytes of active epochs = held grants |
| `QuotaLedger.ReportIsExact` | laxcode-manager/ledger.go:242-278 | the report's check stays silent and nothing wraps; observed and confirmed are the bytes used on the day, held the bytes granted, uncertain what closed epochs left unused; a day is exhausted exactly when all is allocated and active epochs have under 128 unused bytes; without a day all is 0 and the configured limit allocatable |
| `QuotaPreservation.ReachableKeeps` | laxcode-manager/sync_epoch_linux.go:33-177 | the joint invariant of ledger, maps, syncs, cleanups and packets in flight holds in every reachable world, under any clock |
| `QuotaSafety.ReachableTracked` | laxcode-manager/sync_epoch_linux.go:77-138 | when captured days do not go backwards, every reachable world also keeps the exact accounting of bytes let through and the currency of deadlines |
| `QuotaTheorems.NoCheckFires` | laxcode-manager/sync_epoch_linux.go:84-119 | no internal consistency check of a sync or of the report fires in any run |
| `QuotaTheorems.StoresAgree` | laxcode-manager/ledger.go:176-189 | in every reachable world kernel grant <= durable grant, ledger counters <= live counters, counters <= grant, at most one active epoch per user and day, held <= limit <= 2^50 |
| `QuotaTheorems.PointersAreComplete` | laxcode-manager/sync_epoch_linux.go:131-138 | a published pointer names a bucket with all three entries, owned by that user |
| `QuotaTheorems.CleanupSparesPublished` | laxcode-manager/sync_epoch_linux.go:159-177 | a cleanup in progress deletes no bucket that any pointer names |
| `QuotaTheorems.RebuildSparesLive` | laxcode-manager/sync_epoch_linux.go:104-114 | counters are rewritten only for a bucket that no pointer names and no packet can charge |
| `QuotaTheorems.SuccessfulSyncFunds` | laxcode-manager/sync_epoch_linux.go:116-138 | a sync that publishes leaves kernel grant = ledger grant, and the remaining bytes exceed the low watermark or the whole day is allocated |
| `QuotaTheorems.CommitIsExact` | laxcode-manager/sync_epoch_linux.go:116-127 | in every run step 10 changes one row, to the snapshot's counters; its grant rises only at or below the low watermark, exactly to one chunk beyond the usage or as far as the day's limit goes |
| `QuotaLimits.OneEvent` | laxcode-manager/ledger.go:148 | no event changes or drops a daily limit; only step 7 adds one, for its user and day, as configured |
| `QuotaLimits.LimitsAreConfigured` | laxcode-manager/ledger.go:148 | in every run each day's limit is the one configured when the day was opened, whatever restarts changed later |
| `QuotaLimits.LimitsRemain` | laxcode-manager/ledger.go:148 | a limit once stored is the same after every run |
| `QuotaLimits.LimitsAreTheLimit` | laxcode-manager/ledger.go:40-49 | in every run without a restart all daily limits are the initial configuration's limit |
| `QuotaLimits.FirstDayHasTheWholeLimit` | laxcode-manager/sync_epoch_linux.go:32-157 | for every configuration a user's first sync stores the whole limit and publishes one chunk of it; the report shows the limit with all but that chunk allocatable |
| `QuotaLimits.AThousandBytes` | laxcode-manager/ledger.go:142-162 | a limit of 1000 in chunks of 100: the stored limit is 1000 and the published grant 100 |
| `QuotaTheorems.ChargedBeforeDeadline` | laxcode-manager/ebpf/quota.c:92-97 | under any clock a packet about to be charged passed its deadline test before the deadline that its epoch's two clock readings give |
| `QuotaTheorems.ChargedOnTime` | laxcode-manager/ebpf/quota.c:92-97 | when days do not go backwards those readings are of the present boot, so the test was passed before the end of the epoch's day plus 30 s plus the time between the two readings |
| `QuotaLateness.LateExactlyWithDelay` | laxcode-manager/sync_epoch_linux.go:45-52 | from a published epoch before its deadline, a packet 30 s or more after the day is reachable if and only if time passed between the two readings |
| `QuotaLateness.AnyDelayIsReached` | laxcode-manager/sync_epoch_linux.go:45-52 | for every positive delay a run in which a packet passes 30 s or more after its day |
| `QuotaTheorems.LimitHolds` | laxcode-manager/sync_epoch_linux.go:33-177 | in every run in which no user's captured day goes backwards, the bytes let through on a user's day never exceed its limit |
| `QuotaTheorems.RebuildIsExact` | laxcode-manager/sync_epoch_linux.go:104-114 | whenever counters are rewritten from the ledger, the ledger already has every byte that epoch ever let through |
| `QuotaTheorems.DeadlinesAreCurrent` | laxcode-manager/sync_epoch_linux.go:45-52 | every deadline in the kernel was computed from the present boot's clock, even after reboots with stale active rows |
| `QuotaRegression.GoingBackOverspends` | laxcode-manager/ledger.go:138-140 | a concrete run with one day going back: twice the limit is let through |
| `QuotaRegression.LimitHoldsExactlyForward` | laxcode-manager/sync_epoch_linux.go:53-94 | where days may always move forward, the limit holds in every reachable world if and only if no captured day can go backwards |
| `QuotaManager.Manager.EnsureEpoch` | laxcode-manager/ledger.go:142-162 | the statements leave exactly the state of the transition system's step: every limit is as it was, a missing day gets the configured limit, and the returned row is the day's active one, found or new with nothing granted or used |
| `QuotaManager.Manager.CommitUsage` | laxcode-manager/ledger.go:166-206 | the checkpoint commits exactly the specified row, or faults and changes nothing |
| `QuotaManager.Manager.CloseBucket` | laxcode-manager/ledger.go:209-223 | the conditional update closes exactly one matching row, or faults and changes nothing |
| `QuotaManager.Manager.Bucket` | laxcode-manager/bpf_linux.go:276-298 | the three entries are read independently and nothing changes |
| `QuotaManager.Manager.Preprocess` | laxcode-manager/sync_epoch_linux.go:62-92 | a complete bucket of the user is kept and nothing changes, of another user it is refused; with all three entries missing exactly the day's rows are closed; of a partial one no row changes and, unless a call fails, all its entries go and no others |
| `QuotaManager.Manager.DeleteBucket` | laxcode-manager/bpf_linux.go:300-307 | metadata, grant and usage entry go in this order, and when a call fails exactly those before it are gone |
| `QuotaManager.Manager.CleanupHistory` | laxcode-manager/sync_epoch_linux.go:159-177 | wherever it stops it took exactly steps of the transition system; without a failing call exactly the user's older rows are closed and none of their entries is left; the current bucket and all others are as before |
| `QuotaManager.Manager.SyncEpochToEbpf` | laxcode-manager/sync_epoch_linux.go:32-157 | the imperative sequence, stopping before or after any transaction or map write, takes exactly steps of the transition system, publishes the returned epoch on success, keeps the invariant and never meets a failing check; no limit changes but a missing one of the day, which becomes the configured limit |
| `QuotaManager.Manager.Account` | laxcode-manager/ebpf/quota.c:88-118 | a packet passes exactly when its bucket is complete, owned, before its deadline and has room; then its bytes go to that bucket's counters and to nothing else |
| `ToolGroups.ScanCollects` | internal/domain/compactor/compactor.go:99-122 | the collector finds exactly the assistant messages with calls, in order; results are later tool messages answering them, in order, none belonging to two groups |
| `ToolGroups.ResultsAreExact` | internal/domain/compactor/compactor.go:110-119 | a message is a result of a group if and only if it is the first tool message for one of its calls, no later group in between calling by the same id |
| `ToolGroups.CollectToolCallGroups` | internal/domain/compactor/compactor.go:99-122 | the source's loops compute that collection |
| `ToolGroups.ProtectedStart` | internal/domain/compactor/compactor.go:124-151 | the loops terminate with 0 for fewer than three groups, otherwise with the greatest boundary not after the third most recent group: every earlier group is complete with all results before it |
| `ToolGroups.BoundaryStartsGroup` | internal/domain/compactor/compactor.go:126-151 | the protected start is 0 or the start of a call group |
| `Pairing.ClosedIsComplete` | internal/domain/compactor/compactor.go:110-151 | once all calls of a group have results, the group counts as complete if and only if its calls have different ids, and its results come before any other message |
| `Pairing.ClosedBoundary` | internal/domain/compactor/compactor.go:124-151 | on a closed history with three groups or more exactly the last three are protected, if and only if the calls of each earlier group have different ids |
| `Compress.SimpleCompress` | internal/domain/compactor/compactor.go:38-97 | a negative goal is refused; otherwise exactly the shortest prefix of the ordered plan (archived outputs group by group, reasoning, long texts) that reaches the goal is carried out, or the whole plan |
| `Compress.CompressionKeeps` | internal/domain/compactor/compactor.go:38-97 | nothing at or after the protected start and no system or user message changes; roles, numbers, call and result ids and the protected start itself stay |
| `Compress.SavedIsExact` | internal/domain/compactor/compactor.go:69-80 | the reported savings are the exact drop of the total estimate if and only if an empty text costs nothing or no reasoning was cleared, and never less than the drop |
| `Compress.SavedIsExactForGoal` | internal/domain/compactor/compactor.go:46-97 | in terms of messages and goal: exact if and only if an empty text costs nothing, or the old outputs save enough, or there is no old reasoning |
| `Compress.EarlySaves` | internal/domain/compactor/compactor.go:46-67 | archiving the old outputs one group after the other saves the sum of what each saves by itself |
| `Compress.SavingsOverstated` | internal/domain/compactor/compactor.go:69-80 | messages on which any estimator that charges for an empty text reports more than is saved |
| `CompressedTexts.PlanHolds` | internal/domain/compactor/compactor.go:46-97 | the plan is stated by what it holds: exactly one edit for each group, reasoning and long text before the protected start, in that order |
| `CompressedTexts.CompressedIs` | internal/domain/compactor/compactor.go:52-96 | what every message is after a compression, in closed form: its reasoning emptied, its result or its text replaced when that is cheaper, and nothing else |
| `CompressedTexts.PlaceholderSays` | internal/domain/compactor/compactor.go:171-178 | the text in place of an archived result names the call, the size and the artifact's id, and keeps the short result |
| `CompressedTexts.TruncatedSays` | internal/domain/compactor/compactor.go:192-203 | a cut text keeps its first and its last 500 characters and says how many are gone |
| `CompressedTexts.DecimalIs` | internal/domain/compactor/compactor.go:171-203 | numbers are written in decimal digits without a leading zero, different ones differently |
| `Compress.ShortestIsUnique` | internal/domain/compactor/compactor.go:46-67 | the edits carried out are determined by the messages and the goal |
| `Compress.ArtifactCandidates` | internal/domain/compactor/compactor.go:153-169 | exactly the large results without an artifact of groups before the protected start, each once |
| `Compress.ArchivableIsOldResult` | internal/domain/compactor/compactor.go:153-169 | every candidate is a tool result before the protected start |
| `Summary.Sort` | internal/domain/compactor/summary.go:35-39 | the strictly increasing list of the set's members |
| `Summary.MergeSummary` | internal/domain/compactor/summary.go:12-55 | refuses for the first of its five reasons in order; otherwise one user message under the first number that lists exactly the numbers of the messages it replaces, all else unchanged |
| `Summary.NeverRefused` | internal/domain/compactor/summary.go:12-43 | on a partitioned working set a merge with a proper boundary and some text is never refused |
| `Summary.MergeKeepsPartition` | internal/domain/compactor/summary.go:23-46 | the summary's list is the concatenation of the lists it replaces, and the partition of all numbers stays |
| `Lineage.ListsLieBetweenNumbers` | internal/domain/session/request_context.go:63-75 | in a partition each list lies between its message's number and the next one's |
| `Lineage.OneHome` | internal/domain/session/request_context.go:63-75 | in a partition every number belongs to exactly one message |
| `SessionState.Validate` | internal/domain/session/request_context.go:31-61 | the loop accepts exactly the valid contexts |
| `SessionState.ValidateOriginalSeq` | internal/domain/session/request_context.go:63-75 | the loop accepts exactly the strictly increasing lists that start with the own number and stay within the last |
| `SessionState.AppendedIs` | internal/domain/session/session.go:111-136 | an appended message stands at the end under its own or the next number; an answer's usage becomes the window account and is added to the total, other roles touch neither |
| `SessionState.RefusedExactly` | internal/domain/session/session.go:111-136 | a message is refused exactly for a system role, an exhausted or not rising number, or a foreign original |
| `SessionState.AppendedIsValid` | internal/domain/session/session.go:111-136 | one more identified message keeps a context valid if and only if there is a message before it |
| `SessionState.UpsertedIsValid` | internal/domain/session/session.go:69-93 | replacing or inserting the system prompt keeps a context valid and moves the window account by exactly the difference of the estimates |
| `SessionState.Session.UpsertSysMessage` | internal/domain/session/session.go:69-93 | the new state in full; the prompt stays first and the account matches its estimate |
| `SessionState.Session.AppendMessage` | internal/domain/session/session.go:111-136 | refused for the first fault in order with nothing changed, or appended under its number with both token accounts updated |
| `SessionState.Session.WithAppendedMessage` | internal/domain/session/request_context.go:106-119 | a fresh candidate with one more message; the session itself is unchanged |
| `SessionState.Session.Compact` | internal/domain/session/session.go:144-154 | the shortest sufficient compression is adopted and nothing else changes |
| `SessionState.Session.Restore` | internal/domain/session/request_context.go:79-98 | refused exactly for an invalid snapshot or another work directory or mode, then unchanged; otherwise the snapshot with its blanks filled in |
| `Provenance.ListsPartitionTheLog` | internal/domain/session/request_context.go:31-75 | in every run of system upserts, appends, local compactions and merges the context stays valid and its lists stay an ordered partition of every number ever committed |
| `Provenance.EveryNumberHasOneHome` | internal/domain/session/request_context.go:110-141 | in every run each committed number belongs to exactly one message, between its number and the next one's |
| `Provenance.MergeIsNeverRefused` | internal/domain/compactor/summary.go:12-55 | in every run a merge at a proper boundary is never refused |
| `Pairing.SpeakKeeps` | internal/application/reactservice/reactservice.go:308-330 | a user message or an answer after a closed history keeps the pairing and owes exactly the answer's calls |
| `Pairing.ResultKeeps` | internal/application/reactservice/reactservice.go:334-375 | a result for the next call due keeps the pairing and leaves the rest owed |
| `Pairing.MergeKeeps` | internal/domain/compactor/summary.go:45-55 | a summary in place of everything before a call group leaves no call open and no result without its call |
| `Pairing.MissingToolResults` | internal/application/reactservice/reactservice.go:241-268 | the loops find exactly the calls of the last group without a later result, in order |
| `Pairing.MissingIsOwed` | internal/application/reactservice/reactservice.go:208-230 | on a paired history these are exactly what must be answered before the next message |
| `Pairing.SettledIsClosed` | internal/application/reactservice/reactservice.go:198-206 | a history that needs no recovery has no open call |
| `Pairing.CheckRecovery` | internal/application/reactservice/reactservice.go:198-206 | recovery is needed exactly when there is a user message and the tail is not a finished answer |
| `Pairing.HasUserMessage` | internal/application/reactservice/reactservice.go:232-239 | the backward loop finds a user message exactly when there is one |
| `Agent.ModelSeesClosedCalls` | internal/application/reactservice/reactservice.go:270-330 | at every model call of every run, with concurrent agents, failures between any effects and lost commit results, every call has a result before the next other message, every result follows its call's group, and the messages are ones that were committed |
| `Agent.OnlyTheLastGroupIsOpen` | internal/application/reactservice/reactservice.go:208-268 | in everything ever committed at most the last group is open, and only tool results follow it |
| `Agent.AgentsFinishTheirGroup` | internal/application/reactservice/reactservice.go:334-379 | what an agent still has to answer together with what is answered is every call |
| `ReactService.CompactKeeps` | internal/application/reactservice/context_compaction.go:122-131 | local compaction and a summary merged at the protected start keep all calls closed |
| `ReactService.ReActService.CompactLocally` | internal/application/reactservice/context_compaction.go:170-210 | large old results get their artifact references, and what follows is pass after pass of the compression for the tokens missing by the exact count, each but the last one lowering it; it stops above the target only when a pass saved nothing or the count did not fall; what is kept for the summary is untrimmed |
| `ReactService.ReActService.CompactWithSummary` | internal/application/reactservice/context_compaction.go:212-284 | at most two summary calls, each for what the rest leaves of the target; on success everything before the protected start but the system prompt gave way to one message, the header with the replaced numbers followed by exactly the last returned text, the exact count is within the target and the calls' tokens are added; on any error the candidate is unchanged; no merge is refused |
| `ReactService.ReActService.CompactContext` | internal/application/reactservice/context_compaction.go:39-168 | below 80% only the window account changes; above it the session ends at a stored next generation, made by archiving, passes and, when those got stuck, the last returned summary, whose exact count is within 60% and is the window account; or every error leaves it as it was |
| `ReactService.PrefixNames` | internal/application/reactservice/context_compaction.go:223-225 | the summary's header names the first and the last number it stands for |
| `ReactService.ReActService.Prepare` | internal/application/reactservice/reactservice.go:277-286 | whatever the compaction before a model call did, nothing is open, and when the call may go on its history was counted below 80% or within 60% |
| `ReactService.ReActService.HandleTurnMsg` | internal/application/reactservice/reactservice.go:458-486 | the message joins the session only when its commit was heard, and that commit or none ran against the head of that moment; session and stored head stay sound |
| `ReactService.ReActService.RecoverBeforeChat` | internal/application/reactservice/reactservice.go:208-230 | one committed result for each missing call in order, until a commit is not heard; success leaves no call open, any failure leaves session and store sound |
| `ReactService.ReActService.Think` | internal/application/reactservice/reactservice.go:270-380 | every model call sends a history in which all calls are closed and whose exact count fits; a reply is the model's last answer, the last message, without calls, and nothing is open |
| `ReactService.ReActService.Chat` | internal/application/reactservice/reactservice.go:136-163 | from any sound session: sound session and store on every exit; there is a reply only after the prompt was committed as a user message behind a closed history, and it is the model's last answer and the committed last message |
| `ReactService.ReActService.Resume` | internal/application/reactservice/reactservice.go:165-178 | as Chat; with nothing to resume the session is unchanged |
| `AgentService.TurnIsStep` | internal/application/reactservice/reactservice.go:458-486 | each message the service commits is one step of an agent of the state machine |
| `AgentService.RecoveryIsRun` | internal/application/reactservice/reactservice.go:208-230 | a recovery before a chat is a run of the agent, which ends about to ask, or failed |
| `Repository.SqliteSessionRepo.GetRequestContext` | internal/infrastructure/sessionrepo/sqlite.go:584-616 | returns the head row with its generation's rows in order of number when that is valid, an empty context when there is none |
| `Repository.SqliteSessionRepo.CommitCreateMessage` | internal/infrastructure/sessionrepo/sqlite.go:618-668 | fails for the first reason in order and changes nothing, or files the given message as its number's original and the given row as its memory, makes the context the head one revision on, and changes no other row |
| `Repository.SqliteSessionRepo.CommitUpdateMessage` | internal/infrastructure/sessionrepo/sqlite.go:670-726 | fails for the first reason in order and changes nothing, or replaces one memory row by the given message, makes the context the head one revision on, and changes nothing else |
| `Repository.SqliteSessionRepo.CommitNextMemoryGeneration` | internal/infrastructure/sessionrepo/sqlite.go:728-776 | fails for the first reason in order and changes nothing, or files exactly the context's messages under its generation, none of them there before, makes the context the head one revision on, and changes nothing else |
| `Repository.SqliteSessionRepo.ReserveMessageSequence` | internal/infrastructure/sessionrepo/tasks.go:110-120 | the next number after the head's last and every number reserved before; only the reservation changes |
| `Repository.RowsReadOnce` | internal/infrastructure/sessionrepo/sqlite.go:599-612 | the rows of a generation read as one list only |
| `Clients.RowsInserted` | internal/infrastructure/sessionrepo/sqlite.go:756-770 | a new generation's rows go in without a collision and read back as exactly the snapshot's messages |
| `Clients.LoadReturnsTheLastCommit` | internal/infrastructure/sessionrepo/sqlite.go:584-776 | in every run of concurrent clients, lost results included, a load returns exactly the context of the last commit that ran, and it is valid |
| `Clients.OriginalsNeverChange` | internal/infrastructure/sessionrepo/sqlite.go:644-656 | in every run no original row is altered or lost |
| `Clients.OriginalIsWhatWasCommitted` | internal/infrastructure/sessionrepo/sqlite.go:644-656 | in every run each number's original row is the last message of the context whose commit added that number |
| `Clients.NumbersOnlyRise` | internal/infrastructure/sessionrepo/sqlite.go:815-844 | in every run committed numbers strictly rise, with one original row each |
| `Clients.InsertsNeverCollide` | internal/infrastructure/sessionrepo/sqlite.go:181-192 | in every run no insert of any commit meets a row with its primary key |
| `Clients.StaleNeverCommits` | internal/infrastructure/sessionrepo/sqlite.go:815-870 | a client behind the head cannot commit anything, and a commit whose result was lost leaves its client behind |
| `Clients.StaleUntilLoaded` | internal/infrastructure/sessionrepo/sqlite.go:815-870 | a client that is behind stays behind until it loads |
| `Clients.AppendIsAcceptedExactlyWhenFresh` | internal/infrastructure/sessionrepo/sqlite.go:790-844 | a stored session takes an append if and only if the client is at the head's revision, keeps work directory and mode, has a system prompt, and uses the next or the last reserved number |
| `Clients.PromptIsAcceptedExactlyWhenFresh` | internal/infrastructure/sessionrepo/sqlite.go:686-717 | a changed system prompt is taken if and only if the client is at the head's revision and keeps the work directory |
| `Clients.CompactionIsAcceptedExactlyWhenFresh` | internal/infrastructure/sessionrepo/sqlite.go:728-776 | a compaction is taken if and only if the client is at the head's revision, keeps the work directory, and its next generation is valid |
| `Clients.FirstPromptIsAccepted` | internal/infrastructure/sessionrepo/sqlite.go:815-844 | the first prompt of a session without messages is taken if and only if the client is at the head's revision and keeps the head row's work directory and mode, with or without such a row |
| `Clients.Submit` | internal/infrastructure/sessionrepo/sqlite.go:618-776 | the transactions of the repository class are exactly the commits of the state machine |
| `Edits.FindAllExact` | internal/domain/tools/edit_file.go:245-263 | exactly all occurrences of a non-empty text, overlapping ones included, in increasing order |
| `Edits.AdjacentSuffices` | internal/domain/tools/edit_file.go:213-232 | once sorted by offset, a test of neighbours alone makes every pair of intervals disjoint |
| `Edits.NeighboursDecide` | internal/domain/tools/edit_file.go:213-232 | the neighbour test passes if and only if the batch is acceptable |
| `Edits.SortStable` | internal/domain/tools/edit_file.go:216-221 | a sorted permutation |
| `Edits.PlanExactEdits` | internal/domain/tools/edit_file.go:182-243 | accepts exactly when every old text is non-empty, occurs once and no two matches meet; the plan holds one entry for each request, with that request's old and new text at its only occurrence, from the highest offset down |
| `Edits.SpliceNext` | internal/domain/tools/edit_file.go:140-157 | after the edits so far the next match is still in place, and splicing it is substituting it |
| `Edits.Execute` | internal/domain/tools/edit_file.go:125-160 | without another writer an accepted batch ends with the text cut into pieces in which each request's old text, once each, gave way to its new text, and the re-check never fails; a failing access leaves exactly the edits counted as done; a rejected batch leaves the file unchanged |
| `Edits.OneExchanged` | internal/domain/tools/edit_file.go:140-157 | one request leaves what stands before its only occurrence, its new text, and what stands after |
| `Edits.PlanCarries` | internal/domain/tools/edit_file.go:196-211 | each entry of an accepted plan has the old and the new text of the request it names, at a place where that old text occurs |
| `Edits.OrderDoesNotMatter` | internal/domain/tools/edit_file.go:182-243 | whether a batch is accepted, and what it makes of the text, does not depend on the order of its requests |
| `BufferedReader.ReadsOn` | internal/domain/tools/pagedread.go:63-79 | every read with a buffer of any size is a piece of the line it stands in, and the end of the file is met after the last line, or within it exactly when that line fills the buffer |
| `BufferedReader.FillsByLastLine` | internal/domain/tools/pagedread.go:63-79 | a last line without carriage returns fills the buffer if and only if its length is a positive multiple of the buffer's |
| `BufferedReader.LineReader.ReadLine` | internal/domain/tools/pagedread.go:79 | the read computed from bytes and buffer, or a failure, keeps the reader's place in the lines |
| `PagedRead.NormalOfText` | internal/domain/tools/pagedread.go:39-42 | for a text without carriage returns, its lines each ended by one line feed are the text itself, with a line feed added when the last line had none |
| `PagedRead.NormalIsCleaned` | internal/domain/tools/pagedread.go:39-42 | for every text the lines each ended by one line feed are the text with each carriage return directly before a line feed removed and a line feed added to an unended last line, byte by byte |
| `PagedRead.RequestNames` | internal/domain/tools/pagedread.go:17-25 | what a request names: the rest of its line from the byte on and that line's line feed, beyond the line just the line feed, beyond the last line nothing |
| `PagedRead.LineAt` | internal/domain/tools/pagedread.go:39-46 | where each line and its line feed stand in the normalised text |
| `PagedRead.Take` | internal/domain/tools/pagedread.go:105-132 | one piece of a wanted line: skip, keep what fits, end the line, and the page still ends where the reader is |
| `PagedRead.ReadPaged` | internal/domain/tools/pagedread.go:47-138 | for every text and buffer size: the page is the normalised text, and so a stretch of the text without the carriage returns before line feeds, from the requested byte on, within its byte and line limits, ends where the continuation rule goes on, and is unfinished only when a limit is reached |
| `PagedRead.PageFollows` | internal/domain/tools/pagedread.go:11-15 | a page read where the text so far ends goes on with it |
| `PagedRead.ReadAll` | internal/domain/tools/pagedread.go:11-46 | following the continuation rule the pages together are the text without the carriage returns before line feeds, its last line ended, if and only if an unended last line does not fill the read buffer exactly; otherwise just the last line feed is missing |
| `PagedRead.OneBufferIsCut` | internal/domain/tools/pagedread.go:39-42 | a text of one buffer without a line feed: its pages make the text alone |
| `Tasks.TaskTable.CreateTask` | internal/infrastructure/sessionrepo/tasks.go:39-54 | succeeds exactly when the id is new and no task of the project is active, and then adds one waiting row and changes no other |
| `Tasks.TaskTable.StartTask` | internal/infrastructure/sessionrepo/tasks.go:87-96 | succeeds exactly on a waiting task and changes its status to running and nothing else |
| `Tasks.TaskTable.FinishTask` | internal/infrastructure/sessionrepo/tasks.go:97-109 | succeeds exactly on an active task with a final status; the row then has exactly that status and that last event and is otherwise the same, and no other row changes |
| `Tasks.CreateKeeps` | internal/infrastructure/sessionrepo/tasks.go:27 | creating keeps at most one active task per project, the latest one |
| `TaskEvents.DeliveredIsAPrefix` | cmd/run_sse/tasks.go:472-520 | in every run what a subscriber was sent is the log from event 1 on, without gap or repetition |
| `TaskEvents.TaskStateComesLast` | cmd/run_sse/tasks.go:472-477 | the task state is sent only for a finished task, with its true outcome, and after the stored final event and every event whose publication was confirmed |
| `TaskEvents.FinalEventIsLogged` | cmd/run_sse/tasks.go:100-139 | a finished task's final event is in its log and covers every confirmed publication, also when a restart finished it |
| `TaskEvents.TerminalForGood` | internal/infrastructure/sessionrepo/tasks.go:97-109 | in every run a task reaches a final status at most once and its row is the same ever after |
| `TaskEvents.OneActiveTask` | internal/infrastructure/sessionrepo/tasks.go:27 | in every run no project has two active tasks |
| `TaskEvents.HandedOut` | cmd/run_sse/tasks.go:504-519 | the next event is delivered, one delivered before changes nothing and never ends the stream, one beyond the next ends it with a request to refresh |
| `TaskOutcomes.StepLogs` | cmd/run_sse/tasks.go:399-413 | a log grows by exactly the event its publisher sends, under the next id, and no other step touches it |
| `TaskOutcomes.LogIsWhatWasSent` | cmd/run_sse/tasks.go:399-413 | in every run each event of a log was sent by the task's publisher with this message, kind and data when the log had come to this place |
| `TaskOutcomes.StepFinishes` | cmd/run_sse/tasks.go:120-130 | a task ends only with the status its publisher gave, after every confirmed event, or as failed by a restart, after every event of its log |
| `TaskOutcomes.FinishEnds` | cmd/run_sse/tasks.go:120-139 | and it does end so whenever its publisher says so, whether that is heard or not |
| `TaskEvents.TaskPublisher.Send` | cmd/run_sse/tasks.go:390-413 | ids are contiguous, the log takes exactly the given event, the count grows only with a confirmed publication, and after a failure nothing is sent any more |
| `TaskEvents.HandleTaskEvents` | cmd/run_sse/tasks.go:461-520 | while the task starts and finishes and its log grows, the loop sends a prefix of the log, and the task state only with the final row and after its final event; it asks for a refresh only when a poll was refused, the subscription failed, or the event handed out leaves a gap |
| `Reducer.SeenChangesNothing` | web/src/features/chat/reducer.ts:33-43 | after any prefix of a task's log, empty deltas included, each event of it leaves the state unchanged |
| `Reducer.StepFollows` | web/src/features/chat/reducer.ts:33-50 | the next event of the log, an empty delta or not, keeps the state exactly what the log says |
| `Reducer.ReplayedIsFolded` | web/src/features/chat/reducer.ts:33-50 | a delivery with any repetitions ends in the same state as the log read once |
| `Reducer.ReplayShowsTheLog` | web/src/features/chat/reducer.ts:10-50 | after a restore with last sequence L, a log delivered with any repetitions shows exactly its messages above L, strictly increasing, each answer the joined deltas of its number, if and only if none of them begins with an empty delta and has text later |
| `Reducer.ReplayTakesUpTheHeard` | web/src/features/chat/reducer.ts:10-50 | in any case exactly the messages that do not begin with an empty delta are shown, as the log has them |
| `Reducer.RepetitionChangesNothing` | web/src/features/chat/reducer.ts:35-41 | an event delivered before changes nothing, however often it comes again |
| `Reducer.EmptyFirstDeltaHidesTheAnswer` | web/src/features/chat/reducer.ts:38-48 | a log whose first delta of an answer is empty: the whole answer stays invisible |
| `ReducerEnds.DeltaGrowsTheLast` | web/src/features/chat/reducer.ts:11-17 | a delta that is taken leaves the last message streaming in the field it grew, by exactly the delta, and no other message changes |
| `ReducerEnds.ReplayedStatuses` | web/src/features/chat/reducer.ts:19-51 | in every replay tool calls and the answers they end are complete and every other answer is streaming; the task stays running or not as restored |
| `ReducerEnds.FailureEndsAll` | web/src/features/chat/reducer.ts:32-33 | a failure ends every streaming message as an error, keeps all texts, and is the same from the page or from the task's own event |
| `ReducerEnds.DoneEndsTheReplay` | web/src/features/chat/reducer.ts:53-58 | after a replay the final event completes every answer and keeps all texts; its result becomes one more message if and only if it is not empty and every answer was ended by a tool call |
| `ReducerEnds.ResultIsNotRepeated` | web/src/features/chat/reducer.ts:53-58 | when the last message of a replay is an answer, the final event shows no second one |

## Left out

- Kernel loading, pinning, link attachment, packet parsing, control peers, address classes, cgroup ownership and ring-buffer notifications only gate or accompany the packet step; a packet's user and length are inputs.
- Recycling of map elements inside the kernel: a packet that looked an element up keeps charging that element, not a later one at the same address.
- `cleanedEpoch` and `cleanupPending` only decide when a cleanup starts; in the model it may start at any time for any day.
- A packet still in the hook when pins are reset finishes on the old maps, which nothing reads any more; the model lets it finish before the reset or not at all.
- A fatal manager failure that stops further syncs is modelled only by syncs that do not start.
- QuotaManager.Manager.Account: one packet without interference; packets between the steps of syncs and of each other are in the transition system.
- QuotaManager.Manager.SyncEpochToEbpf: starts after the two clock readings, which its ticket holds, and does not schedule the cleanup of step 13.
- The token estimator, the provider's count and the summary model's text are parameters: any estimate, any function of the fields sent to the provider, any text. A provider that changes its counting method between two calls is not covered.
- Message fields that no modelled operation reads (chat id, display text, encrypted reasoning, user id) are one opaque field; failed appends leave the caller's message as it was.
- The artifact store: an archived result gets a reference; that reading it gives the archived text is not modelled.
- Tool execution, the repeated-call guard and event callbacks of the loop: a result's text is arbitrary, and the loop may stop after any group.
- ReactService.ReActService.Think: `turns` bounds how many model calls are looked at, because the source's loop has no bound; the statement holds for every bound.
- Concurrency inside `ReactService`: its methods run alone against a stored head. Their commits and recoveries are steps of `Agent`, where other agents interleave; for the loop of Think and for compaction that link is not stated.
- SQL text, JSON encoding, RPC transport and the history backup: a transaction is one atomic step that may run and still report a failure. 64-bit exhaustion is modelled by the source's own tests only; numbers are otherwise unbounded.
- Deleting a session and creating another one under the same id.
- Path resolution, line numbers and the texts of results and errors of file edits; with another writer between two accesses only the re-check itself is modelled.
- A reader that reports the end of the file together with its last bytes, which a file does not do; the buffer's default size is a parameter, at least two.
- A read error inside a page: what was read is still part of the normalised text, nothing else is claimed.
- JetStream internals: a log takes an event or not, whatever it reports, and hands out stored events in any order and any number of times.
- TaskEvents.HandleTaskEvents: one subscriber, watched for `turns` iterations; that a newer task of the session has come is any answer of a poll, and purges are in the state machine.
- A failing write to the event stream ends it like a disconnect; the poll interval is any.
- Reducer: message ids, creation times, the waiting indicator and error codes; legacy events without an event number are modelled but no property is claimed for them.
- Docker discovery, proxies, sandboxes, administration, shell and search tools, skills, tracing and web components.
