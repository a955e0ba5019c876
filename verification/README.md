# Verified models of the AgentOS backend

This project models, in Dafny, the parts of the AgentOS backend whose correctness is a matter of whole runs rather
than of single calls, and proves what those parts promise. `dafny verify dfyconfig.toml` checks everything.

What the backend does, in its own terms, and where it is modelled:

* **Sync replication.** Every user has an event log with a per-user sequence number, knowledge entries with versions
  and tombstones, idempotency keys, paged pulls, device cursors and time-based retention.
  `SyncModel` holds tables and single calls, `SyncStore` the service and repository as a class over its tables,
  `SyncTransactions` the same calls as concurrent transactions, one statement at a time (entry-row lock, then
  sequence-row lock, insert, commit or abort), `SyncProgress` their freedom from deadlock, `SyncHistory` and
  `SyncClient` the log and the client fold, `SyncCalls` uninterrupted calls and replays, `SyncPaging` the pull
  endpoint, `SyncReplication` servers and devices running together, `SyncRetention` devices overtaken by cleanup,
  `SyncCursors` the cursor stored for a device, `SyncLateNumbers` the numbers of envelopes recorded outside transactions.
* **Embedding queue.** `EmbeddingModel` and `EmbeddingRepo` are the job table, the repository, the worker and the
  indexer; `EmbeddingFleet` is any number of workers with two-phase claims (`FOR UPDATE SKIP LOCKED`, then commit),
  crashes and lost writes; `EmbeddingProgress` and `EmbeddingCounts` prove what their runs keep and where they end.
  `VectorCodec` (with `TextLists`) is the text form of vectors, `Sums` a small library for sums over tables.
* **Audit chain.** `AuditChain` is the hash-chained append, the independent verifier, and racing appends. The hash is
  an arbitrary function; where injectivity is needed it is a precondition, and the collision is exhibited otherwise.
* **Governance.** `Governance` decides (kill switch, ordered rules, default) and enforces in three modes;
  `ApprovalReceipts` is the life of one-time receipts and their tokens.
* **Quantities.** `RateLimiter` is the token bucket with background forgetting, over real numbers; `Ledger` the usage
  charge, earning and payout books with 64-bit arithmetic and a failure possible at every write; `SnapshotDiff` the
  comparison of two snapshots and its meaning as a patch.

Tables are maps and sequences. Identifiers and strings are opaque values; clocks, random tokens, fresh ids and the
success of each storage call are parameters, so statements about them hold for every choice. Database constraints are
those of the SQL migrations (unique keys, `CHECK`s, the vector column's dimension, cascading foreign keys).

Methods are proved against functions of the tables, and what those functions decide is stated once more on the fields
of inputs and rows, in lemmas that do not use their helper definitions: `SyncCalls.CallEffects`, `SyncCalls.CallAnswers`,
`SyncPaging.OnePage`, `EmbeddingModel.BatchMeaning`, `Governance.DecisionMeaning`, `ApprovalReceipts.AcceptedIff`,
`AuditChain.BreaksMeaning`, `RateLimiter.HandleMeaning`, `Ledger.StoredUsage` and their neighbours.

Where code and documentation, or code and expectation, disagree, the model follows the code and states exactly when the
expectation holds:

* `internal/handler/sync.go` allows a limit of 500, but the look-ahead then asks for 501 and the service answers with
  its default of 100 rows and no `has_more`: `SyncPaging.OnePage`. A pull without `after_sequence` that finds nothing
  answers 0 instead of the cursor: `SyncPaging.EmptyCursorPull`; `SyncPaging.NextStartIff` says that this is the only
  way to be sent back.
* The replay check runs before the transaction, so two overlapping updates with one idempotency key can change an entry
  without an event: `SyncTransactions.StepAgreement` says exactly when, `SyncCalls.OverlappingRetryDiverges` shows it.
* A device that cleanup has overtaken recovers exactly if every entry it missed is carried again:
  `SyncRetention.OvertakenDevice`.
* An envelope recorded outside a transaction takes its number before its event exists, so its event can appear below
  numbers already seen, or never: exactly while it is under way, `SyncLateNumbers.CanAppearLateIff` and
  `SyncLateNumbers.PrefixIsStableIff`. Knowledge events never do.
* Acknowledging reads and writes the stored cursor without a lock, so overlapping acknowledgements can take it back:
  `SyncCursors.AckGoesBackIff` says when a write does, `SyncCursors.OverlappingAcksGoBack` gives a run,
  `SyncCursors.StoredCursorOnlyGrows` excludes it without overlaps.
* Audit hashes are taken before storing, so a store that rounds times breaks verification:
  `AuditChain.StorageMustKeepTime`.
* A worker that loses its failure write, or goes away in the middle of a batch, leaves jobs in `processing` that nothing
  ever takes up again: `EmbeddingProgress.DroppingIff`, `EmbeddingProgress.DroppedForever`.
* Forgetting idle clients after three minutes is invisible, and the configured rate a bound, exactly if a bucket refills
  in three minutes: `RateLimiter.ForgettingIsUnseenIff`, `RateLimiter.RateIsBoundedIff`.
* A payout is raised before the earning is saved; a failure in between leaves money paid out but not earned:
  `Ledger.PayoutEqualsEarningsIff`, `Ledger.OneFailureLeaks`. A charge is `tokens * price` only while that fits 64 bits:
  `Ledger.AmountExactIff`, `Ledger.OverflowUndercharges`. A month marked paid
  is not closed: `Ledger.PaidRowStaysIff` says under which calls its row stays, `Ledger.PaidMonthGrows` gives a run.
* Tags are compared as printed text, so `["a b"]` and `["a", "b"]` count as equal: `SnapshotDiff.UnseenChangeIff` says
  which entries have a change that goes unseen.
* An approval token bypasses rules and kill switches alike: `Governance.EnforceMeaning`, `Governance.SwitchBlocks`.

## Model

| member | source | states |
|---|---|---|
| Common.TrimMeaning | internal/service/knowledge_entries.go:304-312 | Trimming takes off the white space at both ends and nothing else; a text is blank exactly if it is all white space. |
| Common.TrimUnique | internal/service/knowledge_entries.go:304-312 | There is only one text it can leave. |
| SyncStore.Store.GetEventByClientEventID | internal/repository/sync_repo.go:40-52 | The idempotency lookup finds the user's oldest event with a non-empty key, scanning the shared table. |
| SyncStore.Store.GetNextSequence | internal/repository/sync_repo.go:65-90 | Hands out the user's next number and advances only that user's counter; a missing counter row starts at 1. |
| SyncStore.Store.RecordEnvelope | internal/service/sync.go:136-173 | Replays by key, refuses conflicts and unknown operations, otherwise appends under the next number; a failed insert outside a transaction loses the number; other users are untouched. |
| SyncStore.Store.CheckRequest | internal/service/knowledge_entries.go:110-133 | Input, replay, existence, status and base-version checks in the order the service makes them. |
| SyncStore.Store.Submit | internal/service/knowledge_entries.go:60-225 | Create, update and delete do what the specified call does; when the entry statement or the event fails, every row of every user is as before. |
| SyncStore.Store.GetEventsSince | internal/repository/sync_repo.go:30-38 | The first `limit` of the user's events above a number, in number order, whatever order they were inserted in. |
| SyncStore.Store.Pull | internal/handler/sync.go:42-88 | The pull endpoint answers with the specified page, look-ahead flag and next start, over the log in number order. |
| SyncStore.Store.Ack | internal/handler/sync.go:90-108 | Zero is a bad request; otherwise that device's cursor moves forward only, and no other cursor moves. |
| SyncStore.Store.CleanupOldEvents | internal/service/sync.go:226-236 | Removes exactly the events stamped before the cutoff, for every user, and counts them. |
| SyncStore.Store.InsertEvent | internal/service/sync.go:153-172 | Adds the event to the user's rows and leaves all other users' rows alone. |
| SyncStore.Store.Transact | internal/service/knowledge_entries.go:86-107 | The transaction of an accepted check does what the specified call does, or nothing. |
| SyncStore.RecordKeepsNumbers | internal/service/sync.go:136-173 | Recording keeps a user's numbers ascending from 1 below the next one; with it and the two below every method of the store keeps `Valid`. |
| SyncStore.CallKeepsNumbers | internal/service/knowledge_entries.go:60-225 | So does every call. |
| SyncStore.KeepAscends | internal/repository/sync_repo.go:125-128 | So does cleanup. |
| SyncStore.KeepMembers | internal/repository/sync_repo.go:125-128 | Cleanup keeps exactly the events stamped at or after the cutoff. |
| SyncPaging.OrderedBySequence | internal/repository/sync_repo.go:30-38 | Ordering by number keeps exactly the rows and, numbers being unique, makes them ascend. |
| SyncPaging.AscendingIsOrdered | internal/repository/sync_repo.go:30-38 | Rows inserted in the order of their numbers are in order already. |
| SyncCalls.CallEffects | internal/service/knowledge_entries.go:60-225 | A call takes effect exactly when the input is complete, its key new and the request fits the entry: then one entry and one event with the next number change; otherwise no row and no counter does. |
| SyncCalls.CallAnswers | internal/service/knowledge_entries.go:60-225 | Exactly which error a refused call gets: missing id, title or content, an entry that exists, is missing or deleted, a stale base version. |
| SyncCalls.CallIsASchedule | internal/service/knowledge_entries.go:86-107 | An accepted call is a run of the statement-level machine, so what is proved of all runs holds of calls. |
| SyncCalls.CallKeepsQuiet | internal/service/knowledge_entries.go:60-225 | After an accepted call the log is one event longer, that event carries the new entry, and the invariants of quiet states hold again. |
| SyncCalls.VersionsAfterCall | internal/repository/knowledge_entries_repo.go:55-74 | An entry's version is the number of its changes, one up after an accepted call to it and only then. |
| SyncCalls.EntriesPersist | internal/repository/knowledge_entries_repo.go:55-91 | Over any run entries never disappear, versions never fall and a deleted entry never changes. |
| SyncCalls.RecordedKeyAnswers | internal/service/knowledge_entries.go:250-269 | A complete call whose key is that of a retained event is refused if that event is of another entry, operation or device, refused if the entry is missing, and otherwise answered with the event and the entry as it stands; nothing changes. |
| SyncCalls.RecordAnswers | internal/service/sync.go:136-173 | Exactly which envelopes are unsupported, recorded field by field under the next number, answered with the event of their key, or refused because that event is of another request. |
| SyncCalls.SupportedIsListed | internal/service/sync_contract.go:79-140 | Every supported operation of a family is one listed for it, the table being read by operation... |
| SyncCalls.ListedIsSupported | internal/service/sync_contract.go:79-140 | ...and the other way round. |
| SyncCalls.ReplayIsInert | internal/service/sync.go:219-224 | At most once over runs: whatever happened meanwhile, repeating an accepted keyed call changes nothing and returns its event; another entry, operation or device is refused. |
| SyncCalls.OverlappingRetryDiverges | internal/service/knowledge_entries.go:118-171 | For every keyed update, a retry overlapping the first attempt raises the version twice with one event. |
| SyncHistory.ChainExtends | internal/service/knowledge_entries.go:281-301 | An event that follows from the table extends the history, and the table after it is the event applied. |
| SyncHistory.VersionCountsChanges | internal/repository/knowledge_entries_repo.go:55-91 | In every history an entry exists exactly if it has changes, and its version counts them. |
| SyncHistory.RowsOnlyAdvance | internal/repository/knowledge_entries_repo.go:41-91 | Later in a history versions are no smaller, equal versions mean equal rows, deleted rows are final. |
| SyncTransactions.StepKeepsNumbered | internal/repository/sync_repo.go:65-90 | Every statement of every interleaving, commits and aborts included, keeps committed numbers exactly 1, 2, ... up to the counter. |
| SyncTransactions.RunsKeepNumbered | internal/repository/sync_repo.go:65-90 | So does every run; what was committed stays where it was, and no key is in the retained log twice. |
| SyncTransactions.LogIsNumbered | internal/repository/sync_repo.go:65-90 | The retained log is the history without its removed prefix, numbered without holes. |
| SyncTransactions.PrefixStability | internal/repository/sync_repo.go:65-90 | Once a number was given out and settled, no event numbered below it appears later: nothing is renumbered, reused or filled in. |
| SyncTransactions.CleanupRemovesPrefix | internal/repository/sync_repo.go:125-128 | With a clock that does not go back, cleanup removes a prefix: exactly the events before the cutoff. |
| SyncTransactions.StepAgreement | internal/service/knowledge_entries.go:150-169 | A step keeps the entry table equal to the log's fold exactly unless it commits a changed row whose event was answered by a replay. |
| SyncTransactions.StepKeepsCore | internal/service/knowledge_entries.go:150-169 | The same condition decides for the whole invariant of locks, rows and keys. |
| SyncTransactions.StepKeepsInv | internal/service/knowledge_entries.go:150-169 | With distinct keys in flight every step keeps the whole invariant. |
| SyncTransactions.DistinctRunsKeepInv | internal/service/knowledge_entries.go:150-169 | So does every run with distinct keys in flight. |
| SyncProgress.WaitingGoesDown | internal/repository/sync_repo.go:65-90 | Entry lock before sequence lock: a transaction waits only for one further on. |
| SyncProgress.ChainsAreShort | internal/repository/sync_repo.go:65-90 | Along a chain of waiting transactions the rank falls at every link. |
| SyncProgress.NoDeadlock | internal/repository/sync_repo.go:65-90 | In every state at most three transactions wait in line, and never in a circle. |
| SyncProgress.LeastRankFinishes | internal/service/knowledge_entries.go:86-107 | The transaction furthest on can run to its end without waiting. |
| SyncProgress.EveryoneFinishes | internal/service/knowledge_entries.go:86-107 | From every reachable state all calls in flight can finish, within five statements each. |
| SyncClient.KnowledgeProjection.Apply | internal/handler/m2_3_client_sync_contract_test.go:29-62 | The client loop computes the fold: skips what it has seen, applies newer versions, passes older ones over, and gives up at a foreign event, a missing entry id or two different rows of one version. |
| SyncClient.ApplyMeaning | internal/handler/m2_3_client_sync_contract_test.go:29-62 | Exactly when an event stops the fold; otherwise the cursor takes its number and its entry is the newer of the two versions, all others left alone. |
| SyncClient.ProjectionAdvances | internal/handler/m2_3_client_sync_contract_test.go:29-62 | Whatever is delivered, the cursor never goes back, no entry disappears and no version falls. |
| SyncClient.RedeliveryChangesNothing | internal/handler/m2_3_client_sync_contract_test.go:29-62 | Delivering any batch twice is delivering it once, even if it stops the fold. |
| SyncClient.FoldSegment | internal/handler/m2_3_client_sync_contract_test.go:29-62 | Whatever overlapping slice of the log is delivered, the client ends at the prefix of the log its cursor names, failing only at a foreign event. |
| SyncClient.KnowledgeNeverFails | internal/handler/m2_3_client_sync_contract_test.go:29-62 | A slice of knowledge events never makes the client fail. |
| SyncPaging.OnePage | internal/handler/sync.go:34-88 | A page is the first rows after the start, in order: min(limit, left) of them, with 100 for a limit outside 1 .. 499; `has_more` is right exactly unless 500 was asked for and more than 100 remain; the next start is the last row's number. |
| SyncPaging.SinceMembers | internal/repository/sync_repo.go:30-38 | What is left after a start is every row with a greater number, and only those. |
| SyncPaging.EmptyCursorPull | internal/handler/sync.go:60-88 | An empty pull from the cursor answers 0 as the next start, which leads back to the whole retained log. |
| SyncPaging.NextStartIff | internal/handler/sync.go:55-88 | Going on from the answered number finds exactly what the page left out, except exactly after an empty pull from the cursor of a log that is not empty. |
| SyncPaging.ExactPaging | internal/handler/sync.go:34-88 | Following pages gives every event after the start once and in order, in max(1, ceil(n/limit)) pages for the limit asked for, or 100 outside 1 .. 500, only the last saying that nothing remains. |
| SyncReplication.MoveKeepsInv | internal/handler/sync.go:42-108 | Every move of servers, transactions and devices keeps every device at a prefix of the history. |
| SyncReplication.RunsKeepWorldInv | internal/handler/sync.go:42-108 | So does every run, in which the history only grows. |
| SyncReplication.ReplicationIsSnapshotConsistent | internal/handler/m2_3_client_sync_contract_test.go:29-62 | In every interleaving a device not overtaken by cleanup shows the entry table exactly as it stood after the event at its cursor. |
| SyncReplication.FailsOnlyOnOtherFamilies | internal/handler/m2_3_client_sync_contract_test.go:29-62 | A device fails only if the next event it needs belongs to another object family. |
| SyncReplication.DrainingPull | internal/handler/sync.go:42-88 | An answer without `has_more` brings the device, whenever it applies it, to everything committed when it pulled. |
| SyncReplication.CursorsOnlyGrow | internal/handler/m2_3_client_sync_contract_test.go:29-62 | Over any run the cursor of a device's own projection never goes back. |
| SyncCursors.AckGoesBackIff | internal/repository/sync_repo.go:112-123 | Writing an acknowledgement takes the stored cursor back exactly if both the cursor it read and the number it acknowledges are below the cursor by then. |
| SyncCursors.StoredCursorOnlyGrows | internal/service/sync.go:193-195 | Over any run in which acknowledgements of a device do not overlap, its stored cursor never goes back. |
| SyncCursors.OverlappingAcksGoBack | internal/repository/sync_repo.go:112-123 | For any device and any two entries created, a run from the empty server that takes the stored cursor from 2 back to 1. |
| SyncLateNumbers.RunsKeepInv | internal/service/sync.go:123-173 | With plain envelopes in two steps, over any run every number below the counter is recorded, pending or lost, in one place only. |
| SyncLateNumbers.HolesIff | internal/repository/sync_repo.go:65-90 | The holes below the counter are exactly the numbers of envelopes under way or lost. |
| SyncLateNumbers.LateWasPending | internal/service/sync.go:123-173 | Whatever appears below an earlier counter was taken by an envelope before, and is never a knowledge event. |
| SyncLateNumbers.CanAppearLateIff | internal/service/sync.go:123-173 | A number can still appear late exactly while an envelope that has taken it is under way. |
| SyncLateNumbers.PrefixIsStableIff | internal/service/sync.go:123-173 | A reader has seen all there will ever be below the counter exactly when no plain envelope is under way. |
| SyncLateNumbers.LateEventIsPassedOver | internal/repository/sync_repo.go:30-38 | A pull from a cursor at or past a late number never returns its event. |
| SyncRetention.OvertakenDevice | internal/repository/sync_repo.go:125-128 | A device behind the removed prefix converges exactly if every entry changed by a missed event is carried again by a retained one; at the prefix's end or past it, it always does. |
| VectorCodec.FormatVector | internal/repository/vector.go:9-15 | The loop writes the specified text. |
| VectorCodec.ParseVector | internal/repository/vector.go:17-36 | The loop reads the specified vector or fails. |
| VectorCodec.RoundTrip | internal/repository/vector.go:9-36 | Every vector, the empty one included, reads back as itself, for element codecs that round-trip without commas. |
| VectorCodec.FormatInjective | internal/repository/vector.go:9-36 | The stored text determines the vector. |
| VectorCodec.FormatGrows | internal/repository/vector.go:9-15 | The text is the elements with commas between them and brackets around them. |
| VectorCodec.PartsRead | internal/repository/vector.go:26-36 | The parts read as what each of them, trimmed, reads as, or not at all if one of them does not. |
| VectorCodec.BracketsAreOptional | internal/repository/vector.go:17-26 | A text reads the same with both brackets, either or none. |
| TextLists.SplitJoin | internal/repository/vector.go:26 | Splitting undoes joining when no part contains the separator. |
| TextLists.JoinSplit | internal/repository/vector.go:26 | Joining undoes splitting, always. |
| EmbeddingRepo.Repo.EnqueueJobs | internal/repository/kb_embedding_repo.go:62-107 | Inserts one pending job per usable document with the defaults filled in, keeping whatever already has the key. |
| EmbeddingModel.EnqueueMeaning | internal/repository/kb_embedding_repo.go:62-107 | Rows there stay; new ones come exactly for documents with id and hash whose key is free, with dimensions 1024, priority 100 and 5 attempts unless given. |
| EmbeddingCounts.EnqueueIsIdempotent | internal/repository/kb_embedding_repo_test.go:29-38 | Enqueueing the same rows again changes nothing. |
| EmbeddingRepo.Repo.SelectBatch | internal/repository/kb_embedding_repo.go:139-150 | The batch is the first `limit` eligible unlocked jobs by priority and creation, in that order: no eligible job left out comes before one taken, and none is left out below the limit. |
| EmbeddingRepo.Repo.ClaimJobs | internal/repository/kb_embedding_repo.go:123-170 | Marks exactly the batch as processing with one more attempt and returns those rows as they now stand. |
| EmbeddingModel.BatchMeaning | internal/repository/kb_embedding_repo.go:139-150 | A batch is waiting, due, unlocked jobs, smallest priority number first and then oldest; one left out means a full batch none of which comes after it. |
| EmbeddingModel.ClaimMeaning | internal/repository/kb_embedding_repo.go:123-170 | A claim marks exactly the rows it returns, processing, one attempt more, locked by the worker now; a limit outside 1 .. 100 means 8. |
| EmbeddingRepo.Repo.CompleteJob | internal/repository/kb_embedding_repo.go:172-204 | Stores the embedding's text and closes the job in one transaction, or changes nothing; the table takes only its own dimension. |
| EmbeddingRepo.Repo.FailJob | internal/repository/kb_embedding_repo.go:206-228 | Puts the row to retrying after the wait, or to failed when the worker's copy has no attempts left. |
| EmbeddingRepo.Repo.RetryFailedJobs | internal/repository/kb_embedding_repo.go:230-254 | Gives exactly the snapshot's failed jobs fresh attempts and counts them. |
| EmbeddingModel.RetryMeaning | internal/repository/kb_embedding_repo.go:230-254 | Exactly the failed jobs of the snapshot, provider and model named are pending again with no attempts; every other row is as before. |
| EmbeddingRepo.Repo.ReplaceSnapshotDocuments | internal/repository/kb_search_repo.go:48-64 | Replaces a snapshot's documents, with their jobs and embeddings, and queues the new ones. |
| EmbeddingModel.ReplaceMeaning | internal/repository/kb_search_repo.go:48-64 | Afterwards the new documents are there, the snapshot's old ones gone with their embeddings, everything else as before. |
| EmbeddingModel.ReplacedJobs | internal/repository/kb_search_repo.go:48-64 | The same of jobs: the old ones gone, one new job for each new document if a provider is given. |
| EmbeddingRepo.IndexSnapshot | internal/service/kb_search.go:140-168 | One document per entry, in order, each with a non-empty hash, replaces the snapshot's old ones. |
| EmbeddingRepo.EntryHash | internal/service/kb_search.go:362-370 | The content hash is never empty, and is the entry's own if it has a non-blank one. |
| EmbeddingRepo.FallbackHashesDiffer | internal/service/kb_search.go:362-370 | Entries of a snapshot without a hash of their own have one hash exactly if they have one id. |
| EmbeddingRepo.Worker.ProcessJob | internal/service/kb_embedding_worker.go:71-96 | One attempt stores the vector if document, hash, answer and dimension are right and the write succeeds; otherwise it records the failure if that write succeeds; a recorded hash mismatch is not an error. |
| EmbeddingRepo.AttemptMeaning | internal/service/kb_embedding_worker.go:71-128 | Exactly when an attempt gets a job ready, what it stores then, how the row waits or fails otherwise, and when it counts as an error; no other row changes. |
| EmbeddingRepo.Worker.ProcessOnce | internal/service/kb_embedding_worker.go:58-69 | One pass claims a batch and attempts its jobs in order up to the first error met when cancelled. |
| EmbeddingRepo.Worker.Work | internal/service/kb_embedding_worker.go:63-68 | The loop over the batch does exactly the attempts up to there. |
| EmbeddingRepo.AttemptedMeaning | internal/service/kb_embedding_worker.go:63-68 | The attempts are made in order; the pass ends right after the first one that errs while cancelled, or with the batch. |
| EmbeddingCounts.AttemptIsAStep | internal/service/kb_embedding_worker.go:71-96 | Whatever an attempt meets, it does to the tables what an enabled step of the fleet does. |
| EmbeddingModel.BackoffGrows | internal/service/kb_embedding_worker.go:118-128 | Waits are a minute for the first attempt, double up to the seventh, never shrink, and are two hours from the eighth on. |
| EmbeddingFleet.StepKeepsInv | internal/repository/kb_embedding_repo.go:123-228 | Every step of every fleet keeps the attempt bounds of each status, the agreement of batches with rows, locks, references, index agreement and waiting times. |
| EmbeddingProgress.EveryRunKeepsInv | internal/repository/kb_embedding_repo.go:123-228 | So does every run from the empty tables. |
| EmbeddingProgress.ClaimExclusion | internal/repository/kb_embedding_repo.go:139-150 | In every reachable state a job is in one worker's batch only, once. |
| EmbeddingProgress.ClaimsAreSpaced | internal/service/kb_embedding_worker.go:118-128 | Two claims of a job without a retry between them are at least its whole wait, so 60 seconds, apart, on unsynchronised clocks. |
| EmbeddingProgress.IndexAgreement | internal/repository/kb_embedding_repo.go:172-204 | A job is ready exactly when its embedding is stored, in the job's dimension, which is then the table's, and its text reads back as the provider's vector. |
| EmbeddingProgress.StepLowers | internal/repository/kb_embedding_repo.go:123-228 | Every claim lowers the sum of remaining attempts by at least the size of its batch, and no other step without new work raises it. |
| EmbeddingProgress.BoundedWork | internal/repository/kb_embedding_repo.go:206-228 | Over any run without new work, claims plus remaining attempts never exceed the attempts remaining at the start. |
| EmbeddingProgress.ClaimsAreBounded | internal/repository/kb_embedding_repo.go:206-228 | Any fleet makes at most the sum of max_attempts claims. |
| EmbeddingProgress.ProgressIsCounted | internal/repository/kb_embedding_repo.go:123-228 | Every committed claim and every recorded failure of an existing row counts as work. |
| EmbeddingProgress.StuckMeansDone | internal/service/kb_embedding_worker.go:58-69 | While nothing was dropped, an unfinished job means some worker can go on. |
| EmbeddingProgress.RestMeansDone | internal/service/kb_embedding_worker.go:58-96 | A run that drops nothing and cannot go on has every job ready or failed. |
| EmbeddingProgress.EveryJobFinishes | internal/service/kb_embedding_worker.go:58-96 | From every reachable state that lost nothing, some run without new work and losses finishes every job. |
| EmbeddingProgress.DroppingIff | internal/service/kb_embedding_worker.go:58-96 | Jobs are dropped exactly by unrecorded failures and by workers going away with rows in hand. |
| EmbeddingProgress.DroppedStaysDropped | internal/repository/kb_embedding_repo.go:139-170 | No step changes a dropped job or puts it in a worker's hands, unless it indexes its snapshot anew. |
| EmbeddingProgress.DroppedForever | internal/repository/kb_embedding_repo.go:139-170 | So over any run without such a step. |
| EmbeddingCounts.CountsAddUp | internal/repository/kb_embedding_repo.go:256-295 | For a queued snapshot, pending, processing, retrying, failed and ready add up to its documents in every reachable state. |
| EmbeddingCounts.IndexQueuesAll | internal/repository/kb_search_repo.go:48-64 | Indexing for a provider queues every document of the snapshot. |
| EmbeddingCounts.StepKeepsQueued | internal/repository/kb_embedding_repo.go:123-254 | A step that does not index the snapshot again keeps them queued, and the documents the same. |
| EmbeddingCounts.CountsAfterIndexing | internal/repository/kb_embedding_repo.go:256-295 | From an indexing on, through any run that does not index the snapshot again, the five counts add up to the documents indexed. |
| AuditChain.AuditLog.Record | internal/service/audit.go:129-180 | Appends the successor of the last row, each field the trimmed one of the input and the outcome `success` if blank, or ignores an event without action or resource type. |
| AuditChain.AuditLog.VerifyHashChain | internal/service/audit.go:202-241 | The verifier's loop finds the specified breaks and head over the first `limit` rows. |
| AuditChain.AuditLog.CheckEvent | internal/service/audit.go:213-236 | The breaks of one event: gap, link, missing or wrong hash, or only the foreign algorithm. |
| AuditChain.WalkStands | internal/service/audit.go:202-241 | In any log, what the verifier expects next and reports as head is what the last `sha256` event left. |
| AuditChain.BreaksMeaning | internal/service/audit.go:213-236 | In any log each event is reported for exactly what is wrong with it against that event. |
| AuditChain.CleanIsBuilt | internal/service/audit.go:202-241 | The verifier finds no break exactly in the logs that appending produces, for any hash. |
| AuditChain.RecordingStaysClean | internal/repository/audit_repo.go:34-52 | Recording keeps the log and each of its prefixes free of breaks. |
| AuditChain.SameHeadGivesCollision | internal/service/audit.go:202-274 | Two different clean logs with one head exhibit two payloads with one hash. |
| AuditChain.TamperEvidence | internal/service/audit.go:202-274 | With an injective hash, clean logs with the same head hash are equal event for event. |
| AuditChain.EditIsLocated | internal/service/audit.go:224-234 | Rewriting one event's facts is reported as one hash mismatch there and nothing else. |
| AuditChain.RemovalIsLocated | internal/service/audit.go:218-223 | Removing one event is reported as a gap and a link mismatch at its successor and nothing else; removing the last leaves a clean log. |
| AuditChain.StorageMustKeepTime | internal/service/audit.go:248-274 | A stored log verifies exactly if storage changes no time of occurrence. |
| AuditChain.AppendWinsIfCurrent | internal/repository/audit_repo.go:34-52 | A racing append gets in exactly if the row it read is still the last, and then as its successor. |
| AuditChain.RaceNeverForks | internal/repository/audit_repo.go:34-52 | However appends interleave, the log only grows and always verifies. |
| Governance.Enforcer.FindActiveKillSwitch | internal/repository/governance_repo.go:156-184 | The scan returns the first live switch, by age, aimed at the request. |
| Governance.FoundIffAimed | internal/repository/governance_repo.go:164-183 | One is found exactly if a live switch is aimed at the request, and no older one is. |
| Governance.OrderedIsSorted | internal/repository/governance_repo.go:66 | `ORDER BY` gives the same rows, none after one it comes before. |
| Governance.Enforcer.Evaluate | internal/service/governance.go:174-212 | Decides valid input as specified and records exactly that decision. |
| Governance.DecisionMeaning | internal/service/governance.go:187-203 | Deny exactly if an active, unexpired switch's scope takes the request in, by the oldest such; otherwise the effect of the active rule about the request with the least (priority, created_at); otherwise allow. All on the fields of the input. |
| Governance.ModeIsKnown | internal/service/governance_enforcer.go:148-176 | Whatever the configuration spells, one of the three modes is used. |
| Governance.ModeMeaning | internal/service/governance_enforcer.go:148-176 | The mode is the one spelled for the kind of subject, else the general one, else observe. |
| Governance.CaseIsIgnored | internal/service/governance_enforcer.go:169-176 | Spellings that differ in ASCII case alone are one mode. |
| Governance.Enforcer.Enforce | internal/service/governance_enforcer.go:87-146 | The method answers and changes the tables as specified, in all modes and branches. |
| Governance.EnforceMeaning | internal/service/governance_enforcer.go:95-146 | Enforcing allows exactly on an allowing decision or a consumed matching receipt, and errs exactly otherwise. |
| Governance.EnforceAnswers | internal/service/governance_enforcer.go:95-146 | Exactly when each of the four errors is answered. |
| Governance.EnforceRecords | internal/service/governance_enforcer.go:95-146 | Exactly one decision is recorded for each valid request without token, and a receipt issued exactly where approval is to be sought by a known actor. |
| Governance.EnforceReports | internal/service/governance_enforcer.go:95-146 | The answer names the mode, the receipt issued with its token, and the receipt used up. |
| Governance.DisabledPasses | internal/service/governance_enforcer.go:87-94 | A disabled enforcer allows everything and changes nothing. |
| Governance.TokenPassesIff | internal/service/governance_enforcer.go:95-116 | A token passes exactly if it is that of a pending, unexpired receipt for the request's actor, subject and capability. |
| Governance.Enforcer.EnforceByToken | internal/service/governance_enforcer.go:95-116 | A request with a token passes exactly on a consumed receipt, in observe mode always. |
| Governance.Enforcer.EnforceByDecision | internal/service/governance_enforcer.go:117-145 | A request without token is decided, recorded and answered as specified, with a receipt where approval is needed. |
| Governance.EnforceIsAReceiptStep | internal/service/governance_enforcer.go:87-146 | What a call does to the receipts is one enabled step of their life, or nothing. |
| Governance.EnforcementsAreARun | internal/service/governance_enforcer.go:87-146 | Any run of enforced requests, in any modes, is a run of the receipts' life. |
| Governance.TokenPassesOnceInAnyRun | internal/service/governance_enforcer.go:95-116 | Once a token has let a request through, no request passes on it after any further run. |
| Governance.EnforceTouchesOneReceipt | internal/service/governance_enforcer.go:95-141 | In every mode a call changes at most one existing receipt, from pending to consumed, and only if the request passes. |
| Governance.ObserveForesees | internal/service/governance_enforcer.go:108-123 | Observing never blocks a valid request, and its flag is the negation of what enforcing would answer on the same state. |
| Governance.SwitchBlocks | internal/service/governance.go:187-189 | A live switch aimed at a request without token blocks it whatever the rules. |
| Governance.ApprovalIsIssued | internal/service/governance_enforcer.go:131-141 | A request that needs approval is refused and gets a receipt with the token. |
| Governance.ReceiptMeaning | internal/service/governance_enforcer.go:131-141 | That receipt is pending, for the request's actor, subject, capability and decision, and good for 15 minutes. |
| Governance.TokenPassesOnce | internal/service/governance_enforcer.go:95-116 | The token of a receipt for the request passes, uses up that receipt and nothing else, and is refused from then on. |
| Governance.ApprovalRoundTrip | internal/service/governance_enforcer.go:131-141 | Asking for approval and returning in time with the token, whatever else changed, passes once and only once. |
| ApprovalReceipts.ReceiptTable.FindByTokenHash | internal/repository/governance_repo.go:302-304 | Finds the receipt with a token digest if there is one. |
| ApprovalReceipts.ReceiptTable.CreateApprovalReceipt | internal/service/governance.go:284-300 | Issues a pending receipt with trimmed fields, a normalised decision and 15 minutes unless an expiry is given; refuses an incomplete order. |
| ApprovalReceipts.ReceiptTable.ConsumeForOperation | internal/repository/governance_repo.go:299-332 | Consumes a receipt exactly if the token is not blank and a pending, unexpired receipt carries its digest and is for the actor, subject and capability wherever named; changes nothing else. |
| ApprovalReceipts.ReceiptTable.Revoke | internal/repository/governance_repo.go:237-262 | Revokes a pending receipt, refuses any other. |
| ApprovalReceipts.ReceiptTable.ReissueToken | internal/repository/governance_repo.go:264-290 | Gives a pending, unexpired receipt a new token and lifetime (15 minutes unless 0 < ttl <= 1 hour), refuses any other. |
| ApprovalReceipts.ConsumedIff | internal/repository/governance_repo.go:299-332 | In every reachable state consumption succeeds exactly for the latest token of a pending, unexpired receipt that matches all that was named. |
| ApprovalReceipts.AcceptedIff | internal/repository/governance_repo.go:299-332 | The same of any table without two receipts of one digest, on the receipt's fields. |
| ApprovalReceipts.IssuedMeaning | internal/service/governance.go:284-300 | What a new receipt can be consumed for, and until when: the expiry given or 15 minutes. |
| ApprovalReceipts.StepKeepsInv | internal/repository/governance_repo.go:237-332 | Every step keeps each receipt's digest that of its latest token and every consumed token dead. |
| ApprovalReceipts.TokensAreUnique | internal/model/models.go:694 | In every reachable state no two receipts share a digest. |
| ApprovalReceipts.SettledIsFinal | internal/repository/governance_repo.go:237-332 | Consumed and revoked receipts never change again. |
| ApprovalReceipts.ConsumedAtMostOnce | internal/repository/governance_repo.go:299-332 | Over every run each token is consumed at most once. |
| ApprovalReceipts.ReissueKillsOldToken | internal/repository/governance_repo.go:264-290 | After a reissue the old token is refused whatever happens later. |
| ApprovalReceipts.RevocationIsFinal | internal/repository/governance_repo.go:237-262 | After a revocation the receipt stays revoked and its token is refused whatever happens later. |
| RateLimiter.Limiter.Handle | internal/middleware/ratelimit.go:37-62 | A request is decided, and its visitor refilled, capped, stamped and charged, as specified. |
| RateLimiter.HandleMeaning | internal/middleware/ratelimit.go:37-62 | A request is let through exactly if the tokens held, plus rate times the time since the last request, come to one and the burst is at least one; what is left is capped at the burst, less one if let through. |
| RateLimiter.Limiter.Sweep | internal/middleware/ratelimit.go:25-35 | A sweep forgets exactly the clients idle for more than three minutes at their turn. |
| RateLimiter.SweepIsItsVisits | internal/middleware/ratelimit.go:25-35 | A sweep is its visits one by one, in any order. |
| RateLimiter.TokensStayInRange | internal/middleware/ratelimit.go:47-61 | Over every run tokens stay between 0 and the burst. |
| RateLimiter.ForgettingUnseen | internal/middleware/ratelimit.go:25-65 | If a bucket refills within three minutes, any schedule of sweeps leaves every decision as if no client were ever forgotten. |
| RateLimiter.RateBound | internal/middleware/ratelimit.go:37-62 | Then, for every run, client and window, allowed requests are at most burst + rate times the window. |
| RateLimiter.ForgottenTooEarly | internal/middleware/ratelimit.go:25-65 | Otherwise a run exists that lets twice the burst through in a window whose bound is less. |
| RateLimiter.ForgettingIsUnseenIff | internal/middleware/ratelimit.go:25-65 | Forgetting is invisible exactly if burst <= 0 or burst <= 180 * rate. |
| RateLimiter.RateIsBoundedIff | internal/middleware/ratelimit.go:25-65 | The same condition decides whether the rate is a bound over every window. |
| RateLimiter.ConfiguredLimiter | internal/router/router.go:35 | The configured limiter, 10 a second with bursts of 50, has both properties. |
| Ledger.Billing.RecordUsage | internal/service/kb_billing.go:111-176 | Records usage as specified under every storage failure; free usage touches nothing but the usage table; an error is returned exactly if the usage is invalid, not stored, or priced and not charged all the way. |
| Ledger.Billing.Settle | internal/service/kb_billing.go:150-174 | Account, transaction and earning as specified, up to the write that fails. |
| Ledger.Billing.AddContributorEarning | internal/repository/billing_repo.go:236-261 | Raises the payout first, then the earning; the earning alone can fail. |
| Ledger.Billing.UpsertPayoutPeriod | internal/repository/billing_repo.go:136-158 | Adds to the contributor's month, creating it open at zero. |
| Ledger.Billing.MarkPayoutPeriodPaid | internal/repository/billing_repo.go:172-180 | Marks an existing month paid and changes no amount. |
| Ledger.AmountExactIff | internal/service/kb_billing.go:130 | Priced usage costs tokens times price exactly when that is below 2^63, free usage nothing. |
| Ledger.OverflowUndercharges | internal/service/kb_billing.go:130 | A product beyond 2^64 that passes all checks and is charged as 4. |
| Ledger.StoredUsage | internal/service/kb_billing.go:111-147 | Which usage is stored, and every field of the row: price 0 if free, the input's otherwise. |
| Ledger.FreeUsage | internal/service/kb_billing.go:126-130 | Free usage bills and pays nobody. |
| Ledger.AccountIsOpened | internal/service/kb_billing.go:151-154 | A missing account is opened exactly once something is owed. |
| Ledger.UserIsBilled | internal/service/kb_billing.go:155-164 | Exactly when the user's transaction is booked, and for how much. |
| Ledger.PayoutIsRaised | internal/repository/billing_repo.go:136-158 | The owner's month is raised by gross, tenth and rest exactly if the user was billed and the write succeeds; no other month is. |
| Ledger.EarningIsRaised | internal/repository/billing_repo.go:236-261 | The owner's earning likewise, unless its write fails or a sum overflows; no other row is. |
| Ledger.UsageAnswers | internal/service/kb_billing.go:111-176 | A call answers no error exactly if every write that should follow has happened. |
| Ledger.BooksBalance | internal/service/kb_billing.go:111-176 | After any run, failures included: transactions sum to minus the charges per user, earning rows are the sums of their charges, payout rows those sums in 64 bits. |
| Ledger.FeesAreATenth | internal/service/kb_billing.go:166-167 | Gross is fee plus net, and 0 <= gross - 10 * fee <= 9 per charge, in every total. |
| Ledger.PayoutIsEarningsPlusLeak | internal/repository/billing_repo.go:236-261 | A payout is the contributor's earnings of the month over all collections plus what leaked. |
| Ledger.PayoutEqualsEarningsIff | internal/repository/billing_repo.go:236-261 | Payout equals earnings exactly if no earning failed to be saved after its payout. |
| Ledger.ErrorFreeRunsConserve | internal/service/kb_billing.go:111-176 | In a run whose calls all return no error, payout, the month's earnings and the charged usage are one amount while that fits in 64 bits. |
| Ledger.OneFailureLeaks | internal/repository/billing_repo.go:236-261 | One failed write: 50 paid out, nothing earned. |
| Ledger.PaidRowStaysIff | internal/repository/billing_repo.go:136-180 | A payout row, paid or not, stays as it is exactly under the steps that bring its month no charge, and no step takes the mark back. |
| Ledger.PaidMonthGrows | internal/repository/billing_repo.go:136-180 | Usage, payment, usage: the paid row goes from 50 to 100. |
| SnapshotDiff.DiffSnapshots | internal/service/kb_hub.go:632-671 | The two scans produce a diff of the snapshots, whatever order the maps are walked in. |
| SnapshotDiff.CompareNew | internal/service/kb_hub.go:653-664 | The first scan lists added and changed entries once each and counts the rest. |
| SnapshotDiff.FindRemoved | internal/service/kb_hub.go:665-669 | The second scan lists the removed entries once each. |
| SnapshotDiff.IndexById | internal/service/kb_hub.go:644-651 | Of entries with the same id the last counts. |
| SnapshotDiff.LastCounts | internal/service/kb_hub.go:644-651 | An entry that no later one shares its id with is the one found under it. |
| SnapshotDiff.DiffIsAPatch | internal/service/kb_hub.go:632-671 | Removing, replacing and adding as the diff says turns the old entries into the new ones, up to the comparison. |
| SnapshotDiff.SnapshotsPatch | internal/service/kb_hub.go:632-671 | So for any two snapshots and the service's comparison. |
| SnapshotDiff.CountsPartition | internal/service/kb_hub.go:652-670 | The counts partition both sides. |
| SnapshotDiff.ListedOnceIff | internal/service/kb_hub.go:644-651 | A side has as many ids as listed entries exactly if no id is listed twice. |
| SnapshotDiff.DiffTurnedAround | internal/service/kb_hub.go:632-671 | Comparing the other way round swaps added and removed and turns every change about. |
| SnapshotDiff.PrintedAlikeIff | internal/service/kb_hub.go:1020-1022 | Tags without spaces print alike exactly if alike, apart from no tag and one empty tag. |
| SnapshotDiff.ChangedIff | internal/service/kb_hub.go:1020-1022 | For such tags an entry counts as changed exactly if a compared field differs. |
| SnapshotDiff.SpacesHideChanges | internal/service/kb_hub.go:1020-1022 | For every entry with a space in a tag, cutting its tags at the spaces is a real change that goes unseen. |
| SnapshotDiff.UnseenChangeIff | internal/service/kb_hub.go:1020-1022 | An entry has a change that goes unseen exactly if it has two or more tags, a space in a tag, no tag, or one empty tag. |

## Left out

- Entry fields summary, tags, metadata and source URI of knowledge entries, and the JSON payload beyond id, title, status, version and content hash: they travel like the title. Version numbers pass through JSON as floating point in the client contract test; versions above 2^53 are not modelled.
- SyncTransactions: the base-version, status and replay checks run before the transaction, so a stale base version is proved refused for uninterrupted calls only; the machine lets transactions carry what they read earlier, as the code does.
- SyncTransactions.StepKeepsNumbered: a plain envelope of another family is one step here; `SyncLateNumbers` splits it into reserving and inserting and proves what then holds.
- SyncTransactions.RunsKeepNumbered: the same; and a key can be recorded again once cleanup has removed the event that had it.
- SyncTransactions.PrefixStability: the same; without that simplification it holds exactly as `SyncLateNumbers.PrefixIsStableIff` says.
- SyncLateNumbers.LateEventIsPassedOver: numbers and events only; how late events of other families meet a device is modelled no further, as the modelled client gives up at the first of them.
- Tombstones carry the hash of the content read before the transaction; the model does the same and proves nothing about it.
- Contacts, skill, agent and server settings, messages and conversations: the same protocol as knowledge entries, or easy guards.
- Embedding queue: a commit of `CompleteJob` whose acknowledgement is lost, the order among jobs of equal priority and creation time, `cancelled` and `skipped` statuses (never written by this code), the polling loop's timer, and SQLite's lack of row locks.
- EmbeddingRepo.Repo.ReplaceSnapshotDocuments: the foreign-key cascade is that of the migrations; databases created by AutoMigrate do not cascade.
- AuditChain: JSON encoding and SHA-256 are one arbitrary hash function; the paging of audit queries is left out.
- Governance: rule conditions are stored but never evaluated by the code; storage failures, listing, counting and scan results are left out; ties in (priority, created_at) go by row order here, where the database promises none.
- RateLimiter: floating-point rounding is replaced by real arithmetic, and clocks by non-decreasing readings.
- Ledger: calls run one at a time; concurrent calls can overwrite each other's sums, which is not modelled. Invoices, refunds, disputes, plans and subscriptions are left out.
- SnapshotDiff.UnseenChangeIff: of tags only; metadata is compared as the text Go prints for it, which is an opaque field here; ownership checks and loading are left out.
- HTTP routing, authentication, WebSocket delivery, object storage, the search ranking and the embedding providers themselves.
