# Verified model of a personal assistant's stores, synchronisation and scheduler

This project models the parts of a personal assistant that must stay correct under concurrency, retries and crashes, and
proves what they promise for all inputs and all runs.

- **Document extraction and chunking** (`text.dfy`, `documents.dfy`, `chunking.dfy`, `extraction.dfy`, `headings.dfy`):
  Markdown, plain text and page texts are split into sections and bounded chunks whose locators rebuild their text exactly.
- **The knowledge index** (`knowledge_tables.dfy`, `knowledge_machine.dfy`, `knowledge_store.dfy`): sources, versions,
  chunks, tombstones and events, with one function per SQL statement. Racing reconciliation runs are a transition system
  over these statements; the store is a class whose methods are proved against the functions.
- **Reconciliation** (`reconcile_diff.dfy`, `reconcile_plan.dfy`, `building.dfy`, `reconcile_run.dfy`,
  `reconciliation.dfy`, `convergence.dfy`): the diff between a scan and the index, the plan it makes, the run that executes
  it, a second run after it, and change detection before it.
- **Mail synchronisation** (`mail_tables.dfy`, `mail_machine.dfy`, `mail_sync.dfy`): UIDVALIDITY and UID cursors, chunked
  commits, deduplication by logical identity, failures and back-off.
- **Event delivery** (`event_delivery.dfy`, `event_run.dfy`): the collector with its cursor, records, sink and receipts, on
  top of the mail extension's poll.
- **Drafts and sends** (`outbox_tables.dfy`, `draft_machine.dfy`, `send_machine.dfy`, `outbox.dfy`): draft versions behind
  a compare-and-set pointer, idempotent requests, artifact cleanup, materialised sends and their projected states.
- **The durable scheduler** (`scheduling.dfy`, `catch_up.dfy`, `scheduler.dfy`): cron expressions, the bounded search,
  catch-up arithmetic, and ticks of any number of processes.

`dafny verify dfyconfig.toml` checks everything.

## Assumptions

- Every SQL statement, and every transaction, is one atomic step. Primary and unique keys are those of the migrations, and
  deleting a version row deletes its chunk rows.
- A record-store command is atomic: it rolls back on an exception, replays its receipt for the same key and request, and
  refuses the same key for another request.
- Hashes and identifiers derived from hashes or joined from several columns stand for the values they are made from.
- Extraction is deterministic, a reconciliation run builds one file at a time, and random identifiers are new.
- The identity of the embedder, its dimension included, is known before a reconciliation plans and stays the same during the
  run. An embedder that learns its dimension at its first use does not satisfy this in the first run of a process; what then
  happens is stated by `Convergence.OtherEmbedderRebuildsAll`.
- A mailbox's UIDVALIDITY only increases when it changes, and under one value a UID is never reused (section 2.3.1.1 of
  RFC 3501). A fetch returns the lowest messages from its start UID, in ascending order.
- Event sequence numbers become visible in increasing order. `EventRun.LateEventNeverDelivered` shows what happens
  otherwise.
- Time-zone conversion is an arbitrary function of the UTC minute. Instants are whole microseconds; the floating-point
  division of the interval branch is exact for differences below 285 years.

## Where the code does not keep what one might expect

- After a skipped heading level the recorded heading path contains headings that do not enclose the section
  (`HeadingPaths.SkippedLevelNests`); `HeadingPaths.HeadingPathsExact` says exactly when it is right.
- A reconciliation without errors does not always serve every scanned file: a build candidate younger than an hour that a
  crashed run left behind silently blocks its version (`Convergence.YoungCandidateBlocks`). `Convergence.Reconcile` states
  the condition, which can be evaluated before the run, as an equivalence.
- If the insert of a cancelled draft attempt is executed only after its recovery lookup, the attempt deletes an artifact
  that a version references (`DraftMachine.LateInsertLosesArtifact`, `DraftMachine.ArtifactLostIff`).
- A failed draft attempt can leave its artifact behind: the put stands before the guarded part, so when its answer is lost
  nothing requests the deletion (`DraftMachine.LostPutLeavesOrphan`), and a cancellation during the recovery lookup has the
  same effect. `DraftMachine.NoOrphans` says exactly which attempts leave an orphan.
- An edit that commits after a send has read its draft does not stop the send (`SendMachine.EditBetweenReadAndClaim`, and
  a whole run in `SendMachine.SupersededVersionMaterialises`). `SendMachine.MaterializedIsCurrentIff` says exactly when a
  materialised version is still the current one; a send that reads the draft after the edit is refused
  (`SendMachine.NoEarlierVersion`).
- The first incremental run of a process whose embedder has not learned its dimension reports every file as modified, on an
  index on which nothing is to be done (`Convergence.OtherEmbedderRebuildsAll`: exactly if the two identities differ).
- A cron schedule is rejected not only after 1440 missed minutes but also when its next match is more than 527,040 minutes
  away (`CatchUp.SparseCronRejected`, and a leap-day schedule in `CatchUp.LeapDayRejected`). A rejected schedule ends the
  tick: the schedules treated are exactly those listed before the first rejected one (`Scheduler.Schedules.Tick`, and an
  example in `Scheduler.LeapDayHoldsUpOthers`).

## Model

| member | source | states |
|---|---|---|
| `Documents.RebuildIsSlice` | extensions/personal_knowledge/src/personal_knowledge/chunking.py:148-172 | For a locator in range, of any of the three kinds, the rebuilt text is one contiguous slice of the document, from the locator's start to its end offset; otherwise it is rejected. |
| `Documents.TilesOnce` | extensions/personal_knowledge/src/personal_knowledge/chunking.py:18-39 | If pieces tile a text, every non-whitespace character lies in exactly one of them. |
| `Text.Utf8SizeIs` | extensions/personal_knowledge/src/personal_knowledge/chunking.py:47 | The size of a text is the length of its UTF-8 encoding, from which every character can be read back. |
| `Chunking.FitSpan` | extensions/personal_knowledge/src/personal_knowledge/chunking.py:130-136 | The halving loop ends with a non-empty span within both limits, and it gave up no more than the byte limit forced it to: a span shorter than the character limit breaks the byte limit when stretched to at most twice its length plus one. |
| `Chunking.BoundedSpans` | extensions/personal_knowledge/src/personal_knowledge/chunking.py:127-138 | The spans partition the text in order and each is non-empty, within both limits and not wastefully short, so the guard that raises is never reached. |
| `Chunking.LineOffset` | extensions/personal_knowledge/src/personal_knowledge/chunking.py:141-145 | The offset of a line is where it starts in the text, 0 for any number up to 1 and one past the end for a line that does not exist. |
| `Chunking.LineFragments` | extensions/personal_knowledge/src/personal_knowledge/chunking.py:98-114 | An oversized line is cut into document fragments that continue the tiling exactly up to the end of that line and are as long as the limits allow. |
| `Chunking.FlushLines` | extensions/personal_knowledge/src/personal_knowledge/chunking.py:79-94 | A flushed buffer becomes the line range it was collected from and continues the tiling without gap or overlap. |
| `Chunking.SplitLines` | extensions/personal_knowledge/src/personal_knowledge/chunking.py:70-124 | The pieces tile the section exactly, are within the limits, and are packed greedily: a line range followed by another was closed only because its next line did not fit, and fragments of a line are as long as the limits allow. |
| `Chunking.SplitSection` | extensions/personal_knowledge/src/personal_knowledge/chunking.py:42-67 | Each section is tiled exactly by its pieces, which are within the limits unless the section is a document fragment; a section that fits is kept whole, lines are packed greedily, and fragments of lines and pages are as long as the limits allow. |
| `Chunking.ChunkDocument` | extensions/personal_knowledge/src/personal_knowledge/chunking.py:18-39 | Exactly the positive limits are accepted. Chunks are the non-blank pieces of the sections so divided, in order and numbered from 0; they rebuild to their own text, stay in their section and heading path, have at most the given number of characters and 65536 bytes, and tile the document: only whitespace is left out and nothing is covered twice. |
| `Extraction.ExtractLines` | extensions/personal_knowledge/src/personal_knowledge/extractors.py:82-143 | Extraction fails exactly on too long or blank text, with the error for it; otherwise the sections tile the text, each is a heading line or a maximal block of body lines outside fences, and each carries the heading path in force at its place. |
| `Extraction.NormalizedBreaks` | extensions/personal_knowledge/src/personal_knowledge/extractors.py:84 | Wherever it stands, a carriage return with a line feed becomes one line feed and so does one without, any other text is kept, and the text shortens by the number of such pairs. |
| `HeadingPaths.LineKinds` | extensions/personal_knowledge/src/personal_knowledge/extractors.py:110-136 | What a line is, from its text alone: body after an odd number of fence lines; otherwise, in Markdown, a heading with its level and title, a gap if it is white space, and body if neither. |
| `HeadingPaths.HeadingIff` | extensions/personal_knowledge/src/personal_knowledge/extractors.py:158-162 | The heading recogniser accepts exactly one to six hashes, white space, a title and trailing white space, and reads that level and title. |
| `Extraction.Flush` | extensions/personal_knowledge/src/personal_knowledge/extractors.py:91-108 | Closing a block adds exactly the maximal run of body lines since it was opened, with the heading path of its first line. |
| `Extraction.NextCut` | extensions/personal_knowledge/src/personal_knowledge/extractors.py:505-514 | A fragment makes progress, stays within the limit, and ends after the last line break in the window, else after the last blank, else at the limit. |
| `Extraction.FragmentRanges` | extensions/personal_knowledge/src/personal_knowledge/extractors.py:501-515 | The ranges partition the page in order, each within the limit and cut at the best boundary. |
| `Extraction.AssemblePages` | extensions/personal_knowledge/src/personal_knowledge/extractors.py:221-246 | The pages are those of the readable contents with form feeds replaced, an unreadable one being empty; it fails exactly when their total length exceeds the limit. |
| `Extraction.PagesAre` | extensions/personal_knowledge/src/personal_knowledge/extractors.py:219-246 | The page texts character by character: the first 200 pages, form feeds turned into line feeds, all else kept, unreadable pages empty; the length counted is that of the joined text without its page breaks. |
| `Extraction.PageSections` | extensions/personal_knowledge/src/personal_knowledge/extractors.py:248-266 | The fragments kept of a page continue the tiling of the joined text up to the next page. |
| `Extraction.ExtractPdf` | extensions/personal_knowledge/src/personal_knowledge/extractors.py:219-287 | Exactly which page contents fail, with which error, without pages, with too much text, or with only blank pages none of which was skipped. Otherwise the text is the pages joined with form feeds, empty if all are blank, there is a section exactly if some page is not blank, and the page fragments are exact slices that tile the text; no page separator can be confused with page content. |
| `Extraction.ChunkText` | extensions/personal_knowledge/src/personal_knowledge/extractors.py:82-143 | Round trip for Markdown and plain text: for every text and positive limit, the document is the given text with its line breaks normalised and the sections its lines call for, and chunking it gives chunks that rebuild to their text and cover every non-whitespace character once; it fails exactly on blank or oversized text or a limit that is not positive. |
| `Extraction.ChunkPdf` | extensions/personal_knowledge/src/personal_knowledge/extractors.py:219-287 | The same round trip for every list of page contents: it fails exactly when extraction does or the limit is not positive, and without a failure there is a chunk exactly if some page is not blank. |
| `HeadingPaths.HeadingPathsExact` | extensions/personal_knowledge/src/personal_knowledge/extractors.py:114-126 | The heading paths recorded by the code are the titles of the enclosing headings throughout a document if and only if no heading keeps an entry of its own level or deeper, that is, no level was skipped above it. |
| `HeadingPaths.SkippedLevelNests` | extensions/personal_knowledge/src/personal_knowledge/extractors.py:117 | A document with a skipped level for which the recorded path lists a sibling as a parent. |
| `KnowledgeTables.ActivateKeeps` | extensions/personal_knowledge/src/personal_knowledge/store.py:316-399 | Promoting a candidate whose chunk list is complete keeps the index consistent: one READY version per source, that of its recorded bytes, with exactly its chunks; a lost race changes nothing. |
| `KnowledgeTables.DeleteKeeps` | extensions/personal_knowledge/src/personal_knowledge/store.py:426-479 | A conditional delete keeps the index consistent: every other source keeps its one READY version with exactly its chunks. |
| `KnowledgeTables.DeleteRemoves` | extensions/personal_knowledge/src/personal_knowledge/store.py:426-479 | A delete succeeds exactly on the observed row, takes all its versions and chunks, leaves everything else, and its tombstone makes any later life of the id start beyond every generation an old observer can expect. |
| `KnowledgeTables.MoveChanges` | extensions/personal_knowledge/src/personal_knowledge/store.py:153-189 | A move is stale exactly if the observed row is gone, conflicts exactly if the target is taken, and otherwise changes path, media type, size, time and generation of that row and nothing else. |
| `KnowledgeTables.SweepLeaves` | extensions/personal_knowledge/src/personal_knowledge/store.py:410-424 | A sweep leaves exactly the finished versions, the sweeping run's own and those with a heartbeat within the maximal age, unchanged, and takes the chunks of the others. |
| `KnowledgeTables.BeatProtects` | extensions/personal_knowledge/src/personal_knowledge/store.py:305-315 | A candidate that its owner began or sent a heartbeat for within the maximal age is still its owner's after any other run's sweep. |
| `KnowledgeTables.PutExtends` | extensions/personal_knowledge/src/personal_knowledge/store.py:238-303 | Guarded upserts of the next chunks extend the rows of an owned candidate from one prefix of its build to a longer one. |
| `KnowledgeMachine.IndexAlwaysComplete` | extensions/personal_knowledge/src/personal_knowledge/store.py:33-46 | In every reachable state of any interleaving of runs, lost answers, aborts, crashes, sweeps, moves and deletes, an active version is the only READY version of its source, has the source's hash, and shows exactly the chunks 0 to n-1 of its build. |
| `KnowledgeMachine.ActiveChunksNeverChange` | extensions/personal_knowledge/src/personal_knowledge/store.py:238-303 | No step of any run alters the chunks of a version while it stays active. |
| `KnowledgeMachine.GenerationHistory` | extensions/personal_knowledge/src/personal_knowledge/store.py:108-151 | Between any two moments of any run a source's generation never decreases, even across delete and re-creation, and it is equal exactly when no move, activation or deletion succeeded in between; then the row is unchanged too. |
| `KnowledgeMachine.CasSeesNoGap` | extensions/personal_knowledge/src/personal_knowledge/store.py:342-399 | No ABA: a conditional statement that succeeds with an observed generation acts on exactly the row that was observed, with no transition of that source in between. |
| `KnowledgeMachine.GenerationsConsumedOnce` | extensions/personal_knowledge/src/personal_knowledge/store.py:153-189 | Two successful transitions of the same source never consume the same generation; later ones consume higher ones. |
| `KnowledgeMachine.UndisturbedBuild` | extensions/personal_knowledge/src/personal_knowledge/store.py:316-399 | From any reachable state, a run that begins a new version of a source, writes its chunks and activates it undisturbed makes it the complete, served version. |
| `KnowledgeStore.PlanBatches` | extensions/personal_knowledge/src/personal_knowledge/store.py:238-303 | The batches concatenate to the chunks in order, each fits both frame limits, none was closed while the next chunk still fitted, and it fails exactly when a single chunk exceeds the frame. |
| `KnowledgeStore.Store.InsertSource` | extensions/personal_knowledge/src/personal_knowledge/store.py:108-151 | Inserts unless the id or path is taken, starting at the tombstone's generation, and reads back the source at the path if there is one. |
| `KnowledgeStore.Store.MoveSource` | extensions/personal_knowledge/src/personal_knowledge/store.py:153-189 | Moves only the observed row, to a free path, and raises its generation by one. |
| `KnowledgeStore.Store.InsertChunks` | extensions/personal_knowledge/src/personal_knowledge/store.py:238-303 | What has been written is a prefix of the chunks, all of them exactly when the call succeeds; for an owned candidate it succeeds exactly when no chunk exceeds the frame, and a lost candidate is not written at all. |
| `KnowledgeStore.Store.ActivateVersion` | extensions/personal_knowledge/src/personal_knowledge/store.py:316-399 | The two statements of the activation transaction, as the table function whose effect on consistency is proved. |
| `KnowledgeStore.Store.DeleteSource` | extensions/personal_knowledge/src/personal_knowledge/store.py:426-479 | Deletes the observed row with everything below it, or nothing. |
| `ReconcileDiff.Diff` | extensions/personal_knowledge/src/personal_knowledge/index.py:389-458 | Every scanned file is in exactly the list it belongs to, given the moves, and the deleted sources are the vanished ones that no move claimed. |
| `ReconcileDiff.MovesInOrder` | extensions/personal_knowledge/src/personal_knowledge/index.py:411-432 | Among files with the same bytes, earlier scanned ones get the vanished sources with earlier paths. |
| `ReconcileDiff.OrderRule` | extensions/personal_knowledge/src/personal_knowledge/index.py:422 | Paths are compared by root and then by name, at the first character in which they differ, a beginning coming first. |
| `ReconcilePlan.MovesAllSucceed` | extensions/personal_knowledge/src/personal_knowledge/index.py:297-331 | Executing the moves in order, every one finds its snapshot current and its target path free. |
| `ReconcilePlan.MovesKeepPathsApart` | extensions/personal_knowledge/src/personal_knowledge/index.py:297-331 | In every intermediate state of the moves no two sources share a path. |
| `ReconcilePlan.PlanReachesScan` | extensions/personal_knowledge/src/personal_knowledge/index.py:389-458 | After the moves every added path is free, every source to delete is as it was and off the scan, and with the additions the paths are exactly the scanned ones. |
| `ReconcilePlan.PlanConserves` | extensions/personal_knowledge/src/personal_knowledge/index.py:389-458 | Stored plus added equals scanned plus deleted. |
| `ReconcilePlan.PlanMovesMost` | extensions/personal_knowledge/src/personal_knowledge/index.py:411-432 | For every content the number of moves is the smaller of its new paths and its vanished sources. |
| `Building.Claim` | extensions/personal_knowledge/src/personal_knowledge/index.py:549-572 | Tries the three ids in turn: with a free path exactly one new row appears, under the first id not in use; with a taken path nothing is inserted. |
| `Building.VersionTells` | extensions/personal_knowledge/src/personal_knowledge/extractors.py:146-155 | Two builds have the same version identifier exactly if bytes, kind of extractor and embedding identity agree. |
| `Building.BuildClaimed` | extensions/personal_knowledge/src/personal_knowledge/index.py:584-638 | Either the source ends up with the new version active and one event recorded, or the tables are exactly as before, chunks and candidate included; which of them happens is decided by an occupied version, the embedder and the frame limit. |
| `Building.BuildFile` | extensions/personal_knowledge/src/personal_knowledge/index.py:460-653 | One file of the plan: the outcome says whether the file is now served, was served before, failed or was blocked, blocked exactly when an unfinished candidate holds the version; sources and versions elsewhere are untouched. |
| `ReconcileRun.MovePhase` | extensions/personal_knowledge/src/personal_knowledge/index.py:297-331 | All moves and their events, and the moved rows remembered for the builds. |
| `ReconcileRun.AddPhase` | extensions/personal_knowledge/src/personal_knowledge/index.py:332-333 | Building the added files keeps the run invariant, touches only their paths, and without a failure or block builds and announces each of them. |
| `ReconcileRun.ModifyPhase` | extensions/personal_knowledge/src/personal_knowledge/index.py:334-341 | Building the matched files finds for each the row that the moves left, keeps the run invariant, and without a failure or block announces every change of bytes and builds every file not served already. |
| `ReconcileRun.DeletePhase` | extensions/personal_knowledge/src/personal_knowledge/index.py:342-361 | Every planned deletion succeeds, the sources afterwards are exactly the earlier ones without the planned ones, and each deletion is announced. |
| `Reconciliation.NeedsRebuild` | extensions/personal_knowledge/src/personal_knowledge/index.py:365-387 | On a consistent index an unchanged file needs a rebuild exactly if the run is full, or it has no active version or one of another extractor or embedding identity. |
| `Reconciliation.SelectRebuilds` | extensions/personal_knowledge/src/personal_knowledge/index.py:282-286 | The unchanged files are divided into those already served and those to rebuild, and the count is that of the former. |
| `Reconciliation.Execute` | extensions/personal_knowledge/src/personal_knowledge/index.py:297-361 | The four phases together: the failed files are exactly those that the tables before the run, the scan and the readers already determine, and the error count is their number. Whatever failed, only sources on scanned paths remain, a failing file is served exactly if it was once the moves were done, and any other exactly if its version was not occupied at the start; the events added are those change detection would announce, plus rebuilds and files under random ids. |
| `Convergence.Reconcile` | extensions/personal_knowledge/src/personal_knowledge/index.py:264-363 | The error count is the number of files that the swept tables say must fail, zero if every file can be read and built; which files are served afterwards is stated exactly, also for runs with errors. An error-free run leaves exactly the scanned files served if and only if no candidate younger than an hour held a version it needed. Moved, added and deleted are the numbers of moves, of new paths without a move and of vanished sources without one; an incremental run without errors and blocks builds every added and modified file, and an incremental run reports no change exactly if the index was settled, and then changes nothing. |
| `Convergence.BuildableSucceeds` | extensions/personal_knowledge/src/personal_knowledge/index.py:460-653 | Only a file that cannot be read, extracted, embedded or framed can make a run fail. |
| `Convergence.ReconcileTwice` | extensions/personal_knowledge/src/personal_knowledge/index.py:264-363 | After an error-free run, a second incremental run over the same files reports nothing to do, nothing built and no event if and only if the first was not blocked; the events recorded are those the two reports count. |
| `Convergence.OtherEmbedderRebuildsAll` | extensions/personal_knowledge/src/personal_knowledge/index.py:365-387 | On a settled index a run finds every file unchanged, and rebuilds each of them unless the embedding identity it plans with is the one the index was built with. |
| `Convergence.StaleUnblocked` | extensions/personal_knowledge/src/personal_knowledge/index.py:269-273 | If every unfinished candidate is older than an hour, nothing can be blocked. |
| `Convergence.YoungCandidateBlocks` | extensions/personal_knowledge/src/personal_knowledge/index.py:597-598 | For every file a run that claims it, begins its version and crashes leads from the empty index to one on which the condition fails and the file is not served. |
| `Convergence.DetectChanges` | extensions/personal_knowledge/src/personal_knowledge/index.py:193-262 | Records exactly the keys that describe the differences between the scan and the sources of the scanned roots, none of them about a source outside these roots, changes nothing else, and returns how many were new. |
| `Convergence.AnnouncementsSay` | extensions/personal_knowledge/src/personal_knowledge/index.py:193-262 | What each announcement says, kind by kind: which source or unused id, path, bytes before and now, and always the next generation of that id. |
| `Convergence.PollThenReconcile` | extensions/personal_knowledge/src/personal_knowledge/index.py:193-361 | When all sources lie in authorized roots, a run after change detection records again none of the announced keys; what it adds is a rebuild of unchanged bytes or a file under a random id. |
| `MailTables.DedupeKey` | extensions/nju_smail/src/nju_smail/mime.py:118-128 | A message without a usable Message-ID is identified by its content hash alone, and identities of the two kinds never coincide. |
| `MailTables.SameIdentity` | extensions/nju_smail/src/nju_smail/mime.py:118-128 | Two messages have the same identity exactly if their content hashes agree and so do their Message-IDs, stripped and in lower case, or neither has one; or if the digest collides on what the two bind. |
| `MailTables.EventKeyInjective` | extensions/nju_smail/src/nju_smail/store.py:277 | The textual event key determines account and message identity, whatever characters the account id contains. |
| `MailTables.PutKeeps` | extensions/nju_smail/src/nju_smail/store.py:150-301 | The inserts for one message keep messages and events in one-to-one correspondence and every location on a stored message; an event row is added exactly if the message is new. |
| `MailTables.EventCount` | extensions/nju_smail/src/nju_smail/store.py:134-324 | There are exactly as many events as messages. |
| `MailMachine.ChunkStored` | extensions/nju_smail/src/nju_smail/sync.py:228-250 | Committing a chunk leaves everything up to the new cursor stored, keeps what was stored before, and leaves a gap-free rest. |
| `MailMachine.StepKeeps` | extensions/nju_smail/src/nju_smail/sync.py:149-258 | Delivery, expunge, renumbering, and every step of any number of concurrent synchronisations, with failures and crashes anywhere, keep the invariant. |
| `MailMachine.NoMailLost` | extensions/nju_smail/src/nju_smail/sync.py:149-258 | At every moment of every run, a message in the mailbox at or below the stored cursor under the stored UIDVALIDITY has its location row and its message row. |
| `MailMachine.OneEventPerMessage` | extensions/nju_smail/src/nju_smail/store.py:134-324 | At every moment of every run messages and events correspond one to one, and the event log only grows at its end. |
| `MailMachine.UndisturbedSync` | extensions/nju_smail/src/nju_smail/sync.py:149-258 | From any reachable state, a synchronisation that fetches new mail and commits it undisturbed has stored all of it and moved the cursor to its last UID. |
| `MailSync.MailStore.ApplyBatch` | extensions/nju_smail/src/nju_smail/store.py:134-324 | The transaction stores the batch and the cursor, and the count taken from the message inserts equals the event rows and the message rows actually added. |
| `MailSync.MailStore.EventsAfter` | extensions/nju_smail/src/nju_smail/store.py:366-375 | The page is the stretch of the log right after the given sequence number, up to the limit. |
| `MailSync.SyncFolder` | extensions/nju_smail/src/nju_smail/sync.py:149-258 | One synchronisation in the terms of the table functions, whose progress is proved; the reported counts are the event rows added. |
| `MailSync.SyncProgress` | extensions/nju_smail/src/nju_smail/sync.py:149-258 | With a faithful host, all mail up to the cursor is stored afterwards, nothing more is pending than before, and if the synchronisation ends well and mail was pending, strictly less is, also across a UIDVALIDITY change. |
| `MailSync.AskedUnlessWaiting` | extensions/nju_smail/src/nju_smail/sync.py:149-170 | Read off the row: without force a folder that needs the user or whose deadline lies ahead is left alone and reported so; any other is asked, and an answering host makes the synchronisation end well, with the number of messages fetched. |
| `MailSync.AskedMakesProgress` | extensions/nju_smail/src/nju_smail/sync.py:149-258 | With a truthful answering host, a folder that need not wait has strictly less mail pending afterwards, if there was any, and its failures are forgotten. |
| `MailSync.RefusalRecorded` | extensions/nju_smail/src/nju_smail/sync.py:260-291 | A refusal is recorded with its code, one more failure and a deadline unless the user is needed, and reported; no mail, event or cursor is touched. |
| `MailSync.RecordFailure` | extensions/nju_smail/src/nju_smail/sync.py:260-291 | Records the failure of each folder in turn as the table function does. |
| `MailSync.FailuresKeepCursors` | extensions/nju_smail/src/nju_smail/sync.py:260-291 | Recording failures touches no cursor, message, location or event; a new row has no cursor. |
| `MailSync.CappedFailures` | extensions/nju_smail/src/nju_smail/sync.py:38-40 | Counting failures only up to seven never changes the delay. |
| `MailSync.ExponentialBackoff` | extensions/nju_smail/src/nju_smail/sync.py:393-397 | After n transient failures in a row the folder waits 60 * 2^(n-1) seconds from the last one, at most an hour. |
| `MailSync.AskedFromDeadline` | extensions/nju_smail/src/nju_smail/sync.py:393-418 | After n transient failures in a row the folder is asked again exactly from the deadline on. |
| `MailSync.AskedWhenForced` | extensions/nju_smail/src/nju_smail/sync.py:149-170 | After an error that only the user can resolve the folder is asked again exactly when forced. |
| `MailSync.FailureAfterReset` | extensions/nju_smail/src/nju_smail/sync.py:189-210 | A reset for a new UIDVALIDITY keeps the count of failures and the deadline, so a failing refetch counts on from them. |
| `EventDelivery.SourceNameInjective` | src/personal_assistant/core/event_delivery.py:25 | For extension ids without a colon the joined source name determines extension and source. |
| `EventDelivery.EventCollector.Validate` | src/personal_assistant/core/event_delivery.py:45-79 | The loop accepts exactly the valid batches: bounded, with distinct keys that are exactly the events' keys, aware times and canonical events. |
| `EventDelivery.EventCollector.RecordAll` | src/personal_assistant/core/event_delivery.py:80-100 | Succeeds exactly if no recorded event is changed and the sink accepts every unseen one, and then records and hands over exactly the unseen events, in order. |
| `EventDelivery.EventCollector.Collect` | src/personal_assistant/core/event_delivery.py:20-109 | The whole command: replay by job, or all of records, sink calls and cursor, or nothing. |
| `EventDelivery.CollectIff` | src/personal_assistant/core/event_delivery.py:20-109 | A new job takes effect exactly if the three names and the job are within their lengths, the batch is well-formed point by point, nothing recorded is contradicted and the sink takes every new event. |
| `EventDelivery.CollectLeaves` | src/personal_assistant/core/event_delivery.py:80-107 | It then leaves every event of the batch recorded under this extension version, only events of the batch handed over, the batch's cursor, and nothing of other sources changed. |
| `EventDelivery.CountedOnce` | src/personal_assistant/core/event_delivery.py:79-107 | The count returned is the number of records, and of sink calls, added; a failed job changes nothing. |
| `EventDelivery.CollectKeepsSinkOnce` | src/personal_assistant/core/event_delivery.py:80-100 | Recorded events and committed sink calls stay in one-to-one correspondence, whatever is polled. |
| `EventDelivery.ChangedEventNeverAdvances` | src/personal_assistant/core/event_delivery.py:84-86 | A batch that changes an event recorded under the same key leaves records, sink calls and cursor untouched. |
| `EventDelivery.ReplayedJob` | src/personal_assistant/core/event_delivery.py:109 | Running a committed job again returns the same count and changes nothing, whatever the source answers; with another request it is refused and changes nothing. |
| `EventRun.Poll` | extensions/nju_smail/src/nju_smail/worker.py:331-370 | Answers the next page of the log with the cursor after its last row, or nothing new with the cursor unchanged when degraded, or an error for a cursor that is no number. |
| `EventRun.PageRows` | extensions/nju_smail/src/nju_smail/worker.py:346-363 | A page is in sequence order, after the cursor, and leaves out no event up to the new cursor. |
| `EventRun.ExactlyOnce` | src/personal_assistant/core/event_delivery.py:20-109 | At every moment of every run of overlapping collections, each with its own read of the cursor, poll and commit, which takes effect only at the version it read, with crashes, retries, rollbacks and other sources, every log event up to the stored cursor has one record with its content and exactly one committed sink call. |
| `EventRun.CursorNeverBack` | src/personal_assistant/core/event_delivery.py:101-106 | No step of any such run moves the stored cursor of the mail source back, whatever the log does. |
| `EventRun.CommittedPage` | src/personal_assistant/core/event_delivery.py:20-109 | A commit that takes effect, however long ago it was polled, used the rows right after the cursor stored now, as the log had them at the poll. |
| `EventRun.CommitIff` | src/personal_assistant/core/event_delivery.py:101-106 | A commit takes effect exactly if the cursor still has the version that was read, the job is new and the batch is accepted. |
| `EventRun.UndisturbedCollection` | src/personal_assistant/core/event_delivery.py:20-109 | From any state, a collection that reads, is answered a well-formed acceptable batch and commits undisturbed has delivered it and moved the cursor to its end. |
| `EventRun.SynchronisingGrowsLog` | extensions/nju_smail/src/nju_smail/store.py:134-324 | Any run of concurrent synchronisations provides a log that grows at its end, as the delivery theorem requires it. |
| `EventRun.LateEventNeverDelivered` | extensions/nju_smail/src/nju_smail/store.py:366-375 | Why sequence numbers must become visible in order: in every run, an event that is undelivered when the cursor is at or beyond its sequence number stays undelivered at every later moment, whenever it appears in the log. |
| `OutboxTables.InsertKeeps` | extensions/nju_smail/src/nju_smail/store.py:428-529 | The transaction keeps versions at exactly 1 to current, inserts current plus one or changes nothing, and moves no other draft. |
| `OutboxTables.RowUnique` | extensions/nju_smail/src/nju_smail/store.py:409-426 | A version row is the one its draft and request determine, and the one its draft and version determine. |
| `OutboxTables.Projected` | extensions/nju_smail/src/nju_smail/store.py:578-607 | A projection gives an action in PREPARED or UNKNOWN a different state and its receipt, leaves one in any other state as it is, and touches nothing else. |
| `DraftMachine.SameRequestSameOutput` | extensions/nju_smail/src/nju_smail/drafts.py:113-212 | At every moment of every run, all successful attempts of one draft and request returned the same row and had the same content, and no two rows of a draft share a request. |
| `DraftMachine.ReplayAnswers` | extensions/nju_smail/src/nju_smail/drafts.py:113-126 | When a row of its draft and request is there, an attempt ends with that row if the content is the same and with an error otherwise, whether it finds it first or while recovering. |
| `DraftMachine.UndisturbedAttempt` | extensions/nju_smail/src/nju_smail/drafts.py:113-212 | From any reachable state, an attempt with a new request that nothing disturbs stores the next version, returns it and keeps its artifact. |
| `DraftMachine.VersionsComplete` | extensions/nju_smail/src/nju_smail/store.py:428-529 | At every moment of every run the versions of a draft are exactly 1 to its current one, and all belong to the draft's account. |
| `DraftMachine.ReferencedArtifactsSurvive` | extensions/nju_smail/src/nju_smail/drafts.py:172-195 | An artifact that a version references is not deleted at any moment of any run, if its attempt looked its request up before cleaning and its insert did not land after that lookup. |
| `DraftMachine.ArtifactLostIff` | extensions/nju_smail/src/nju_smail/drafts.py:172-195 | An artifact deleted after a recovery lookup is referenced by a version if and only if its insert landed only after that lookup. |
| `DraftMachine.LateInsertLosesArtifact` | extensions/nju_smail/src/nju_smail/drafts.py:172-188 | For every request a run in which that happens. |
| `DraftMachine.NoOrphans` | extensions/nju_smail/src/nju_smail/drafts.py:146-195 | In every run, with lost answers, cancellations and process ends anywhere, a finished attempt leaves an artifact that no version references and whose deletion was not requested if and only if it was interrupted, while storing it or before cleaning up, and its insert was not executed with success; a failed attempt that was not interrupted has always requested the deletion. |
| `DraftMachine.StrayIff` | extensions/nju_smail/src/nju_smail/drafts.py:146-195 | An attempt counts as interrupted exactly if, at some step of the run, the answer to its put was lost or it ended with its artifact stored and without cleaning up. |
| `DraftMachine.LostPutLeavesOrphan` | extensions/nju_smail/src/nju_smail/drafts.py:146 | For every request a run from the empty store in which the put is executed, its answer is lost, and the artifact is left behind. |
| `Outbox.OutboxStore.InsertDraftVersion` | extensions/nju_smail/src/nju_smail/store.py:428-529 | The transaction with its lookups by loop, equal to the table function. |
| `Outbox.Prepare` | extensions/nju_smail/src/nju_smail/drafts.py:46-212 | With a request id, whatever happens to the put and the insert and whether or not a rival gets in first, it succeeds exactly if the draft is not another account's, the put was answered or the request is a replay, and a row with this content is stored for the request in the end, and returns that row; with answers and without a rival a new request always succeeds. The tables afterwards are exactly those of the rival's and its own executed insert, unchanged on a replay or for another account; the artifact it stored is deleted exactly if the put was answered and no row references it. |
| `Outbox.Insert` | extensions/nju_smail/src/nju_smail/drafts.py:146-195 | From the stored artifact on: the tables are those of the insert transaction if it was executed and unchanged otherwise, the row returned is the one now stored for the request with this content, its own row is there exactly if the insert was executed and accepted, and the artifact is deleted exactly if it is not. |
| `Outbox.OutboxStore.Preview` | extensions/nju_smail/src/nju_smail/send.py:64-96 | Gives the version exactly if it is current, exists and agrees with the approval. |
| `Outbox.OutboxStore.Materialize` | extensions/nju_smail/src/nju_smail/send.py:51-62 | Without an edit in between, succeeds exactly for the current version, an approval that agrees with it and an action not bound to another approval, and leaves the action bound to this approval; otherwise it changes nothing, and it never disturbs an existing action. |
| `Outbox.OutboxStore.ProjectStatus` | extensions/nju_smail/src/nju_smail/store.py:578-607 | An action in PREPARED or UNKNOWN takes a different projected state and its receipt, one in any other state keeps its own, no other action changes, and the action is shown. |
| `Outbox.OutboxStore.SyncStatus` | extensions/nju_smail/src/nju_smail/send.py:98-141 | An open action takes exactly the state the host reports as final, with the receipt; nothing changes while the host is working or once the action is final; the state is shown. |
| `Outbox.OutboxStore.ReconcileSent` | extensions/nju_smail/src/nju_smail/send.py:143-201 | An open action becomes SENT_CONFIRMED, NEEDS_USER_ACTION or UNKNOWN as the Sent folder has one, several or no match, with the receipt; nothing changes when it is unavailable or the action is final. |
| `SendMachine.ActionsFinal` | extensions/nju_smail/src/nju_smail/store.py:578-607 | Over any stretch of any run an action keeps its approval, and a state other than PREPARED or UNKNOWN, with its receipt, never changes. |
| `SendMachine.FirstFinalWins` | extensions/nju_smail/src/nju_smail/store.py:578-607 | In every run, the first final state recorded after an action was claimed, with its receipt, is the action's at every later moment. |
| `SendMachine.OneApprovalPerAction` | extensions/nju_smail/src/nju_smail/store.py:547-576 | Two materialised sends with one action id had the same approval, hence the same version. |
| `SendMachine.NoEarlierVersion` | extensions/nju_smail/src/nju_smail/send.py:64-77 | Once an edit has committed, no send that reads the draft afterwards gets past that read with an earlier version. |
| `SendMachine.MaterializedWasCurrent` | extensions/nju_smail/src/nju_smail/send.py:64-77 | A send past its read of the draft read it at a definite step of the run, and its version was the current one then. |
| `SendMachine.MaterializedAgrees` | extensions/nju_smail/src/nju_smail/send.py:64-96 | In every run, a send past its check has a stored version of its draft with the approved number, digest, action and everything else the approval lists. |
| `SendMachine.CurrentStays` | extensions/nju_smail/src/nju_smail/store.py:428-529 | Over any stretch of any run the current version of a draft stays the same if and only if no edit of it commits there. |
| `SendMachine.MaterializedIsCurrentIff` | extensions/nju_smail/src/nju_smail/send.py:51-96 | At any moment at or after its materialisation the version a send took is still current if and only if no edit of its draft has committed since the send read the draft. |
| `SendMachine.EditBetweenReadAndClaim` | extensions/nju_smail/src/nju_smail/send.py:51-62 | From every state in which a send has verified its version, an edit committed before the claim does not stop it: it materialises a version that is no longer current. |
| `SendMachine.SupersededVersionMaterialises` | extensions/nju_smail/src/nju_smail/send.py:51-62 | For every two versions of a draft a run from the empty store in which that happens. |
| `Scheduling.CronFields` | src/personal_assistant/core/scheduling.py:21-48 | Accepts exactly the expressions of five words within 128 characters whose comma-separated items all have an allowed form, and each field is the non-empty set of the values its items' texts allow. |
| `Scheduling.ParseField` | src/personal_assistant/core/scheduling.py:27-47 | A field is accepted exactly if all its items have an allowed form, and contains exactly the values some item's text allows, all within bounds. |
| `Scheduling.ItemParsed` | src/personal_assistant/core/scheduling.py:30-43 | The texts accepted are exactly a star, a number or two numbers with a dash, within bounds, each with or without a slash and a step, and what is read from them is that range and that step. |
| `Scheduling.WordsOfSpread` | src/personal_assistant/core/scheduling.py:22 | However words are spaced, they are the words of the text. |
| `Scheduling.SpreadOfWords` | src/personal_assistant/core/scheduling.py:22 | Every text is its words, with white space around and between them. |
| `Scheduling.Expand` | src/personal_assistant/core/scheduling.py:44 | The stepped range contains exactly the multiples of the step from its start up to its end. |
| `Scheduling.DayRule` | src/personal_assistant/core/scheduling.py:56-68 | A minute matches exactly if minute, hour and month are allowed and the day is: a day field that allows every day does not matter, and when both are restricted either is enough. |
| `Scheduling.CronNext` | src/personal_assistant/core/scheduling.py:51-70 | The least matching minute after the given instant, and a rejection exactly if none lies within the horizon. |
| `CatchUp.IntervalCatchUp` | src/personal_assistant/core/scheduling.py:150-158 | The closed form gives the same occurrences, latest and next instant as stepping from the due instant and keeping the last few. |
| `CatchUp.ProgressionEnumerates` | src/personal_assistant/core/scheduling.py:150-158 | Those occurrences are exactly the instants of the interval from due to now, and the next one is the first after now. |
| `CatchUp.CronCatchUp` | src/personal_assistant/core/scheduling.py:159-169 | Chaining the search enumerates due and every matching minute up to now, none skipped, keeps the last few and continues at the first after now; it is rejected exactly if there are 1440 or more of them or one has no successor within the horizon. |
| `CatchUp.SparseCronRejected` | src/personal_assistant/core/scheduling.py:164-167 | A single missed occurrence is rejected if the next match lies beyond the horizon, so the number of missed minutes alone does not decide. |
| `CatchUp.LeapDayParsed` | src/personal_assistant/core/scheduling.py:21-48 | The five-field expression for midnight of 29 February is accepted with these fields. |
| `CatchUp.LeapDayRejected` | src/personal_assistant/core/scheduling.py:51-70 | For that expression, in Coordinated Universal Time, a tick at midnight of 29 February 2024 is rejected although nothing else was missed. |
| `Scheduler.Missed` | src/personal_assistant/core/scheduling.py:147-174 | The instants to enqueue are those the misfire policy asks for, in terms of the schedule's instants: to catch up the last ones passed, to coalesce the latest alone, to skip the same unless more than a minute late; or the schedule is rejected. |
| `Scheduler.GoodTimes` | src/personal_assistant/core/scheduling.py:170-174 | They are in order, true instants from due up to now, and no more than the catch-up bound. |
| `Scheduler.FireKeeps` | src/personal_assistant/core/scheduling.py:176-206 | A tick's command that takes effect works from the schedule's present state, although it may have been read long before, and keeps the invariant. |
| `Scheduler.EnqueuedOnce` | src/personal_assistant/core/scheduling.py:138-207 | In every run of ticks by any number of processes with any clock readings, every job is for a true instant of its schedule before its next one, and no instant is enqueued twice. |
| `Scheduler.TickMovesOn` | src/personal_assistant/core/scheduling.py:138-207 | In every run a schedule only moves forward, only by a tick that was due, to its first instant after that tick's clock; jobs are only ever added, by such a tick, at most the bound and nothing in the future, and a step that adds jobs has moved its schedule past its clock. |
| `Scheduler.TickEnqueues` | src/personal_assistant/core/scheduling.py:170-186 | In every run, a tick that takes effect adds exactly these jobs: for a coalescing schedule one, for its greatest instant not after the clock; for a skipping one the same, or none if it is more than a minute late; for a catching-up one its last instants since it was due, all of them or as many as allowed. |
| `Scheduler.OffStaysQuiet` | src/personal_assistant/api/admin_operations.py:139-162 | Once a schedule has been switched off, nothing ticks it until it is switched on again, not even a process that had read it before. |
| `Scheduler.EveryInstantTicked` | src/personal_assistant/core/scheduling.py:138-207 | In every run each instant of a schedule before its next one fell to a tick that was due for it, and was enqueued if and only if that tick chose it. |
| `Scheduler.CatchUpComplete` | src/personal_assistant/core/scheduling.py:138-207 | With the policy that catches up on everything, and if no tick missed more than the bound, every instant of the schedule before its next one has exactly one job. |
| `Scheduler.Schedules.FireOne` | src/personal_assistant/core/scheduling.py:142-206 | One schedule of a tick fails exactly if it is due and rejected, and then nothing changes; otherwise only it, its jobs and its receipt are touched: not at all unless it is due, and else it moves on with the instants its policy chose, keeping its definition. |
| `Scheduler.Schedules.Tick` | src/personal_assistant/core/scheduling.py:138-207 | A tick fails if and only if some listed schedule is due and rejected. Exactly the schedules listed before the first such one are treated, each as above; all others, listed later or not at all, keep their records, and the jobs and receipts are the earlier ones followed by those of the treated schedules in order. |
| `Scheduler.LeapDayHoldsUpOthers` | src/personal_assistant/core/scheduling.py:138-207 | For every due schedule that is not itself rejected: listed after a leap-day schedule at its midnight it stays where it was and gets no job, listed before it it moves on; the tick fails both times. |

## Left out

- Building.Claim: the failure after three taken identifiers is modelled, but a run is only followed for random identifiers that are new.
- Chunking.SplitSection: a section that is already a document fragment is returned whole even when it is too large, as in the code; no extractor produces one.
- Convergence.Reconcile: errors found while scanning are not counted, because the scan is an input, one entry per path from authorized roots.
- EventRun.Poll: the synchronisation that a poll starts is a separate step, and cursor texts other than plain decimal numbers are rejected although the code also accepts signs, blanks and underscores.
- Extraction.ExtractPdf: starts from the texts of the pages; object parsing, page order and content decoding are not part of this model.
- MailTables.SameIdentity: lower-casing and the digest are parameters, about which nothing is assumed.
- MailSync.SyncFolder: the replies of the host are parameters, and the gate over all folders of an account together is not modelled.
- Outbox.Prepare: assumes a request id and an answering recovery lookup; `DraftMachine` also covers attempts without them.
- Scheduling.CronFields: digits are the ten ASCII ones.
- Byte decoding of text files, labels of sections, content hashes of chunks and embedding vectors.
- Heartbeats sent while embeddings are computed, and the loop that shields the deletion of an artifact; requesting it is one step, and what the host makes of the request is not part of this model.
- Validation and normalisation of draft arguments, MIME composition, and the derivation of a draft id from a request id.
- The comparison of sender, subject, recipients and attachment hashes of an approval, which is one opaque check here.
- The textual form of the knowledge events' keys, joined with bars, which is taken to be injective.
- Threads, people, contacts and attachments of messages, which take part in no cursor, identity or event.
- Searching and ranking, the walk over directories, configuration of schedules, and everything behind HTTP, IMAP and SMTP.
