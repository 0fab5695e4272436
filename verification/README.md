# Verified models of the backend's stateful protocols

Dafny models of the parts of the backend whose correctness rests on state kept over time, and
proofs of what they promise. Each model does what the cited code does, branch by branch;
its main results hold for every input, every run or every reachable state.

- **Knowledge-base generations** (`Ingestion`, `Collections*`). One job owns a complete
  document set; the newest completed job is live; incremental ingestion carries chunks and
  vectors forward from the two newest. `Ingestion` holds the worker's loops, `Collections` the
  commits as steps, `CollectionInvariant` and `CollectionSteps` what every step keeps,
  `CollectionRequests` what an accepted request leaves behind, `CollectionHistory` what no
  history can undo, `CollectionReferences` the references runs hold, `CollectionAdds` what an add
  finds of what it looked up, `CollectionWhole` the refinement of the from-scratch parse,
  `CollectionAlone` which schedules it holds for with vectors, `CollectionRestore` restores and
  removals, `CollectionRace` and `CollectionRaceRun` the one interleaving that loses vectors, and
  `CollectionStore` the in-place methods.
- **The email trigger** (`InboxLedger`, `Detection`, `Dispatch*`). The durable ledger and its
  statements; detection with a UID cursor; dispatching threads under one org's lock, with the
  watchdog, the counters, the compare-and-swap, manual retries and crashes.
- **The run registry** (`Registry`, `RegistryReplay`, `RegistryStore`). Publish and subscribe
  with replay, transient messages, late joiners and bounded eviction.
- **The login limiter** (`LoginLimiter`, `LoginHistory`, `LoginBounds`).
- **Smaller cores**: the pipeline cache (`PipelineCache`), the skill-name migration
  (`SkillTables`, `SkillMerge`, `SkillMeaning`, `SkillMigration`), draft outcomes
  (`DraftOutcomes`, `DraftFairness`), retry families (`RetryFamily`), result normalisation
  (`Normalize`) and the activity streaks (`Streaks`). `Basics` and `Sorting` are shared.

## How the code is read

- A step is what one commit makes visible, or one critical section under a lock. A thread's
  reads between two commits are steps of their own where another commit can fall between: a
  worker's, a prune's, a recording's, a poll's. An add's query is a state before its commit. A
  directory is copied, and removed, whole.
- The parser and chunker, the embedder, the hash and case folding are arbitrary deterministic
  functions (`Ingestion.Tools`); parsing and embedding may fail. The results that compare
  stored hashes with bytes assume the hash has an inverse (`CollisionFree`).
- New job ids exceed the ids in the table and are held by no prune in flight, and a version
  directory's name is new (`Fits`). A collection's name stands for its id. `Tools.keys` says
  whether the database enforces foreign keys: Postgres does, the SQLite file does not.
- One poller dispatches automatically, one cycle of an org after another (`OnePoller`).
- Mailbox answers obey RFC 3501: section 2.3.1.1 for UIDs and UIDVALIDITY, section 6.4.8 for
  the extra message of an open-ended search. A mailbox is not rebuilt while a connection to it
  is open.
- The limiter's clock is monotone and a call is atomic. Names, addresses and digests are
  compared only for equality.
- The migration is read statement by statement, uniqueness being required at the end of each.
  Real version numbers lie between 1 and 999,999, fewer than a million snapshots exist, and at
  most one platform skill has a name.
- A retry is created after the run it retries, so the parent links are acyclic.
- The ORM writes a column only if it is set to another value than the loaded one: a counter
  loaded as 0 is not reset, a cursor loaded at the new baseline not written.
- The cache's fingerprint results take `updated_at` to follow commit order. It is set when a row
  is flushed, so of two overlapping transactions the later commit can carry the earlier stamp;
  that is not part of this model.

## Where a plain reading of the code's promise fails

Each comes with a run that shows it, or a lemma about every run that fails, and with the exact
condition under which the promise does hold.

- *A carried chunk always has its vector.* `_reusable_documents` reads its candidates and their
  chunks in separate queries. An older job that completes and prunes between the two can empty
  the vectors of a generation a run refers to, and the newer job then goes live without them
  (`PruneCanEmptyLive`, a run from the empty system). Every other step keeps all vectors, and
  this read does exactly when no chunk it adds has been emptied (`ReadKeepsWholeIff`). So it is
  in every run whose reads find their candidate still in the keep window, above all in every run
  in which an upload waits for its collection's job in flight, as the customer endpoint makes it
  (`WindowedIsFromScratch`); the admin endpoint does not.
- *A generation some un-purged run's trace names keeps its rows.* A prune looks for references
  and deletes later, without looking again; a run's thread finds the job and inserts its
  reference later, without looking again. On a SQLite file a reference recorded in between is
  held while its text goes (`PruneCanLoseText`, a run from the empty system;
  `LateReferenceIsLost`, from any state). The text stays, over every run that holds the
  reference, exactly when keys are enforced or no prune in flight has looked without seeing it
  (`TextIsKeptIff`): so always for a reference recorded while its generation is in the keep
  window (`RecordedInTime`). A reference comes to name a job that is gone in these two ways and
  no other (`NamedStaysIff`).
- *The two newest generations keep everything.* They do (`WindowKept`), in every run in which no
  new job gets an id a prune in flight holds. SQLite can give the id of a deleted collection's
  newest job out again; a prune outliving the deletion then deletes whatever has that id by now
  (`CommitTakesIff`).
- *An add keeps every live document.* It does when no job of the collection was in flight when it
  looked (`AddStagesLive`); and it keeps every document it looked up while their generation still
  is one of the two newest (`SourceStays`). On the admin endpoint two jobs can complete and a
  prune remove that generation's files first; the add then stages its own files alone
  (`LateAddStagesItsOwn`).
- *The cursor never goes back, and passes no message unrecorded.* The commit that ends a poll
  looks at nothing an enable may have changed since the load. It can take the cursor back behind
  the new baseline (`CursorCanGoBack`) or past messages of the new mailbox nobody looked at
  (`CursorCanJumpAhead`), both runs from a trigger's start. The cursor is left on what was looked
  at exactly when the batch ends where the cursor is by then, or the validity is still the one
  loaded and the cursor lies inside the batch (`CommitIsSoundIff`); otherwise, unless the enable
  brought an older validity, which the next poll replaces, a message is lost if it is there
  (`UnsafeCommitLoses`).
- *The run counter counts dispatches.* The rollover is noted before the lock and committed under
  it, so it can wipe another thread's dispatch of the same day (`RolloverCanLoseADispatch`,
  `WipesIff`), or, where it was loaded as 0 and so is not written, carry the day before into the
  new one (`CarriesIff`). From a day rolled over in the row and in every thread it is exact.
- *Every claimed message is somebody's.* Not once its run is given up without a word on it: a
  manual retry the executor refuses, or a run whose completion of the ledger fails after its own
  end is committed. These are the only such steps (`ClaimsAreKeptIff`), and the messages stay
  claimed until a restart (`RefusedRetryStrands`, `StrandedUntilRestart`).
- *A success gives the address its own slot back.* It pops the newest entry, its own exactly
  when that is the newest (`SuccessReturnsOwnSlotIff`), so the bound is on admitted attempts in
  stretches without a success, or on admitted attempts less successes (`WindowBound`,
  `AddressBound`, `FailedAttemptsCanExceedLimit`).
- *A stale cache entry is a natural miss whatever the timing.* Not for a skill added and deleted
  around a build (`HitCanBeStale`). What a hit serves is current exactly when the fingerprint was
  the stamp's at every version the build read (`HitIsCurrent`), as the build could check before
  it stores.
- *Normalisation writes one row per message.* Not for a batch that names a missing message
  twice, where the unique constraint writes nothing (`OneRowEachIff`).
- *A message below the cursor has a ledger row.* A message has exactly one row if it was in the
  mailbox when the search that took the cursor past it was made, and none otherwise
  (`EveryMessagePassedHasOneRow`): one reported in a truncated backlog and deleted before the
  next search never gets any (`LeftOverDeleted`, `MissingForEver`).

The penalty-free release that `claim_events` and `mark_dispatched` promise rests on pending rows
being below the attempt limit, part of what every step that strands nothing keeps
(`ClaimsAreKeptIff`).

## Model

| member | source | states |
|---|---|---|
| Ingestion.ParseFile | ui/backend/ingestion.py:147-218 | one file is carried whole, rejected, or cut, by exactly the source's tests, and says whether it still needs vectors |
| Ingestion.ParseFiles | ui/backend/ingestion.py:143-218 | the file loop leaves one document per staged file and moves exactly one of the two counters for each |
| Ingestion.FillVectors | ui/backend/ingestion.py:246-248 | every chunk of a newly cut document gets its own text's vector and the job's model; text and order unchanged |
| Ingestion.EmbedNew | ui/backend/ingestion.py:226-249 | vectors are written to the newly cut documents and to no other |
| Ingestion.RunIngestionJob | ui/backend/ingestion.py:130-272 | the whole job yields the incremental specification's rows, counters and status; an embedding failure writes no rows |
| CollectionInvariant.WindowIsTopTwo | ui/backend/ingestion.py:521-535 | a generation is in the keep window exactly when at most one completed generation is newer |
| CollectionInvariant.WindowAfter | ui/backend/ingestion.py:521-535 | as long as the window's two generations stay completed, nothing older moves into it |
| CollectionSteps.KeyedSound | ui/backend/ingestion.py:396-430 | what a carryable generation hands forward is what the new job would cut afresh |
| CollectionSteps.CandidateRowsSound | ui/backend/ingestion.py:394-458 | a candidate that passes the carryable test holds the from-scratch documents of this job's shape and parser |
| CollectionSteps.RowsAreSound | ui/backend/ingestion.py:143-249 | rows written from a sound reuse table are the from-scratch ones and cover every staged file once |
| CollectionSteps.UploadKeeps | ui/backend/knowledge_bases.py:402-484 | an accepted upload or add keeps the invariant of jobs, rows, directories and workers |
| CollectionSteps.RemoveKeeps | ui/backend/knowledge_bases.py:595-693 | an accepted removal keeps it |
| CollectionSteps.RestoreKeeps | ui/backend/knowledge_bases.py:777-850 | an accepted restore keeps it |
| CollectionSteps.RetryKeeps | ui/backend/knowledge_bases.py:906-986 | resetting a failed job in place keeps it: same row, same directory, old rows gone |
| CollectionSteps.DeleteKeeps | ui/backend/knowledge_bases.py:1009-1056 | a deletion takes every row and reference of its collection and nothing of another |
| CollectionSteps.FinishKeeps | ui/backend/ingestion.py:130-276 | a worker's last transaction keeps it, whatever was committed while it worked |
| CollectionSteps.CommitPruneKeeps | ui/backend/ingestion.py:513-559 | the commit of a prune keeps it, whatever was committed since its queries |
| CollectionSteps.DropDirKeeps | ui/backend/ingestion.py:538-592 | so does each directory a prune removes, of old generations or of failed jobs |
| CollectionSteps.HeldStaysHeld | ui/backend/ingestion.py:521-592 | what a prune in flight has listed is needed by nothing when it is listed, and by nothing after any step |
| CollectionSteps.RestartKeeps | ui/backend/ingestion.py:620-656 | the start-up sweep keeps it |
| CollectionSteps.StepKeeps | ui/backend/ingestion.py:83-276 | every step of requests, workers, prunes, purges and restarts keeps it |
| CollectionHistory.ProtectedDirKept | ui/backend/ingestion.py:538-592 | no step removes or changes the staged files of a queued or running job, a window generation or a newest failed job, short of deleting the collection |
| CollectionHistory.WindowKept | ui/backend/ingestion.py:513-559 | the two newest completed generations keep row, documents, chunks, vectors and files through every step |
| CollectionHistory.LiveNeverGoesBack | ui/backend/knowledge_bases.py:1249-1263 | the served generation moves only to a newer job, even when jobs finish out of order |
| CollectionHistory.LiveNeverGoesBackInAnyRun | ui/backend/knowledge_bases.py:1249-1263 | the same over any run in which the collection survives |
| CollectionHistory.OutrankedIsOutside | ui/backend/ingestion.py:521-535 | two newer completed generations are exactly what puts a completed one outside the window |
| CollectionHistory.OutrankedForEver | ui/backend/ingestion.py:521-559 | a generation once outside the window never re-enters it |
| CollectionReferences.CommitTakesIff | ui/backend/ingestion.py:536-558 | a prune deletes exactly what it listed and did not see cited; where keys are enforced, all of it or nothing |
| CollectionReferences.UndisturbedPrune | ui/backend/ingestion.py:513-559 | a prune nothing comes between is the one-step specification |
| CollectionReferences.CitedTextKeptIff | ui/backend/ingestion.py:536-556 | while a reference is held, a step keeps its generation's text, page, heading and model exactly when it is not the commit of a prune that looked before the reference was there |
| CollectionReferences.CitedTextForEver | ui/backend/retention.py:60-99 | so does any run in which the reference is not released, from a state in which no prune in flight has looked without seeing it |
| CollectionReferences.TextIsKeptIff | ui/backend/ingestion.py:536-558 | a held reference keeps its text over every run exactly in such a state, or where keys are enforced |
| CollectionReferences.RecordedInTime | ui/backend/runtime.py:496-526 | a reference recorded while its generation is in the keep window, or before any prune holding it has looked, keeps its text for as long as it is held |
| CollectionReferences.LateReferenceIsLost | ui/backend/runtime.py:496-526 | from any state with an unreferenced old generation: a prune looks, a reference is recorded, and the text goes |
| CollectionReferences.NamedStaysIff | ui/backend/runtime.py:507-526 | a step leaves a reference to a job that is gone exactly when it inserts one whose job went after the check, or takes a generation cited after the prune looked |
| CollectionReferences.ReferencesAreSound | ui/backend/db/run_knowledge_generations.py:13-22 | from an empty system no reference dangles, in any run where keys are enforced and in any other without such a step |
| CollectionHistory.EveryHistoryIsSound | ui/backend/knowledge_bases.py:409-484 | from an empty system, over any history: no row names a collection or job that is gone, one directory per job, protected jobs have their files, counters add up to the staged files |
| CollectionHistory.FilesAreNeverGone | ui/backend/knowledge_bases.py:793-809 | in a reachable state no restore, removal or retry is refused because its files are missing |
| CollectionWhole.ReadKeepsWholeIff | ui/backend/ingestion.py:394-430 | reading a candidate is the one step that can lose a vector, and does so exactly when a chunk it adds has had its vector emptied |
| CollectionWhole.WindowReadsWell | ui/backend/ingestion.py:396-430 | reading a generation still in the window never does |
| CollectionWhole.OnlyFinishCompletes | ui/backend/ingestion.py:262-272 | only a worker's last transaction completes a job, under the shape and revision recorded at its start |
| CollectionWhole.WholeKeeps | ui/backend/ingestion.py:83-276 | every other step keeps all vectors of the window and of the reuse tables |
| CollectionWhole.WindowIsFresh | ui/backend/ingestion.py:366-431 | a window generation equals the from-scratch parse, chunking and embedding of all its staged files |
| CollectionWhole.IncrementalTextIsFromScratch | ui/backend/ingestion.py:130-272 | text, page, heading and model agree over every history, without that condition |
| CollectionAlone.WindowRunsReadWell | ui/backend/ingestion.py:376-430 | a run whose reads find their candidate still in the window loses no vector |
| CollectionAlone.GuardedRunsReadInWindow | ui/backend/org_knowledge_bases.py:312-334 | so does a run in which no upload is accepted while its collection has a job in flight: nothing moves the window of a collection whose one job is at work |
| CollectionAlone.WindowedIsFromScratch | ui/backend/ingestion.py:130-272 | incremental ingestion refines from-scratch ingestion, vectors included, over every such history |
| CollectionRaceRun.PruneCanEmptyLive | ui/backend/ingestion.py:376-430 | a run from the empty system after which the live generation has no vector, because an older job pruned between a newer one's two queries |
| CollectionRaceRun.PruneCanLoseText | ui/backend/ingestion.py:536-558 | a run from the empty system after which a held reference names a generation whose text is gone |
| CollectionRestore.CopyIsFree | ui/backend/ingestion.py:162-185 | a job that has read all of its source embeds nothing |
| CollectionRestore.CopyIsExact | ui/backend/ingestion.py:162-272 | and completes with exactly its source's documents, chunks and vectors |
| CollectionRestore.RestoreIsFree | ui/backend/knowledge_bases.py:743-850 | a restore of a generation with recorded parameters and current parser computes no embedding |
| CollectionRestore.RemovalIsFree | ui/backend/knowledge_bases.py:557-693 | nor does a removal |
| CollectionRestore.RemovalDropsOne | ui/backend/knowledge_bases.py:557-693 | a removal completes with the live documents but the named one, each unchanged |
| CollectionRestore.RestoreGivesBack | ui/backend/knowledge_bases.py:743-850 | one restore makes the previous generation live again and leaves the undone one behind it untouched |
| CollectionRestore.RestoreTwice | ui/backend/knowledge_bases.py:743-850 | two restores give back both generations: same documents, chunks, files and shape |
| CollectionStore.AddCandidate | ui/backend/ingestion.py:396-430 | folding in one candidate never replaces an entry a newer one supplied |
| CollectionStore.Store.ReusableDocuments | ui/backend/ingestion.py:366-431 | the reuse table of two undisturbed queries: the newest generation that has a document wins |
| CollectionStore.Store.Stage | ui/backend/knowledge_bases.py:156-238 | exactly the files whose names are not superseded, folded or exact, are copied |
| CollectionStore.Store.UploadKnowledgeBase | ui/backend/knowledge_bases.py:402-484 | an upload's new state or its refusal, in the source's order of tests |
| CollectionStore.Store.RemoveKnowledgeBaseDocument | ui/backend/knowledge_bases.py:595-693 | a removal's new state or its refusal |
| CollectionStore.Store.RestorePreviousGeneration | ui/backend/knowledge_bases.py:777-850 | a restore's new state or its refusal |
| CollectionStore.Store.RetryIngestionJob | ui/backend/knowledge_bases.py:906-986 | a retry's new state or its refusal |
| CollectionStore.Store.DeleteKnowledgeBase | ui/backend/knowledge_bases.py:1009-1056 | a deletion's new state or its refusal |
| CollectionStore.Store.PruneOldVersions | ui/backend/ingestion.py:513-559 | generation by generation: directory gone, rows gone if unreferenced, vectors emptied if referenced, window untouched |
| CollectionStore.Store.PruneFailedVersions | ui/backend/ingestion.py:562-592 | every failed job's directory but the newest one's and the caller's |
| InboxLedger.RecordIsDurable | ui/backend/db/inbox_events.py:74-131 | recording moves nothing, leaves exactly one row per id and marks only rejected ones filtered |
| InboxLedger.RecordAgain | ui/backend/db/inbox_events.py:91-99 | recording the same ids again changes nothing |
| InboxLedger.Inbox.RecordEvents | ui/backend/db/inbox_events.py:74-131 | the insert loop: on conflict nothing, and the count of new rows |
| InboxLedger.Inbox.ClaimEvents | ui/backend/db/inbox_events.py:134-186 | claims the oldest waiting rows of one mailbox generation up to the limit |
| InboxLedger.ClaimTakes | ui/backend/db/inbox_events.py:134-186 | a claim takes the smaller of limit and waiting rows, all of the right mailbox and generation |
| InboxLedger.ClaimTakesOldest | ui/backend/db/inbox_events.py:161-186 | nothing waiting is passed over for a later row |
| InboxLedger.ReleaseUndoesClaim | ui/backend/db/inbox_events.py:332-358 | a release right after a claim gives back the very same ledger |
| InboxLedger.AttemptsAreCharged | ui/backend/db/inbox_events.py:290-358 | a dispatched and released message pays one attempt and is dead-lettered exactly at the limit |
| InboxLedger.ReleaseDeadLettersIff | ui/backend/db/inbox_events.py:347-358 | a release dead-letters exactly the rows at the attempt limit |
| InboxLedger.Inbox.ReleaseEvents | ui/backend/db/inbox_events.py:332-358 | row by row: pending again, or failed at the limit |
| InboxLedger.Inbox.CompleteEvents | ui/backend/db/inbox_events.py:308-329 | row by row: done if drafted, else failed |
| InboxLedger.Inbox.ResolveRetryEvents | ui/backend/db/inbox_events.py:361-405 | failed rows of the original run: done, or moved to the retry with their attempts reset |
| Detection.SearchIsFiltered | ui/backend/email_trigger.py:345-369 | the last message an open-ended search always returns is never reported twice |
| Detection.BatchIsOldest | ui/backend/email_trigger.py:813-819 | a batch is the oldest messages found, all of them or as many as the limit lets through |
| Detection.DetectionIsDurable | ui/backend/email_trigger.py:813-836 | a detecting commit adds exactly the messages found up to the new cursor to the ledger, and moves the cursor with them |
| Detection.StepKeeps | ui/backend/email_trigger.py:745-836 | every step, an enable in the middle of a poll cycle included, leaves the ledger with exactly the messages passed, once each, and those still there between baseline and sweep among them |
| Detection.CommitIsSoundIff | ui/backend/email_trigger.py:785-836 | a commit leaves the cursor on what was looked at exactly when the batch ends where the cursor is by then, or the validity is still the one loaded and the cursor lies inside the batch; a new baseline exactly when it is written or already there |
| Detection.UnsafeCommitLoses | ui/backend/email_trigger.py:813-836 | otherwise the cursor goes back, or passes a message that has no row whenever one is there |
| Detection.EnablesBetweenPollsAreSafe | ui/backend/email_trigger_api.py:138-167 | in a run whose enables all fall between poll cycles every commit is of the first kind |
| Detection.CursorNeverGoesBack | ui/backend/email_trigger.py:785-836 | between baselines such a commit only moves the cursor forward, and no step loses a recorded message |
| Detection.DurableThroughout | ui/backend/email_trigger.py:745-836 | over any polls, arrivals, deletions, rebuilds, enables and crashes the durability invariant holds |
| Detection.EveryMessagePassedHasOneRow | ui/backend/email_trigger.py:813-836 | one ledger row for each message a committed batch found and none for any other; a message still there has its row once looked at; and the cursor is on what was looked at, base to cursor, in every run of safe commits |
| Detection.LeftOverDeleted | ui/backend/email_trigger.py:813-836 | a message a truncated batch leaves over and somebody deletes before the next search is missing |
| Detection.MissingForEver | ui/backend/email_trigger.py:745-836 | and never gets a row, in any run |
| Detection.CursorCanJumpAhead | ui/backend/email_trigger_api.py:138-167 | a run in which a replaced mailbox's new message is passed unrecorded by a poll begun before the enable |
| Detection.CursorCanGoBack | ui/backend/email_trigger_api.py:138-167 | a run in which a poll begun before an enable takes the cursor back behind its baseline |
| DispatchSafety.GuardKeeps | ui/backend/email_trigger.py:725-741 | the overlap guard and its watchdog keep at most one live run |
| DispatchSafety.SwapKeeps | ui/backend/email_trigger.py:1015-1068 | so does the compare-and-swap |
| DispatchSafety.StepKeepsSafe | ui/backend/email_trigger.py:697-864 | and every other step of polls, retries, workers, evictions and crashes |
| DispatchSafety.MutualExclusion | ui/backend/email_trigger.py:732-741 | in every interleaving at most one dispatched run is running and not released |
| DispatchSafety.ReleasedRunMayStillExecute | ui/backend/email_trigger.py:258-310 | a run the watchdog released can still be executing when the guard lets the next one pass |
| DispatchBudget.CountedThroughout | ui/backend/email_trigger.py:1037-1068 | the run counter and what resets wiped add up to the dispatches and what was carried over from the date before; it is exact iff the last two agree |
| DispatchBudget.WipesIff | ui/backend/email_trigger.py:706-719 | a count is lost exactly when a rollover noted with a count loaded is committed over a day already rolled over and used; a rollback loses none |
| DispatchBudget.CarriesIff | ui/backend/email_trigger.py:706-719 | a count is carried into the new day exactly when a rollover noted with no count loaded is committed over a row that has one by now |
| DispatchBudget.RolloverCanLoseADispatch | ui/backend/email_trigger.py:1195-1216 | a concrete pair of retries that loses one |
| DispatchBudget.CapHoldsAllDay | ui/backend/email_trigger.py:858-862 | from a day rolled over in row and threads, the counter is exact and the daily cap holds |
| DispatchBudget.CapCheckPassesIff | ui/backend/email_trigger.py:138-155 | when the check under the lock passes: below the cap, with a stale day, or with a rollover of its own still to write |
| DispatchBudget.DispatchStaysWithinMessageCap | ui/backend/email_trigger.py:927-1068 | with one poller each automatic dispatch leaves the message counter at or below the cap in force, though the claim is cut by the counter as loaded |
| DispatchClaims.ClaimIsChargedExactly | ui/backend/email_trigger.py:951-970 | what a dispatch will charge is the number of messages it holds |
| DispatchClaims.BuildFailureIsFree | ui/backend/email_trigger.py:981-998 | a build failure changes no counter and returns the whole claim with no attempt charged |
| DispatchClaims.LostSwapIsFree | ui/backend/email_trigger.py:1052-1064 | nor does a swap lost to a disabled trigger |
| DispatchClaims.ClaimsAreKeptIff | ui/backend/email_trigger.py:874-1108 | a step leaves every claimed message with a dispatching thread or a live run behind it exactly when it gives up no run that still holds one: by a refused retry, or by a completion that fails |
| DispatchClaims.ClaimsAreAnsweredFor | ui/backend/email_trigger.py:874-1108 | so does every run without such a step |
| DispatchClaims.CrashKeepsClaims | ui/backend/runtime.py:130-211 | after a restart no message is left claimed |
| DispatchClaims.RefusedRetryStrands | ui/backend/email_trigger.py:1356-1379 | a run in which a retry the executor refuses leaves its message claimed by a run that will never finish |
| DispatchClaims.GivenUpIsStranded | ui/backend/runtime.py:408-447 | a run given up leaves its messages as they are, with no thread and no live run behind them |
| DispatchClaims.StrandedUntilRestart | ui/backend/runtime.py:130-211 | they stay so over any run without a restart, and the restart hands them back or dead-letters them |
| RegistryReplay.ReplayRebuilds | ui/backend/registry.py:243-271 | the messages a new queue is loaded with rebuild the server's log, preview and team |
| RegistryReplay.PublishShows | ui/backend/registry.py:169-201 | publishing moves the dictionaries exactly as a client's view of the message |
| RegistryReplay.TransientShows | ui/backend/registry.py:203-241 | so does a transient message |
| RegistryReplay.EverySubscriberAgrees | ui/backend/registry.py:243-271 | any subscriber of an unpurged run shows what one present from creation shows |
| RegistryReplay.PresentFromCreation | ui/backend/registry.py:169-271 | one that subscribed before the first message holds the history itself, no gap and no duplicate |
| RegistryReplay.StepKeeps | ui/backend/registry.py:69-275 | every operation keeps each queue equal to its replay followed by every later message once |
| RegistryReplay.LateJoinersAgree | ui/backend/registry.py:169-271 | late-joiner equivalence over any schedule, and status equal to the last terminal event's |
| RegistryStore.LiveRunsAreNeverEvicted | ui/backend/registry.py:103-127 | a running or followed run outlives every creation |
| RegistryStore.EvictionIsExact | ui/backend/registry.py:103-127 | eviction goes oldest first, down to the bound or until nothing evictable is left, and no further |
| RegistryStore.OnceEachKeeps | ui/backend/registry.py:243-275 | a queue is registered at most once per run |
| RegistryStore.Load | ui/backend/registry.py:255-270 | log, then one delta, then one start per working agent, in order |
| RegistryStore.PutAll | ui/backend/registry.py:199-201 | the message lands once on each follower's queue and on no other |
| RegistryStore.RunRegistry.Create | ui/backend/registry.py:69-85 | a new running run, then eviction |
| RegistryStore.RunRegistry.EvictIfOverBound | ui/backend/registry.py:103-127 | the eviction loop removes exactly the specified victims |
| RegistryStore.RunRegistry.Publish | ui/backend/registry.py:169-201 | log, status, team, preview and every queue after a persisted event |
| RegistryStore.RunRegistry.PublishTransient | ui/backend/registry.py:203-241 | preview, team and every queue after a transient one; the log unchanged |
| RegistryStore.RunRegistry.Subscribe | ui/backend/registry.py:243-271 | the replay and the registration, or nothing for an unknown run |
| RegistryStore.RunRegistry.PurgeContent | ui/backend/registry.py:132-152 | content forgotten unless the run is still running |
| LoginLimiter.LoginRateLimiter.Prune | ui/backend/login_rate_limit.py:70-80 | one key's expired head dropped, and the key with its last entry |
| LoginLimiter.LoginRateLimiter.PruneAndMeasure | ui/backend/login_rate_limit.py:90-94 | each key pruned, and the longest wait among full ones |
| LoginLimiter.LoginRateLimiter.Sweep | ui/backend/login_rate_limit.py:98-101 | every key pruned once and the next threshold doubled |
| LoginLimiter.LoginRateLimiter.TryReserve | ui/backend/login_rate_limit.py:82-103 | the new table, threshold and answer of one attempt |
| LoginLimiter.LoginRateLimiter.RecordSuccess | ui/backend/login_rate_limit.py:105-116 | the username forgiven and the newest address entry given back |
| LoginHistory.ExpireIsInWindow | ui/backend/login_rate_limit.py:74-76 | dropping the expired head leaves exactly what lies in the window |
| LoginHistory.StepAgrees | ui/backend/login_rate_limit.py:82-116 | one call answers as a history that never forgets does, and stays linked to it |
| LoginHistory.LimiterRefinesHistory | ui/backend/login_rate_limit.py:70-116 | so does any sequence of calls under a monotone clock: pruning and sweeping change no answer |
| LoginHistory.RefusalIsExact | ui/backend/login_rate_limit.py:89-103 | a refused attempt is refused at every moment before its unrounded wait is over and admitted from then on |
| LoginHistory.RetryAfterIsEnough | ui/backend/login_rate_limit.py:103-103 | and admitted once Retry-After whole seconds have passed |
| LoginBounds.WindowBound | ui/backend/login_rate_limit.py:82-103 | in a stretch with no success under a key, attempts admitted inside one window are at most its limit |
| LoginBounds.AddressBound | ui/backend/login_rate_limit.py:105-116 | whatever succeeds, an address admits at most its limit plus its successes per window |
| LoginBounds.FailedAttemptsCanExceedLimit | ui/backend/login_rate_limit.py:112-116 | counting only failed attempts the bound breaks: five calls that show it |
| LoginBounds.SuccessReturnsOwnSlotIff | ui/backend/login_rate_limit.py:112-116 | a success gives back its own entry exactly when that entry is the newest |
| LoginBounds.RunIsBounded | ui/backend/login_rate_limit.py:82-116 | in every reachable state each stored window is in order and within its limit |
| LoginBounds.SweepsAreAmortised | ui/backend/login_rate_limit.py:96-101 | over any calls, sweeps visit at most twice the keys inserted, hence four times the admitted attempts, and the table stays below the threshold |
| PipelineCache.SummaryIsFaithful | ui/backend/main.py:404-432 | with increasing timestamps an equal count and maximum mean an equal table, whatever came between |
| PipelineCache.FreshnessIsFaithful | ui/backend/main.py:404-432 | the same for the three tables together |
| PipelineCache.MaximumAloneIsNotFaithful | ui/backend/main.py:409-415 | without the count a deletion goes unseen |
| PipelineCache.Cache.Store | ui/backend/main.py:391-396 | the entry is stored only if no invalidation came since the snapshot |
| PipelineCache.Cache.Invalidate | ui/backend/knowledge_bases.py:136-153 | everything dropped and the generation bumped |
| PipelineCache.StepKeepsCoherent | ui/backend/main.py:486-551 | every step keeps each entry newer than every completed invalidation's commit |
| PipelineCache.AnswersAreNeverOlder | ui/backend/main.py:486-551 | a request never gets a pipeline read before a mutation whose invalidation had completed when it began |
| PipelineCache.HitIsStamped | ui/backend/main.py:509-514 | on a hit the tables are as when the entry was stamped |
| PipelineCache.HitIsCurrent | ui/backend/main.py:509-514 | what a hit serves was read from today's tables, read by read, exactly when the fingerprint was then the stamp's |
| PipelineCache.HitCanBeStale | ui/backend/main.py:404-432 | a skill added during a build and deleted again leaves a stale entry the fingerprint accepts |
| DraftOutcomes.Reconcile | ui/backend/draft_outcomes.py:102-178 | one pass judges exactly its batch, each row by the ladder; a failing search commits nothing |
| DraftOutcomes.BatchIsPending | ui/backend/draft_outcomes.py:112-119 | a batch is distinct pending rows of the pass's org |
| DraftFairness.ExaminedIff | ui/backend/draft_outcomes.py:112-119 | a row is examined exactly when fewer than 25 pending rows come before it |
| DraftFairness.RankDrops | ui/backend/draft_outcomes.py:112-178 | a row passed over moves up by a whole batch |
| DraftFairness.EveryDraftIsExamined | ui/backend/draft_outcomes.py:111-178 | each of n pending drafts is examined within ceil(n / 25) successful passes |
| DraftFairness.ResolvedIsFinal | ui/backend/draft_outcomes.py:111-186 | a resolved row, or another org's, never changes |
| DraftFairness.HandledIffMissedTwice | ui/backend/draft_outcomes.py:170-176 | handled exactly when two consecutive examinations miss it in all three places |
| DraftFairness.VerdictsAreExact | ui/backend/draft_outcomes.py:122-186 | when each of the other verdicts is given |
| DraftFairness.RecordOutcomes | ui/backend/draft_outcomes.py:59-92 | one pending row for each drafted key that had none |
| Normalize.ItemsByUid | ui/backend/automation_results.py:520-540 | the first item naming a message wins; items outside the batch are ignored |
| Normalize.NormalizeRun | ui/backend/automation_results.py:457-627 | the rows after one call against any output; a duplicate in the batch writes nothing |
| Normalize.OneRowEachIff | ui/backend/automation_results.py:542-589 | once it engages, exactly one row per message and none outside the batch, iff no missing message is named twice |
| Normalize.DraftFlagIsConfirmed | ui/backend/automation_results.py:209-227 | a new row's draft flag holds exactly when the trace confirmed the message in that call |
| Normalize.AttentionIsForced | ui/backend/automation_results.py:248-272 | exactly when a row needs a person |
| Normalize.RepeatChangesNothing | ui/backend/automation_results.py:299-303 | a call after one that engaged changes nothing, even with another output and whatever the batch |
| Normalize.DistinctBatch | ui/backend/automation_results.py:542-546 | a batch of distinct messages never meets the constraint |
| RetryFamily.RootOf | ui/backend/automation_results.py:350-356 | the walk up ends at the last ancestor still in the table |
| RetryFamily.RetryFamilyRunIds | ui/backend/automation_results.py:340-364 | the walk down terminates with every run of the same root, once each |
| RetryFamily.SameFromAnyMember | ui/backend/automation_results.py:340-364 | any member gives the same family, and it is the tree below the root |
| RetryFamily.TraceConfirmedUids | ui/backend/automation_results.py:419-454 | exactly the batch's messages a well-formed confirmed event names |
| RetryFamily.AlreadyDraftedUids | ui/backend/automation_results.py:367-416 | the batch's messages confirmed by any member, in either source |
| RetryFamily.RetryBatch | ui/backend/email_trigger.py:1257-1300 | the retry's batch, allow-list, context and done set, or none when nothing is left |
| RetryFamily.RetryNeverRedrafts | ui/backend/email_trigger.py:1257-1312 | disjoint from everything any member confirmed, and with the excluded messages the original batch, copy for copy |
| RetryFamily.RetryJoinsFamily | ui/backend/email_trigger.py:1301-1307 | a recorded retry joins its original's family and changes no other |
| Streaks.LongestStreak | ui/backend/activity_overview.py:126-134 | the greatest n with n consecutive active days |
| Streaks.CurrentStreak | ui/backend/activity_overview.py:112-123 | the maximal block ending today, or yesterday while today is open |
| Streaks.StreaksAreDetermined | ui/backend/activity_overview.py:112-134 | both are determined by their specification, and current never exceeds longest |
| Streaks.DailyCounts | ui/backend/activity_overview.py:80-88 | the heatmap counts each day of its window and sums to the runs dated inside it |
| Streaks.FutureRunsAreOutside | ui/backend/activity_overview.py:80-88 | a run dated after today is in no cell |
| SkillMerge.MergeHistories | alembic/versions/w0x1y2z3a4b5_drop_builtin_skill_name_suffixes.py:111-144 | the table at the end of every statement, in the statements' order, with version numbers unique in each; the last is the merged history |
| SkillMerge.RenumberingIsUnique | alembic/versions/w0x1y2z3a4b5_drop_builtin_skill_name_suffixes.py:132-144 | no number is given out twice during the renumbering |
| SkillMerge.ShiftsAreUnique | alembic/versions/w0x1y2z3a4b5_drop_builtin_skill_name_suffixes.py:113-137 | the two shifts and the re-point never collide |
| SkillMeaning.MergedHistory | alembic/versions/w0x1y2z3a4b5_drop_builtin_skill_name_suffixes.py:95-152 | the merged history is numbered 1 to n without gaps in order of creation, ids kept |
| SkillMeaning.MergeAllIsFaithful | alembic/versions/w0x1y2z3a4b5_drop_builtin_skill_name_suffixes.py:205-212 | no rename touches a snapshot's id or content, a pin, or an org's own skill |
| SkillMeaning.PinnedAfter | alembic/versions/w0x1y2z3a4b5_drop_builtin_skill_name_suffixes.py:269-285 | a name is pinned afterwards to what every name that became it was pinned to |
| SkillMeaning.MeaningIsKeptIff | ui/backend/skills.py:33-49 | every pinned name resolves to the same snapshot, exactly when a version's names do not run together with different pins |
| SkillMeaning.UpgradeIsConsistent | alembic/versions/w0x1y2z3a4b5_drop_builtin_skill_name_suffixes.py:66-74 | which holds for the upgrade when no version names both intakes, nor an old name beside its new one |
| SkillMeaning.ConfigFollows | alembic/versions/w0x1y2z3a4b5_drop_builtin_skill_name_suffixes.py:166-202 | in a pipeline's own config, a version's and a builder session's every skill name moves as its org's dependencies do, in place, and nothing else |
| SkillMeaning.HeadAgreesWithDependencies | alembic/versions/w0x1y2z3a4b5_drop_builtin_skill_name_suffixes.py:26-31 | a pipeline whose own config lists only what its version depends on still does, and exactly what if exactly what |
| SkillMigration.RewriteNames | alembic/versions/w0x1y2z3a4b5_drop_builtin_skill_name_suffixes.py:176-184 | one agent's list rewritten in place, name by name |
| SkillMigration.RewriteConfig | alembic/versions/w0x1y2z3a4b5_drop_builtin_skill_name_suffixes.py:166-185 | every agent's list, unreadable configs untouched |
| SkillMigration.SkillDb.MergeOrRename | alembic/versions/w0x1y2z3a4b5_drop_builtin_skill_name_suffixes.py:95-152 | one rename or merge, with the version table at the end of every statement |
| SkillMigration.SkillDb.ApplyRenames | alembic/versions/w0x1y2z3a4b5_drop_builtin_skill_name_suffixes.py:205-285 | the whole migration, with the version tables of every merge in turn |
| CollectionRequests.UploadStagesExactly | ui/backend/knowledge_bases.py:402-424 | an upload stages its own files as sent; an add also each file of the directory its query named that no uploaded name supersedes, case aside, and nothing else |
| CollectionAdds.AddStagesLive | ui/backend/knowledge_bases.py:199-240 | an add that looked while no job of its collection was in flight stages the files of the generation that is live when it commits, whatever came between |
| CollectionAdds.SourceStays | ui/backend/knowledge_bases.py:199-224 | the files it looked up are there, unchanged, whenever their generation still is one of the two newest |
| CollectionAdds.LateAddStagesItsOwn | ui/backend/knowledge_bases.py:213-215 | once a prune has removed the directory it looked up, an add stages its own files alone |
| CollectionRequests.UploadOnlyAdds | ui/backend/knowledge_bases.py:427-474 | an accepted upload adds one job and one directory and changes no other job, document, directory or collection |
| CollectionRequests.UploadQueuesItsShape | ui/backend/knowledge_bases.py:427-474 | the queued job has the request's shape, the collection's own where none is named, and counts every staged file |
| CollectionRequests.RetryResetsInPlace | ui/backend/knowledge_bases.py:910-979 | same row, same directory, diagnostic rows gone, nothing newer or in flight, nothing else touched |
| CollectionRequests.DeleteLeavesNothing | ui/backend/knowledge_bases.py:1031-1043 | no job, document, chunk, worker or reference of the collection is left, and all of every other collection's |
| CollectionRequests.OneAtATime | ui/backend/knowledge_bases.py:602-615 | while a job is queued or running, removal, restore, retry and deletion are refused |
| InboxLedger.StatementsKeepKeys | ui/backend/db/inbox_events.py:134-434 | no statement but a record adds, drops or moves a message |
| InboxLedger.AbandonRetiresTheRest | ui/backend/db/inbox_events.py:225-276 | nothing of another mailbox or generation is left waiting, and no claimed, finished or current row is touched |
| PipelineCache.FoundWasBuilt | ui/backend/main.py:509-511 | what a lookup finds was built for that very key and stamp, and no invalidation has run since its request began |
| PipelineCache.FinishedIsFound | ui/backend/main.py:391-396 | a build whose generation has not moved is found as it is, under its own key and stamp alone, and changes no other answer |
| SkillMeaning.MergeAllLeavesNothingDangling | alembic/versions/w0x1y2z3a4b5_drop_builtin_skill_name_suffixes.py:145-152 | after every rename each snapshot and skill dependency still names a skill that exists |
| SkillMeaning.TitlesFollow | alembic/versions/w0x1y2z3a4b5_drop_builtin_skill_name_suffixes.py:214-235 | only old titles of platform snapshots change, to their skill's new name |
## Left out

- File order within a job, upload size and per-request file limits, and files an operator removes by hand: they change no row's content.
- Error texts, notifications, alerts, health evaluation, metering and usage rows.
- `ui/backend/knowledge_bases.py` legacy file-backed collections, path containment and cache paths.
- `job.kb_type` left unset on very old rows: a job's type is always present in the model.
- `_cap` and `_cap_list`: a row's texts are one opaque body, so their truncation is not modelled.
- `_extract_json_object` and the envelope's validation: the parsed output is an arbitrary one of no marker, invalid, or a list of items.
- `cost_exceeded` and the budget periods: whether the month is overspent is an arbitrary input of the claim step.
- `email_filter.evaluate`: which new messages are rejected is an arbitrary input of detection.
- The retry's check that no other retry of the same run is running, and its mailbox and credential checks: each only refuses more.
- Detection and dispatch are separate machines: detection's ledger work appears in dispatch as a step, and dispatch's in detection as any change that keeps the keys.
- The executor's thread pool: a submitted run is live until its worker's end, with no further structure.
- The downgrade of the migration: the general lemmas cover its rename list too, but only the upgrade's consistency is shown.
- Unpinned skill lookups: what a draft resolves a platform name to after the merge changes by design.
- `peak_hour` and team counts of the overview: single expressions.
- The webhook, OAuth, share chat, builder wizard and admin endpoints.
- DetectionIsDurable: knows one mailbox; one replaced by another is a rebuild, so a replacement whose UIDVALIDITY is the old one's or smaller is not part of this model.
- CommitPrune: rolled back on a violated key, a prune leaves the directories it had removed by then gone; they are steps of their own (`DoDropDir`).
- CapHoldsAllDay: holds up to the next midnight, because a thread that loaded the trigger on the day before can pass the check with its own day (`CapCheckPassesIff`).
- MutualExclusion: counts a run the watchdog has released as over, because its worker cannot be stopped.
