# DocMind: verified models of the ingestion pipeline, retrieval, splitting and storage

DocMind takes an uploaded file through five stages (extract, clean, chunk, embed, index), run by
ARQ workers over one relational database, one object store and one Redis queue. It then answers
questions from the indexed chunks. This project models the code whose correctness is not visible
in any single body: the worker protocol, the retrieval loops, the token-window splitter and the
content-addressed stores. It states, and proves in Dafny 4.11, what that code keeps over every
run or every input. `dafny verify dfyconfig.toml` checks all of it.

## How it is organised

**The pipeline as one state machine.** `Types`, `Database` and `Pipeline` hold the tables, the
object store, the task queue, the clock, workers with a program counter and sweeper passes. Each
committed session block, computation, storage write and queue call is one atomic event. `Apply` is total: an
event whose guard fails changes only the clock, so *every* sequence of events is a run. That covers
any number of workers in any interleaving, duplicate deliveries at any attempt number, crashes
between any two blocks, raised errors at any point of a stage, sweeps, deletes, re-uploads, lost
tasks, results that expire and artifacts that vanish.

**The code that is imperative stays imperative.** `Ingestion`, `RunStage`, `Sweeping`,
`DocumentService`, `Fusion`, `S3Storage`, `LocalStorage` and `Splitter` are classes with methods
and loops in the source's own order. `RunStage.World.RunStage` and `Sweeping.Sweeper.SweepPipeline`
tie the code to the machine. With arbitrary foreign events in every gap between two session blocks,
what the method does *is* a run of the machine, so the theorems about runs apply to the code. `Conduct`
says which steps the code takes where, `Undisturbed` what they come to when nobody else acts, and
`SweepBounds`, in literal times, which jobs a sweep touches and which it leaves alone. In the
same way both `PutStream` methods are one upload in a run of `StoredContent`, the machine of racing
uploads and deletes, with the events of others before the key is looked up and before it is written.

**The invariants.** `Naming` (identifiers never change meaning), `Chains` and `Control` (a
document's jobs form one chain) and `ContentSafety` (what is stored is genuine) are inductive over
events. The theorems about runs quantify over all event sequences from the empty system. `Moves`
says what one step of a worker does to the tables and to ARQ, action by action. `Termination`
follows one document through such a run: every other worker, document, request and sweep may act
between any two steps of its deliveries, each of which may be made by another worker, and a
duplicate delivery or a sweep may complete or fail its jobs. `Records` follows errors and attempts
into the rows, and `Reuploads` says what a repeated upload finds and resumes. `Suffixes` and `ChunkCounts` say what
becomes of bytes that are uploaded under two file suffixes.

## Assumptions

- The code takes no row locks. One committed session block is one atomic step here.
- The clock strictly advances with every event, so two rows of one document never share a creation
  time. `nextId` stands for fresh UUIDs.
- Parsing, cleaning, chunking and embedding are unknown deterministic functions, under one fixed
  configuration for a whole run. Extraction sees the bytes and the file suffix, as Docling does.
- SHA-256 is an unknown function without a collision among the contents of the run at hand. Storing
  rows or a parsed document as gzipped JSON and reading it back gives the same value. Users are
  written as 36 characters and digests as 64.
- Inside one stage the row read, the cache probe and the artifact load are one compute event; nothing
  is written between them. As the probe may answer anything, an artifact that vanishes between probe
  and load is covered; a document row that others change between its read and the load is not.
- A result that ARQ keeps is gone once it is `keep_result` old, the one lifetime configured for all
  tasks (core/config.py:70, workers/settings.py:46).
- Whether a cache probe answers yes is the environment's choice at each stage, and artifacts may
  disappear at any time, so "if present then correct" is what is claimed of them, never "present".
- `status in (DocumentStatus.FAILED)` is a substring test in Python and equals the test for FAILED
  on the four values in use. Progress is a multiple of 0.2, so rounding to two digits changes nothing.
- `reprocess` inserts two jobs and can race a live worker, so the theorems that say `NoReprocess`
  exclude it. Identity of rows, job history, the count of active jobs and the sweep theorem include it.

## What the code does not do

Each of these is a theorem below, with the input that shows it or the exact condition.

- *Extraction depends on the suffix, the artifact key only on the hash.* Uploaded under two
  suffixes, the second document can be indexed with the first one's rows. Rows are exact in every
  run if and only if the pipeline gives the same rows for both suffixes or the bytes are usable under
  neither (`Suffixes.ExactInEveryRunIff`); under neither, nothing is ever indexed
  (`Suffixes.IndexedInSomeRunIff`).
- *The stored chunk count need not be the number of stored rows.* Rows are committed before the stage
  completes, so a second delivery of the index job can replace them, with another suffix's rows, before
  the first one writes its count (`ChunkCounts.CountOfOtherSuffix`). Count and rows agree in every run if
  and only if both suffixes give as many rows or one of them is not usable
  (`ChunkCounts.CountsInEveryRunIff`).
- *"Still sitting in ARQ, the queue is slow, not lost"* (sweeper.py:371). Upload enqueues before its
  request commits. A worker that is faster finds no job row and finishes, and ARQ then keeps only
  the result. The sweep skips that job, which is in no queue, exactly while the result is younger
  than its lifetime (`SweepPass.StrandedIsSkippedIff`); the first sweep after that requeues it
  (`SweepPass.SkippedIsRequeuedLater`).
- *"Re-uploading a failed document retries it"* (api/v1/documents.py:54-56). The upload finds the failed
  job and enqueues it again, and a delivery of a failed job does nothing. A repeated upload resumes a
  document if and only if it is PENDING or PROCESSING (`Reuploads.ReuploadResumesIff`); a FAILED one stays
  FAILED in every run until it is reprocessed or deleted (`Reuploads.ConcludedDocumentsStay`).
- *The three-hour budget for a running job* covers the slowest stage if and only if at most five tries
  are configured (`Retries.SlowestStageFitsIff`). The default is three.
- *The error of a rejected upload can depend on how the stream was chunked*; whether it is accepted
  cannot (`StorageBase.AnswerIsFixedIff`).
- *A failed copy or removal after a completed multipart upload* leaves the staging object behind, and
  no other failing call does (`S3Calls.StagingStaysIff`, with a failing call named in `S3Calls.OneFault`).
- *MMR's shortcut for "at most k candidates"* breaks the prefix property between k and k+1. The
  k-result is a prefix of the (k+1)-result for all n candidates if and only if n is not k+1, or
  lambda is at least 1, or k is 0 (`Mmr.GrowsForAllIff`; on sorted, fully embedded candidates one
  more case is safe, `Mmr.SortedGrowsForAllIff`).
- *Truncation to "the best chunk"* keeps the first chunk by position. The first passage holds a selected
  chunk if and only if the best run has one and fits, or does not fit and a selected chunk leads it
  (`Passages.FirstPassageHoldsSelectedIff`), that is, no candidate was given for the position before
  (`Passages.LeadsIffNothingBefore`).
- *A run without a selected chunk* exists for some input if and only if the window is two or more
  (`Passages.RunsHoldSelectedIff`).
- *A tokenizer whose decoded text grows* can lose text. Nothing is cut or dropped if and only if every
  window re-encodes within the budget (`Splitter.NothingIsCutIff`), and a body is lost whole if and
  only if no prefix of any of its windows fits (`Splitter.BodyVanishesIff`).
- *nDCG exceeds one* under some discount if and only if the first k results hit more often than there
  are gold ids (`Metrics.NdcgIsAtMostOneIff`), under every discount as `Metrics.NdcgExceedsOneIff` says, and under
  a given one if and only if the hits after the ideal places weigh more than the misses among them
  (`Metrics.NdcgExceedsOneAtIff`).
- *Fingerprint material joined by bars is ambiguous* once a field contains a bar (`Keys.BarsAreAmbiguous`).
  Fingerprints agree if and only if the joined texts do (`Keys.FingerprintsAgreeIffTexts`).

## Model

| member | source | states |
|---|---|---|
| `Types.NextStage` | backend/app/workers/tasks.py:53-61 | The successor is one place later in the canonical order, and only the last stage has none. |
| `Ingestion.Ingester.StartStage` | backend/app/rag/ingestion.py:98-171 | Which of the six outcomes occurs, in the source's order of tests; on a start the job is RUNNING with its start time stamped only if missing and a PENDING document becomes PROCESSING; otherwise no table changes. |
| `Ingestion.Ingester.SetStatus` | backend/app/db/repositories/documents.py:128-165 | Status overwritten and the error cleared; every other column and row unchanged. |
| `Ingestion.Ingester.FailStage` | backend/app/rag/ingestion.py:173-202 | A missing or terminal job changes nothing; otherwise job FAILED with its error, and the document too only if PENDING or PROCESSING. |
| `Ingestion.Ingester.RecordAttempt` | backend/app/rag/ingestion.py:85-96 | One attempt appended to a RUNNING job; nothing for any other job. |
| `Ingestion.Ingester.CreateEnqueue` | backend/app/db/repositories/jobs.py:33-59 | A fresh QUEUED row for the document and stage; no other row changes. |
| `Ingestion.Ingester.CompleteStage` | backend/app/rag/ingestion.py:204-249 | Refused without effect unless the job is RUNNING and its document PROCESSING; otherwise the job is DONE and, in the same transaction, either the next job exists or the document is INDEXED with its chunk count. |
| `Ingestion.Ingester.SetParsedKey` | backend/app/rag/ingestion.py:71-76 | Exactly one document's parsed key is set. |
| `Ingestion.Ingester.BulkInsert` | backend/app/rag/ingestion.py:276-284 | The document's rows are replaced, not appended to; both counts are reported. |
| `RunStage.World.DoExtract` | backend/app/workers/tasks.py:375-411 | The stage function leaves the worker where one compute step of the machine does: cache hit, computed, or object missing. |
| `RunStage.World.DoClean` | backend/app/workers/tasks.py:414-444 | As for extract, with its three failures in the source's order. |
| `RunStage.World.DoChunk` | backend/app/workers/tasks.py:447-470 | As for extract, whatever a cache probe would answer: this stage never asks. |
| `RunStage.World.DoEmbed` | backend/app/workers/tasks.py:473-512 | As for chunk; a missing object and an empty artifact are permanent, each with its own error. |
| `RunStage.World.DoIndex` | backend/app/workers/tasks.py:515-553 | As for chunk; a missing object, no chunks, a row without an embedding and a row of another dimension are told apart, the last two by the first bad row. |
| `RunStage.World.StartBlock` | backend/app/workers/tasks.py:160-182 | The first session block is the machine's delivery step, whatever the tables hold. |
| `RunStage.World.CommitBlock` | backend/app/workers/tasks.py:184-187 | Committing the stage's session is the machine's commit step, including the failure when the document row is gone. |
| `RunStage.World.HandleFailure` | backend/app/workers/tasks.py:188-206 | Retry if and only if the error is transient and tries remain, after exactly the backoff delay; both paths are machine steps that leave the worker idle. |
| `RunStage.World.CompleteBlock` | backend/app/workers/tasks.py:213-231 | The completing session is the machine's complete step, in all five outcomes. |
| `RunStage.World.EnqueueBlock` | backend/app/workers/tasks.py:243-258 | Enqueueing the next task is the machine's enqueue step; a task ARQ already knows is refused. |
| `RunStage.World.RunStage` | backend/app/workers/tasks.py:106-258 | With arbitrary foreign events in every gap, errors at any point and Redis up or down, the whole delivery is a run of the machine that begins by delivering this job and in which this worker takes exactly the steps the code calls for; a retry is asked for if and only if the stage function failed transiently below the limit, with the backoff delay. If nobody else acts and Redis is up, from a ready job: another attempt exactly in that case, else the document is finished or the next job is ready and in the queue; on a usable input without errors the whole stage is done. |
| `Conduct.NoCrash` | backend/app/workers/tasks.py:106-258 | In every such delivery the worker drops its task nowhere but in place of the enqueue, and there only while Redis is down. |
| `Undisturbed.DeliveryEnds` | backend/app/workers/tasks.py:106-258 | Any delivery of a ready job that takes the steps called for, undisturbed, ends waiting for another attempt if and only if it failed transiently with tries left, and otherwise with the document finished or the next job ready and in the queue. |
| `Undisturbed.GoodDeliveryDoesTheStage` | backend/app/workers/tasks.py:184-258 | Without errors on a usable input it stores, commits and completes exactly its stage's output and hands over the next job, or leaves the document indexed. |
| `RunStage.OtherDispatch` | backend/app/workers/tasks.py:106-258 | No event of anyone else reads or moves this worker's program counter: it commutes with the worker's position, for every event. |
| `Pipeline.RunConcat` | backend/app/workers/tasks.py:106-258 | A run of a concatenation is the run of the second part from where the first one ends, so runs compose. |
| `Naming.RunNamed` | backend/app/rag/ingestion.py:98-249 | In every run, with reprocess: every job, task, worker, queue entry and sweep record refers to an identifier handed out once, with one document and one stage for ever. |
| `Naming.CompleteNamed` | backend/app/rag/ingestion.py:204-249 | Completing a stage hands out one new identifier and keeps the meaning of all others. |
| `Chains.ActiveIsLast` | backend/app/rag/ingestion.py:98-249 | Only the last job of a chain can be other than DONE. |
| `Chains.StartKeeps` | backend/app/rag/ingestion.py:98-171 | The start block keeps every document's jobs one chain, including its three failure paths. |
| `Chains.FailKeeps` | backend/app/rag/ingestion.py:173-202 | A failure keeps the chains and their agreement with document statuses, for any job at any time. |
| `Chains.CompleteKeeps` | backend/app/rag/ingestion.py:204-249 | A completion lengthens exactly one chain, by the next stage, or closes it. |
| `Chains.DeleteKeeps` | backend/app/services/document_service.py:155-156 | Deleting a document removes exactly its chain. |
| `Control.DispatchChained` | backend/app/workers/tasks.py:106-258 | Every event but reprocess keeps the jobs of every document one chain from EXTRACT whose last job fixes the document's status. |
| `Control.RunControlled` | backend/app/db/repositories/jobs.py:335-370 | Hence in every run; and RUNNING jobs have a start time, QUEUED ones have none, which is what `list_stuck` relies on. |
| `ReadModel.JobsFormOneChain` | backend/app/rag/ingestion.py:98-249 | In every run without reprocess all jobs of a document form one chain, all DONE except possibly the last, whose status is the document's; DONE throughout means all five stages. |
| `ReadModel.OneActiveJob` | backend/app/rag/ingestion.py:98-249 | At most one active job for a document, one if and only if it is PENDING or PROCESSING, and never a document without a job. |
| `ReadModel.StartsAreNeverInvalid` | backend/app/workers/tasks.py:170-179 | In such runs no delivery of any task, however late or duplicated, meets an invalid transition or a missing document at its start. |
| `ReadModel.LatestByStage` | backend/app/db/repositories/jobs.py:193-216 | The dictionary holds, for each stage, the first row of that stage and no other stage; in the order of the query, newest first, that is a row of the greatest creation time of its stage. |
| `ReadModel.GetDocumentState` | backend/app/services/document_service.py:287-333 | The loop's stages, done count and current stage are those of the specification function. |
| `ReadModel.ReportedStateAgrees` | backend/app/services/document_service.py:40-77 | In every run without reprocess the reported stage is that of the one active job, none if and only if INDEXED or FAILED, and progress is 1.0 if and only if INDEXED. |
| `ReadModel.StagesReportTheirJobs` | backend/app/services/document_service.py:287-333 | In every run without reprocess each reported stage has the status, times and whole milliseconds of its one job, or is queued if it has none, and progress is the share of the five stages whose job is done. |
| `ReadModel.ProgressNeverDrops` | backend/app/services/document_service.py:321-325 | A client that polls at two moments of one run never sees progress fall. |
| `JobHistory.DispatchKeeps` | backend/app/rag/ingestion.py:138-249 | One event changes a given job only forward, or removes it with its document; no identifier comes back. |
| `JobHistory.FinishedJobsAreFinal` | backend/app/rag/ingestion.py:145-148 | In every run, with reprocess: a DONE or FAILED row never changes again in any column. |
| `JobHistory.StartTimeIsSetOnce` | backend/app/rag/ingestion.py:161-165 | A start time, once set, is the same for the rest of the run, and the job is never QUEUED again. |
| `JobHistory.JobsCompleteAtMostOnce` | backend/app/rag/ingestion.py:213-249 | Over a whole run each job completes at most once, so it yields at most one successor, however often it is delivered. |
| `ActiveJobs.ActiveJobsAreBounded` | backend/app/services/document_service.py:412-418 | In every run a document has at most one active job more than the jobs that reprocess inserted for it. |
| `Records.RowsKeepTheRecord` | backend/app/rag/ingestion.py:85-96 | In every run, with reprocess: a job's row holds exactly the attempts recorded for it, in order, each with its number and error; it is FAILED if and only if some event failed it, and then has that event's error and time. |
| `Records.FailedDocumentsAreExplained` | backend/app/rag/ingestion.py:173-202 | In every run, with reprocess: a FAILED document carries the error with which one of its jobs failed. |
| `Records.RaisedErrorIsRecorded` | backend/app/workers/tasks.py:188-206 | An error raised by the stage and settled fails job and document with its text, marked as exhausted if transient at the limit; below the limit it adds one attempt and the job stays RUNNING. |
| `ContentSafety.RunGood` | backend/app/workers/tasks.py:375-553 | The content invariant holds in every run without reprocess over a set of contents whose digests do not collide. |
| `ContentSafety.StoredArtifactsAreGenuine` | backend/app/workers/tasks.py:375-553 | Any artifact present equals what recomputing its stage from those bytes gives, under some suffix, however many documents, users and workers shared it. |
| `ContentSafety.IndexedRowsAreGenuine` | backend/app/workers/tasks.py:515-553 | An INDEXED document's rows are embed(chunk(clean(extract(its bytes)))), indexable; its chunk count is that of such rows and its page count that of its bytes. Rows and counts are each those of some suffix of the bytes; see `ChunkCounts.CountsInEveryRunIff` for when they can differ. |
| `Suffixes.IndexedRowsAreExact` | backend/app/workers/tasks.py:375-553 | When each content is uploaded under one suffix, the rows are those of the document's own suffix, its chunk count is their number and its page count is theirs. |
| `Suffixes.RunSame` | backend/app/workers/tasks.py:402-404 | Two configurations that agree on the uploaded pairs of bytes and suffix give the same run, state for state. |
| `Suffixes.UndisturbedUploadIsIndexed` | backend/app/workers/tasks.py:106-258 | For every usable upload there is a run in which it is indexed with exactly its rows: the theorems above are not vacuous. |
| `Suffixes.SecondSuffixGetsFirstRows` | backend/app/workers/tasks.py:394-400 | A run in which the second upload of the same bytes under another suffix is indexed with the first suffix's rows. |
| `Suffixes.ExactInEveryRunIff` | backend/app/workers/tasks.py:394-400 | For bytes under any two suffixes: rows are exact in every run if and only if the pipeline's rows agree for both, or the bytes are usable under neither. |
| `Suffixes.IndexedInSomeRunIff` | backend/app/workers/tasks.py:473-553 | Some run indexes bytes that are uploaded under two suffixes if and only if one of the suffixes gives chunks, and rows the index stage accepts. |
| `ChunkCounts.CountOfOtherSuffix` | backend/app/workers/tasks.py:515-553 | For any bytes usable under two suffixes: a run with two deliveries of one index job around a late artifact write, after which the document is INDEXED with the rows of one suffix and the chunk count of the other. |
| `ChunkCounts.CountsInEveryRunIff` | backend/app/rag/ingestion.py:204-284 | For bytes under any two suffixes: the stored count is the number of stored rows in every run if and only if both give as many rows or at most one is usable. |
| `HappyPath.StageSucceeds` | backend/app/workers/tasks.py:106-258 | One undisturbed delivery of a ready job stores, commits and completes exactly this stage's output and readies the next job. |
| `HappyPath.StagesIndex` | backend/app/workers/tasks.py:53-61 | From any stage on, undisturbed deliveries index the document with the expected rows. |
| `Retries.BackoffGrowsToTheCap` | backend/app/workers/tasks.py:91-103 | Delays are 10, 20, 40, 80 and 160 seconds after the first five tries and 300 seconds exactly from the sixth on; they never decrease and never exceed that. |
| `Retries.TotalDelayIsBounded` | backend/app/workers/tasks.py:91-103 | The delays of one stage add up to at most 300 s for each retry. |
| `Retries.SlowestStageFitsIff` | backend/app/workers/sweeper.py:61-66 | The embed timeouts plus all delays stay below three hours if and only if max_tries is at most 5. |
| `Deliveries.OneDelivery` | backend/app/workers/tasks.py:106-258 | Without a crash each delivery finishes the document, or leaves the same job ready for a retry below the limit, or leaves the next stage's job ready and in the queue. |
| `Deliveries.DeliveredIsRun` | backend/app/workers/tasks.py:106-258 | Such a delivery, with an error at any of three points or none, is a run of the machine. |
| `Termination.DeliveriesAreBounded` | backend/app/workers/tasks.py:106-258 | Along every orderly run, whatever others do in between, duplicates that complete or fail a job included, and whichever worker makes each delivery: the deliveries made plus those that can still come never exceed the stages and tries left at the start. |
| `Termination.DocumentsFinish` | backend/app/workers/tasks.py:194-206 | From every state reachable without reprocess, an active document whose task ARQ was given gets at most 5 times max_tries deliveries (at least one try always happens), and after that many, or when no further one is due, it is INDEXED or FAILED. |
| `Termination.OneDeliveryIsOrderly` | backend/app/workers/tasks.py:106-258 | Any delivery by one worker, with its own events in any order and number after the first, is orderly from any state and counts as one. |
| `Termination.DeliveryIsOrderly` | backend/app/workers/tasks.py:106-258 | So is the delivery as the code makes it, with an error raised at any of three points or none, and it ends where that delivery ends. |
| `SweepPass.SweepLosesNothing` | backend/app/workers/sweeper.py:308-379 | After a pass interleaved with anything: every old RUNNING job and every QUEUED job past the age limit is terminal or gone; every other QUEUED job past 20 minutes is in the queue, or ARQ held an unexpired result of it during the pass, unless ARQ itself lost it meanwhile; and requeued + failed + skipped is the number of stuck jobs. |
| `SweepBounds.SnapshotIsOverdue` | backend/app/db/repositories/jobs.py:335-370 | The snapshot holds a job if and only if it is QUEUED for more than 20 minutes or RUNNING for more than three hours. |
| `SweepBounds.PassSparesTheYoung` | backend/app/workers/sweeper.py:308-379 | A job QUEUED for at most 20 minutes or RUNNING for at most three hours when the pass begins is in no snapshot, and no step of the pass, whatever happens in between, changes its row or its place in ARQ, nor (without reprocess) its document's row. |
| `SweepBounds.QuietPass` | backend/app/workers/sweeper.py:308-379 | The exact result of a pass by itself for every job of any state: failed with the error of its case, requeued, or left with row and place unchanged, and no other document row touched. |
| `SweepPass.HandledStays` | backend/app/workers/sweeper.py:320-371 | What one iteration achieved for a job no later event undoes. |
| `SweepPass.StrandedIsSkippedIff` | backend/app/workers/sweeper.py:356-371 | For every user, content and wait between 20 minutes and the age limit, a run in which a QUEUED job is in no queue: the sweep skips it if and only if the leftover result is younger than keep_result, and requeues it otherwise. |
| `SweepPass.SkippedIsRequeuedLater` | backend/app/workers/sweeper.py:356-371 | A job skipped in one pass of such a run is requeued by the first pass after the result has expired. |
| `Sweeping.Sweeper.SweepJob` | backend/app/workers/sweeper.py:320-371 | The verdict and the new state of one iteration, in the source's order of tests, decided on the snapshot row but applied to the current one. |
| `Sweeping.Sweeper.SweepPipeline` | backend/app/workers/sweeper.py:275-379 | The loop over the snapshot, with arbitrary foreign events between iterations, is one pass of the machine and its counters add up; with none of them, what becomes of every job, in the snapshot or not, is the exact outcome of `SweepBounds.QuietPass`. |
| `Orphans.LoadLiveKeys` | backend/app/workers/sweeper.py:94-145 | The two sets hold exactly the keys and owner pairs of the rows. |
| `Orphans.SweepOrphans` | backend/app/workers/sweeper.py:212-272 | Deletions are attempted for exactly the scanned entries that no row names or owns and that were modified at least two hours ago, in order, at most 1000 of them successful; undated and younger ones are never attempted and those unreferenced are counted; scanning stops early only at the cap. No source file, parsed document or artifact that a row names is attempted. |
| `Orphans.SplitJoins` | backend/app/workers/sweeper.py:178-184 | Splitting a key at slashes gives segments without slashes that join back to the key. |
| `DocumentService.Service.LatestByDocument` | backend/app/db/repositories/jobs.py:372-391 | Some job of the document with the greatest creation time, none only if it has no job. |
| `DocumentService.Service.GetOrCreate` | backend/app/services/document_service.py:181-251 | A known upload changes nothing and answers with its latest job; a new one adds exactly one PENDING document and one QUEUED extract job. |
| `DocumentService.Service.DeleteUserDocument` | backend/app/services/document_service.py:103-179 | Deleted if and only if owned; rows first, with cascades; then exactly the source key and all artifacts of its digest are handed to cleanup. |
| `DocumentService.EveryDocumentHasAJob` | backend/app/services/document_service.py:219-232 | In every run without reprocess the bare `raise` of a document without jobs is unreachable. |
| `Reuploads.ReuploadFindsTheCurrentJob` | backend/app/services/document_service.py:214-231 | In every run without reprocess the newest job, which answers a repeated upload, is where the pipeline stands: its status gives the document's, and every other job is an earlier stage and DONE. |
| `Reuploads.ReuploadResumesIff` | backend/app/api/v1/documents.py:96-106 | A repeated upload changes no row, and leaves ARQ with a task for an active job of the document if and only if the document is PENDING or PROCESSING. |
| `Reuploads.ConcludedDocumentsStay` | backend/app/rag/ingestion.py:138-202 | An INDEXED or FAILED document keeps status, error, chunk count and indexing time through every run that does not reprocess it, for as long as it exists. |
| `Sorting.SortDescIsStable` | backend/app/rag/retrieval/ranking.py:38 | The sort used by both rankings is descending, a permutation, and keeps the order of equal keys. |
| `Sorting.StableSortIsUnique` | backend/app/rag/retrieval/ranking.py:38 | Those properties leave one possible result, so it is Python's `sorted`. |
| `Fusion.TakeVector` | backend/app/rag/retrieval/ranking.py:20-24 | One step of the first loop: overwrite on a repeated id, keep the dictionary's order. |
| `Fusion.TakeKeyword` | backend/app/rag/retrieval/ranking.py:26-36 | One step of the second loop: new entry, or rank and score copied and the share added. |
| `Fusion.ReciprocalRankFusion` | backend/app/rag/retrieval/ranking.py:9-38 | The result is the stable descending sort of closed-form scores over the merged ids, and each returned candidate is the kept object with its keyword rank and score. |
| `Fusion.ScoreIsSumOfShares` | backend/app/rag/retrieval/ranking.py:17-36 | On id-unique keyword lists the score is the sum of the shares of both lists, whatever `fused_score` was before. |
| `Fusion.ScoreIsReciprocalRank` | backend/app/rag/retrieval/ranking.py:17-36 | With the division spelled out: on id-unique lists an id ranked a and b scores vector_weight / (k + a) + keyword_weight / (k + b); a list that does not rank it adds nothing. |
| `Fusion.FusedIdsAreTheUnion` | backend/app/rag/retrieval/ranking.py:18-36 | An id is returned if and only if it is ranked in one of the lists, and once. |
| `Fusion.DominanceWins` | backend/app/rag/retrieval/ranking.py:17-36 | Ranked no worse in both lists and differently in one means a strictly higher score. |
| `Fusion.DominatingComesFirst` | backend/app/rag/retrieval/ranking.py:38 | And therefore an earlier place in the result. |
| `Mmr.ArgMax` | backend/app/rag/retrieval/ranking.py:67-68 | The pick is the first maximiser of the true objective, recomputed from scratch over everything selected. |
| `Mmr.SelectLoop` | backend/app/rag/retrieval/ranking.py:62-71 | The loop returns a greedy selection of min(k, n) items, each the lowest-index best at its turn. |
| `Mmr.MmrSelect` | backend/app/rag/retrieval/ranking.py:41-74 | The result is the specified selection: the shortcut where its guard holds, else greedy picks followed by candidates without an embedding, cut to k. |
| `Mmr.EachPickIsBest` | backend/app/rag/retrieval/ranking.py:41-74 | Off the shortcut, with the formula spelled out: no candidate still open beats an answer on lambda times its relevance scaled to [0,1] over the pool, minus (1 - lambda) times its largest cosine to those listed before, negative ones counting as 0. |
| `Mmr.OthersFollow` | backend/app/rag/retrieval/ranking.py:49-74 | Candidates without an embedding come after all others, in the order given. |
| `Mmr.DividingKeepsOrder` | backend/app/rag/retrieval/ranking.py:49-50 | Both comprehensions keep the order of the candidates. |
| `Mmr.GreedyIsUnique` | backend/app/rag/retrieval/ranking.py:66-71 | There is one greedy selection of each length. |
| `Mmr.SelectionGrowsByOne` | backend/app/rag/retrieval/ranking.py:46-74 | Off the shortcut, the k-result is the first k of the (k+1)-result. |
| `Mmr.GrowsUnlessOneShort` | backend/app/rag/retrieval/ranking.py:46-74 | The k-result is a prefix of the (k+1)-result unless there are exactly k+1 candidates, lambda is below 1, some candidate has an embedding and k is positive. |
| `Mmr.GrowsForAllIff` | backend/app/rag/retrieval/ranking.py:46-74 | For every n, k and lambda: all lists of n candidates keep the prefix if and only if n is not k+1, or lambda is at least 1, or k is 0. |
| `Mmr.SortedGrowsForAllIff` | backend/app/rag/retrieval/ranking.py:46-74 | The same for lists sorted by relevance with every embedding present, where k = 1 with lambda at least 0 is safe too. |
| `Mmr.SelectionIsSubBag` | backend/app/rag/retrieval/ranking.py:73-74 | Exactly min(k, n) candidates, none invented and none repeated. |
| `Mmr.ShortcutAgreesWithLoop` | backend/app/rag/retrieval/ranking.py:46-47 | At lambda 1 on relevance-sorted, fully embedded input the shortcut gives what the loop would. |
| `Mmr.ShortcutBreaksThePrefix` | backend/app/rag/retrieval/ranking.py:46-47 | Three sorted, fully embedded candidates whose 2-result is not a prefix of their 3-result. |
| `Passages.IndexByPosition` | backend/app/rag/retrieval/context.py:19-21 | The dictionary maps a position to the last candidate given for it, neighbours before selected. |
| `Passages.Widen` | backend/app/rag/retrieval/context.py:23-29 | A position is wanted if and only if some selected window reaches an existing chunk there, with the best such relevance. |
| `Passages.BestIsMax` | backend/app/rag/retrieval/context.py:24-29 | That score is attained by a reaching selected chunk and exceeded by none. |
| `Passages.GroupDocument` | backend/app/rag/retrieval/context.py:33-41 | One document's groups are exactly its maximal blocks of consecutive wanted positions, in ascending order. |
| `Passages.GroupRuns` | backend/app/rag/retrieval/context.py:31-41 | Over all documents the runs partition the wanted positions, each run once. |
| `Passages.RunsMeet` | backend/app/rag/retrieval/context.py:31-41 | Two maximal runs that share a position are the same run. |
| `Passages.RunScoreIsBestRelevance` | backend/app/rag/retrieval/context.py:37-41 | A run's score is the largest relevance of the selected chunks whose window reaches into it. |
| `Passages.SelectedIsWanted` | backend/app/rag/retrieval/context.py:23-29 | With a window of zero or more every selected chunk lies in a run. |
| `Passages.NarrowRunsHoldSelected` | backend/app/rag/retrieval/context.py:23-41 | With a window of at most one every run holds a selected chunk. |
| `Passages.WideRunsMayHoldNone` | backend/app/rag/retrieval/context.py:23-41 | For every window of two or more, an input, its runs as the function assembles them, and one of them that holds no selected chunk. |
| `Passages.RunsHoldSelectedIff` | backend/app/rag/retrieval/context.py:23-41 | Every run of every input holds a selected chunk if and only if the window is at most one. |
| `Passages.SortRuns` | backend/app/rag/retrieval/context.py:43 | Runs in non-increasing order of score, the same runs, equal scores in their earlier order. |
| `Passages.Fill` | backend/app/rag/retrieval/context.py:45-70 | The loop computes the greedy filling of the budget. |
| `Passages.CostOfOne` | backend/app/rag/retrieval/types.py:30-31 | A positive stored count is the cost; for a missing or zero one it is a quarter of the text's length rounded down, at least 1. |
| `Passages.BudgetHolds` | backend/app/rag/retrieval/context.py:45-70 | The passages cost at most max_tokens, or there is exactly one and it holds one chunk; they are empty only if there are no runs. |
| `Passages.OmittedRunsDoNotFit` | backend/app/rag/retrieval/context.py:49-51 | No wholly omitted run could still be added at the end. |
| `Passages.PassagesAreNumbered` | backend/app/rag/retrieval/context.py:54-69 | Citation ids are 1..n and scores never increase. |
| `Passages.BuildPassages` | backend/app/rag/retrieval/context.py:7-70 | The whole function: maximal runs of the wanted positions, ranked, filled; non-empty for a non-empty selection; within the budget or one single chunk. Each passage's ids, text, pages, section and tokens are those of its chunks in order, no run that would fit is left out, and with positive stored counts on every chunk the sums of the stored counts keep the budget. |
| `Passages.TruncationMayKeepANeighbour` | backend/app/rag/retrieval/context.py:49-53 | One selected chunk and a neighbour directly before it, under any budget below the two together: the answer is the neighbour alone. |
| `Passages.FirstPassageHoldsSelectedIff` | backend/app/rag/retrieval/context.py:43-70 | For every input: the first passage holds a selected chunk if and only if the best run has one and fits the budget, or does not fit and a selected chunk leads it. |
| `Passages.LeadsIffNothingBefore` | backend/app/rag/retrieval/context.py:19-41 | With a window of one or more a selected chunk leads its run if and only if no candidate was given for the position before it. |
| `Splitter.EmbeddingTextSplitter.Create` | backend/app/rag/chunk/splitter.py:5-20 | Construction succeeds if and only if the overlap is non-negative and below the budget. |
| `Splitter.EmbeddingTextSplitter.Fit` | backend/app/rag/chunk/splitter.py:52-68 | The shrinking loop computes the specified fit, for any tokenizer, and ends. |
| `Splitter.EmbeddingTextSplitter.Split` | backend/app/rag/chunk/splitter.py:70-111 | A too long prefix is the only error; an empty body yields the fitted prefix; otherwise the fitted pieces of token windows that, but for the last, hold max_tokens less the prefix's tokens, of which consecutive ones share exactly overlap_tokens or, if that is less, all but one, and which give back the body once the overlaps are dropped. |
| `Splitter.EmbeddingTextSplitter.SplitBody` | backend/app/rag/chunk/splitter.py:97-111 | The window loop yields the pieces of exactly those windows, skipping empty ones, and ends. |
| `Splitter.WindowsCover` | backend/app/rag/chunk/splitter.py:97-111 | Dropping each overlap and concatenating the windows gives back the body ids. |
| `Splitter.WindowsOverlap` | backend/app/rag/chunk/splitter.py:92-111 | Every window but the last is full; consecutive ones share exactly body_limit - step tokens; the last ends at the end of the body. |
| `Splitter.WindowCount` | backend/app/rag/chunk/splitter.py:97-111 | One window up to the limit, else 1 + the ceiling of (n - limit)/step. |
| `Splitter.PiecesFit` | backend/app/rag/chunk/splitter.py:100-106 | For any tokenizer every yielded piece is non-empty and re-encodes to at most max_tokens. |
| `Splitter.ShrunkFits` | backend/app/rag/chunk/splitter.py:58-68 | The shrunk text fits and decodes a non-empty prefix of the ids, or is empty. |
| `Splitter.ShrunkIsLongest` | backend/app/rag/chunk/splitter.py:58-68 | No longer prefix of the ids would have fitted. |
| `Splitter.WindowsComeOutWhole` | backend/app/rag/chunk/splitter.py:97-111 | If re-encoding never grows, nothing is cut from any window and none is dropped. |
| `Splitter.FittedIsTextIff` | backend/app/rag/chunk/splitter.py:52-68 | A text is left as it is if and only if it re-encodes within the budget, or is empty and stays so. |
| `Splitter.NothingIsCutIff` | backend/app/rag/chunk/splitter.py:97-111 | For any tokenizer that encodes the empty text within the budget: the pieces are the decoded windows if and only if every window re-encodes within the budget; that condition suffices for every tokenizer. |
| `Splitter.ShrunkVanishesIff` | backend/app/rag/chunk/splitter.py:58-68 | Shrinking ends with nothing if and only if no prefix of the ids fits but one that decodes to nothing. |
| `Splitter.BodyVanishesIff` | backend/app/rag/chunk/splitter.py:97-111 | No piece is yielded for a body if and only if every one of its windows vanishes. |
| `Splitter.GrowingTextCanVanish` | backend/app/rag/chunk/splitter.py:58-68 | For every budget, a tokenizer that yields no piece of any body. |
| `StorageBase.Sniff` | backend/app/services/storage/s3.py:143-152 | One chunk's size check and MIME probe keep size and head those of the bytes so far, or fail as the specification does. |
| `StorageBase.Describe` | backend/app/services/storage/s3.py:169-178 | After the stream: late probe, digest, logical key, and the answer both stores share. |
| `StorageBase.AdmitIff` | backend/app/services/storage/s3.py:143-178 | An upload is accepted if and only if its bytes are within the limit, the client stayed, the type of its first 8192 bytes is supported and its key is valid; then key (user, first two digits, digest, extension), name, digest, type and size are spelled out. |
| `StorageBase.RefusedWith` | backend/app/services/storage/s3.py:143-178 | Which error a refused upload gets, for all bytes that are not too large and unsupported at once. |
| `StorageBase.ConsumeSucceedsIff` | backend/app/services/storage/s3.py:143-152 | The loop accepts a stream if and only if its bytes are within the limit and, from 8192 bytes on, its head is a supported type. |
| `StorageBase.ConsumeErrorIsReal` | backend/app/services/storage/local.py:97-107 | Each error it raises is a real fault of the bytes. |
| `StorageBase.ChunkingDoesNotMatter` | backend/app/services/storage/local.py:77-163 | Success, key, type, size and digest depend only on the concatenation, and the digest is of those bytes. |
| `StorageBase.FailureKindIsFixedUnless` | backend/app/services/storage/local.py:97-107 | So does the error, unless the bytes are too large and unsupported at once. |
| `StorageBase.AnswerIsFixedIff` | backend/app/services/storage/s3.py:143-152 | The whole answer is the same for every chunking if and only if the bytes are not doubly at fault. |
| `S3Storage.Storage.FlushPart` | backend/app/services/storage/s3.py:120-140 | Parts are numbered 1..n in the order sent; the upload is created lazily, once; a failed call adds no part, and the calls made are recorded. |
| `S3Storage.Storage.BufferChunk` | backend/app/services/storage/s3.py:154-167 | Uploaded parts followed by the buffer are the bytes consumed; every part sent is exactly part_size; with chunks up to part_size so is the bound on the buffer. |
| `S3Storage.Storage.ConsumeStream` | backend/app/services/storage/s3.py:142-167 | The same after the whole stream; the calls made are those that the chunk sizes fix, or those before the first failing one. |
| `S3Storage.Storage.FinishMultipart` | backend/app/services/storage/s3.py:206-228 | The calls made are last part, completion, copy, removal, up to the first that fails; the staging object is there if and only if completion succeeded and removal did not, the final one if and only if the copy succeeded. |
| `S3Storage.Storage.PutStream` | backend/app/services/storage/s3.py:96-242 | With arbitrary publishes and deletes of others before the look-up and before the write, and any set of failing calls: the calls made, the answer, the objects others see (one upload of `StoredContent` in that run), the staging object and the open uploads are each fixed both ways by the upload and the first failing call; a multipart upload stays open only if its abort fails. |
| `S3Calls.WhatAFailureLeaves` | backend/app/services/storage/s3.py:193-242 | The copy failed if and only if the staging object alone is left, the removal failed if and only if both objects are, any other call if and only if nothing is. |
| `S3Calls.StagingStaysIff` | backend/app/services/storage/s3.py:206-228 | A staging object stays if and only if the upload is accepted, its key free, it spilled to parts, and the first failing call is one of the last two. |
| `S3Calls.OneFault` | backend/app/services/storage/s3.py:154-228 | An accepted chunk of one byte over a part makes seven calls; with call n alone failing the staging object stays if and only if n is the copy or the removal. |
| `LocalStorage.Storage.PutStream` | backend/app/services/storage/local.py:77-163 | No temporary file stays on any path; with arbitrary publishes and deletes of others before the check and before the rename, the files are those of one upload of `StoredContent` in that run: published if and only if it succeeds anew, found if and only if it is deduplicated; the same answer as S3 without faults. |
| `LocalStorage.Storage.Get` | backend/app/services/storage/local.py:165-177 | The chunks read concatenate to the file, each full but the last, none empty. |
| `LocalStorage.Storage.Delete` | backend/app/services/storage/local.py:206-211 | Exactly that key disappears, present or not. |
| `StoredContent.ObjectsMatchTheirKeys` | backend/app/services/storage/local.py:127-147 | In every interleaving of uploads and deletes each stored object has the digest that its key spells out. |
| `StoredContent.HitsServeTheUploadedBytes` | backend/app/services/storage/local.py:131-141 | A dedup hit refers to an object equal to the bytes just uploaded, whoever stored it. |
| `StoredContent.ObjectsOnlyChangeByDelete` | backend/app/services/storage/s3.py:180-204 | Until it is deleted an object keeps its bytes, through racing uploads. |
| `StoredContent.UploadThenRead` | backend/app/services/storage/s3.py:180-242 | After an upload succeeds, stored or deduplicated, a read before any delete of its key gives its bytes. |
| `StoredContent.ChecksOnce` | backend/app/services/storage/s3.py:180-191 | In any run of others an upload is a hit if and only if its key is there when it looks, and the look-up changes no object. |
| `StoredContent.PublishesOrCancels` | backend/app/services/storage/s3.py:193-242 | Whatever others do after the look-up, publishing sets exactly its own key to its bytes and giving up changes no object. |
| `Metrics.HitsAreIntersection` | backend/app/rag/evaluation/metrics.py:16-29 | On duplicate-free rankings counting hits and intersecting sets agree. |
| `Metrics.RecallAndPrecisionAgree` | backend/app/rag/evaluation/metrics.py:16-29 | recall times the number of gold ids is precision times k. |
| `Metrics.RecallIsMonotone` | backend/app/rag/evaluation/metrics.py:24-29 | Recall never falls as k grows and never exceeds one. |
| `Metrics.MrrMeetsHit` | backend/app/rag/evaluation/metrics.py:32-39 | MRR is 1/(i+1) when the first gold result among the first k has index i, positive if and only if there is a hit, one if and only if the first result is gold, and at most the hit rate. |
| `Metrics.GainIsAtMostIdeal` | backend/app/rag/evaluation/metrics.py:46-52 | For any positive strictly decreasing discount the gain is at most the ideal one, equal if and only if the hits come first. |
| `Metrics.NdcgIsNormalised` | backend/app/rag/evaluation/metrics.py:42-53 | nDCG of a duplicate-free ranking lies in [0,1] and is one if and only if the first min(the number of gold ids, k) results are all gold. |
| `Metrics.NdcgIsAtMostOneIff` | backend/app/rag/evaluation/metrics.py:42-53 | For any ranking: nDCG is at most one under every discount if and only if the first k results hit no more often than there are gold ids. |
| `Metrics.NdcgExceedsOneIff` | backend/app/rag/evaluation/metrics.py:42-53 | It exceeds one under every discount if and only if the ideal places are all gold and another hit follows. |
| `Metrics.NdcgExceedsOneAtIff` | backend/app/rag/evaluation/metrics.py:42-53 | At a given discount, for any ranking: above one if and only if the hits after the first min(the number of gold ids, k) places weigh more than the misses among them, and one if and only if they weigh the same. |
| `Metrics.RepeatedGoldScoresAboveOne` | backend/app/rag/evaluation/metrics.py:46-53 | One gold chunk listed twice scores above one. |
| `Keys.Fingerprints` | backend/app/services/storage/keys.py:43-58 | The loop's dictionary holds, for each stage, the chained digest of all configurations up to it. |
| `Keys.JoinIsInjective` | backend/app/services/storage/keys.py:55 | Joining by bars determines the fields when none contains a bar. |
| `Keys.BarsAreAmbiguous` | backend/app/services/storage/keys.py:18-22 | Extract configurations of the shape the source builds, for all values, that differ although their joined texts are the same. |
| `Keys.FingerprintsAgreeIffTexts` | backend/app/services/storage/keys.py:43-58 | For any fields: two configurations agree on a stage's fingerprint if and only if their joined texts agree on that stage and every one upstream. |
| `Keys.TextChangeInvalidatesDownstream` | backend/app/services/storage/keys.py:44-51 | For any fields: changing one stage's joined text keeps exactly the upstream keys. |
| `Keys.FingerprintsAgreeIff` | backend/app/services/storage/keys.py:43-58 | Without bars in the fields: they agree on a stage's fingerprint if and only if they agree on that stage and every one upstream. |
| `Keys.ArtifactKeysAreTheDownstreamOnes` | backend/app/services/storage/keys.py:82-89 | The list covers a stage's key if and only if the stage is at or after the given one. |
| `Keys.KeyNamesOneArtifact` | backend/app/services/storage/keys.py:61-79 | Under one configuration two artifact keys are equal if and only if content hash and stage are. |
| `Keys.ChangeInvalidatesDownstream` | backend/app/services/storage/keys.py:44-51 | Changing one stage's configuration keeps exactly the upstream keys. |
| `ModelCache.OneLoaderAtATime` | backend/app/services/llm_clients/model_cache.py:64-74 | Under every schedule at most one thread loads, and none clears meanwhile. |
| `ModelCache.LoadsAreConserved` | backend/app/services/llm_clients/model_cache.py:69-72 | Successful loads of a key are its removals, plus one if cached, plus one if about to be. |
| `ModelCache.LoadedOncePerClear` | backend/app/services/llm_clients/model_cache.py:43-88 | Between clears a key is loaded successfully at most once. |
| `ModelCache.StartsAreConserved` | backend/app/services/llm_clients/model_cache.py:64-74 | Over a whole run, the calls of a key's loader are those that succeeded, those that raised and the one still running. |
| `ModelCache.StartedOncePerFailureOrClear` | backend/app/services/llm_clients/model_cache.py:64-74 | A loader is called at most once more than it raised or its result was removed: a failed load leaves nothing behind. |
| `ModelCache.ReturnsTheCachedEntry` | backend/app/services/llm_clients/model_cache.py:60-74 | Whatever path a call returns by, it returns the entry cached at that moment. |
| `ModelCache.ReturnsAgree` | backend/app/services/llm_clients/model_cache.py:60-74 | Two calls that return for one key with no removal in between return the same model and lock. |
| `ModelCache.ClearLeavesTheOthers` | backend/app/services/llm_clients/model_cache.py:77-88 | A clear that gets the lock and ends, whatever other threads do meanwhile, leaves no key of its kind (none at all if no kind is named) and every other key with its entry. |
| `ModelCache.ClearCanFinish` | backend/app/services/llm_clients/model_cache.py:77-88 | Called while the lock is free, a clear can run to its end alone. |

## Left out

- Fusion.ReciprocalRankFusion: requires that a keyword entry repeating an id of an earlier keyword entry is another object than that one and is not in the vector list (always so when keyword ids are unique, as the callers' are). It also requires k + rank to be non-zero, where the source would divide by zero.
- Fusion.ScoreIsSumOfShares: asks for unique ids in the keyword list only; the vector list may repeat ids, and its last one counts.
- Mmr.MmrSelect: k is a natural number (a negative k would slice from the end), and real arithmetic stands for float32; cosine similarity is an unknown function, so the 1e-12 in the norm is part of it.
- Passages.BuildPassages: hands back the runs it ranked; the order among runs of equal score is fixed by `Passages.SortRuns` relative to the grouping order, not restated. Token counts are natural numbers.
- Passages.OmittedRunsDoNotFit: about wholly omitted runs only; the one truncated run is described by `Passages.BudgetHolds`.
- S3Storage.Storage.PutStream: calls of other requests in between act on content keys only; their staging keys and multipart uploads are separate and left out. A failed call has no effect on the service. The staging key is fresh.
- LocalStorage.Storage.PutStream: a temporary file is a map entry, and removing it succeeds; directories, fsync and rename across file systems are not modelled.
- StoredContent.HitsServeTheUploadedBytes: about the moment of the hit; a delete in between is excluded by the lemmas that speak of later reads. No two uploaded contents have the same digest.
- RunStage.World.RunStage: a worker killed inside the method is the machine's Crash event rather than a path of the method; on its own paths it drops its task only where Redis refuses the enqueue (`Conduct.NoCrash`). An ARQ timeout, which cancels the task past the handlers of the stage, is such a crash too. Log lines and request ids are dropped.
- SweepPass.SweepLosesNothing: "known to ARQ" is in its queue or among its unexpired results, as the code understands it; what that means for a task that is in no queue is `SweepPass.StrandedIsSkippedIff`.
- Sweeping.Sweeper.SweepPipeline: the branch for a stage without a task is left out, since every stage has one.
- Orphans.SweepOrphans: one row snapshot against one listing. An upload deduplicated onto an old orphan while the sweep runs is not protected by the code, and nothing is claimed of it.
- DocumentService.Service.DeleteUserDocument: which keys are deleted, not that they are gone: cleanup is best-effort, and artifacts are shared by digest with other documents.
- Suffixes.ExactInEveryRunIff: two suffixes and one content at a time.
- Termination.DocumentsFinish: bounds the deliveries of an orderly run, not the time until ARQ makes them. Orderly leaves out a delete or reprocess of the document and a crash of the worker that has its task; an enqueue that Redis refuses is such a crash. Duplicate deliveries may occur, complete or fail its jobs and hand over the next one; only the deliveries that take the task from its track are counted.
- Ingestion.Ingester.CompleteStage: job details are the three entries the pipeline itself reads back, not the whole JSON.
- Splitter.EmbeddingTextSplitter.Split: the generator is the sequence of what it yields; the tokenizer is a pair of unknown functions.
- Metrics.NdcgIsNormalised: stated for any positive strictly decreasing discount; that 1/log2(i+2) is one is not proved.
- Keys.FingerprintsAgreeIffTexts: digests are 16 characters without a bar and do not collide on the material at hand.
- ModelCache.OneLoaderAtATime: each step of a thread is atomic, as under CPython's lock; a crash inside the loader is a raised error.
- Reprocess in the strong invariants: its two jobs falsify them. Its effect is bounded by `ActiveJobs.ActiveJobsAreBounded`.
- `mark_running`, `mark_done` and `mark_failed` of the job repository: the pipeline does not call them.
- HTTP routes, authentication, settings, logging and migrations: plumbing.
- MIME tables, Docling, gzip and JSON formats, sentence-transformers, libmagic, pgvector and full-text search: unknown functions or not modelled.
- Conversation, message, citation, evaluation and extraction repositories, `render_context`, `rank_metrics` and the remaining metrics: easy members only.
