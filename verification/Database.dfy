// The documents, jobs and document_chunks tables, and the guarded transitions of the ingester
// as functions from table state to table state. One call is one committed session block.
module Database {
  import opened Types

  datatype Attempt = Attempt(attempt: nat, error: string)

  /** What a stage returns: the entries later read back by `complete_stage`. */
  datatype StageResult = StageResult(pages: Option<nat>, inserted: Option<nat>)

  datatype Details = Details(attempts: seq<Attempt>, error: Option<string>, result: Option<StageResult>)

  datatype Job = Job(
    document: DocId,
    stage: Stage,
    status: JobStatus,
    createdAt: Time,
    startedAt: Option<Time>,
    finishedAt: Option<Time>,
    details: Details)

  datatype Document = Document(
    user: UserId,
    contentHash: Hash,
    ext: Extension,
    status: DocStatus,
    parsedKey: Option<Key>,
    pageCount: Option<nat>,
    chunkCount: nat,
    indexedAt: Option<Time>,
    error: Option<string>)

  /** `nextId` stands for fresh UUIDs: every identifier handed out so far is below it. */
  datatype Db = Db(
    docs: map<DocId, Document>,
    jobs: map<JobId, Job>,
    chunks: map<DocId, seq<Row>>,
    nextId: nat)

  datatype StartOutcome = Started(document: DocId) | StartJobMissing | StartAlreadyDone | StartAlreadyFailed
                        | StartDocMissing | StartInvalid

  datatype CompleteOutcome = Completed(next: Option<JobId>) | CompleteJobMissing | CompleteAlreadyDone
                           | CompleteDocMissing | CompleteInvalid

  const NO_DETAILS := Details([], None, None)

  function QueuedJob(doc: DocId, stage: Stage, now: Time): Job {
    Job(doc, stage, Queued, now, None, None, NO_DETAILS)
  }

  predicate Active(job: Job) {
    job.status == Queued || job.status == Running
  }

  predicate Terminal(job: Job) {
    job.status == Done || job.status == JobFailed
  }

  function ChunkRows(db: Db, doc: DocId): seq<Row> {
    if doc in db.chunks then db.chunks[doc] else []
  }

  function SetJob(db: Db, id: JobId, job: Job): Db {
    db.(jobs := db.jobs[id := job])
  }

  function SetDoc(db: Db, id: DocId, doc: Document): Db {
    db.(docs := db.docs[id := doc])
  }

  function StartOutcomeOf(db: Db, id: JobId, stage: Stage): StartOutcome {
    if id !in db.jobs then StartJobMissing
    else
      var job := db.jobs[id];
      if job.stage != stage then StartInvalid
      else if job.status == Done then StartAlreadyDone
      else if job.status == JobFailed then StartAlreadyFailed
      else if job.document !in db.docs then StartDocMissing
      else if db.docs[job.document].status !in {Pending, Processing} then StartInvalid
      else Started(job.document)
  }

  /** The effect of a successful start: job running, document processing with its error cleared. */
  function StartedDb(db: Db, id: JobId, now: Time): Db
    requires id in db.jobs && db.jobs[id].document in db.docs
  {
    var job := db.jobs[id];
    var doc := db.docs[job.document];
    var job' := if job.status == Queued then job.(status := Running, startedAt := Some(now))
                else if job.startedAt.None? then job.(startedAt := Some(now))
                else job;
    var doc' := if doc.status == Pending then doc.(status := Processing, error := None) else doc;
    SetDoc(SetJob(db, id, job'), job.document, doc')
  }

  /** First session block of `run_stage`: start the job, or fail it when the transition is refused. */
  function StartTx(db: Db, id: JobId, stage: Stage, now: Time): Db {
    match StartOutcomeOf(db, id, stage)
    case Started(_) => StartedDb(db, id, now)
    case StartDocMissing => FailStage(db, id, "document missing", now)
    case StartInvalid => FailStage(db, id, "invalid transition", now)
    case _ => db
  }

  function FailStage(db: Db, id: JobId, error: string, now: Time): Db {
    if id !in db.jobs || Terminal(db.jobs[id]) then db
    else
      var job := db.jobs[id];
      var db' := SetJob(db, id, job.(status := JobFailed, finishedAt := Some(now),
                                     details := job.details.(error := Some(error))));
      if job.document in db.docs && db.docs[job.document].status in {Pending, Processing} then
        SetDoc(db', job.document, db.docs[job.document].(status := DocFailed, error := Some(error)))
      else db'
  }

  function RecordAttempt(db: Db, id: JobId, error: string, attempt: nat): Db {
    if id !in db.jobs || db.jobs[id].status != Running then db
    else
      var job := db.jobs[id];
      SetJob(db, id, job.(details := job.details.(attempts := job.details.attempts + [Attempt(attempt, error)])))
  }

  function CompleteOutcomeOf(db: Db, id: JobId, next: Option<Stage>): CompleteOutcome {
    if id !in db.jobs then CompleteJobMissing
    else
      var job := db.jobs[id];
      if job.status == Done then CompleteAlreadyDone
      else if job.status != Running then CompleteInvalid
      else if job.document !in db.docs then CompleteDocMissing
      else if db.docs[job.document].status != Processing then CompleteInvalid
      else Completed(if next.None? then None else Some(db.nextId))
  }

  function CompletedDoc(doc: Document, stage: Stage, result: StageResult, next: Option<Stage>, now: Time): Document {
    var doc' := if stage == Extract && result.pages.Some? then doc.(pageCount := result.pages) else doc;
    if next.None? then
      doc'.(status := Indexed, indexedAt := Some(now),
            chunkCount := if result.inserted.Some? then result.inserted.value else 0)
    else doc'
  }

  /** Mark the stage done and create the next job in the same transaction; unchanged when refused. */
  function CompleteStage(db: Db, id: JobId, result: StageResult, next: Option<Stage>, now: Time): Db {
    if !CompleteOutcomeOf(db, id, next).Completed? then db
    else
      var job := db.jobs[id];
      var doc := CompletedDoc(db.docs[job.document], job.stage, result, next, now);
      var db' := SetDoc(SetJob(db, id, job.(status := Done, finishedAt := Some(now),
                                            details := job.details.(result := Some(result)))),
                        job.document, doc);
      if next.None? then db'
      else SetJob(db', db.nextId, QueuedJob(job.document, next.value, now)).(nextId := db.nextId + 1)
  }

  /** Replace all chunk rows of a document. */
  function ReplaceChunks(db: Db, doc: DocId, rows: seq<Row>): Db {
    db.(chunks := db.chunks[doc := rows])
  }

  /** Row delete; the foreign keys cascade to jobs and chunks. */
  function DeleteDocument(db: Db, doc: DocId): Db {
    db.(docs := db.docs - {doc},
        jobs := map j | j in db.jobs && db.jobs[j].document != doc :: db.jobs[j],
        chunks := db.chunks - {doc})
  }

  /** First commit of reprocess: chunk rows dropped, the document pending again. */
  function ResetDocument(db: Db, doc: DocId): Db {
    if doc !in db.docs then db
    else
      SetDoc(db, doc, db.docs[doc].(status := Pending, error := None, chunkCount := 0, indexedAt := None))
        .(chunks := db.chunks - {doc})
  }
}
