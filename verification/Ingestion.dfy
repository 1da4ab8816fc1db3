// The ingester: one session's view of the tables, changed in place by the guarded transitions.
module Ingestion {
  import opened Types
  import opened Database

  class Ingester {
    var docs: map<DocId, Document>
    var jobs: map<JobId, Job>
    var chunks: map<DocId, seq<Row>>
    var nextId: nat

    constructor (db: Db)
      ensures Tables() == db
    {
      docs, jobs, chunks, nextId := db.docs, db.jobs, db.chunks, db.nextId;
    }

    function Tables(): Db
      reads this
    {
      Db(docs, jobs, chunks, nextId)
    }

    /** Job queued to running, document pending to processing; nothing changes when it is refused. */
    method StartStage(id: JobId, stage: Stage, now: Time) returns (outcome: StartOutcome)
      modifies this
      ensures outcome == StartOutcomeOf(old(Tables()), id, stage)
      ensures Tables() == if outcome.Started? then StartedDb(old(Tables()), id, now) else old(Tables())
    {
      if id !in jobs { return StartJobMissing; }
      if jobs[id].stage != stage { return StartInvalid; }
      if jobs[id].status == Done { return StartAlreadyDone; }
      if jobs[id].status == JobFailed { return StartAlreadyFailed; }
      var doc := jobs[id].document;
      if doc !in docs { return StartDocMissing; }
      if docs[doc].status !in {Pending, Processing} { return StartInvalid; }
      if jobs[id].status == Queued {
        jobs := jobs[id := jobs[id].(status := Running, startedAt := Some(now))];
      } else if jobs[id].startedAt.None? {
        jobs := jobs[id := jobs[id].(startedAt := Some(now))];
      }
      if docs[doc].status == Pending { SetStatus(doc, Processing); }
      return Started(doc);
    }

    /** The repository's status update, which clears the error of a document that is under way again. */
    method SetStatus(doc: DocId, status: DocStatus)
      requires doc in docs
      modifies `docs
      ensures docs == old(docs)[doc := old(docs)[doc].(status := status, error := None)]
    {
      docs := docs[doc := docs[doc].(status := status, error := None)];
    }

    /** Best effort: a missing row or a finished job is left alone. */
    method FailStage(id: JobId, error: string, now: Time)
      modifies this
      ensures Tables() == Database.FailStage(old(Tables()), id, error, now)
    {
      if id !in jobs || jobs[id].status in {Done, JobFailed} { return; }
      jobs := jobs[id := jobs[id].(status := JobFailed, finishedAt := Some(now),
                                   details := jobs[id].details.(error := Some(error)))];
      var doc := jobs[id].document;
      if doc in docs && docs[doc].status in {Pending, Processing} {
        docs := docs[doc := docs[doc].(status := DocFailed, error := Some(error))];
      }
    }

    /** Appends to the attempt history of a running job. */
    method RecordAttempt(id: JobId, error: string, attempt: nat)
      modifies this
      ensures Tables() == Database.RecordAttempt(old(Tables()), id, error, attempt)
    {
      if id !in jobs || jobs[id].status != Running { return; }
      var history := jobs[id].details.attempts + [Attempt(attempt, error)];
      jobs := jobs[id := jobs[id].(details := jobs[id].details.(attempts := history))];
    }

    method CreateEnqueue(doc: DocId, stage: Stage, now: Time) returns (id: JobId)
      modifies this
      ensures id == old(nextId) && nextId == old(nextId) + 1
      ensures jobs == old(jobs)[id := QueuedJob(doc, stage, now)] && docs == old(docs) && chunks == old(chunks)
    {
      id := nextId;
      jobs := jobs[id := Job(doc, stage, Queued, now, None, None, NO_DETAILS)];
      nextId := nextId + 1;
    }

    /** Job running to done, and the next job in the same session; nothing changes when it is refused. */
    method CompleteStage(id: JobId, result: StageResult, next: Option<Stage>, now: Time) returns (outcome: CompleteOutcome)
      modifies this
      ensures outcome == CompleteOutcomeOf(old(Tables()), id, next)
      ensures Tables() == Database.CompleteStage(old(Tables()), id, result, next, now)
    {
      if id !in jobs { return CompleteJobMissing; }
      if jobs[id].status == Done { return CompleteAlreadyDone; }
      if jobs[id].status != Running { return CompleteInvalid; }
      var doc := jobs[id].document;
      if doc !in docs { return CompleteDocMissing; }
      if docs[doc].status != Processing { return CompleteInvalid; }
      jobs := jobs[id := jobs[id].(status := Done, finishedAt := Some(now),
                                   details := jobs[id].details.(result := Some(result)))];
      if jobs[id].stage == Extract && result.pages.Some? {
        docs := docs[doc := docs[doc].(pageCount := result.pages)];
      }
      if next.None? {
        docs := docs[doc := docs[doc].(status := Indexed, indexedAt := Some(now),
                                       chunkCount := if result.inserted.Some? then result.inserted.value else 0)];
        outcome := Completed(None);
      } else {
        var job := CreateEnqueue(doc, next.value, now);
        outcome := Completed(Some(job));
      }
    }

    method SetParsedKey(doc: DocId, key: Key)
      requires doc in docs
      modifies `docs
      ensures docs == old(docs)[doc := old(docs)[doc].(parsedKey := Some(key))]
    {
      docs := docs[doc := docs[doc].(parsedKey := Some(key))];
    }

    /** All chunk rows of the document are deleted and the new ones inserted; both counts are returned. */
    method BulkInsert(doc: DocId, rows: seq<Row>) returns (deleted: nat, inserted: nat)
      modifies this
      ensures deleted == |ChunkRows(old(Tables()), doc)| && inserted == |rows|
      ensures Tables() == ReplaceChunks(old(Tables()), doc, rows)
    {
      deleted := if doc in chunks then |chunks[doc]| else 0;
      chunks := chunks - {doc};
      inserted := |rows|;
      chunks := chunks[doc := rows];
      assert chunks == old(chunks)[doc := rows];
    }
  }
}
