// Control invariant of the pipeline: without reprocess every document owns one chain of jobs, and
// the last job of the chain fixes the status of the document.
module Chains {
  import opened Types
  import opened Database
  import opened Pipeline

  /** For each document its jobs in stage order. */
  type ChainMap = map<DocId, seq<JobId>>

  /** The document status that belongs to the last job of a chain. */
  function StatusFor(job: Job): DocStatus {
    match job.status
    case Queued => if job.stage == Extract then Pending else Processing
    case Running => Processing
    case Done => Indexed
    case JobFailed => DocFailed
  }

  function Last(c: seq<JobId>): JobId
    requires c != []
  {
    c[|c| - 1]
  }

  ghost predicate Link(db: Db, d: DocId, i: nat, j: JobId) {
    && j in db.jobs
    && db.jobs[j].document == d
    && StageIndex(db.jobs[j].stage) == i
  }

  ghost predicate DoneAt(db: Db, j: JobId) {
    j in db.jobs && db.jobs[j].status == Done
  }

  /** `c` lists jobs of `d` in stage order, all done except possibly the last. */
  ghost predicate IsChain(db: Db, d: DocId, c: seq<JobId>) {
    && 1 <= |c| <= STAGE_COUNT
    && (forall i {:trigger Link(db, d, i, c[i])} :: 0 <= i < |c| ==> Link(db, d, i, c[i]))
    && (forall i {:trigger DoneAt(db, c[i])} :: 0 <= i < |c| - 1 ==> DoneAt(db, c[i]))
    && Link(db, d, |c| - 1, Last(c))
  }

  ghost predicate InChain(db: Db, ch: ChainMap, j: JobId) {
    && j in db.jobs
    && db.jobs[j].document in ch
    && StageIndex(db.jobs[j].stage) < |ch[db.jobs[j].document]|
    && ch[db.jobs[j].document][StageIndex(db.jobs[j].stage)] == j
  }

  ghost predicate OwnsChain(db: Db, ch: ChainMap, d: DocId) {
    && d in db.docs && d in ch
    && IsChain(db, d, ch[d])
    && (db.jobs[Last(ch[d])].status == Done ==> |ch[d]| == STAGE_COUNT)
    && db.docs[d].status == StatusFor(db.jobs[Last(ch[d])])
  }

  ghost predicate Chained(db: Db, ch: ChainMap) {
    && ch.Keys == db.docs.Keys
    && (forall d {:trigger OwnsChain(db, ch, d)} :: d in ch ==> OwnsChain(db, ch, d))
    && (forall j {:trigger InChain(db, ch, j)} :: j in db.jobs ==> InChain(db, ch, j))
  }

  // ----- the guarded transitions keep the chains -----

  lemma ActiveIsLast(db: Db, ch: ChainMap, id: JobId)
    requires Chained(db, ch) && id in db.jobs && db.jobs[id].status != Done
    ensures OwnsChain(db, ch, db.jobs[id].document) && Last(ch[db.jobs[id].document]) == id
  {
    assert InChain(db, ch, id);
    assert OwnsChain(db, ch, db.jobs[id].document);
    assert !DoneAt(db, id);
  }

  lemma FrameChain(db: Db, db': Db, d: DocId, c: seq<JobId>)
    requires IsChain(db, d, c)
    requires forall j :: j in db.jobs && db.jobs[j].document == d ==> j in db'.jobs && db'.jobs[j] == db.jobs[j]
    ensures IsChain(db', d, c)
  {
    forall i | 0 <= i < |c|
      ensures Link(db', d, i, c[i]) && (DoneAt(db, c[i]) ==> DoneAt(db', c[i]))
    {
      assert Link(db, d, i, c[i]);
    }
    forall i | 0 <= i < |c| - 1
      ensures DoneAt(db', c[i])
    {
      assert DoneAt(db, c[i]);
    }
  }

  /** Rewriting the last job of a chain. */
  lemma RewriteLast(db: Db, d: DocId, c: seq<JobId>, job: Job)
    requires IsChain(db, d, c)
    requires job.document == d && job.stage == db.jobs[Last(c)].stage
    ensures IsChain(SetJob(db, Last(c), job), d, c)
  {
    var db' := SetJob(db, Last(c), job);
    forall i | 0 <= i < |c|
      ensures Link(db', d, i, c[i])
    {
      assert Link(db, d, i, c[i]);
    }
    forall i | 0 <= i < |c| - 1
      ensures DoneAt(db', c[i])
    {
      assert DoneAt(db, c[i]) && Link(db, d, i, c[i]);
    }
  }

  /** One more link after a chain whose last job is done. */
  lemma ExtendChain(db: Db, d: DocId, c: seq<JobId>, n: JobId, next: Job)
    requires IsChain(db, d, c) && db.jobs[Last(c)].status == Done && |c| < STAGE_COUNT && n !in db.jobs
    requires next.document == d && StageIndex(next.stage) == |c|
    ensures IsChain(SetJob(db, n, next), d, c + [n])
  {
    var db', c' := SetJob(db, n, next), c + [n];
    forall i | 0 <= i < |c'|
      ensures Link(db', d, i, c'[i])
    {
      if i < |c| { assert Link(db, d, i, c[i]); }
    }
    forall i | 0 <= i < |c'| - 1
      ensures DoneAt(db', c'[i])
    {
      if i < |c| - 1 { assert DoneAt(db, c[i]); }
    }
  }

  /** A step that rewrites one job and the status of its document leaves the other chains alone. */
  lemma UpdateLast(db: Db, ch: ChainMap, id: JobId, job: Job, doc: Document)
    requires Chained(db, ch) && id in db.jobs && db.jobs[id].status != Done
    requires job.document == db.jobs[id].document && job.stage == db.jobs[id].stage
    requires job.status == Done ==> StageIndex(job.stage) == STAGE_COUNT - 1
    requires doc.status == StatusFor(job)
    ensures Chained(SetDoc(SetJob(db, id, job), job.document, doc), ch)
  {
    var db1 := SetJob(db, id, job);
    var db' := SetDoc(db1, job.document, doc);
    ActiveIsLast(db, ch, id);
    forall d | d in ch
      ensures OwnsChain(db', ch, d)
    {
      assert OwnsChain(db, ch, d);
      if d != job.document {
        FrameChain(db, db', d, ch[d]);
      } else {
        RewriteLast(db, d, ch[d], job);
        FrameChain(db1, db', d, ch[d]);
      }
    }
    forall j | j in db'.jobs
      ensures InChain(db', ch, j)
    {
      assert InChain(db, ch, j);
    }
  }

  /** The chain of the document itself, with its last link closed and one more behind it. */
  lemma AppendedChain(db: Db, c: seq<JobId>, job: Job, doc: Document, n: JobId, next: Job)
    requires IsChain(db, job.document, c) && job.stage == db.jobs[Last(c)].stage && job.status == Done
    requires n !in db.jobs && next.document == job.document && |c| < STAGE_COUNT && StageIndex(next.stage) == |c|
    ensures IsChain(SetJob(SetDoc(SetJob(db, Last(c), job), job.document, doc), n, next), job.document, c + [n])
  {
    var db1 := SetJob(db, Last(c), job);
    var db2 := SetDoc(db1, job.document, doc);
    RewriteLast(db, job.document, c, job);
    FrameChain(db1, db2, job.document, c);
    ExtendChain(db2, job.document, c, n, next);
  }

  /** Closing the last job and adding a queued job of the following stage. */
  lemma AppendLink(db: Db, ch: ChainMap, id: JobId, job: Job, doc: Document, n: JobId, next: Job)
    requires Chained(db, ch) && id in db.jobs && db.jobs[id].status != Done && n !in db.jobs
    requires job.document == db.jobs[id].document && job.stage == db.jobs[id].stage && job.status == Done
    requires next.document == job.document && next.status == Queued
    requires StageIndex(next.stage) == StageIndex(job.stage) + 1
    requires doc.status == Processing
    requires job.document in ch
    ensures Chained(SetJob(SetDoc(SetJob(db, id, job), job.document, doc), n, next),
                    ch[job.document := ch[job.document] + [n]])
  {
    ActiveIsLast(db, ch, id);
    var db' := SetJob(SetDoc(SetJob(db, id, job), job.document, doc), n, next);
    var ch' := ch[job.document := ch[job.document] + [n]];
    forall d | d in ch'
      ensures OwnsChain(db', ch', d)
    {
      assert OwnsChain(db, ch, d);
      if d != job.document {
        FrameChain(db, db', d, ch[d]);
      } else {
        AppendedChain(db, ch[d], job, doc, n, next);
      }
    }
    forall j | j in db'.jobs
      ensures InChain(db', ch', j)
    {
      assert j != n ==> InChain(db, ch, j);
    }
  }

  lemma FailKeeps(db: Db, ch: ChainMap, id: JobId, error: string, now: Time)
    requires Chained(db, ch)
    ensures Chained(FailStage(db, id, error, now), ch)
  {
    if id in db.jobs && !Terminal(db.jobs[id]) {
      ActiveIsLast(db, ch, id);
      var db' := FailStage(db, id, error, now);
      UpdateLast(db, ch, id, db'.jobs[id], db'.docs[db.jobs[id].document]);
    }
  }

  lemma StartKeeps(db: Db, ch: ChainMap, id: JobId, stage: Stage, now: Time)
    requires Chained(db, ch)
    ensures Chained(StartTx(db, id, stage, now), ch)
  {
    match StartOutcomeOf(db, id, stage)
    case Started(d) =>
      ActiveIsLast(db, ch, id);
      UpdateLast(db, ch, id, StartedDb(db, id, now).jobs[id], StartedDb(db, id, now).docs[d]);
    case StartDocMissing => FailKeeps(db, ch, id, "document missing", now);
    case StartInvalid => FailKeeps(db, ch, id, "invalid transition", now);
    case _ =>
  }

  function ChainAfterComplete(db: Db, ch: ChainMap, id: JobId, next: Option<Stage>): ChainMap {
    match CompleteOutcomeOf(db, id, next)
    case Completed(Some(n)) =>
      var d := db.jobs[id].document;
      if d in ch then ch[d := ch[d] + [n]] else ch
    case _ => ch
  }

  lemma CompleteKeeps(db: Db, ch: ChainMap, id: JobId, result: StageResult, now: Time)
    requires Chained(db, ch) && id in db.jobs && db.nextId !in db.jobs
    ensures var next := NextStage(db.jobs[id].stage);
            Chained(CompleteStage(db, id, result, next, now), ChainAfterComplete(db, ch, id, next))
  {
    var next := NextStage(db.jobs[id].stage);
    var db' := CompleteStage(db, id, result, next, now);
    if CompleteOutcomeOf(db, id, next).Completed? {
      ActiveIsLast(db, ch, id);
      var d := db.jobs[id].document;
      if next.None? {
        UpdateLast(db, ch, id, db'.jobs[id], db'.docs[d]);
      } else {
        AppendLink(db, ch, id, db'.jobs[id], db'.docs[d], db.nextId, QueuedJob(d, next.value, now));
        Reseat(SetJob(SetDoc(SetJob(db, id, db'.jobs[id]), d, db'.docs[d]), db.nextId, QueuedJob(d, next.value, now)),
               db', ChainAfterComplete(db, ch, id, next));
      }
    }
  }

  /** The invariant looks only at jobs and document statuses. */
  lemma Reseat(db: Db, db': Db, ch: ChainMap)
    requires Chained(db, ch) && db'.jobs == db.jobs && db'.docs.Keys == db.docs.Keys
    requires forall d :: d in db.docs ==> db'.docs[d].status == db.docs[d].status
    ensures Chained(db', ch)
  {
    forall d | d in ch
      ensures OwnsChain(db', ch, d)
    {
      assert OwnsChain(db, ch, d);
      FrameChain(db, db', d, ch[d]);
    }
    forall j | j in db'.jobs
      ensures InChain(db', ch, j)
    {
      assert InChain(db, ch, j);
    }
  }

  lemma CreateKeeps(db: Db, ch: ChainMap, d: DocId, doc: Document, n: JobId, job: Job)
    requires Chained(db, ch) && d !in db.docs && n !in db.jobs
    requires doc.status == Pending && job.document == d && job.stage == Extract && job.status == Queued
    ensures Chained(SetJob(SetDoc(db, d, doc), n, job), ch[d := [n]])
  {
    var db', ch' := SetJob(SetDoc(db, d, doc), n, job), ch[d := [n]];
    forall e | e in ch'
      ensures OwnsChain(db', ch', e)
    {
      if e != d {
        assert OwnsChain(db, ch, e);
        FrameChain(db, db', e, ch[e]);
      } else {
        assert Link(db', d, 0, n);
      }
    }
    forall j | j in db'.jobs
      ensures InChain(db', ch', j)
    {
      assert j != n ==> InChain(db, ch, j);
    }
  }

  lemma DeleteKeeps(db: Db, ch: ChainMap, doc: DocId)
    requires Chained(db, ch)
    ensures Chained(DeleteDocument(db, doc), ch - {doc})
  {
    var db', ch' := DeleteDocument(db, doc), ch - {doc};
    forall d | d in ch'
      ensures OwnsChain(db', ch', d)
    {
      assert OwnsChain(db, ch, d);
      FrameChain(db, db', d, ch[d]);
    }
    forall j | j in db'.jobs
      ensures InChain(db', ch', j)
    {
      assert InChain(db, ch, j);
    }
  }

  lemma RetryKeeps(db: Db, ch: ChainMap, id: JobId, error: string, attempt: nat)
    requires Chained(db, ch)
    ensures Chained(RecordAttempt(db, id, error, attempt), ch)
  {
    if id in db.jobs && db.jobs[id].status == Running {
      ActiveIsLast(db, ch, id);
      var d := db.jobs[id].document;
      UpdateLast(db, ch, id, RecordAttempt(db, id, error, attempt).jobs[id], db.docs[d]);
      Reseat(SetDoc(RecordAttempt(db, id, error, attempt), d, db.docs[d]), RecordAttempt(db, id, error, attempt), ch);
    }
  }
}
