// The upload deduplication and delete paths of the document service.
module DocumentService {
  import opened Types
  import opened Database
  import opened Pipeline
  import opened Control
  import opened ReadModel

  datatype Answer = Existing(document: DocId, job: JobId) | Created(document: DocId, job: JobId) | NoJob

  /** Storage objects a delete tries to remove after its commit. */
  datatype Cleanup = Cleanup(source: SourceKey, artifacts: seq<Key>)

  ghost predicate JobsOf(db: Db, d: DocId, j: JobId) {
    j in db.jobs && db.jobs[j].document == d
  }

  lemma {:induction false} SomeJobIsLatest(db: Db, among: set<JobId>) returns (latest: JobId)
    requires among != {} && among <= db.jobs.Keys
    ensures latest in among && forall j :: j in among ==> db.jobs[j].createdAt <= db.jobs[latest].createdAt
    decreases |among|
  {
    latest :| latest in among;
    var rest := among - {latest};
    if rest != {} {
      var other := SomeJobIsLatest(db, rest);
      if db.jobs[other].createdAt > db.jobs[latest].createdAt { latest := other; }
    }
  }

  class Service {
    var db: Db

    constructor (db: Db)
      ensures this.db == db
    {
      this.db := db;
    }

    /** `latest_by_document`: some job with the greatest creation time, if there is any job. */
    method LatestByDocument(d: DocId) returns (job: Option<JobId>)
      ensures job.Some? ==> IsLatestJob(db, d, job.value)
      ensures job.None? ==> forall j :: j in db.jobs ==> db.jobs[j].document != d
    {
      var jobs := db.jobs;
      var mine := set j | j in jobs && jobs[j].document == d;
      if mine == {} {
        assert forall j :: j in db.jobs && db.jobs[j].document == d ==> j in mine;
        return None;
      }
      ghost var newest := SomeJobIsLatest(db, mine);
      assert forall j :: j in db.jobs && db.jobs[j].document == d ==> j in mine;
      assert IsLatestJob(db, d, newest);
      var latest :| latest in mine && IsLatestJob(db, d, latest);
      job := Some(latest);
    }

    /**
     * Known content of this user is answered with its newest job and changes nothing; new content
     * gets a pending document and its first queued job. For a known document without a job
     * `get_or_create` reaches a bare `raise` with no exception at hand.
     */
    method GetOrCreate(user: UserId, hash: Hash, ext: Extension, now: Time) returns (answer: Answer)
      modifies this
      ensures answer.Existing? ==>
                && db == old(db) && answer.document in db.docs
                && db.docs[answer.document].user == user && db.docs[answer.document].contentHash == hash
                && IsLatestJob(db, answer.document, answer.job)
      ensures answer.NoJob? ==>
                db == old(db) && exists d :: d in db.docs && db.docs[d].user == user && db.docs[d].contentHash == hash
                                             && forall j :: j in db.jobs ==> db.jobs[j].document != d
      ensures answer.Created? <==> !Uploaded(old(db), user, hash)
      ensures answer.Created? ==>
                && answer.document == old(db).nextId && answer.job == old(db).nextId + 1
                && db == old(db).(docs := old(db).docs[answer.document := Document(user, hash, ext, Pending, None, None, 0, None, None)],
                                  jobs := old(db).jobs[answer.job := QueuedJob(answer.document, Extract, now)],
                                  nextId := old(db).nextId + 2)
    {
      if d :| d in db.docs && db.docs[d].user == user && db.docs[d].contentHash == hash {
        var latest := LatestByDocument(d);
        return if latest.Some? then Existing(d, latest.value) else NoJob;
      }
      var doc := db.nextId;
      db := db.(docs := db.docs[doc := Document(user, hash, ext, Pending, None, None, 0, None, None)], nextId := doc + 1);
      var job := db.nextId;
      db := db.(jobs := db.jobs[job := QueuedJob(doc, Extract, now)], nextId := job + 1);
      answer := Created(doc, job);
    }

    /** Rows first, storage afterwards; another user's document is treated as missing. */
    method DeleteUserDocument(user: UserId, d: DocId) returns (deleted: bool, cleanup: Option<Cleanup>)
      modifies this
      ensures deleted <==> d in old(db).docs && old(db).docs[d].user == user
      ensures db == if deleted then DeleteDocument(old(db), d) else old(db)
      ensures cleanup.Some? <==> deleted
      ensures deleted ==> var doc := old(db).docs[d];
                && cleanup.value.source == SourceKey(user, doc.contentHash, doc.ext)
                && forall key :: key in cleanup.value.artifacts <==> key.hash == doc.contentHash
    {
      if d !in db.docs || db.docs[d].user != user { return false, None; }
      var doc := db.docs[d];
      db := DeleteDocument(db, d);
      var artifacts: seq<Key> := [];
      for i := 0 to |STAGES|
        invariant forall key :: key in artifacts <==> key.hash == doc.contentHash && key.stage in STAGES[..i]
      {
        assert STAGES[..i + 1] == STAGES[..i] + [STAGES[i]];
        artifacts := artifacts + [Key(doc.contentHash, STAGES[i])];
      }
      AllStagesListed();
      return true, Some(Cleanup(SourceKey(doc.user, doc.contentHash, doc.ext), artifacts));
    }
  }

  lemma AllStagesListed()
    ensures forall stage: Stage :: stage in STAGES
    ensures STAGES[..|STAGES|] == STAGES
  {
    forall stage: Stage
      ensures stage in STAGES
    {
      assert STAGES[StageIndex(stage)] == stage;
    }
  }

  /** In every state reachable without reprocess a document has a job: the raising branch is dead. */
  lemma EveryDocumentHasAJob(cfg: Config, evs: seq<Event>, d: DocId)
    requires NoReprocess(evs) && d in Run(cfg, INIT, evs).db.docs
    ensures exists j :: JobsOf(Run(cfg, INIT, evs).db, d, j) && IsLatestJob(Run(cfg, INIT, evs).db, d, j)
  {
    OneActiveJob(cfg, evs, d);
    var db := Run(cfg, INIT, evs).db;
    var mine := set j | j in db.jobs && db.jobs[j].document == d;
    var some :| some in db.jobs && db.jobs[some].document == d;
    assert some in mine;
    var latest := SomeJobIsLatest(db, mine);
    assert forall j :: j in db.jobs && db.jobs[j].document == d ==> j in mine;
    assert JobsOf(db, d, latest);
  }
}
