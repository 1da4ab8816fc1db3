// What the rows keep of a job's past: one attempt for each retry, with its number and error, and
// for a failed job, and for its document, the error and the moment of the event that failed it.
module Records {
  import opened Types
  import opened Database
  import opened Pipeline
  import opened Moves
  import opened Naming
  import opened Control
  import opened JobHistory
  import opened Deliveries

  // ----- what one event records -----

  /** The attempt that this event adds to the job: a worker records it before the retry is raised. */
  function AttemptOf(s: State, ev: Event, j: JobId): seq<Attempt> {
    if ev.Work? && ev.action.Settle? && PcOf(s, ev.worker).Retrying? && PcOf(s, ev.worker).task.job == j
       && j in s.db.jobs && s.db.jobs[j].status == Running
    then [Attempt(PcOf(s, ev.worker).task.attempt, PcOf(s, ev.worker).error)] else []
  }

  /** The error this event fails the job with, if it does. */
  function FailureOf(s: State, ev: Event, j: JobId): Option<string> {
    if j !in s.db.jobs || !Active(s.db.jobs[j]) then None
    else
      match ev
      case Work(w, Settle) =>
        if PcOf(s, w).Failing? && PcOf(s, w).task.job == j then Some(PcOf(s, w).error) else None
      case Work(w, Deliver(job, _)) =>
        if job == j && PcOf(s, w).Idle? && j in s.tasks then StartError(s.db, j, s.tasks[j]) else None
      case SweepStep(p) =>
        if p in s.sweeps && s.sweeps[p].todo != [] && s.sweeps[p].todo[0].0 == j
        then SweptError(s.sweeps[p].todo[0].1, s.sweeps[p].startedAt) else None
      case _ => None
  }

  /** Why a delivery cannot start an active job. */
  function StartError(db: Db, j: JobId, stage: Stage): Option<string>
    requires j in db.jobs
  {
    var job := db.jobs[j];
    if job.stage != stage then Some("invalid transition")
    else if job.document !in db.docs then Some("document missing")
    else if db.docs[job.document].status !in {Pending, Processing} then Some("invalid transition")
    else None
  }

  /** The sweeper's error for a job it found like this: older than 12 hours, or running. */
  function SweptError(job: Job, startedAt: Time): Option<string> {
    if (if job.startedAt.Some? then job.startedAt.value else job.createdAt) + 43_200_000_000 < startedAt
    then Some("sweep: retries/age exhausted")
    else if job.status == Running then Some("sweep: worker presumed dead")
    else None
  }

  /** How the row of a job changes in one event. */
  predicate Recorded(old_: Job, new_: Job, attempts: seq<Attempt>, failure: Option<string>, now: Time) {
    && new_.details.attempts == old_.details.attempts + attempts
    && if failure.Some? then new_.status == JobFailed && new_.details.error == failure && new_.finishedAt == Some(now)
       else new_.details.error == old_.details.error && (new_.status == JobFailed <==> old_.status == JobFailed)
            && (old_.status == JobFailed ==> new_.finishedAt == old_.finishedAt)
  }

  // ----- transactions -----

  lemma FailRecords(db: Db, id: JobId, error: string, now: Time, j: JobId)
    requires j in db.jobs
    ensures j in FailStage(db, id, error, now).jobs
    ensures Recorded(db.jobs[j], FailStage(db, id, error, now).jobs[j], [],
                     if j == id && Active(db.jobs[j]) then Some(error) else None, now)
  {
  }

  lemma StartRecords(db: Db, id: JobId, stage: Stage, now: Time, j: JobId)
    requires j in db.jobs
    ensures j in StartTx(db, id, stage, now).jobs
    ensures Recorded(db.jobs[j], StartTx(db, id, stage, now).jobs[j], [],
                     if j == id && Active(db.jobs[j]) then StartError(db, j, stage) else None, now)
  {
    match StartOutcomeOf(db, id, stage)
    case StartDocMissing => FailRecords(db, id, "document missing", now, j);
    case StartInvalid => FailRecords(db, id, "invalid transition", now, j);
    case _ =>
  }

  lemma AttemptRecords(db: Db, id: JobId, error: string, attempt: nat, now: Time, j: JobId)
    requires j in db.jobs
    ensures j in RecordAttempt(db, id, error, attempt).jobs
    ensures Recorded(db.jobs[j], RecordAttempt(db, id, error, attempt).jobs[j],
                     if j == id && db.jobs[j].status == Running then [Attempt(attempt, error)] else [], None, now)
  {
  }

  lemma CompleteRecords(db: Db, id: JobId, result: StageResult, next: Option<Stage>, now: Time, j: JobId)
    requires j in db.jobs && j < db.nextId
    ensures j in CompleteStage(db, id, result, next, now).jobs
    ensures Recorded(db.jobs[j], CompleteStage(db, id, result, next, now).jobs[j], [], None, now)
  {
  }

  // ----- events -----

  lemma DeliverRecords(cfg: Config, s: State, w: WorkerId, job: JobId, attempt: nat, j: JobId, s': State)
    requires j in s.db.jobs && s' == DoDeliver(s, w, job, attempt)
    ensures j in s'.db.jobs
    ensures Recorded(s.db.jobs[j], s'.db.jobs[j], [], FailureOf(s, Work(w, Deliver(job, attempt)), j), s.now)
  {
    DeliverDb(s, w, PcOf(s, w), job, attempt, s');
    if job in s.tasks { StartRecords(s.db, job, s.tasks[job], s.now, j); }
  }

  lemma SettleRecords(s: State, w: WorkerId, pc: Pc, j: JobId, s': State)
    requires j in s.db.jobs && pc == PcOf(s, w) && s' == DoSettle(s, w)
    ensures j in s'.db.jobs
    ensures Recorded(s.db.jobs[j], s'.db.jobs[j], AttemptOf(s, Work(w, Settle), j), FailureOf(s, Work(w, Settle), j), s.now)
  {
    SettleDb(s, w, pc, s');
    if pc.Failing? { FailRecords(s.db, pc.task.job, pc.error, s.now, j); }
    if pc.Retrying? { AttemptRecords(s.db, pc.task.job, pc.error, pc.task.attempt, s.now, j); }
  }

  lemma WorkRecords(cfg: Config, s: State, w: WorkerId, action: Action, j: JobId, s': State)
    requires j in s.db.jobs && j < s.db.nextId && s' == OnWork(cfg, s, w, action)
    ensures j in s'.db.jobs
    ensures Recorded(s.db.jobs[j], s'.db.jobs[j], AttemptOf(s, Work(w, action), j), FailureOf(s, Work(w, action), j), s.now)
  {
    var pc := PcOf(s, w);
    match action
    case Deliver(job, attempt) => DeliverRecords(cfg, s, w, job, attempt, j, s');
    case Settle => SettleRecords(s, w, pc, j, s');
    case Complete =>
      CompleteDb(s, w, pc, s');
      if pc.Completing? { CompleteRecords(s.db, pc.task.job, pc.result, NextStage(pc.task.stage), s.now, j); }
    case Commit => CommitDb(cfg, s, w, pc, s');
    case _ => PlainDb(cfg, s, w, action, s');
  }

  lemma SweepRecords(s: State, p: nat, j: JobId, s': State)
    requires j in s.db.jobs && s' == DoSweepStep(s, p)
    ensures j in s'.db.jobs
    ensures Recorded(s.db.jobs[j], s'.db.jobs[j], [], FailureOf(s, SweepStep(p), j), s.now)
  {
    if p in s.sweeps && s.sweeps[p].todo != [] {
      var sweep := s.sweeps[p];
      var (id, job) := sweep.todo[0];
      assert s'.db == SweepDb(s.db, id, job, sweep.(todo := sweep.todo[1..]), s.now);
      FailRecords(s.db, id, SweepError(sweep, job), s.now, j);
    }
  }

  lemma RequestRecords(cfg: Config, s: State, aux: Aux, request: Request, j: JobId, s': State)
    requires Named(s, aux) && Born(s, aux, j) && j in s.db.jobs && s' == OnRequest(cfg, s, request) && j in s'.db.jobs
    ensures s'.db.jobs[j] == s.db.jobs[j]
  {
    assert j < s.db.nextId;
    match request
    case UploadNew(user, content, ext) => NewKeeps(cfg, s, user, content, ext);
    case UploadCommit(doc) => UploadCommitDb(s, doc, s');
    case ReprocessReset(doc) => ResetKeeps(s.db, doc);
    case Delete(doc) =>
    case ReprocessRestart(doc, stage) =>
    case ReprocessExtract(doc) =>
    case _ => PlainRequestDb(cfg, s, request, s');
  }

  lemma DispatchRecords(cfg: Config, s: State, aux: Aux, ev: Event, j: JobId, s': State)
    requires Named(s, aux) && Born(s, aux, j) && j in s.db.jobs && s' == Dispatch(cfg, s, ev) && j in s'.db.jobs
    ensures Recorded(s.db.jobs[j], s'.db.jobs[j], AttemptOf(s, ev, j), FailureOf(s, ev, j), s.now)
  {
    assert j < s.db.nextId;
    match ev
    case Http(request) => RequestRecords(cfg, s, aux, request, j, s');
    case Work(w, action) => WorkRecords(cfg, s, w, action, j, s');
    case SweepStep(p) => SweepRecords(s, p, j, s');
    case _ =>
  }

  /** A row of now, or the first of an upload whose document is not there yet. */
  predicate IsNew(s: State, job: Job) {
    job.createdAt == s.now || exists d {:trigger d in s.uploads} :: d in s.uploads && job.document == d
  }

  /** A row that appears is blank: queued, with no attempt and no error. */
  lemma NewRowIsBlank(cfg: Config, s: State, ev: Event, j: JobId, s': State)
    requires s' == Dispatch(cfg, s, ev) && j !in s.db.jobs && j in s'.db.jobs
    ensures s'.db.jobs[j].status == Queued && s'.db.jobs[j].details == NO_DETAILS && IsNew(s, s'.db.jobs[j])
  {
    match ev
    case Http(request) => RequestBlank(cfg, s, request, j, s');
    case Work(w, action) => WorkBlank(cfg, s, w, action, j, s');
    case _ =>
  }

  lemma RequestBlank(cfg: Config, s: State, request: Request, j: JobId, s': State)
    requires s' == OnRequest(cfg, s, request) && j !in s.db.jobs && j in s'.db.jobs
    ensures s'.db.jobs[j].status == Queued && s'.db.jobs[j].details == NO_DETAILS && IsNew(s, s'.db.jobs[j])
  {
    match request
    case UploadNew(user, content, ext) => UploadNewDb(cfg, s, user, content, ext, s');
    case UploadCommit(doc) => UploadCommitDb(s, doc, s');
    case ReprocessReset(doc) => ResetKeeps(s.db, doc);
    case ReprocessRestart(doc, stage) =>
    case ReprocessExtract(doc) =>
    case Delete(doc) =>
    case _ => PlainRequestDb(cfg, s, request, s');
  }

  lemma WorkBlank(cfg: Config, s: State, w: WorkerId, action: Action, j: JobId, s': State)
    requires s' == OnWork(cfg, s, w, action) && j !in s.db.jobs && j in s'.db.jobs
    ensures s'.db.jobs[j].status == Queued && s'.db.jobs[j].details == NO_DETAILS && s'.db.jobs[j].createdAt == s.now
  {
    var pc := PcOf(s, w);
    match action
    case Deliver(job, attempt) => DeliverDb(s, w, pc, job, attempt, s');
    case Settle => SettleDb(s, w, pc, s');
    case Complete => CompleteDb(s, w, pc, s');
    case Commit => CommitDb(cfg, s, w, pc, s');
    case _ => PlainDb(cfg, s, w, action, s');
  }

  // ----- over a run -----

  /** All attempts that the events of the run recorded for the job, in order. */
  function AttemptLog(cfg: Config, evs: seq<Event>, j: JobId): seq<Attempt>
    decreases |evs|
  {
    if evs == [] then []
    else
      var before := evs[..|evs| - 1];
      AttemptLog(cfg, before, j) + AttemptOf(Later(Run(cfg, INIT, before)), evs[|evs| - 1], j)
  }

  /** The error and the moment of the last event of the run that failed the job. */
  function FailureLog(cfg: Config, evs: seq<Event>, j: JobId): Option<(string, Time)>
    decreases |evs|
  {
    if evs == [] then None
    else
      var before := evs[..|evs| - 1];
      MoreFailure(Later(Run(cfg, INIT, before)), evs[|evs| - 1], j, FailureLog(cfg, before, j))
  }

  /** The row says what the log says. */
  ghost predicate Kept(job: Job, attempts: seq<Attempt>, failure: Option<(string, Time)>) {
    && job.details.attempts == attempts
    && (job.status == JobFailed <==> failure.Some?)
    && (failure.Some? ==> job.details.error == Some(failure.value.0) && job.finishedAt == Some(failure.value.1))
    && (failure.None? ==> job.details.error.None?)
  }

  lemma KeptStep(old_: Job, new_: Job, attempts: seq<Attempt>, failure: Option<(string, Time)>, more: seq<Attempt>,
                 error: Option<string>, now: Time)
    requires Kept(old_, attempts, failure) && Recorded(old_, new_, more, error, now)
    ensures Kept(new_, attempts + more, if error.Some? then Some((error.value, now)) else failure)
  {
  }

  /** One event, seen from the row and the logs of a job. */
  ghost predicate KeptBy(db: Db, j: JobId, attempts: seq<Attempt>, failure: Option<(string, Time)>) {
    j in db.jobs ==> Kept(db.jobs[j], attempts, failure)
  }

  function MoreFailure(s: State, ev: Event, j: JobId, failure: Option<(string, Time)>): Option<(string, Time)> {
    var error := FailureOf(s, ev, j);
    if error.Some? then Some((error.value, s.now)) else failure
  }

  lemma BornIsKept(cfg: Config, s: State, aux: Aux, ev: Event, j: JobId, s': State, attempts: seq<Attempt>, failure: Option<(string, Time)>)
    requires Sane(s, aux) && Born(s, aux, j) && Keeps(s.db, s'.db, j) && s' == Dispatch(cfg, s, ev)
    requires KeptBy(s.db, j, attempts, failure)
    ensures KeptBy(s'.db, j, attempts + AttemptOf(s, ev, j), MoreFailure(s, ev, j, failure))
  {
    if j in s'.db.jobs {
      DispatchRecords(cfg, s, aux, ev, j, s');
      KeptStep(s.db.jobs[j], s'.db.jobs[j], attempts, failure, AttemptOf(s, ev, j), FailureOf(s, ev, j), s.now);
    }
  }

  lemma UnbornIsKept(cfg: Config, s: State, ev: Event, j: JobId, s': State)
    requires j !in s.db.jobs && s' == Dispatch(cfg, s, ev)
    ensures AttemptOf(s, ev, j) == [] && FailureOf(s, ev, j).None? && KeptBy(s'.db, j, [], None)
  {
    if j in s'.db.jobs { NewRowIsBlank(cfg, s, ev, j, s'); }
  }

  lemma {:induction false} LogsAreKept(cfg: Config, evs: seq<Event>, j: JobId)
    ensures KeptBy(Run(cfg, INIT, evs).db, j, AttemptLog(cfg, evs, j), FailureLog(cfg, evs, j))
    ensures !Born(Run(cfg, INIT, evs), AuxOf(cfg, evs), j) ==> AttemptLog(cfg, evs, j) == [] && FailureLog(cfg, evs, j).None?
    decreases |evs|
  {
    if evs != [] {
      var before, ev := evs[..|evs| - 1], evs[|evs| - 1];
      LogsAreKept(cfg, before, j);
      var s, aux := Run(cfg, INIT, before), AuxOf(cfg, before);
      RunSane(cfg, before);
      LaterSane(s, aux);
      if j in s.db.jobs { PresentIsBorn(cfg, before, j); }
      StepIsKept(cfg, Later(s), aux, ev, j, Run(cfg, INIT, evs), AuxOf(cfg, evs), AttemptLog(cfg, before, j), FailureLog(cfg, before, j));
    }
  }

  lemma StepIsKept(cfg: Config, s: State, aux: Aux, ev: Event, j: JobId, s': State, aux': Aux,
                   attempts: seq<Attempt>, failure: Option<(string, Time)>)
    requires Sane(s, aux) && s' == Dispatch(cfg, s, ev) && aux' == NextAux(cfg, s, aux, ev)
    requires KeptBy(s.db, j, attempts, failure) && (j in s.db.jobs ==> Born(s, aux, j))
    requires !Born(s, aux, j) ==> attempts == [] && failure.None?
    ensures KeptBy(s'.db, j, attempts + AttemptOf(s, ev, j), MoreFailure(s, ev, j, failure))
    ensures !Born(s', aux', j) ==> attempts + AttemptOf(s, ev, j) == [] && MoreFailure(s, ev, j, failure).None?
  {
    if Born(s, aux, j) {
      StepKeeps(cfg, s, aux, ev, j, s', aux');
      BornIsKept(cfg, s, aux, ev, j, s', attempts, failure);
    } else {
      UnbornIsKept(cfg, s, ev, j, s');
    }
  }

  /**
   * In every run, reprocess included: a job's row holds exactly the attempts recorded for it, in
   * order, each with its number and error; it is failed exactly if some event failed it, and then
   * holds that event's error and time.
   */
  lemma RowsKeepTheRecord(cfg: Config, evs: seq<Event>, j: JobId)
    requires j in Run(cfg, INIT, evs).db.jobs
    ensures Kept(Run(cfg, INIT, evs).db.jobs[j], AttemptLog(cfg, evs, j), FailureLog(cfg, evs, j))
  {
    LogsAreKept(cfg, evs, j);
  }

  // ----- the document's error -----

  /** A failed job of the document with the document's error. */
  ghost predicate Explains(db: Db, d: DocId, j: JobId) {
    && d in db.docs && j in db.jobs && db.jobs[j].document == d && db.jobs[j].status == JobFailed
    && db.jobs[j].details.error.Some? && db.docs[d].error == db.jobs[j].details.error
  }

  ghost predicate Explained(db: Db, d: DocId) {
    d in db.docs && db.docs[d].status == DocFailed ==> exists j {:trigger Explains(db, d, j)} :: Explains(db, d, j)
  }

  ghost predicate AllExplained(db: Db) {
    forall d {:trigger Explained(db, d)} :: Explained(db, d)
  }

  /** No document fails, no failed job of a document that stays changes, and no failed document's error. */
  ghost predicate NoNewFailure(db: Db, db': Db) {
    && (forall d {:trigger d in db'.docs} :: d in db'.docs && db'.docs[d].status == DocFailed ==>
          d in db.docs && db.docs[d].status == DocFailed && db'.docs[d].error == db.docs[d].error)
    && (forall j {:trigger j in db.jobs} :: j in db.jobs && db.jobs[j].status == JobFailed && db.jobs[j].document in db'.docs ==>
          j in db'.jobs && db'.jobs[j] == db.jobs[j])
  }

  lemma StillExplained(db: Db, db': Db)
    requires AllExplained(db) && NoNewFailure(db, db')
    ensures AllExplained(db')
  {
    forall d
      ensures Explained(db', d)
    {
      if d in db'.docs && db'.docs[d].status == DocFailed {
        assert Explained(db, d);
        var j :| Explains(db, d, j);
        assert Explains(db', d, j);
      }
    }
  }

  lemma FailExplains(db: Db, id: JobId, error: string, now: Time)
    requires AllExplained(db)
    ensures AllExplained(FailStage(db, id, error, now))
  {
    var db' := FailStage(db, id, error, now);
    if db' != db {
      var own := db.jobs[id].document;
      forall d
        ensures Explained(db', d)
      {
        assert Explained(db, d);
        if d in db.docs && db.docs[d].status == DocFailed {
          var j :| Explains(db, d, j);
          assert Explains(db', d, j);
        } else if d == own {
          assert Explains(db', d, id) || db'.docs == db.docs;
        }
      }
    }
  }

  lemma StartExplains(db: Db, id: JobId, stage: Stage, now: Time)
    requires AllExplained(db)
    ensures AllExplained(StartTx(db, id, stage, now))
  {
    match StartOutcomeOf(db, id, stage)
    case StartDocMissing => FailExplains(db, id, "document missing", now);
    case StartInvalid => FailExplains(db, id, "invalid transition", now);
    case Started(_) => StillExplained(db, StartedDb(db, id, now));
    case _ =>
  }

  lemma AttemptExplains(db: Db, id: JobId, error: string, attempt: nat)
    requires AllExplained(db)
    ensures AllExplained(RecordAttempt(db, id, error, attempt))
  {
    StillExplained(db, RecordAttempt(db, id, error, attempt));
  }

  lemma CompleteExplains(db: Db, id: JobId, result: StageResult, next: Option<Stage>, now: Time)
    requires AllExplained(db) && db.nextId !in db.jobs
    ensures AllExplained(CompleteStage(db, id, result, next, now))
  {
    StillExplained(db, CompleteStage(db, id, result, next, now));
  }

  lemma CommitExplains(db: Db, doc: DocId, effect: Effect)
    requires AllExplained(db)
    ensures AllExplained(CommittedDb(db, doc, effect))
  {
    StillExplained(db, CommittedDb(db, doc, effect));
  }

  lemma WorkExplains(cfg: Config, s: State, w: WorkerId, action: Action, s': State)
    requires AllExplained(s.db) && s.db.nextId !in s.db.jobs && s' == OnWork(cfg, s, w, action)
    ensures AllExplained(s'.db)
  {
    var pc := PcOf(s, w);
    match action
    case Deliver(job, attempt) =>
      DeliverDb(s, w, pc, job, attempt, s');
      if job in s.tasks { StartExplains(s.db, job, s.tasks[job], s.now); }
    case Settle =>
      SettleDb(s, w, pc, s');
      if pc.Failing? { FailExplains(s.db, pc.task.job, pc.error, s.now); }
      if pc.Retrying? { AttemptExplains(s.db, pc.task.job, pc.error, pc.task.attempt); }
    case Complete =>
      CompleteDb(s, w, pc, s');
      if pc.Completing? { CompleteExplains(s.db, pc.task.job, pc.result, NextStage(pc.task.stage), s.now); }
    case Commit =>
      CommitDb(cfg, s, w, pc, s');
      if pc.Committing? { CommitExplains(s.db, pc.task.doc, pc.effect); }
    case _ => PlainDb(cfg, s, w, action, s');
  }

  lemma InsertExplains(s: State, doc: DocId, stage: Stage)
    requires AllExplained(s.db) && s.db.nextId !in s.db.jobs
    ensures AllExplained(InsertJob(s, doc, stage).db)
  {
    StillExplained(s.db, InsertJob(s, doc, stage).db);
  }

  lemma RequestExplains(cfg: Config, s: State, aux: Aux, request: Request, s': State)
    requires AllExplained(s.db) && Named(s, aux) && s.db.nextId !in s.db.jobs && s' == OnRequest(cfg, s, request)
    ensures AllExplained(s'.db)
  {
    match request
    case UploadNew(user, content, ext) =>
      UploadNewDb(cfg, s, user, content, ext, s');
      StillExplained(s.db, s'.db);
    case UploadCommit(doc) =>
      assert doc in s.uploads ==> UploadNamed(s, aux, doc);
      UploadCommitExplains(s, aux, doc, s');
    case ReprocessReset(doc) => StillExplained(s.db, ResetDocument(s.db, doc));
    case ReprocessRestart(doc, stage) => if doc in s.db.docs { InsertExplains(s, doc, stage); }
    case ReprocessExtract(doc) => if doc in s.db.docs { ReprocessExplains(s, doc, s'); }
    case Delete(doc) => StillExplained(s.db, DeleteDocument(s.db, doc));
    case _ => PlainRequestDb(cfg, s, request, s');
  }

  lemma UploadCommitExplains(s: State, aux: Aux, doc: DocId, s': State)
    requires AllExplained(s.db) && (doc in s.uploads ==> UploadNamed(s, aux, doc)) && s' == DoUploadCommit(s, doc)
    ensures AllExplained(s'.db)
  {
    UploadCommitDb(s, doc, s');
    if doc in s.uploads { StillExplained(s.db, s'.db); }
  }

  lemma ReprocessExplains(s: State, doc: DocId, s': State)
    requires AllExplained(s.db) && s.db.nextId !in s.db.jobs && doc in s.db.docs && s' == DoReprocessExtract(s, doc)
    ensures AllExplained(s'.db)
  {
    InsertExplains(s, doc, Extract);
    EnqueueLeaves(InsertJob(s, doc, Extract), s.db.nextId, Extract, s');
  }

  lemma SweepExplains(s: State, p: nat, s': State)
    requires AllExplained(s.db) && s' == DoSweepStep(s, p)
    ensures AllExplained(s'.db)
  {
    if p in s.sweeps && s.sweeps[p].todo != [] {
      var sweep := s.sweeps[p];
      var (id, job) := sweep.todo[0];
      assert s'.db == SweepDb(s.db, id, job, sweep.(todo := sweep.todo[1..]), s.now);
      FailExplains(s.db, id, SweepError(sweep, job), s.now);
    }
  }

  lemma DispatchExplains(cfg: Config, s: State, aux: Aux, ev: Event, s': State)
    requires AllExplained(s.db) && Named(s, aux) && s' == Dispatch(cfg, s, ev)
    ensures AllExplained(s'.db)
  {
    assert !JobNamed(s.db, aux, s.db.nextId);
    match ev
    case Http(request) => RequestExplains(cfg, s, aux, request, s');
    case Work(w, action) => WorkExplains(cfg, s, w, action, s');
    case SweepStep(p) => SweepExplains(s, p, s');
    case _ =>
  }

  lemma {:induction false} RunExplains(cfg: Config, evs: seq<Event>)
    ensures AllExplained(Run(cfg, INIT, evs).db)
    decreases |evs|
  {
    if evs != [] {
      var before := evs[..|evs| - 1];
      RunExplains(cfg, before);
      RunSane(cfg, before);
      LaterSane(Run(cfg, INIT, before), AuxOf(cfg, before));
      DispatchExplains(cfg, Later(Run(cfg, INIT, before)), AuxOf(cfg, before), evs[|evs| - 1], Run(cfg, INIT, evs));
    }
  }

  /** In every run, reprocess included: a failed document carries the error that one of its jobs failed with. */
  lemma FailedDocumentsAreExplained(cfg: Config, evs: seq<Event>, d: DocId) returns (j: JobId)
    requires var db := Run(cfg, INIT, evs).db; d in db.docs && db.docs[d].status == DocFailed
    ensures var db := Run(cfg, INIT, evs).db;
            && j in db.jobs && db.jobs[j].document == d && FailureLog(cfg, evs, j).Some?
            && db.docs[d].error == Some(FailureLog(cfg, evs, j).value.0) && db.jobs[j].details.error == db.docs[d].error
  {
    RunExplains(cfg, evs);
    var db := Run(cfg, INIT, evs).db;
    assert Explained(db, d);
    j :| Explains(db, d, j);
    LogsAreKept(cfg, evs, j);
  }

  // ----- from the error raised to the row -----

  /** What job and document hold once the error is settled. */
  predicate SettledAs(cfg: Config, db: Db, db': Db, task: Task, error: string, permanent: bool) {
    && task.job in db.jobs && task.job in db'.jobs && task.doc in db'.docs
    && var job, job' := db.jobs[task.job], db'.jobs[task.job];
       if permanent || task.attempt >= cfg.maxTries then
         var text := if permanent then error else "retries exhausted: " + error;
         && job'.status == JobFailed && job'.details.error == Some(text) && job'.details.attempts == job.details.attempts
         && db'.docs[task.doc].status == DocFailed && db'.docs[task.doc].error == Some(text)
       else
         && job'.status == Running && job'.details.attempts == job.details.attempts + [Attempt(task.attempt, error)]
         && db'.docs == db.docs
  }

  /** The task's job is running and its document is being processed. */
  predicate UnderWay(db: Db, task: Task) {
    && task.job in db.jobs && db.jobs[task.job].document == task.doc && db.jobs[task.job].status == Running
    && task.doc in db.docs && db.docs[task.doc].status == Processing
  }

  /**
   * The stage function raises and the failure is settled, with nothing in between: a permanent error
   * fails job and document with its message, a transient one with its message marked as exhausted
   * when no tries are left; otherwise it adds one attempt, and the job goes on running.
   */
  lemma RaisedErrorIsRecorded(cfg: Config, s: State, w: WorkerId, task: Task, error: string, permanent: bool, s1: State, s': State)
    requires HasTaskOf(PcOf(s, w), task) && (PcOf(s, w).InStage? || PcOf(s, w).Storing? || PcOf(s, w).Committing?)
    requires UnderWay(s.db, task)
    requires s1 == DoRaise(cfg, Later(s), w, error, permanent) && s' == DoSettle(Later(s1), w)
    ensures SettledAs(cfg, s.db, s'.db, task, error, permanent)
  {
    RaisedThenSettled(cfg, s, w, task, error, permanent, s1, Later(s1), s');
    SettledRow(cfg, s.db, task, error, permanent, s1.now + 1, s'.db);
  }

  lemma RaisedThenSettled(cfg: Config, s: State, w: WorkerId, task: Task, error: string, permanent: bool, s1: State, t: State, s': State)
    requires HasTaskOf(PcOf(s, w), task) && (PcOf(s, w).InStage? || PcOf(s, w).Storing? || PcOf(s, w).Committing?)
    requires s1 == DoRaise(cfg, Later(s), w, error, permanent) && t == Later(s1) && s' == DoSettle(t, w)
    ensures var pc := Raised(cfg, task, error, permanent);
            s'.db == if pc.Failing? then FailStage(s.db, task.job, pc.error, t.now) else RecordAttempt(s.db, task.job, pc.error, task.attempt)
  {
    assert PcOf(t, w) == Raised(cfg, task, error, permanent) && t.db == s.db;
    SettleDb(t, w, Raised(cfg, task, error, permanent), s');
  }

  lemma SettledRow(cfg: Config, db: Db, task: Task, error: string, permanent: bool, now: Time, db': Db)
    requires UnderWay(db, task)
    requires var pc := Raised(cfg, task, error, permanent);
             db' == if pc.Failing? then FailStage(db, task.job, pc.error, now) else RecordAttempt(db, task.job, pc.error, task.attempt)
    ensures SettledAs(cfg, db, db', task, error, permanent)
  {
  }
}
