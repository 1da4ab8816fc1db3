// Termination under interference: in any run, whatever other workers, requests, passes of the
// sweeper and the clock do in between, the deliveries of one document's tasks are bounded. Duplicate
// deliveries may complete or fail the document's jobs: its track moves on with whoever does.
module Termination {
  import opened Types
  import opened Database
  import opened Pipeline
  import opened Chains
  import opened Naming
  import opened Control
  import opened Deliveries
  import opened Moves

  /**
   * Where the document's current task is: waiting to be delivered at this attempt, with a worker,
   * completed and about to hand over to the next job, or over for good.
   */
  datatype Track =
    | Waiting(job: JobId, attempt: nat)
    | Busy(worker: WorkerId, job: JobId, attempt: nat)
    | Passing(worker: WorkerId, next: JobId)
    | Over

  /** An event of the worker that has the task. */
  predicate Ours(t: Track, ev: Event) {
    (t.Busy? || t.Passing?) && ev.Work? && ev.worker == t.worker
  }

  /** Deleting or reprocessing the document. */
  predicate Removes(ev: Event, d: DocId) {
    match ev
    case Http(Delete(doc)) => doc == d
    case Http(ReprocessReset(doc)) => doc == d
    case Http(ReprocessRestart(doc, _)) => doc == d
    case Http(ReprocessExtract(doc)) => doc == d
    case _ => false
  }

  /** Everything may happen but these, and the worker that has the task does not crash. */
  predicate Allowed(t: Track, ev: Event, d: DocId) {
    !Removes(ev, d) && (Ours(t, ev) ==> !ev.action.Crash?)
  }

  /** This event takes the waiting task to an idle worker. */
  predicate Takes(s: State, t: Track, ev: Event) {
    t.Waiting? && ev.Work? && ev.action == Deliver(t.job, t.attempt) && PcOf(s, ev.worker) == Idle && t.job in s.tasks
  }

  /** Some worker, whether it was counted or is a duplicate, completes the job and has the next one in hand. */
  predicate Hands(s: State, s': State, ev: Event, j: JobId) {
    && ev.Work? && ev.action.Complete? && PcOf(s, ev.worker).Completing? && PcOf(s, ev.worker).task.job == j
    && PcOf(s', ev.worker).Enqueueing?
  }

  predicate Ended(db: Db, d: DocId) {
    d in db.docs && db.docs[d].status in {Indexed, DocFailed}
  }

  function JobOf(t: Track): JobId
    requires !t.Over?
  {
    if t.Passing? then t.next else t.job
  }

  /** The track follows the document: whoever completes its job, fails it or takes it on. */
  function NextTrack(s: State, s': State, t: Track, ev: Event, d: DocId): Track {
    if t.Over? || Ended(s'.db, d) then Over
    else if Hands(s, s', ev, JobOf(t)) then Passing(ev.worker, PcOf(s', ev.worker).next)
    else
      match t
      case Waiting(j, attempt) => if Takes(s, t, ev) then Busy(ev.worker, j, attempt) else t
      case Busy(w, j, attempt) =>
        if !Ours(t, ev) || PcOf(s', w) != Idle then t
        else if PcOf(s, w).Retrying? then Waiting(j, attempt + 1)
        else Over
      case Passing(w, n) => if Ours(t, ev) && ev.action.Enqueue? then Waiting(n, 1) else t
  }

  /** The track and the number of deliveries after a run. */
  function Tracked(cfg: Config, s: State, t: Track, d: DocId, evs: seq<Event>): (Track, nat)
    decreases |evs|
  {
    if evs == [] then (t, 0)
    else
      var (t0, n), ev := Tracked(cfg, s, t, d, evs[..|evs| - 1]), evs[|evs| - 1];
      var s0 := Run(cfg, s, evs[..|evs| - 1]);
      (NextTrack(s0, Run(cfg, s, evs), t0, ev, d), n + if Takes(s0, t0, ev) then 1 else 0)
  }

  /** Every event of the run is allowed where it occurs. */
  predicate Orderly(cfg: Config, s: State, t: Track, d: DocId, evs: seq<Event>)
    decreases |evs|
  {
    evs == [] ||
    (Orderly(cfg, s, t, d, evs[..|evs| - 1])
     && Allowed(Tracked(cfg, s, t, d, evs[..|evs| - 1]).0, evs[|evs| - 1], d))
  }

  // ----- the invariant -----

  /** The job of the document is active and ARQ was given it. */
  ghost predicate Stands(s: State, d: DocId, j: JobId) {
    && j in s.db.jobs && s.db.jobs[j].document == d && Active(s.db.jobs[j])
    && d in s.db.docs && s.db.docs[d].status in {Pending, Processing}
  }

  ghost predicate Works(cfg: Config, s: State, d: DocId, w: WorkerId, j: JobId, attempt: nat) {
    && Stands(s, d, j) && s.db.jobs[j].status == Running && s.db.docs[d].status == Processing
    && Shape(cfg, Task(j, d, s.db.jobs[j].stage, attempt), PcOf(s, w))
  }

  ghost predicate OnTrack(cfg: Config, s: State, t: Track, d: DocId) {
    match t
    case Waiting(j, attempt) => Stands(s, d, j) && j in s.tasks && 1 <= attempt <= Tries(cfg)
    case Busy(w, j, attempt) => Works(cfg, s, d, w, j, attempt) && j in s.tasks && 1 <= attempt <= Tries(cfg)
    case Passing(w, n) => Stands(s, d, n) && PcOf(s, w) == Enqueueing(n, s.db.jobs[n].stage)
    case Over => Finished(s, d)
  }

  /** Deliveries that can still come. */
  ghost function Rank(cfg: Config, s: State, t: Track, d: DocId): int
    requires OnTrack(cfg, s, t, d)
  {
    match t
    case Waiting(j, attempt) => Measure(cfg, s.db.jobs[j].stage, attempt)
    case Busy(_, j, attempt) => Measure(cfg, s.db.jobs[j].stage, attempt) - 1
    case Passing(_, n) => Measure(cfg, s.db.jobs[n].stage, 1)
    case Over => 0
  }

  // ----- what events of others leave alone -----

  /** The job and its document are where they were; a queued job may have been started. */
  ghost predicate Holds(db: Db, db': Db, d: DocId, j: JobId)
    requires j in db.jobs && d in db.docs
  {
    && j in db'.jobs && db'.jobs[j].document == db.jobs[j].document && db'.jobs[j].stage == db.jobs[j].stage
    && (Active(db.jobs[j]) ==> Active(db'.jobs[j])) && (db.jobs[j].status == Running ==> db'.jobs[j].status == Running)
    && d in db'.docs && (db.docs[d].status in {Pending, Processing} ==> db'.docs[d].status in {Pending, Processing})
    && (db.docs[d].status == Processing ==> db'.docs[d].status == Processing)
  }

  lemma StartHolds(db: Db, aux: Aux, id: JobId, now: Time, d: DocId, j: JobId)
    requires NamedDb(db, aux) && id in aux.jobs
    requires j in db.jobs && db.jobs[j].document == d && d in db.docs && db.docs[d].status in {Pending, Processing}
    ensures Holds(db, StartTx(db, id, aux.jobs[id].1, now), d, j)
  {
    if id in db.jobs { assert JobNamed(db, aux, id); }
  }

  /** Completing this job hands on to the next one, or ends the document. */
  predicate HandsOn(db: Db, task: Task, j: JobId) {
    task.job == j && CompleteOutcomeOf(db, j, NextStage(task.stage)).Completed? && NextStage(task.stage).Some?
  }

  lemma CompleteHolds(db: Db, aux: Aux, task: Task, result: StageResult, now: Time, d: DocId, j: JobId)
    requires NamedDb(db, aux) && TaskNamed(aux, task)
    requires j in db.jobs && db.jobs[j].document == d && d in db.docs
    ensures var db' := CompleteStage(db, task.job, result, NextStage(task.stage), now);
            Ended(db', d) || HandsOn(db, task, j) || Holds(db, db', d, j)
  {
    assert JobNamed(db, aux, j);
    if task.job in db.jobs { assert JobNamed(db, aux, task.job); }
  }

  lemma FailHolds(db: Db, aux: Aux, id: JobId, error: string, now: Time, d: DocId, j: JobId)
    requires NamedDb(db, aux)
    requires j in db.jobs && db.jobs[j].document == d && d in db.docs && db.docs[d].status in {Pending, Processing}
    ensures var db' := FailStage(db, id, error, now); Ended(db', d) || Holds(db, db', d, j)
  {
    if id in db.jobs { assert JobNamed(db, aux, id); }
  }

  lemma SameHolds(db: Db, d: DocId, j: JobId)
    requires j in db.jobs && d in db.docs
    ensures Holds(db, db, d, j)
  {
  }

  lemma CommitHolds(db: Db, doc: DocId, effect: Effect, d: DocId, j: JobId)
    requires j in db.jobs && d in db.docs
    ensures Holds(db, CommittedDb(db, doc, effect), d, j)
  {
  }

  lemma RetryHolds(db: Db, id: JobId, error: string, attempt: nat, d: DocId, j: JobId)
    requires j in db.jobs && d in db.docs
    ensures Holds(db, RecordAttempt(db, id, error, attempt), d, j)
  {
  }

  lemma DeliverHolds(s: State, aux: Aux, w: WorkerId, id: JobId, attempt: nat, d: DocId, j: JobId)
    requires Named(s, aux) && Stands(s, d, j)
    ensures Holds(s.db, DoDeliver(s, w, id, attempt).db, d, j)
  {
    if id in s.tasks && PcOf(s, w) == Idle {
      assert Queued1(s, aux, id);
      StartHolds(s.db, aux, id, s.now, d, j);
    }
  }

  lemma WorkHolds(cfg: Config, s: State, aux: Aux, w: WorkerId, action: Action, d: DocId, j: JobId)
    requires Named(s, aux) && Stands(s, d, j)
    ensures var s' := OnWork(cfg, s, w, action);
            Ended(s'.db, d) || Hands(s, s', Work(w, action), j) || Holds(s.db, s'.db, d, j)
  {
    match action
    case Deliver(id, attempt) => DeliverHolds(s, aux, w, id, attempt, d, j);
    case Settle => SettleHolds(s, aux, w, d, j);
    case Complete => CompleteStepHolds(s, aux, w, d, j);
    case Commit => CommitStepHolds(cfg, s, w, d, j);
    case _ =>
      PlainDb(cfg, s, w, action, OnWork(cfg, s, w, action));
      SameHolds(s.db, d, j);
  }

  lemma SettleHolds(s: State, aux: Aux, w: WorkerId, d: DocId, j: JobId)
    requires Named(s, aux) && Stands(s, d, j)
    ensures var s' := DoSettle(s, w); Ended(s'.db, d) || Holds(s.db, s'.db, d, j)
  {
    assert PcNamed(aux, PcOf(s, w));
    SettleDb(s, w, PcOf(s, w), DoSettle(s, w));
    SettledHolds(s.db, aux, PcOf(s, w), s.now, d, j);
  }

  lemma SettledHolds(db: Db, aux: Aux, pc: Pc, now: Time, d: DocId, j: JobId)
    requires NamedDb(db, aux) && PcNamed(aux, pc)
    requires j in db.jobs && db.jobs[j].document == d && d in db.docs && db.docs[d].status in {Pending, Processing}
    ensures var db' := if pc.Failing? then FailStage(db, pc.task.job, pc.error, now)
                       else if pc.Retrying? then RecordAttempt(db, pc.task.job, pc.error, pc.task.attempt)
                       else db;
            Ended(db', d) || Holds(db, db', d, j)
  {
    if pc.Failing? {
      FailHolds(db, aux, pc.task.job, pc.error, now, d, j);
    } else if pc.Retrying? {
      RetryHolds(db, pc.task.job, pc.error, pc.task.attempt, d, j);
    }
  }

  lemma CompleteStepHolds(s: State, aux: Aux, w: WorkerId, d: DocId, j: JobId)
    requires Named(s, aux) && Stands(s, d, j)
    ensures var s' := DoComplete(s, w);
            Ended(s'.db, d) || Hands(s, s', Work(w, Complete), j) || Holds(s.db, s'.db, d, j)
  {
    var pc := PcOf(s, w);
    assert PcNamed(aux, pc);
    if pc.Completing? {
      CompleteHolds(s.db, aux, pc.task, pc.result, s.now, d, j);
      if HandsOn(s.db, pc.task, j) { HandedOn(s, w, pc.task, pc.result, DoComplete(s, w)); }
    }
  }

  lemma HandedOn(s: State, w: WorkerId, task: Task, result: StageResult, s': State)
    requires PcOf(s, w) == Completing(task, result) && HandsOn(s.db, task, task.job) && s' == DoComplete(s, w)
    ensures PcOf(s', w) == Enqueueing(s.db.nextId, NextStage(task.stage).value)
  {
  }

  lemma CommitStepHolds(cfg: Config, s: State, w: WorkerId, d: DocId, j: JobId)
    requires j in s.db.jobs && d in s.db.docs
    ensures Holds(s.db, DoCommit(cfg, s, w).db, d, j)
  {
    var pc := PcOf(s, w);
    if pc.Committing? { CommitHolds(s.db, pc.task.doc, pc.effect, d, j); }
  }

  lemma DeleteHolds(db: Db, doc: DocId, d: DocId, j: JobId)
    requires j in db.jobs && db.jobs[j].document == d && d in db.docs && doc != d
    ensures Holds(db, DeleteDocument(db, doc), d, j)
  {
  }

  lemma ResetHolds(db: Db, doc: DocId, d: DocId, j: JobId)
    requires j in db.jobs && d in db.docs && doc != d
    ensures Holds(db, ResetDocument(db, doc), d, j)
  {
  }

  lemma InsertHolds(s: State, doc: DocId, stage: Stage, d: DocId, j: JobId)
    requires j in s.db.jobs && d in s.db.docs && j < s.db.nextId
    ensures Holds(s.db, InsertJob(s, doc, stage).db, d, j)
  {
  }

  lemma UploadHolds(cfg: Config, s: State, user: UserId, content: Content, ext: Extension, d: DocId, j: JobId)
    requires j in s.db.jobs && d in s.db.docs
    ensures Holds(s.db, DoUploadNew(cfg, s, user, content, ext).db, d, j)
  {
    UploadNewDb(cfg, s, user, content, ext, DoUploadNew(cfg, s, user, content, ext));
  }

  lemma UploadCommitHolds(s: State, aux: Aux, doc: DocId, d: DocId, j: JobId)
    requires Named(s, aux) && j in s.db.jobs && d in s.db.docs
    ensures Holds(s.db, DoUploadCommit(s, doc).db, d, j)
  {
    if doc in s.uploads { assert UploadNamed(s, aux, doc); }
  }

  lemma RequestHolds(cfg: Config, s: State, aux: Aux, request: Request, d: DocId, j: JobId)
    requires Named(s, aux) && !Removes(Http(request), d) && Stands(s, d, j)
    ensures Holds(s.db, OnRequest(cfg, s, request).db, d, j)
  {
    assert JobNamed(s.db, aux, j);
    SameHolds(s.db, d, j);
    match request
    case UploadCommit(doc) => UploadCommitHolds(s, aux, doc, d, j);
    case UploadNew(user, content, ext) => UploadHolds(cfg, s, user, content, ext, d, j);
    case Delete(doc) => DeleteHolds(s.db, doc, d, j);
    case ReprocessReset(doc) => ResetHolds(s.db, doc, d, j);
    case ReprocessRestart(doc, stage) => InsertHolds(s, doc, stage, d, j);
    case ReprocessExtract(doc) => InsertHolds(s, doc, Extract, d, j);
    case _ => PlainRequestDb(cfg, s, request, OnRequest(cfg, s, request));
  }

  lemma SweepHolds(s: State, aux: Aux, p: nat, d: DocId, j: JobId)
    requires Named(s, aux) && Stands(s, d, j)
    ensures var s' := DoSweepStep(s, p); Ended(s'.db, d) || Holds(s.db, s'.db, d, j)
  {
    if p in s.sweeps && s.sweeps[p].todo != [] {
      var sweep := s.sweeps[p];
      var (id, job) := sweep.todo[0];
      if SweepFails(sweep, job) { FailHolds(s.db, aux, id, SweepError(sweep, job), s.now, d, j); }
    }
  }

  /** Whatever somebody else does: it ends the document, completes its job, or leaves both standing. */
  lemma OthersHold(cfg: Config, s: State, aux: Aux, ev: Event, d: DocId, j: JobId, s': State)
    requires Named(s, aux) && !Removes(ev, d) && Stands(s, d, j) && s' == Dispatch(cfg, s, ev)
    ensures Ended(s'.db, d) || Hands(s, s', ev, j) || Holds(s.db, s'.db, d, j)
  {
    match ev
    case Http(request) => RequestHolds(cfg, s, aux, request, d, j);
    case Work(w, action) => WorkHolds(cfg, s, aux, w, action, d, j);
    case SweepStep(p) => SweepHolds(s, aux, p, d, j);
    case _ =>
  }

  /** Whoever completes the job of the document has its next job in hand. */
  lemma HandedStands(s: State, aux: Aux, w: WorkerId, d: DocId, j: JobId, s': State)
    requires Named(s, aux) && Stands(s, d, j) && s' == DoComplete(s, w) && Hands(s, s', Work(w, Complete), j)
    ensures var pc' := PcOf(s', w);
            Stands(s', d, pc'.next) && pc' == Enqueueing(pc'.next, s'.db.jobs[pc'.next].stage)
            && NextStage(s.db.jobs[j].stage) == Some(pc'.nextStage)
  {
    var pc := PcOf(s, w);
    assert PcNamed(aux, pc) && JobNamed(s.db, aux, j);
  }

  lemma ActionMovesOne(cfg: Config, s: State, w: WorkerId, action: Action, v: WorkerId, s': State)
    requires v != w && s' == OnWork(cfg, s, w, action)
    ensures PcOf(s', v) == PcOf(s, v)
  {
    var pc := PcOf(s, w);
    match action
    case Deliver(job, attempt) => DeliverWorkers(s, w, pc, job, attempt, s');
    case Complete => CompleteWorkers(s, w, pc, s');
    case Settle => SettleWorkers(s, w, pc, s');
    case Enqueue => EnqueueWorkers(s, w, pc, s');
    case Commit => CommitWorkers(cfg, s, w, pc, s');
    case Raise(error, permanent) => RaiseWorkers(cfg, s, w, pc, error, permanent, s');
    case Compute(cached) => ComputeWorkers(cfg, s, w, pc, cached, s');
    case Store => StoreWorkers(s, w, pc, s');
    case Crash =>
  }

  lemma OthersStay(cfg: Config, s: State, ev: Event, v: WorkerId)
    requires !(ev.Work? && ev.worker == v)
    ensures PcOf(Dispatch(cfg, s, ev), v) == PcOf(s, v)
  {
    if ev.Work? { ActionMovesOne(cfg, s, ev.worker, ev.action, v, Dispatch(cfg, s, ev)); }
  }

  lemma WorkTasks(cfg: Config, s: State, w: WorkerId, action: Action, s': State)
    requires s' == OnWork(cfg, s, w, action)
    ensures s.tasks.Keys <= s'.tasks.Keys
  {
    if action.Enqueue? { EnqueueStepQueue(s, w, PcOf(s, w), s'); } else { PlainQueue(cfg, s, w, action, s'); }
  }

  lemma RequestTasks(cfg: Config, s: State, request: Request, s': State)
    requires s' == OnRequest(cfg, s, request)
    ensures s.tasks.Keys <= s'.tasks.Keys
  {
  }

  lemma SweepTasks(s: State, p: nat, s': State)
    requires s' == DoSweepStep(s, p)
    ensures s.tasks.Keys <= s'.tasks.Keys
  {
    if p in s.sweeps && s.sweeps[p].todo != [] {
      var sweep := s.sweeps[p];
      ItemQueue(s, p, sweep.todo[0].0, sweep.todo[0].1, sweep.(todo := sweep.todo[1..]), s');
    }
  }

  lemma TasksGrow(cfg: Config, s: State, ev: Event, s': State)
    requires s' == Dispatch(cfg, s, ev)
    ensures s.tasks.Keys <= s'.tasks.Keys
  {
    match ev
    case Http(request) => RequestTasks(cfg, s, request, s');
    case Work(w, action) => WorkTasks(cfg, s, w, action, s');
    case SweepStep(p) => SweepTasks(s, p, s');
    case _ =>
  }

  // ----- the steps of the worker that has the task -----

  lemma WorksGoing(cfg: Config, s: State, aux: Aux, d: DocId, w: WorkerId, j: JobId, attempt: nat)
    requires Named(s, aux) && Works(cfg, s, d, w, j, attempt) && j in s.tasks
    ensures Going(cfg, s, w, Task(j, d, s.db.jobs[j].stage, attempt))
  {
    ReachableIsUnused(s, aux);
    assert JobNamed(s.db, aux, j) && Queued1(s, aux, j);
  }

  lemma GoingWorks(cfg: Config, s: State, w: WorkerId, task: Task)
    requires Going(cfg, s, w, task)
    ensures Works(cfg, s, task.doc, w, task.job, task.attempt) && s.db.jobs[task.job].stage == task.stage
  {
  }

  /** Where one step takes the worker: on with the task, to a retry, to the hand-over or to the end. */
  ghost predicate Stepped(cfg: Config, s: State, d: DocId, w: WorkerId, j: JobId, attempt: nat, s': State)
    requires j in s.db.jobs
  {
    var pc, pc' := PcOf(s, w), PcOf(s', w);
    if pc'.Enqueueing? then Stands(s', d, pc'.next) && pc' == Enqueueing(pc'.next, s'.db.jobs[pc'.next].stage)
                            && NextStage(s.db.jobs[j].stage) == Some(pc'.nextStage)
    else if pc' != Idle then Works(cfg, s', d, w, j, attempt) && s'.db.jobs[j].stage == s.db.jobs[j].stage
    else if pc.Retrying? then Stands(s', d, j) && attempt < cfg.maxTries && s'.db.jobs[j].stage == s.db.jobs[j].stage
    else Finished(s', d)
  }

  lemma StillGoing(cfg: Config, s: State, w: WorkerId, task: Task, s': State)
    requires task.job in s.db.jobs && s.db.jobs[task.job].stage == task.stage && Going(cfg, s', w, task)
    ensures Stepped(cfg, s, task.doc, w, task.job, task.attempt, s')
  {
    GoingWorks(cfg, s', w, task);
  }

  lemma OurStep(cfg: Config, s: State, w: WorkerId, task: Task, action: Action, s': State)
    requires Going(cfg, s, w, task) && !action.Crash? && s' == OnWork(cfg, s, w, action)
    ensures Stepped(cfg, s, task.doc, w, task.job, task.attempt, s')
  {
    var pc := PcOf(s, w);
    match action
    case Deliver(id, a) => StillGoing(cfg, s, w, task, s);
    case Compute(cached) =>
      ComputeGoes(cfg, s, w, task, cached);
      StillGoing(cfg, s, w, task, DoCompute(cfg, s, w, cached));
    case Raise(error, permanent) =>
      RaiseGoes(cfg, s, w, task, error, permanent);
      StillGoing(cfg, s, w, task, DoRaise(cfg, s, w, error, permanent));
    case Store =>
      if !pc.InStage? { StoreGoes(cfg, s, w, task); }
      StillGoing(cfg, s, w, task, DoStore(s, w));
    case Commit =>
      if pc.Committing? { CommitGoes(cfg, s, w, task); }
      StillGoing(cfg, s, w, task, DoCommit(cfg, s, w));
    case Enqueue => StillGoing(cfg, s, w, task, s);
    case Settle => SettleStepped(cfg, s, w, task);
    case Complete => CompleteStepped(cfg, s, w, task);
  }

  lemma SettleStepped(cfg: Config, s: State, w: WorkerId, task: Task)
    requires Going(cfg, s, w, task)
    ensures Stepped(cfg, s, task.doc, w, task.job, task.attempt, DoSettle(s, w))
  {
    var pc := PcOf(s, w);
    if pc.Failing? {
      FailStep(s, w, task, pc.error);
    } else if pc.Retrying? {
      RetryStep(s, w, task, pc.error);
    } else {
      StillGoing(cfg, s, w, task, s);
    }
  }

  lemma CompleteStepped(cfg: Config, s: State, w: WorkerId, task: Task)
    requires Going(cfg, s, w, task)
    ensures Stepped(cfg, s, task.doc, w, task.job, task.attempt, DoComplete(s, w))
  {
    var pc := PcOf(s, w);
    if pc.Completing? {
      CompleteStep(s, w, task, pc.result);
    } else {
      StillGoing(cfg, s, w, task, s);
    }
  }

  // ----- a finished document stays finished -----

  lemma TransactionsKeepEnded(db: Db, id: JobId, stage: Stage, result: StageResult, next: Option<Stage>, error: string, attempt: nat,
                              now: Time, doc: DocId, effect: Effect, d: DocId)
    requires Ended(db, d)
    ensures Ended(StartTx(db, id, stage, now), d) && Ended(FailStage(db, id, error, now), d)
    ensures Ended(RecordAttempt(db, id, error, attempt), d) && Ended(CommittedDb(db, doc, effect), d)
    ensures Ended(CompleteStage(db, id, result, next, now), d)
  {
  }

  lemma WorkKeepsEnded(cfg: Config, s: State, w: WorkerId, action: Action, d: DocId)
    requires Ended(s.db, d)
    ensures Ended(OnWork(cfg, s, w, action).db, d)
  {
    var pc := PcOf(s, w);
    var none := StageResult(None, None);
    match action
    case Deliver(id, a) =>
      if id in s.tasks { TransactionsKeepEnded(s.db, id, s.tasks[id], none, None, "", 0, s.now, d, NoEffect, d); }
    case Settle => SettleKeepsEnded(s, w, d);
    case Complete =>
      if pc.Completing? {
        TransactionsKeepEnded(s.db, pc.task.job, Extract, pc.result, NextStage(pc.task.stage), "", 0, s.now, d, NoEffect, d);
      }
    case Commit =>
      if pc.Committing? { TransactionsKeepEnded(s.db, 0, Extract, none, None, "", 0, s.now, pc.task.doc, pc.effect, d); }
    case _ => PlainDb(cfg, s, w, action, OnWork(cfg, s, w, action));
  }

  lemma SettleKeepsEnded(s: State, w: WorkerId, d: DocId)
    requires Ended(s.db, d)
    ensures Ended(DoSettle(s, w).db, d)
  {
    var pc := PcOf(s, w);
    SettleDb(s, w, PcOf(s, w), DoSettle(s, w));
    if pc.Failing? || pc.Retrying? {
      TransactionsKeepEnded(s.db, pc.task.job, Extract, StageResult(None, None), None, pc.error, pc.task.attempt, s.now, d, NoEffect, d);
    }
  }

  lemma RequestKeepsEnded(cfg: Config, s: State, aux: Aux, request: Request, d: DocId)
    requires Named(s, aux) && Ended(s.db, d) && !Removes(Http(request), d)
    ensures Ended(OnRequest(cfg, s, request).db, d)
  {
    match request
    case UploadCommit(doc) => if doc in s.uploads { assert UploadNamed(s, aux, doc); }
    case UploadNew(user, content, ext) => UploadNewDb(cfg, s, user, content, ext, OnRequest(cfg, s, request));
    case Delete(doc) =>
    case ReprocessReset(doc) =>
    case ReprocessRestart(doc, stage) =>
    case ReprocessExtract(doc) =>
    case _ => PlainRequestDb(cfg, s, request, OnRequest(cfg, s, request));
  }

  lemma SweepKeepsEnded(s: State, p: nat, d: DocId)
    requires Ended(s.db, d)
    ensures Ended(DoSweepStep(s, p).db, d)
  {
    if p in s.sweeps && s.sweeps[p].todo != [] {
      var sweep := s.sweeps[p];
      var (id, job) := sweep.todo[0];
      TransactionsKeepEnded(s.db, id, Extract, StageResult(None, None), None, SweepError(sweep, job), 0, s.now, d, NoEffect, d);
    }
  }

  lemma EndedStays(cfg: Config, s: State, aux: Aux, ev: Event, d: DocId)
    requires Named(s, aux) && Ended(s.db, d) && !Removes(ev, d)
    ensures Ended(Dispatch(cfg, s, ev).db, d)
  {
    match ev
    case Http(request) => RequestKeepsEnded(cfg, s, aux, request, d);
    case Work(w, action) => WorkKeepsEnded(cfg, s, w, action, d);
    case SweepStep(p) => SweepKeepsEnded(s, p, d);
    case _ =>
  }

  // ----- one event -----

  /** The track goes on, and a delivery is paid for by the rank. */
  ghost predicate Advances(cfg: Config, s: State, t: Track, ev: Event, d: DocId, s': State)
    requires OnTrack(cfg, s, t, d)
  {
    var t' := NextTrack(s, s', t, ev, d);
    OnTrack(cfg, s', t', d) && Rank(cfg, s', t', d) + (if Takes(s, t, ev) then 1 else 0) <= Rank(cfg, s, t, d)
  }

  lemma EndAdvances(cfg: Config, s: State, t: Track, ev: Event, d: DocId, s': State)
    requires OnTrack(cfg, s, t, d) && !t.Over? && Ended(s'.db, d)
    ensures Advances(cfg, s, t, ev, d, s')
  {
    MeasureDrops(cfg, s.db.jobs[JobOf(t)].stage, if t.Passing? then 1 else t.attempt);
  }

  /** Somebody handed on to the next stage: fewer deliveries can come. */
  lemma HandsAdvance(cfg: Config, s: State, aux: Aux, t: Track, ev: Event, d: DocId, s': State)
    requires Named(s, aux) && OnTrack(cfg, s, t, d) && !t.Over? && s' == Dispatch(cfg, s, ev)
    requires !Ended(s'.db, d) && Hands(s, s', ev, JobOf(t))
    ensures Advances(cfg, s, t, ev, d, s')
  {
    HandedStands(s, aux, ev.worker, d, JobOf(t), s');
    PassedAdvances(cfg, s, t, ev, d, s');
  }

  lemma PassedAdvances(cfg: Config, s: State, t: Track, ev: Event, d: DocId, s': State)
    requires OnTrack(cfg, s, t, d) && !t.Over? && !Ended(s'.db, d) && Hands(s, s', ev, JobOf(t))
    requires var pc' := PcOf(s', ev.worker);
             Stands(s', d, pc'.next) && pc' == Enqueueing(pc'.next, s'.db.jobs[pc'.next].stage)
             && NextStage(s.db.jobs[JobOf(t)].stage) == Some(pc'.nextStage)
    ensures Advances(cfg, s, t, ev, d, s')
  {
    MeasureDrops(cfg, s.db.jobs[JobOf(t)].stage, if t.Passing? then 1 else t.attempt);
  }

  /** Nobody touched the task: the track is where it was. */
  lemma HeldAdvances(cfg: Config, s: State, t: Track, ev: Event, d: DocId, s': State)
    requires OnTrack(cfg, s, t, d) && !t.Over? && !Takes(s, t, ev) && !Ours(t, ev)
    requires !Ended(s'.db, d) && !Hands(s, s', ev, JobOf(t)) && Holds(s.db, s'.db, d, JobOf(t))
    requires s.tasks.Keys <= s'.tasks.Keys && (!t.Waiting? ==> PcOf(s', t.worker) == PcOf(s, t.worker))
    ensures Advances(cfg, s, t, ev, d, s')
  {
  }

  lemma OthersAdvance(cfg: Config, s: State, aux: Aux, t: Track, ev: Event, d: DocId, s': State)
    requires Named(s, aux) && OnTrack(cfg, s, t, d) && Allowed(t, ev, d) && s' == Dispatch(cfg, s, ev)
    requires !t.Over? && !Takes(s, t, ev) && !Ours(t, ev) && !Ended(s'.db, d) && !Hands(s, s', ev, JobOf(t))
    ensures Advances(cfg, s, t, ev, d, s')
  {
    OthersHold(cfg, s, aux, ev, d, JobOf(t), s');
    TasksGrow(cfg, s, ev, s');
    if !t.Waiting? { OthersStay(cfg, s, ev, t.worker); }
    HeldAdvances(cfg, s, t, ev, d, s');
  }

  lemma TakesAdvances(cfg: Config, s: State, aux: Aux, t: Track, ev: Event, d: DocId, s': State)
    requires Named(s, aux) && OnTrack(cfg, s, t, d) && Takes(s, t, ev) && s' == Dispatch(cfg, s, ev) && !Ended(s'.db, d)
    ensures Advances(cfg, s, t, ev, d, s')
  {
    TakenIsBusy(cfg, s, aux, t, ev.worker, d);
    MeasureDrops(cfg, s.db.jobs[t.job].stage, t.attempt);
  }

  lemma TakenIsBusy(cfg: Config, s: State, aux: Aux, t: Track, w: WorkerId, d: DocId)
    requires Named(s, aux) && OnTrack(cfg, s, t, d) && t.Waiting? && PcOf(s, w) == Idle
    ensures var s' := DoDeliver(s, w, t.job, t.attempt);
            Works(cfg, s', d, w, t.job, t.attempt) && t.job in s'.tasks && s'.db.jobs[t.job].stage == s.db.jobs[t.job].stage
  {
    ReachableIsUnused(s, aux);
    assert JobNamed(s.db, aux, t.job) && Queued1(s, aux, t.job);
    DeliverStep(s, w, d, t.job, t.attempt);
  }

  lemma BusyAdvances(cfg: Config, s: State, aux: Aux, t: Track, ev: Event, d: DocId, s': State)
    requires Named(s, aux) && OnTrack(cfg, s, t, d) && t.Busy? && Ours(t, ev) && Allowed(t, ev, d) && s' == Dispatch(cfg, s, ev)
    requires !Ended(s'.db, d) && !Hands(s, s', ev, t.job)
    ensures Advances(cfg, s, t, ev, d, s')
  {
    TasksGrow(cfg, s, ev, s');
    WorksGoing(cfg, s, aux, d, t.worker, t.job, t.attempt);
    OurStep(cfg, s, t.worker, Task(t.job, d, s.db.jobs[t.job].stage, t.attempt), ev.action, s');
    if !ev.action.Complete? { StaysOutOfHand(cfg, s, t.worker, ev.action, s'); }
    SteppedAdvances(cfg, s, t, ev, d, s');
  }

  lemma SteppedAdvances(cfg: Config, s: State, t: Track, ev: Event, d: DocId, s': State)
    requires OnTrack(cfg, s, t, d) && t.Busy? && Ours(t, ev) && t.job in s'.tasks
    requires !Ended(s'.db, d) && !Hands(s, s', ev, t.job) && !PcOf(s', t.worker).Enqueueing?
    requires Stepped(cfg, s, d, t.worker, t.job, t.attempt, s')
    ensures Advances(cfg, s, t, ev, d, s')
  {
    MeasureDrops(cfg, s.db.jobs[t.job].stage, t.attempt);
  }

  /** A worker inside a stage has a next job in hand only by completing its own. */
  lemma StaysOutOfHand(cfg: Config, s: State, w: WorkerId, action: Action, s': State)
    requires HasTask(PcOf(s, w)) && !action.Complete? && s' == OnWork(cfg, s, w, action)
    ensures !PcOf(s', w).Enqueueing?
  {
    var pc := PcOf(s, w);
    match action
    case Compute(cached) => ComputeWorkers(cfg, s, w, pc, cached, s');
    case Settle => SettleWorkers(s, w, pc, s');
    case Commit => CommitWorkers(cfg, s, w, pc, s');
    case Raise(error, permanent) => RaiseWorkers(cfg, s, w, pc, error, permanent, s');
    case Store => StoreWorkers(s, w, pc, s');
    case _ =>
  }

  predicate HasTask(pc: Pc) {
    !pc.Idle? && !pc.Enqueueing?
  }

  lemma PassingAdvances(cfg: Config, s: State, aux: Aux, t: Track, ev: Event, d: DocId, s': State)
    requires Named(s, aux) && OnTrack(cfg, s, t, d) && t.Passing? && Ours(t, ev) && Allowed(t, ev, d) && s' == Dispatch(cfg, s, ev)
    requires !Ended(s'.db, d) && !Hands(s, s', ev, t.next)
    ensures Advances(cfg, s, t, ev, d, s')
  {
    if ev.action.Enqueue? {
      HandedOver(s, aux, t.worker, t.next, s.db.jobs[t.next].stage);
    } else {
      PassingWaits(cfg, s, t.worker, ev.action, s');
    }
  }

  lemma PassingWaits(cfg: Config, s: State, w: WorkerId, action: Action, s': State)
    requires PcOf(s, w).Enqueueing? && !action.Enqueue? && !action.Crash? && s' == OnWork(cfg, s, w, action)
    ensures s' == s
  {
  }

  lemma HandedOver(s: State, aux: Aux, w: WorkerId, n: JobId, stage: Stage)
    requires Named(s, aux) && PcOf(s, w) == Enqueueing(n, stage)
    ensures DoEnqueue(s, w).db == s.db && n in DoEnqueue(s, w).tasks
  {
    if ArqKnows(s, n) { assert Queued1(s, aux, n); }
  }

  lemma TrackStep(cfg: Config, s: State, aux: Aux, t: Track, ev: Event, d: DocId, s': State)
    requires Named(s, aux) && OnTrack(cfg, s, t, d) && Allowed(t, ev, d) && s' == Dispatch(cfg, s, ev)
    ensures Advances(cfg, s, t, ev, d, s')
  {
    if t.Over? {
      EndedStays(cfg, s, aux, ev, d);
    } else if Ended(s'.db, d) {
      EndAdvances(cfg, s, t, ev, d, s');
    } else if Hands(s, s', ev, JobOf(t)) {
      HandsAdvance(cfg, s, aux, t, ev, d, s');
    } else if Takes(s, t, ev) {
      TakesAdvances(cfg, s, aux, t, ev, d, s');
    } else if !Ours(t, ev) {
      OthersAdvance(cfg, s, aux, t, ev, d, s');
    } else if t.Busy? {
      BusyAdvances(cfg, s, aux, t, ev, d, s');
    } else {
      PassingAdvances(cfg, s, aux, t, ev, d, s');
    }
  }

  // ----- whole runs -----

  /** The clock is no part of any of this. */
  lemma LaterTrack(cfg: Config, s: State, t: Track, ev: Event, d: DocId, later: State)
    requires OnTrack(cfg, s, t, d) && later == Later(s)
    ensures OnTrack(cfg, later, t, d) && Rank(cfg, later, t, d) == Rank(cfg, s, t, d)
  {
  }

  lemma LaterNext(s: State, t: Track, ev: Event, d: DocId, later: State, s': State)
    requires later == Later(s)
    ensures (Takes(later, t, ev) <==> Takes(s, t, ev)) && NextTrack(later, s', t, ev, d) == NextTrack(s, s', t, ev, d)
  {
    assert forall w {:trigger PcOf(later, w)} :: PcOf(later, w) == PcOf(s, w);
  }

  lemma ApplyAdvances(cfg: Config, s: State, aux: Aux, t: Track, ev: Event, d: DocId, s': State)
    requires Named(s, aux) && OnTrack(cfg, s, t, d) && Allowed(t, ev, d) && s' == Apply(cfg, s, ev)
    ensures Advances(cfg, s, t, ev, d, s')
  {
    FromLater(cfg, s, aux, t, ev, d, Later(s), s');
  }

  lemma FromLater(cfg: Config, s: State, aux: Aux, t: Track, ev: Event, d: DocId, later: State, s': State)
    requires Named(s, aux) && OnTrack(cfg, s, t, d) && Allowed(t, ev, d) && later == Later(s)
    requires s' == Dispatch(cfg, later, ev)
    ensures Advances(cfg, s, t, ev, d, s')
  {
    OutsideNamed(s, later, aux);
    LaterTrack(cfg, s, t, ev, d, later);
    TrackStep(cfg, later, aux, t, ev, d, s');
    LaterNext(s, t, ev, d, later, s');
  }

  /** Along every orderly run the deliveries made and those that can still come never exceed the rank. */
  lemma {:induction false} DeliveriesAreBounded(cfg: Config, evs: seq<Event>, t: Track, d: DocId, more: seq<Event>)
    requires OnTrack(cfg, Run(cfg, INIT, evs), t, d) && Orderly(cfg, Run(cfg, INIT, evs), t, d, more)
    ensures var s := Run(cfg, INIT, evs);
            var (t', n) := Tracked(cfg, s, t, d, more);
            OnTrack(cfg, Run(cfg, s, more), t', d) && Rank(cfg, Run(cfg, s, more), t', d) + n <= Rank(cfg, s, t, d)
    decreases |more|
  {
    if more != [] {
      var less, ev := more[..|more| - 1], more[|more| - 1];
      var s := Run(cfg, INIT, evs);
      DeliveriesAreBounded(cfg, evs, t, d, less);
      RunConcat(cfg, INIT, evs, less);
      RunNamed(cfg, evs + less);
      ApplyAdvances(cfg, Run(cfg, s, less), AuxOf(cfg, evs + less), Tracked(cfg, s, t, d, less).0, ev, d, Run(cfg, s, more));
    }
  }

  lemma RankIsPositive(cfg: Config, s: State, t: Track, d: DocId)
    requires OnTrack(cfg, s, t, d)
    ensures Rank(cfg, s, t, d) >= 0 && (t.Waiting? || t.Passing? ==> Rank(cfg, s, t, d) >= 1)
    ensures Rank(cfg, s, t, d) <= STAGE_COUNT * Tries(cfg)
  {
    match t
    case Waiting(j, attempt) => MeasureDrops(cfg, s.db.jobs[j].stage, attempt);
    case Busy(_, j, attempt) => MeasureDrops(cfg, s.db.jobs[j].stage, attempt);
    case Passing(_, n) => MeasureDrops(cfg, s.db.jobs[n].stage, 1);
    case Over =>
  }

  /**
   * From any state reachable without reprocess, a document whose active job ARQ was given: in
   * every orderly run there are at most 5 * max_tries deliveries of its tasks, and once that many
   * are over, or the track is over before, the document is indexed or failed.
   */
  lemma DocumentsFinish(cfg: Config, evs: seq<Event>, d: DocId, j: JobId, attempt: nat, more: seq<Event>)
    requires NoReprocess(evs) && 1 <= attempt <= Tries(cfg)
    requires var s := Run(cfg, INIT, evs);
             j in s.db.jobs && s.db.jobs[j].document == d && Active(s.db.jobs[j]) && j in s.tasks
             && Orderly(cfg, s, Waiting(j, attempt), d, more)
    ensures var s := Run(cfg, INIT, evs);
            var (t, n) := Tracked(cfg, s, Waiting(j, attempt), d, more);
            && n <= STAGE_COUNT * Tries(cfg)
            && (t.Over? || (n == STAGE_COUNT * Tries(cfg) && !t.Busy?) ==> Finished(Run(cfg, INIT, evs + more), d))
  {
    var s, t0 := Run(cfg, INIT, evs), Waiting(j, attempt);
    RunControlled(cfg, evs);
    ActiveStands(s, AuxOf(cfg, evs), j);
    DeliveriesAreBounded(cfg, evs, t0, d, more);
    RankIsPositive(cfg, s, t0, d);
    RankIsPositive(cfg, Run(cfg, s, more), Tracked(cfg, s, t0, d, more).0, d);
    RunConcat(cfg, INIT, evs, more);
  }

  lemma ActiveStands(s: State, aux: Aux, j: JobId)
    requires Controlled(s, aux) && j in s.db.jobs && Active(s.db.jobs[j])
    ensures Stands(s, s.db.jobs[j].document, j)
  {
    ActiveIsLast(s.db, aux.chains, j);
    assert JobNamed(s.db, aux, j);
  }

  // ----- the condition can be met -----

  /** One delivery by one worker: steps of it alone, none of them a crash or another delivery. */
  predicate OneDeliveryOf(w: WorkerId, j: JobId, attempt: nat, evs: seq<Event>) {
    && evs != [] && evs[0] == Work(w, Deliver(j, attempt))
    && forall i :: 1 <= i < |evs| ==> evs[i].Work? && evs[i].worker == w && !evs[i].action.Crash? && !evs[i].action.Deliver?
  }

  lemma DeliveryIsOne(w: WorkerId, j: JobId, attempt: nat, outcome: Outcome)
    ensures OneDeliveryOf(w, j, attempt, DeliveryEvents(w, j, attempt, outcome))
  {
  }

  /** Whoever has the task is this worker, and it is idle while the task waits. */
  predicate Alone(s: State, t: Track, w: WorkerId) {
    && (t.Waiting? ==> PcOf(s, w) == Idle)
    && (t.Busy? ==> t.worker == w)
    && (t.Passing? ==> t.worker == w && PcOf(s, w).Enqueueing?)
  }

  lemma IdleOrPassing(cfg: Config, s: State, w: WorkerId, action: Action)
    requires !action.Deliver? && !action.Crash?
    ensures PcOf(s, w) == Idle ==> PcOf(OnWork(cfg, s, w, action), w) == Idle
    ensures PcOf(s, w).Enqueueing? ==>
              PcOf(OnWork(cfg, s, w, action), w) == if action.Enqueue? then Idle else PcOf(s, w)
  {
  }

  lemma AloneStep(cfg: Config, s: State, later: State, t: Track, d: DocId, w: WorkerId, action: Action, s': State)
    requires Alone(s, t, w) && !action.Deliver? && !action.Crash?
    requires later == Later(s) && s' == OnWork(cfg, later, w, action)
    ensures Allowed(t, Work(w, action), d) && !Takes(s, t, Work(w, action))
    ensures Alone(s', NextTrack(s, s', t, Work(w, action), d), w)
  {
    IdleOrPassing(cfg, later, w, action);
    assert PcOf(later, w) == PcOf(s, w);
  }

  /** Such a delivery is orderly from any state, and it is the one delivery that is counted. */
  lemma {:induction false} OneDeliveryIsOrderly(cfg: Config, s: State, w: WorkerId, j: JobId, attempt: nat, d: DocId, evs: seq<Event>)
    requires OneDeliveryOf(w, j, attempt, evs) && PcOf(s, w) == Idle && j in s.tasks
    ensures Orderly(cfg, s, Waiting(j, attempt), d, evs)
    ensures Tracked(cfg, s, Waiting(j, attempt), d, evs).1 == 1
    ensures Alone(Run(cfg, s, evs), Tracked(cfg, s, Waiting(j, attempt), d, evs).0, w)
    decreases |evs|
  {
    var t, less, ev := Waiting(j, attempt), evs[..|evs| - 1], evs[|evs| - 1];
    if less == [] {
      FirstTaken(cfg, s, w, j, attempt, d, evs);
    } else {
      OneDeliveryIsOrderly(cfg, s, w, j, attempt, d, less);
      var s0 := Run(cfg, s, less);
      AloneStep(cfg, s0, Later(s0), Tracked(cfg, s, t, d, less).0, d, w, ev.action, Run(cfg, s, evs));
    }
  }

  lemma FirstTaken(cfg: Config, s: State, w: WorkerId, j: JobId, attempt: nat, d: DocId, evs: seq<Event>)
    requires evs == [Work(w, Deliver(j, attempt))] && PcOf(s, w) == Idle && j in s.tasks
    ensures Orderly(cfg, s, Waiting(j, attempt), d, evs)
    ensures Tracked(cfg, s, Waiting(j, attempt), d, evs).1 == 1
    ensures Alone(Run(cfg, s, evs), Tracked(cfg, s, Waiting(j, attempt), d, evs).0, w)
  {
    assert evs[..0] == [];
    assert Tracked(cfg, s, Waiting(j, attempt), d, evs[..0]) == (Waiting(j, attempt), 0) && Run(cfg, s, evs[..0]) == s;
    assert Orderly(cfg, s, Waiting(j, attempt), d, evs[..0]);
  }

  /** So is a delivery as the worker makes it, whatever the stage function raises and wherever. */
  lemma DeliveryIsOrderly(cfg: Config, s: State, w: WorkerId, j: JobId, attempt: nat, d: DocId, outcome: Outcome)
    requires PcOf(s, w) == Idle && j in s.tasks
    ensures var evs := DeliveryEvents(w, j, attempt, outcome);
            && Orderly(cfg, s, Waiting(j, attempt), d, evs) && Tracked(cfg, s, Waiting(j, attempt), d, evs).1 == 1
            && Run(cfg, s, evs) == Delivered(cfg, s, w, j, attempt, outcome)
  {
    DeliveryIsOne(w, j, attempt, outcome);
    OneDeliveryIsOrderly(cfg, s, w, j, attempt, d, DeliveryEvents(w, j, attempt, outcome));
    DeliveredIsRun(cfg, s, w, j, attempt, outcome);
  }
}
