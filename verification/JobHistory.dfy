// What happens to one job over a whole run, reprocess included: terminal rows never change,
// `started_at` is set once, a job is completed at most once, and active jobs are counted.
module JobHistory {
  import opened Types
  import opened Database
  import opened Moves
  import opened Pipeline
  import opened Naming
  import opened Control

  /** How a job row may evolve: identity fixed, terminal rows frozen, the start time set once. */
  predicate Evolves(old_: Job, new_: Job) {
    && new_.document == old_.document && new_.stage == old_.stage && new_.createdAt == old_.createdAt
    && (Terminal(old_) ==> new_ == old_)
    && (old_.startedAt.Some? ==> new_.startedAt == old_.startedAt)
    && (old_.status == Running ==> new_.status != Queued)
  }

  /** The identifier was handed out and its row is not waiting in an open upload. */
  ghost predicate Born(s: State, aux: Aux, j: JobId) {
    && j in aux.jobs
    && (forall d {:trigger s.uploads[d]} :: d in s.uploads ==> s.uploads[d].job != j)
  }

  ghost predicate Keeps(db: Db, db': Db, j: JobId) {
    j in db'.jobs ==> j in db.jobs && Evolves(db.jobs[j], db'.jobs[j])
  }

  lemma WorkKeeps(cfg: Config, s: State, aux: Aux, w: WorkerId, action: Action, j: JobId)
    requires Named(s, aux) && Born(s, aux, j) && AllStamped(s.db, s.now)
    ensures Keeps(s.db, OnWork(cfg, s, w, action).db, j)
  {
    var pc, s' := PcOf(s, w), OnWork(cfg, s, w, action);
    match action
    case Deliver(job, attempt) =>
      DeliverDb(s, w, pc, job, attempt, s');
      if job in s.tasks { StartKeepsRow(s.db, job, s.tasks[job], s.now, j); }
    case Settle =>
      SettleDb(s, w, pc, s');
      SettleKeepsRow(s.db, pc, s.now, j);
    case Complete =>
      CompleteDb(s, w, pc, s');
      if pc.Completing? { CompleteKeepsRow(s.db, pc.task, pc.result, s.now, j); }
    case Commit => CommitDb(cfg, s, w, pc, s');
    case _ => PlainDb(cfg, s, w, action, s');
  }

  lemma StartKeepsRow(db: Db, id: JobId, stage: Stage, now: Time, j: JobId)
    requires AllStamped(db, now)
    ensures Keeps(db, StartTx(db, id, stage, now), j)
  {
    assert id in db.jobs ==> Stamped(db, now, id);
  }

  lemma SettleKeepsRow(db: Db, pc: Pc, now: Time, j: JobId)
    ensures pc.Failing? ==> Keeps(db, FailStage(db, pc.task.job, pc.error, now), j)
    ensures pc.Retrying? ==> Keeps(db, RecordAttempt(db, pc.task.job, pc.error, pc.task.attempt), j)
  {
  }

  lemma CompleteKeepsRow(db: Db, task: Task, result: StageResult, now: Time, j: JobId)
    requires j < db.nextId
    ensures Keeps(db, CompleteStage(db, task.job, result, NextStage(task.stage), now), j)
  {
  }

  lemma RequestKeeps(cfg: Config, s: State, aux: Aux, request: Request, j: JobId)
    requires Named(s, aux) && Born(s, aux, j)
    ensures Keeps(s.db, OnRequest(cfg, s, request).db, j)
  {
    assert j < s.db.nextId;
    match request
    case UploadNew(user, content, ext) => NewKeeps(cfg, s, user, content, ext);
    case UploadCommit(doc) => CommitKeeps(s, doc, j);
    case UploadKnown(doc, job) => assert OnRequest(cfg, s, request).db == s.db;
    case Delete(doc) =>
    case ReprocessReset(doc) => ResetKeeps(s.db, doc);
    case ReprocessRestart(doc, stage) => InsertKeeps(s, doc, stage, j);
    case ReprocessExtract(doc) => InsertKeeps(s, doc, Extract, j);
    case _ => assert OnRequest(cfg, s, request).db == s.db;
  }

  lemma NewKeeps(cfg: Config, s: State, user: UserId, content: Content, ext: Extension)
    ensures DoUploadNew(cfg, s, user, content, ext).db.jobs == s.db.jobs
  {
  }

  lemma CommitKeeps(s: State, doc: DocId, j: JobId)
    requires forall d {:trigger s.uploads[d]} :: d in s.uploads ==> s.uploads[d].job != j
    ensures Keeps(s.db, DoUploadCommit(s, doc).db, j)
  {
  }

  lemma ResetKeeps(db: Db, doc: DocId)
    ensures ResetDocument(db, doc).jobs == db.jobs
  {
  }

  lemma InsertKeeps(s: State, doc: DocId, stage: Stage, j: JobId)
    requires j < s.db.nextId
    ensures Keeps(s.db, InsertJob(s, doc, stage).db, j)
  {
  }

  lemma RequestBorn(cfg: Config, s: State, aux: Aux, request: Request, j: JobId)
    requires Bounded(s.db, aux) && Born(s, aux, j)
    ensures Born(OnRequest(cfg, s, request), AuxOnRequest(cfg, s, aux, request), j)
  {
    assert j < s.db.nextId;
    AuxGrows(cfg, s, aux, Http(request));
  }

  lemma WorkBorn(cfg: Config, s: State, aux: Aux, w: WorkerId, action: Action, j: JobId)
    requires Bounded(s.db, aux) && Born(s, aux, j)
    ensures Born(OnWork(cfg, s, w, action), AuxOnWork(s, aux, w, action), j)
  {
    AuxGrows(cfg, s, aux, Work(w, action));
    WorkUploads(cfg, s, w, action, OnWork(cfg, s, w, action));
  }

  lemma SweepKeeps(s: State, aux: Aux, p: nat, j: JobId)
    requires Born(s, aux, j)
    ensures Keeps(s.db, DoSweepStep(s, p).db, j) && Born(DoSweepStep(s, p), aux, j)
  {
  }

  /** One event never resurrects, rewinds or rewrites a finished job. */
  lemma DispatchKeeps(cfg: Config, s: State, aux: Aux, ev: Event, j: JobId)
    requires Named(s, aux) && AllStamped(s.db, s.now) && Born(s, aux, j)
    ensures Keeps(s.db, Dispatch(cfg, s, ev).db, j)
    ensures Born(Dispatch(cfg, s, ev), NextAux(cfg, s, aux, ev), j)
  {
    match ev
    case Http(request) =>
      RequestKeeps(cfg, s, aux, request, j);
      RequestBorn(cfg, s, aux, request, j);
    case Work(w, action) =>
      WorkKeeps(cfg, s, aux, w, action, j);
      WorkBorn(cfg, s, aux, w, action, j);
    case SweepStep(p) => SweepKeeps(s, aux, p, j);
    case _ =>
  }

  // ----- whole runs -----

  ghost predicate Sane(s: State, aux: Aux) {
    Named(s, aux) && AllStamped(s.db, s.now)
  }

  lemma {:induction false} RunSane(cfg: Config, evs: seq<Event>)
    ensures Sane(Run(cfg, INIT, evs), AuxOf(cfg, evs))
    decreases |evs|
  {
    RunNamed(cfg, evs);
    if evs != [] {
      var prefix := evs[..|evs| - 1];
      var s := Run(cfg, INIT, prefix);
      RunSane(cfg, prefix);
      LaterStamped(s.db, s.now, s.now + 1);
      OutsideNamed(s, Later(s), AuxOf(cfg, prefix));
      DispatchStamped(cfg, Later(s), AuxOf(cfg, prefix), evs[|evs| - 1]);
    }
  }

  lemma StepKeeps(cfg: Config, s: State, aux: Aux, ev: Event, j: JobId, s': State, aux': Aux)
    requires Sane(s, aux) && Born(s, aux, j)
    requires s' == Dispatch(cfg, s, ev) && aux' == NextAux(cfg, s, aux, ev)
    ensures Keeps(s.db, s'.db, j) && Born(s', aux', j)
  {
    DispatchKeeps(cfg, s, aux, ev, j);
  }

  lemma LaterSane(s: State, aux: Aux)
    requires Sane(s, aux)
    ensures Sane(Later(s), aux)
  {
    LaterStamped(s.db, s.now, s.now + 1);
    OutsideNamed(s, Later(s), aux);
  }

  /** The last event of a run, seen from a job that exists before it. */
  lemma LastKeeps(cfg: Config, evs: seq<Event>, ev: Event, j: JobId)
    requires Born(Run(cfg, INIT, evs), AuxOf(cfg, evs), j)
    ensures Run(cfg, INIT, evs + [ev]) == Apply(cfg, Run(cfg, INIT, evs), ev)
    ensures Keeps(Run(cfg, INIT, evs).db, Run(cfg, INIT, evs + [ev]).db, j)
    ensures Born(Run(cfg, INIT, evs + [ev]), AuxOf(cfg, evs + [ev]), j)
  {
    var s := Run(cfg, INIT, evs);
    RunSane(cfg, evs);
    LaterSane(s, AuxOf(cfg, evs));
    RunSnoc(cfg, INIT, evs, ev);
    AuxSnoc(cfg, evs, ev, s);
    StepKeeps(cfg, Later(s), AuxOf(cfg, evs), ev, j, Run(cfg, INIT, evs + [ev]), AuxOf(cfg, evs + [ev]));
  }

  lemma PresentIsBorn(cfg: Config, evs: seq<Event>, j: JobId)
    requires j in Run(cfg, INIT, evs).db.jobs
    ensures Born(Run(cfg, INIT, evs), AuxOf(cfg, evs), j)
  {
    RunNamed(cfg, evs);
    var s, aux := Run(cfg, INIT, evs), AuxOf(cfg, evs);
    assert JobNamed(s.db, aux, j);
    forall d | d in s.uploads
      ensures s.uploads[d].job != j
    {
      assert UploadNamed(s, aux, d);
    }
  }

  lemma {:induction false} RunKeeps(cfg: Config, evs: seq<Event>, more: seq<Event>, j: JobId)
    requires Born(Run(cfg, INIT, evs), AuxOf(cfg, evs), j)
    ensures Keeps(Run(cfg, INIT, evs).db, Run(cfg, INIT, evs + more).db, j)
    ensures Born(Run(cfg, INIT, evs + more), AuxOf(cfg, evs + more), j)
    decreases |more|
  {
    if more == [] {
      assert evs + more == evs;
    } else {
      var less, ev := more[..|more| - 1], more[|more| - 1];
      assert evs + more == (evs + less) + [ev];
      RunKeeps(cfg, evs, less, j);
      LastKeeps(cfg, evs + less, ev, j);
    }
  }

  /**
   * Zombie workers, duplicate deliveries, sweeps and reprocess calls never move a finished job:
   * at any later time its row is exactly the same or was deleted with its document.
   */
  lemma FinishedJobsAreFinal(cfg: Config, evs: seq<Event>, more: seq<Event>, j: JobId)
    requires j in Run(cfg, INIT, evs).db.jobs && Terminal(Run(cfg, INIT, evs).db.jobs[j])
    ensures j in Run(cfg, INIT, evs + more).db.jobs ==>
              Run(cfg, INIT, evs + more).db.jobs[j] == Run(cfg, INIT, evs).db.jobs[j]
  {
    PresentIsBorn(cfg, evs, j);
    RunKeeps(cfg, evs, more, j);
  }

  /** The start time is written once, when the job leaves the queue, and kept by every retry. */
  lemma StartTimeIsSetOnce(cfg: Config, evs: seq<Event>, more: seq<Event>, j: JobId)
    requires j in Run(cfg, INIT, evs).db.jobs && Run(cfg, INIT, evs).db.jobs[j].startedAt.Some?
    ensures Run(cfg, INIT, evs).db.jobs[j].status != Queued
    ensures j in Run(cfg, INIT, evs + more).db.jobs ==>
              Run(cfg, INIT, evs + more).db.jobs[j].startedAt == Run(cfg, INIT, evs).db.jobs[j].startedAt
  {
    PresentIsBorn(cfg, evs, j);
    RunKeeps(cfg, evs, more, j);
    RunSane(cfg, evs);
    assert Stamped(Run(cfg, INIT, evs).db, Run(cfg, INIT, evs).now, j);
  }

  // ----- completions -----

  /** The event marks job `j` done (and creates its successor, if the stage has one). */
  predicate Completes(s: State, ev: Event, j: JobId) {
    && ev.Work? && ev.action.Complete? && PcOf(s, ev.worker).Completing?
    && PcOf(s, ev.worker).task.job == j
    && CompleteOutcomeOf(s.db, j, NextStage(PcOf(s, ev.worker).task.stage)).Completed?
  }

  function Completions(cfg: Config, evs: seq<Event>, j: JobId): nat
    decreases |evs|
  {
    if evs == [] then 0
    else
      var prefix := evs[..|evs| - 1];
      Completions(cfg, prefix, j) + if Completes(Run(cfg, INIT, prefix), evs[|evs| - 1], j) then 1 else 0
  }

  lemma {:induction false} CompletedIsClosed(cfg: Config, evs: seq<Event>, j: JobId)
    ensures Completions(cfg, evs, j) <= 1
    ensures Completions(cfg, evs, j) == 1 ==> Born(Run(cfg, INIT, evs), AuxOf(cfg, evs), j)
    ensures Completions(cfg, evs, j) == 1 && j in Run(cfg, INIT, evs).db.jobs ==> Run(cfg, INIT, evs).db.jobs[j].status == Done
    decreases |evs|
  {
    if evs != [] {
      var prefix, ev := evs[..|evs| - 1], evs[|evs| - 1];
      assert evs == prefix + [ev];
      CompletedIsClosed(cfg, prefix, j);
      var s := Run(cfg, INIT, prefix);
      if Completes(s, ev, j) {
        PresentIsBorn(cfg, prefix, j);
        RunNamed(cfg, prefix);
        CompletingIsDone(cfg, s, AuxOf(cfg, prefix), ev, j, Run(cfg, INIT, evs));
      }
      if Completions(cfg, evs, j) == 1 { LastKeeps(cfg, prefix, ev, j); }
    }
  }

  lemma CompletingIsDone(cfg: Config, s: State, aux: Aux, ev: Event, j: JobId, s': State)
    requires Completes(s, ev, j) && s' == Apply(cfg, s, ev) && Named(s, aux)
    ensures j in s.db.jobs && s.db.jobs[j].status == Running
    ensures j in s'.db.jobs ==> s'.db.jobs[j].status == Done
  {
    var w, pc := ev.worker, PcOf(s, ev.worker);
    assert PcOf(Later(s), w) == pc;
    CompleteDb(Later(s), w, pc, s');
    assert JobNamed(s.db, aux, j);
    CompletesRow(s.db, pc.task, pc.result, s.now + 1, s'.db);
  }

  lemma CompletesRow(db: Db, task: Task, result: StageResult, now: Time, db': Db)
    requires CompleteOutcomeOf(db, task.job, NextStage(task.stage)).Completed?
    requires db' == CompleteStage(db, task.job, result, NextStage(task.stage), now)
    ensures task.job != db.nextId && task.job in db'.jobs ==> db'.jobs[task.job].status == Done
  {
  }

  /** Whatever is delivered twice or outlives its sweep, a job is completed at most once per run. */
  lemma JobsCompleteAtMostOnce(cfg: Config, evs: seq<Event>, j: JobId)
    ensures Completions(cfg, evs, j) <= 1
  {
    CompletedIsClosed(cfg, evs, j);
  }
}
