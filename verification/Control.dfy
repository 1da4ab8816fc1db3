// Control safety over whole runs: job chains, document status, timestamps.
module Control {
  import opened Types
  import opened Database
  import opened Pipeline
  import opened Chains
  import opened Moves
  import opened Naming

  /** Queued jobs never started, running ones did, terminal ones finished. */
  ghost predicate Stamped(db: Db, now: Time, j: JobId) {
    && j in db.jobs
    && db.jobs[j].createdAt <= now
    && (db.jobs[j].status == Queued ==> db.jobs[j].startedAt.None?)
    && (db.jobs[j].status == Running ==> db.jobs[j].startedAt.Some?)
    && (Terminal(db.jobs[j]) <==> db.jobs[j].finishedAt.Some?)
  }

  ghost predicate AllStamped(db: Db, now: Time) {
    forall j {:trigger Stamped(db, now, j)} :: j in db.jobs ==> Stamped(db, now, j)
  }

  ghost predicate Controlled(s: State, aux: Aux) {
    Named(s, aux) && Chained(s.db, aux.chains) && AllStamped(s.db, s.now)
  }

  // ----- chains -----

  lemma WorkChained(cfg: Config, s: State, aux: Aux, w: WorkerId, action: Action)
    requires Named(s, aux) && Chained(s.db, aux.chains)
    ensures Chained(OnWork(cfg, s, w, action).db, AuxOnWork(s, aux, w, action).chains)
  {
    var pc := PcOf(s, w);
    match action
    case Deliver(job, attempt) => DeliverChained(s, aux, w, pc, job, attempt, OnWork(cfg, s, w, action));
    case Commit => CommitChained(cfg, s, aux, w, pc, OnWork(cfg, s, w, action));
    case Settle => SettleChained(s, aux, w, pc, OnWork(cfg, s, w, action));
    case Complete => CompleteChained(s, aux, w, pc, OnWork(cfg, s, w, action));
    case _ => PlainDb(cfg, s, w, action, OnWork(cfg, s, w, action));
  }

  lemma DeliverChained(s: State, aux: Aux, w: WorkerId, pc: Pc, job: JobId, attempt: nat, s': State)
    requires Chained(s.db, aux.chains) && pc == PcOf(s, w) && s' == DoDeliver(s, w, job, attempt)
    ensures Chained(s'.db, aux.chains)
  {
    DeliverDb(s, w, pc, job, attempt, s');
    if job in s.tasks { StartKeeps(s.db, aux.chains, job, s.tasks[job], s.now); }
  }

  lemma CommitChained(cfg: Config, s: State, aux: Aux, w: WorkerId, pc: Pc, s': State)
    requires Chained(s.db, aux.chains) && pc == PcOf(s, w) && s' == DoCommit(cfg, s, w)
    ensures Chained(s'.db, aux.chains)
  {
    CommitDb(cfg, s, w, pc, s');
    if pc.Committing? { Reseat(s.db, CommittedDb(s.db, pc.task.doc, pc.effect), aux.chains); }
  }

  lemma SettleChained(s: State, aux: Aux, w: WorkerId, pc: Pc, s': State)
    requires Chained(s.db, aux.chains) && pc == PcOf(s, w) && s' == DoSettle(s, w)
    ensures Chained(s'.db, aux.chains)
  {
    SettleDb(s, w, pc, s');
    if pc.Failing? {
      FailKeeps(s.db, aux.chains, pc.task.job, pc.error, s.now);
    } else if pc.Retrying? {
      RetryKeeps(s.db, aux.chains, pc.task.job, pc.error, pc.task.attempt);
    }
  }

  lemma CompleteChained(s: State, aux: Aux, w: WorkerId, pc: Pc, s': State)
    requires Named(s, aux) && Chained(s.db, aux.chains) && pc == PcOf(s, w) && s' == DoComplete(s, w)
    ensures Chained(s'.db, AuxOnWork(s, aux, w, Complete).chains)
  {
    CompleteDb(s, w, pc, s');
    if pc.Completing? { TaskChained(s, aux, w, pc.task, pc.result); }
  }

  lemma TaskChained(s: State, aux: Aux, w: WorkerId, task: Task, result: StageResult)
    requires Named(s, aux) && Chained(s.db, aux.chains) && PcOf(s, w) == Completing(task, result)
    ensures Chained(CompleteStage(s.db, task.job, result, NextStage(task.stage), s.now),
                    AuxAfterComplete(s.db, aux, task).chains)
  {
    assert PcNamed(aux, PcOf(s, w));
    if task.job in s.db.jobs {
      assert JobNamed(s.db, aux, task.job);
      assert !JobNamed(s.db, aux, s.db.nextId);
      CompleteKeeps(s.db, aux.chains, task.job, result, s.now);
    }
  }

  lemma SweepChained(s: State, aux: Aux, p: nat)
    requires Chained(s.db, aux.chains)
    ensures Chained(DoSweepStep(s, p).db, aux.chains)
  {
    if p in s.sweeps && s.sweeps[p].todo != [] {
      var sweep := s.sweeps[p];
      var (id, job) := sweep.todo[0];
      if SweepFails(sweep, job) { FailKeeps(s.db, aux.chains, id, SweepError(sweep, job), s.now); }
    }
  }

  lemma RequestChained(cfg: Config, s: State, aux: Aux, request: Request)
    requires Named(s, aux) && Chained(s.db, aux.chains) && !IsReprocess(Http(request))
    ensures Chained(OnRequest(cfg, s, request).db, AuxOnRequest(cfg, s, aux, request).chains)
  {
    var s' := OnRequest(cfg, s, request);
    match request
    case UploadNew(user, content, ext) =>
      UploadNewDb(cfg, s, user, content, ext, s');
      Reseat(s.db, s'.db, aux.chains);
    case UploadCommit(doc) => if doc in s.uploads { UploadChained(s, aux, doc, s'); }
    case Delete(doc) => DeleteKeeps(s.db, aux.chains, doc);
    case _ => PlainRequestDb(cfg, s, request, s');
  }

  lemma UploadChained(s: State, aux: Aux, doc: DocId, s': State)
    requires Named(s, aux) && Chained(s.db, aux.chains) && doc in s.uploads && s' == DoUploadCommit(s, doc)
    ensures Chained(s'.db, aux.chains[doc := [s.uploads[doc].job]])
  {
    assert UploadNamed(s, aux, doc);
    UploadCommitDb(s, doc, s');
    var up := s.uploads[doc];
    CreateKeeps(s.db, aux.chains, doc, up.document, up.job, QueuedJob(doc, Extract, up.createdAt));
  }

  lemma DispatchChained(cfg: Config, s: State, aux: Aux, ev: Event)
    requires Named(s, aux) && Chained(s.db, aux.chains) && !IsReprocess(ev)
    ensures Chained(Dispatch(cfg, s, ev).db, NextAux(cfg, s, aux, ev).chains)
  {
    match ev
    case Http(request) => RequestChained(cfg, s, aux, request);
    case Work(w, action) => WorkChained(cfg, s, aux, w, action);
    case SweepStep(p) => SweepChained(s, aux, p);
    case _ => OutsideDb(cfg, s, ev, Dispatch(cfg, s, ev));
  }

  lemma OutsideDb(cfg: Config, s: State, ev: Event, s': State)
    requires (ev.Tick? || ev.Arq? || ev.SweepBegin?) && s' == Dispatch(cfg, s, ev)
    ensures s'.db == s.db
  {
  }

  // ----- timestamps -----

  /** Every job row of the new tables is an old row, a stamped rewrite of it, or a fresh queued job. */
  lemma DbStamped(db: Db, db': Db, now: Time, now': Time)
    requires AllStamped(db, now) && now <= now'
    requires forall j {:trigger db'.jobs[j]} :: j in db'.jobs ==>
               (j in db.jobs && db'.jobs[j] == db.jobs[j]) || Stamped(db', now', j)
    ensures AllStamped(db', now')
  {
    forall j | j in db'.jobs
      ensures Stamped(db', now', j)
    {
      assert j in db.jobs ==> Stamped(db, now, j);
    }
  }

  lemma FailStamped(db: Db, id: JobId, error: string, now: Time)
    requires AllStamped(db, now)
    ensures AllStamped(FailStage(db, id, error, now), now)
  {
    if id in db.jobs { assert Stamped(db, now, id); }
    DbStamped(db, FailStage(db, id, error, now), now, now);
  }

  lemma StartStamped(db: Db, id: JobId, stage: Stage, now: Time)
    requires AllStamped(db, now)
    ensures AllStamped(StartTx(db, id, stage, now), now)
  {
    match StartOutcomeOf(db, id, stage)
    case Started(_) =>
      assert Stamped(db, now, id);
      DbStamped(db, StartedDb(db, id, now), now, now);
    case StartDocMissing => FailStamped(db, id, "document missing", now);
    case StartInvalid => FailStamped(db, id, "invalid transition", now);
    case _ =>
  }

  lemma RetryStamped(db: Db, id: JobId, error: string, attempt: nat, now: Time)
    requires AllStamped(db, now)
    ensures AllStamped(RecordAttempt(db, id, error, attempt), now)
  {
    if id in db.jobs { assert Stamped(db, now, id); }
    DbStamped(db, RecordAttempt(db, id, error, attempt), now, now);
  }

  lemma CompleteStamped(db: Db, id: JobId, result: StageResult, next: Option<Stage>, now: Time)
    requires AllStamped(db, now)
    ensures AllStamped(CompleteStage(db, id, result, next, now), now)
  {
    if id in db.jobs { assert Stamped(db, now, id); }
    DbStamped(db, CompleteStage(db, id, result, next, now), now, now);
  }

  lemma WorkStamped(cfg: Config, s: State, w: WorkerId, action: Action)
    requires AllStamped(s.db, s.now)
    ensures AllStamped(OnWork(cfg, s, w, action).db, s.now)
  {
    var pc, s' := PcOf(s, w), OnWork(cfg, s, w, action);
    match action
    case Deliver(job, attempt) =>
      DeliverDb(s, w, pc, job, attempt, s');
      if job in s.tasks { StartStamped(s.db, job, s.tasks[job], s.now); }
    case Commit =>
      CommitDb(cfg, s, w, pc, s');
      DbStamped(s.db, s'.db, s.now, s.now);
    case Settle => SettleStamped(s, w, pc, s');
    case Complete =>
      CompleteDb(s, w, pc, s');
      if pc.Completing? { CompleteStamped(s.db, pc.task.job, pc.result, NextStage(pc.task.stage), s.now); }
    case _ => PlainDb(cfg, s, w, action, s');
  }

  lemma SettleStamped(s: State, w: WorkerId, pc: Pc, s': State)
    requires AllStamped(s.db, s.now) && pc == PcOf(s, w) && s' == DoSettle(s, w)
    ensures AllStamped(s'.db, s.now)
  {
    SettleDb(s, w, pc, s');
    if pc.Failing? {
      FailStamped(s.db, pc.task.job, pc.error, s.now);
    } else if pc.Retrying? {
      RetryStamped(s.db, pc.task.job, pc.error, pc.task.attempt, s.now);
    }
  }

  lemma RequestStamped(cfg: Config, s: State, aux: Aux, request: Request)
    requires AllStamped(s.db, s.now) && Named(s, aux)
    ensures AllStamped(OnRequest(cfg, s, request).db, s.now)
  {
    var s' := OnRequest(cfg, s, request);
    match request
    case UploadNew(user, content, ext) =>
      UploadNewDb(cfg, s, user, content, ext, s');
      DbStamped(s.db, s'.db, s.now, s.now);
    case UploadCommit(doc) => UploadStamped(s, aux, doc, s');
    case Delete(doc) => DbStamped(s.db, DeleteDocument(s.db, doc), s.now, s.now);
    case ReprocessReset(doc) => DbStamped(s.db, ResetDocument(s.db, doc), s.now, s.now);
    case ReprocessRestart(doc, stage) => InsertStamped(s, doc, stage, InsertJob(s, doc, stage));
    case ReprocessExtract(doc) => InsertStamped(s, doc, Extract, InsertJob(s, doc, Extract));
    case _ => PlainRequestDb(cfg, s, request, s');
  }

  lemma UploadStamped(s: State, aux: Aux, doc: DocId, s': State)
    requires AllStamped(s.db, s.now) && Named(s, aux) && s' == DoUploadCommit(s, doc)
    ensures AllStamped(s'.db, s.now)
  {
    UploadCommitDb(s, doc, s');
    if doc in s.uploads { assert UploadNamed(s, aux, doc); }
    DbStamped(s.db, s'.db, s.now, s.now);
  }

  lemma InsertStamped(s: State, doc: DocId, stage: Stage, s': State)
    requires AllStamped(s.db, s.now) && s' == InsertJob(s, doc, stage)
    ensures AllStamped(s'.db, s.now)
  {
    DbStamped(s.db, s'.db, s.now, s.now);
  }

  lemma SweepStamped(s: State, p: nat)
    requires AllStamped(s.db, s.now)
    ensures AllStamped(DoSweepStep(s, p).db, s.now)
  {
    if p in s.sweeps && s.sweeps[p].todo != [] {
      var sweep := s.sweeps[p];
      FailStamped(s.db, sweep.todo[0].0, SweepError(sweep, sweep.todo[0].1), s.now);
    }
  }

  lemma LaterStamped(db: Db, now: Time, now': Time)
    requires AllStamped(db, now) && now <= now'
    ensures AllStamped(db, now')
  {
    DbStamped(db, db, now, now');
  }

  lemma DispatchStamped(cfg: Config, s: State, aux: Aux, ev: Event)
    requires AllStamped(s.db, s.now) && Named(s, aux)
    ensures AllStamped(Dispatch(cfg, s, ev).db, Dispatch(cfg, s, ev).now)
  {
    match ev
    case Http(request) => RequestStamped(cfg, s, aux, request);
    case Work(w, action) => WorkStamped(cfg, s, w, action);
    case SweepStep(p) => SweepStamped(s, p);
    case Tick(elapsed) => LaterStamped(s.db, s.now, s.now + elapsed);
    case _ =>
  }

  // ----- whole runs -----

  predicate NoReprocess(evs: seq<Event>) {
    forall i :: 0 <= i < |evs| ==> !IsReprocess(evs[i])
  }

  lemma TickControlled(s: State, aux: Aux)
    requires Controlled(s, aux)
    ensures Controlled(Later(s), aux)
  {
    OutsideNamed(s, Later(s), aux);
    LaterStamped(s.db, s.now, s.now + 1);
  }

  lemma ApplyControlled(cfg: Config, s: State, aux: Aux, ev: Event)
    requires Controlled(s, aux) && !IsReprocess(ev)
    ensures Controlled(Apply(cfg, s, ev), NextAux(cfg, Later(s), aux, ev))
  {
    var s1 := Later(s);
    TickControlled(s, aux);
    DispatchNamed(cfg, s1, aux, ev);
    DispatchChained(cfg, s1, aux, ev);
    DispatchStamped(cfg, s1, aux, ev);
  }

  lemma InitControlled()
    ensures Controlled(INIT, NO_AUX)
  {
  }

  lemma {:induction false} RunControlled(cfg: Config, evs: seq<Event>)
    requires NoReprocess(evs)
    ensures Controlled(Run(cfg, INIT, evs), AuxOf(cfg, evs))
    decreases |evs|
  {
    if evs == [] {
      InitControlled();
    } else {
      var prefix := evs[..|evs| - 1];
      RunControlled(cfg, prefix);
      ApplyControlled(cfg, Run(cfg, INIT, prefix), AuxOf(cfg, prefix), evs[|evs| - 1]);
    }
  }
}
