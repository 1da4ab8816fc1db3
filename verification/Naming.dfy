// Identity invariant of the pipeline. A directory remembers what every identifier was created
// for; tables, uploads, the queue, workers and sweeps all agree with it, whatever was deleted.
module Naming {
  import opened Types
  import opened Database
  import opened Pipeline
  import opened Chains
  import opened Moves

  /** Auxiliary history of a run: the chains and what each job and document was created for. */
  datatype Aux = Aux(chains: ChainMap, jobs: map<JobId, (DocId, Stage)>, docs: map<DocId, SourceKey>)

  const NO_AUX := Aux(map[], map[], map[])

  function SourceOf(doc: Document): SourceKey {
    SourceKey(doc.user, doc.contentHash, doc.ext)
  }

  function AuxOnRequest(cfg: Config, s: State, aux: Aux, request: Request): Aux {
    match request
    case UploadNew(user, content, ext) =>
      if Uploaded(s.db, user, cfg.hash(content)) then aux
      else aux.(jobs := aux.jobs[s.db.nextId + 1 := (s.db.nextId, Extract)],
                docs := aux.docs[s.db.nextId := SourceKey(user, cfg.hash(content), ext)])
    case UploadCommit(doc) =>
      if doc in s.uploads then aux.(chains := aux.chains[doc := [s.uploads[doc].job]]) else aux
    case Delete(doc) => aux.(chains := aux.chains - {doc})
    case ReprocessRestart(doc, stage) => if doc in s.db.docs then aux.(jobs := aux.jobs[s.db.nextId := (doc, stage)]) else aux
    case ReprocessExtract(doc) => if doc in s.db.docs then aux.(jobs := aux.jobs[s.db.nextId := (doc, Extract)]) else aux
    case _ => aux
  }

  function AuxOnWork(s: State, aux: Aux, w: WorkerId, action: Action): Aux {
    if action.Complete? && PcOf(s, w).Completing? then AuxAfterComplete(s.db, aux, PcOf(s, w).task) else aux
  }

  function NextAux(cfg: Config, s: State, aux: Aux, ev: Event): Aux {
    match ev
    case Http(request) => AuxOnRequest(cfg, s, aux, request)
    case Work(w, action) => AuxOnWork(s, aux, w, action)
    case _ => aux
  }

  function AuxAfterComplete(db: Db, aux: Aux, task: Task): Aux {
    var next := NextStage(task.stage);
    var aux' := aux.(chains := ChainAfterComplete(db, aux.chains, task.job, next));
    match CompleteOutcomeOf(db, task.job, next)
    case Completed(Some(n)) => aux'.(jobs := aux.jobs[n := (db.jobs[task.job].document, next.value)])
    case _ => aux'
  }

  ghost predicate Bounded(db: Db, aux: Aux) {
    && (forall j {:trigger j in aux.jobs} :: j in aux.jobs ==> j < db.nextId)
    && (forall d {:trigger d in aux.docs} :: d in aux.docs ==> d < db.nextId)
  }

  ghost predicate JobNamed(db: Db, aux: Aux, j: JobId) {
    && j in db.jobs && j in aux.jobs && aux.jobs[j] == (db.jobs[j].document, db.jobs[j].stage)
    && db.jobs[j].document in db.docs
  }

  ghost predicate DocNamed(db: Db, aux: Aux, d: DocId) {
    d in db.docs && d in aux.docs && aux.docs[d] == SourceOf(db.docs[d])
  }

  ghost predicate NamedDb(db: Db, aux: Aux) {
    && Bounded(db, aux)
    && (forall j {:trigger JobNamed(db, aux, j)} :: j in db.jobs ==> JobNamed(db, aux, j))
    && (forall d {:trigger DocNamed(db, aux, d)} :: d in db.docs ==> DocNamed(db, aux, d))
  }

  ghost predicate UploadNamed(s: State, aux: Aux, d: DocId) {
    && d in s.uploads && d in aux.docs && aux.docs[d] == SourceOf(s.uploads[d].document)
    && d !in s.db.docs && s.uploads[d].job !in s.db.jobs
    && s.uploads[d].job in aux.jobs && aux.jobs[s.uploads[d].job] == (d, Extract)
    && s.uploads[d].createdAt <= s.now
    && s.uploads[d].document.status == Pending && s.uploads[d].document.parsedKey.None?
    && s.uploads[d].document.pageCount.None?
  }

  ghost predicate NamedUploads(s: State, aux: Aux) {
    forall d {:trigger UploadNamed(s, aux, d)} :: d in s.uploads ==> UploadNamed(s, aux, d)
  }

  ghost predicate TaskNamed(aux: Aux, task: Task) {
    task.job in aux.jobs && aux.jobs[task.job] == (task.doc, task.stage) && task.doc in aux.docs
  }

  ghost predicate PcNamed(aux: Aux, pc: Pc) {
    match pc
    case Idle => true
    case Enqueueing(next, stage) => next in aux.jobs && aux.jobs[next].1 == stage
    case _ => TaskNamed(aux, pc.task)
  }

  ghost predicate NamedWorkers(s: State, aux: Aux) {
    forall w {:trigger PcOf(s, w)} :: PcNamed(aux, PcOf(s, w))
  }

  ghost predicate Queued1(s: State, aux: Aux, j: JobId) {
    j in s.tasks && j in aux.jobs && aux.jobs[j].1 == s.tasks[j]
  }

  ghost predicate NamedQueue(s: State, aux: Aux) {
    forall j {:trigger Queued1(s, aux, j)} :: j in s.tasks || Recorded(s, j) ==> Queued1(s, aux, j)
  }

  ghost predicate SweepNamed(aux: Aux, sweep: Sweep) {
    forall i :: 0 <= i < |sweep.todo| ==>
      sweep.todo[i].0 in aux.jobs && aux.jobs[sweep.todo[i].0] == (sweep.todo[i].1.document, sweep.todo[i].1.stage)
  }

  ghost predicate NamedSweeps(s: State, aux: Aux) {
    forall p {:trigger s.sweeps[p]} :: p in s.sweeps ==> SweepNamed(aux, s.sweeps[p])
  }

  ghost predicate Named(s: State, aux: Aux) {
    && NamedDb(s.db, aux) && NamedUploads(s, aux) && NamedWorkers(s, aux) && NamedQueue(s, aux) && NamedSweeps(s, aux)
  }

  // ----- the directory only grows -----

  ghost predicate Extends(aux: Aux, aux': Aux) {
    && (forall j {:trigger j in aux.jobs} :: j in aux.jobs ==> j in aux'.jobs && aux'.jobs[j] == aux.jobs[j])
    && (forall d {:trigger d in aux.docs} :: d in aux.docs ==> d in aux'.docs && aux'.docs[d] == aux.docs[d])
  }

  lemma AuxGrows(cfg: Config, s: State, aux: Aux, ev: Event)
    requires Bounded(s.db, aux)
    ensures Extends(aux, NextAux(cfg, s, aux, ev))
  {
  }

  // ----- tables -----

  /** Transactions that neither create nor delete rows nor change what a row is for. */
  ghost predicate SameRows(db: Db, db': Db) {
    && db'.nextId == db.nextId && db'.jobs.Keys == db.jobs.Keys && db'.docs.Keys == db.docs.Keys
    && (forall j {:trigger db'.jobs[j]} :: j in db.jobs ==> db'.jobs[j].document == db.jobs[j].document && db'.jobs[j].stage == db.jobs[j].stage)
    && (forall d {:trigger db'.docs[d]} :: d in db.docs ==> SourceOf(db'.docs[d]) == SourceOf(db.docs[d]))
  }

  lemma SameRowsNamed(db: Db, db': Db, aux: Aux)
    requires NamedDb(db, aux) && SameRows(db, db')
    ensures NamedDb(db', aux)
  {
    forall j | j in db'.jobs
      ensures JobNamed(db', aux, j)
    {
      assert JobNamed(db, aux, j);
    }
    forall d | d in db'.docs
      ensures DocNamed(db', aux, d)
    {
      assert DocNamed(db, aux, d);
    }
  }

  lemma FailSameRows(db: Db, id: JobId, error: string, now: Time)
    ensures SameRows(db, FailStage(db, id, error, now))
  {
  }

  lemma StartSameRows(db: Db, id: JobId, stage: Stage, now: Time)
    ensures SameRows(db, StartTx(db, id, stage, now))
  {
    match StartOutcomeOf(db, id, stage)
    case Started(_) => StartedSameRows(db, id, now, StartedDb(db, id, now));
    case StartDocMissing => FailSameRows(db, id, "document missing", now);
    case StartInvalid => FailSameRows(db, id, "invalid transition", now);
    case _ =>
  }

  lemma StartedSameRows(db: Db, id: JobId, now: Time, db': Db)
    requires id in db.jobs && db.jobs[id].document in db.docs && db' == StartedDb(db, id, now)
    ensures SameRows(db, db')
  {
  }

  lemma RetrySameRows(db: Db, id: JobId, error: string, attempt: nat)
    ensures SameRows(db, RecordAttempt(db, id, error, attempt))
  {
  }

  lemma CompleteNamed(db: Db, aux: Aux, task: Task, result: StageResult, now: Time)
    requires NamedDb(db, aux) && TaskNamed(aux, task)
    ensures NamedDb(CompleteStage(db, task.job, result, NextStage(task.stage), now), AuxAfterComplete(db, aux, task))
  {
    var db' := CompleteStage(db, task.job, result, NextStage(task.stage), now);
    var aux' := AuxAfterComplete(db, aux, task);
    forall j | j in db'.jobs
      ensures JobNamed(db', aux', j)
    {
      assert j in db.jobs ==> JobNamed(db, aux, j);
    }
    forall d | d in db'.docs
      ensures DocNamed(db', aux', d)
    {
      assert DocNamed(db, aux, d);
    }
  }

  lemma DeliverSameRows(s: State, w: WorkerId, job: JobId, attempt: nat)
    ensures SameRows(s.db, DoDeliver(s, w, job, attempt).db)
  {
    if job in s.tasks { StartSameRows(s.db, job, s.tasks[job], s.now); }
  }

  lemma SettleSameRows(s: State, w: WorkerId)
    ensures SameRows(s.db, DoSettle(s, w).db)
  {
    var pc := PcOf(s, w);
    SettleDb(s, w, pc, DoSettle(s, w));
    if pc.Failing? {
      FailSameRows(s.db, pc.task.job, pc.error, s.now);
    } else if pc.Retrying? {
      RetrySameRows(s.db, pc.task.job, pc.error, pc.task.attempt);
    }
  }

  lemma SweepSameRows(s: State, p: nat)
    ensures SameRows(s.db, DoSweepStep(s, p).db)
  {
    if p in s.sweeps && s.sweeps[p].todo != [] {
      var sweep := s.sweeps[p];
      FailSameRows(s.db, sweep.todo[0].0, SweepError(sweep, sweep.todo[0].1), s.now);
    }
  }

  lemma EffectSameRows(db: Db, doc: DocId, effect: Effect)
    ensures SameRows(db, CommittedDb(db, doc, effect))
  {
  }

  // ----- every event keeps the names -----

  lemma NamedSame(s: State, s': State, aux: Aux)
    requires Named(s, aux) && SameRows(s.db, s'.db) && s.now <= s'.now
    requires forall d {:trigger s'.uploads[d]} :: d in s'.uploads ==> d in s.uploads && s'.uploads[d] == s.uploads[d]
    requires NamedWorkers(s', aux) && NamedQueue(s', aux) && NamedSweeps(s', aux)
    ensures Named(s', aux)
  {
    SameRowsNamed(s.db, s'.db, aux);
    forall d | d in s'.uploads
      ensures UploadNamed(s', aux, d)
    {
      assert UploadNamed(s, aux, d);
    }
  }

  lemma EnqueueNamed(s: State, aux: Aux, job: JobId, stage: Stage)
    requires NamedQueue(s, aux) && job in aux.jobs && aux.jobs[job].1 == stage
    ensures NamedQueue(EnqueueJob(s, job, stage), aux)
  {
    EnqueueQueue(s, job, stage, EnqueueJob(s, job, stage));
    OneMoreQueued(s, aux, job, stage, EnqueueJob(s, job, stage));
  }

  lemma OneMoreQueued(s: State, aux: Aux, job: JobId, stage: Stage, s': State)
    requires NamedQueue(s, aux) && job in aux.jobs && aux.jobs[job].1 == stage
    requires s'.results == s.results
    requires (s'.queue == s.queue && s'.tasks == s.tasks) || (s'.queue == s.queue + {job} && s'.tasks == s.tasks[job := stage])
    ensures NamedQueue(s', aux)
  {
    forall j | j in s'.tasks || Recorded(s', j)
      ensures Queued1(s', aux, j)
    {
      assert j != job ==> Queued1(s, aux, j);
      assert Recorded(s, job) ==> Queued1(s, aux, job);
    }
  }

  lemma ComputedNamed(cfg: Config, s: State, task: Task, cached: bool, aux: Aux)
    requires TaskNamed(aux, task)
    ensures PcNamed(aux, Computed(cfg, s, task, cached))
    ensures !Computed(cfg, s, task, cached).Enqueueing?
  {
  }

  /** Workers, queue and sweeps untouched or already shown to be named. */
  lemma SameOthers(s: State, s': State, aux: Aux)
    requires Named(s, aux) && SameRows(s.db, s'.db) && s.now <= s'.now
    requires s'.uploads == s.uploads && s'.tasks == s.tasks && s'.sweeps == s.sweeps
    requires s'.queue <= s.queue + s.results.Keys && s'.results.Keys <= s.queue + s.results.Keys
    requires forall v {:trigger PcOf(s', v)} :: PcNamed(aux, PcOf(s', v))
    ensures Named(s', aux)
  {
    forall j | j in s'.tasks || Recorded(s', j)
      ensures Queued1(s', aux, j)
    {
      assert Queued1(s, aux, j);
    }
    NamedSame(s, s', aux);
  }

  lemma MoveNamed(s: State, s': State, aux: Aux, w: WorkerId, pc: Pc)
    requires Named(s, aux) && SameRows(s.db, s'.db) && s.now <= s'.now && PcNamed(aux, pc)
    requires s'.uploads == s.uploads && s'.tasks == s.tasks && s'.sweeps == s.sweeps
    requires s'.queue == s.queue && s'.results == s.results
    requires s'.workers == s.workers[w := pc]
    ensures Named(s', aux)
  {
    forall v
      ensures PcNamed(aux, PcOf(s', v))
    {
      assert PcNamed(aux, PcOf(s, v));
    }
    SameOthers(s, s', aux);
  }

  lemma CompleteGrows(db: Db, aux: Aux, task: Task)
    requires NamedDb(db, aux) && TaskNamed(aux, task)
    ensures Extends(aux, AuxAfterComplete(db, aux, task))
    ensures CompleteOutcomeOf(db, task.job, NextStage(task.stage)).Completed? ==> JobNamed(db, aux, task.job)
    ensures AuxAfterComplete(db, aux, task).docs == aux.docs
  {
    if task.job in db.jobs { assert JobNamed(db, aux, task.job); }
  }

  /** Everything but the tables and one worker is as before; the directory may have grown. */
  lemma Regrow(s: State, s': State, aux: Aux, aux': Aux, w: WorkerId)
    requires Named(s, aux) && Extends(aux, aux') && NamedDb(s'.db, aux') && s.now <= s'.now
    requires s'.uploads == s.uploads && s'.tasks == s.tasks && s'.sweeps == s.sweeps
    requires s'.queue == s.queue && s'.results == s.results
    requires s'.db.docs.Keys == s.db.docs.Keys
    requires forall j {:trigger j in s'.db.jobs} :: j in s'.db.jobs ==> j in s.db.jobs || j !in aux.jobs
    requires PcNamed(aux', PcOf(s', w))
    requires forall v {:trigger PcOf(s', v)} :: v != w ==> PcOf(s', v) == PcOf(s, v)
    ensures Named(s', aux')
  {
    forall v
      ensures PcNamed(aux', PcOf(s', v))
    {
      assert v != w ==> PcNamed(aux, PcOf(s, v));
    }
    forall j | j in s'.tasks || Recorded(s', j)
      ensures Queued1(s', aux', j)
    {
      assert Queued1(s, aux, j);
    }
    forall d | d in s'.uploads
      ensures UploadNamed(s', aux', d)
    {
      assert UploadNamed(s, aux, d);
    }
    forall p | p in s'.sweeps
      ensures SweepNamed(aux', s'.sweeps[p])
    {
      assert SweepNamed(aux, s.sweeps[p]);
    }
  }

  lemma DeliverNamed(s: State, aux: Aux, w: WorkerId, job: JobId, attempt: nat)
    requires Named(s, aux) && job in s.tasks
    ensures PcNamed(aux, StartedPc(StartOutcomeOf(s.db, job, s.tasks[job]), job, s.tasks[job], attempt))
  {
    assert Queued1(s, aux, job);
    if StartOutcomeOf(s.db, job, s.tasks[job]).Started? {
      assert JobNamed(s.db, aux, job) && DocNamed(s.db, aux, s.db.jobs[job].document);
    }
  }

  lemma CompletedPcNamed(s: State, aux: Aux, task: Task)
    requires NamedDb(s.db, aux) && TaskNamed(aux, task)
    ensures var next := NextStage(task.stage);
            PcNamed(AuxAfterComplete(s.db, aux, task), CompletedPc(CompleteOutcomeOf(s.db, task.job, next), task))
  {
    CompleteGrows(s.db, aux, task);
  }

  lemma CompleteFrame(db: Db, aux: Aux, task: Task, result: StageResult, now: Time)
    requires Bounded(db, aux)
    ensures var db' := CompleteStage(db, task.job, result, NextStage(task.stage), now);
            db'.docs.Keys == db.docs.Keys && forall j :: j in db'.jobs ==> j in db.jobs || j !in aux.jobs
  {
  }

  lemma CompleteNamedState(s: State, aux: Aux, w: WorkerId, task: Task, result: StageResult)
    requires Named(s, aux) && PcOf(s, w) == Completing(task, result)
    ensures Named(DoComplete(s, w), AuxAfterComplete(s.db, aux, task))
  {
    assert PcNamed(aux, PcOf(s, w));
    CompleteNamed(s.db, aux, task, result, s.now);
    CompleteGrows(s.db, aux, task);
    CompletedPcNamed(s, aux, task);
    CompleteFrame(s.db, aux, task, result, s.now);
    Regrow(s, DoComplete(s, w), aux, AuxAfterComplete(s.db, aux, task), w);
  }

  lemma DeliverStepNamed(s: State, aux: Aux, w: WorkerId, job: JobId, attempt: nat)
    requires Named(s, aux)
    ensures Named(DoDeliver(s, w, job, attempt), aux)
  {
    if PcOf(s, w) == Idle && job in s.tasks {
      DeliverNamed(s, aux, w, job, attempt);
      StartSameRows(s.db, job, s.tasks[job], s.now);
      MoveNamed(s, DoDeliver(s, w, job, attempt), aux, w,
                StartedPc(StartOutcomeOf(s.db, job, s.tasks[job]), job, s.tasks[job], attempt));
    }
  }

  lemma ComputeStepNamed(cfg: Config, s: State, aux: Aux, w: WorkerId, cached: bool)
    requires Named(s, aux)
    ensures Named(DoCompute(cfg, s, w, cached), aux)
  {
    var pc := PcOf(s, w);
    assert PcNamed(aux, pc);
    if pc.InStage? {
      ComputedNamed(cfg, s, pc.task, cached, aux);
      MoveNamed(s, DoCompute(cfg, s, w, cached), aux, w, Computed(cfg, s, pc.task, cached));
    }
  }

  lemma CommitStepNamed(cfg: Config, s: State, aux: Aux, w: WorkerId)
    requires Named(s, aux)
    ensures Named(DoCommit(cfg, s, w), aux)
  {
    var pc := PcOf(s, w);
    assert PcNamed(aux, pc);
    if pc.Committing? {
      EffectSameRows(s.db, pc.task.doc, pc.effect);
      MoveNamed(s, DoCommit(cfg, s, w), aux, w, CommittedPc(cfg, s.db, pc.task, pc.effect, pc.result));
    }
  }

  lemma SettleStepNamed(s: State, aux: Aux, w: WorkerId)
    requires Named(s, aux)
    ensures Named(DoSettle(s, w), aux)
  {
    if PcOf(s, w).Failing? || PcOf(s, w).Retrying? {
      SettleSameRows(s, w);
      MoveNamed(s, DoSettle(s, w), aux, w, Idle);
    }
  }

  lemma MoveOnlyNamed(cfg: Config, s: State, aux: Aux, w: WorkerId, action: Action)
    requires Named(s, aux) && (action.Store? || action.Raise? || action.Crash?)
    ensures Named(OnWork(cfg, s, w, action), aux)
  {
    var s', pc := OnWork(cfg, s, w, action), PcOf(s, w);
    match action
    case Store => StoreNamed(s, aux, w, pc, s');
    case Raise(error, permanent) => RaiseNamed(cfg, s, aux, w, pc, error, permanent, s');
    case Crash => MoveNamed(s, s', aux, w, Idle);
  }

  lemma StoreNamed(s: State, aux: Aux, w: WorkerId, pc: Pc, s': State)
    requires Named(s, aux) && pc == PcOf(s, w) && s' == DoStore(s, w)
    ensures Named(s', aux)
  {
    assert PcNamed(aux, pc);
    if pc.Storing? { MoveNamed(s, s', aux, w, Committing(pc.task, pc.effect, pc.result)); }
  }

  lemma RaiseNamed(cfg: Config, s: State, aux: Aux, w: WorkerId, pc: Pc, error: string, permanent: bool, s': State)
    requires Named(s, aux) && pc == PcOf(s, w) && s' == DoRaise(cfg, s, w, error, permanent)
    ensures Named(s', aux)
  {
    assert PcNamed(aux, pc);
    if pc.InStage? || pc.Storing? || pc.Committing? { MoveNamed(s, s', aux, w, Raised(cfg, pc.task, error, permanent)); }
  }

  lemma WorkNamed(cfg: Config, s: State, aux: Aux, w: WorkerId, action: Action)
    requires Named(s, aux)
    ensures Named(OnWork(cfg, s, w, action), AuxOnWork(s, aux, w, action))
  {
    match action
    case Deliver(job, attempt) => DeliverStepNamed(s, aux, w, job, attempt);
    case Compute(cached) => ComputeStepNamed(cfg, s, aux, w, cached);
    case Commit => CommitStepNamed(cfg, s, aux, w);
    case Settle => SettleStepNamed(s, aux, w);
    case Complete => if PcOf(s, w).Completing? { CompleteNamedState(s, aux, w, PcOf(s, w).task, PcOf(s, w).result); }
    case Enqueue => if PcOf(s, w).Enqueueing? { EnqueueStepNamed(s, aux, w); }
    case _ => MoveOnlyNamed(cfg, s, aux, w, action);
  }

  lemma EnqueueStepNamed(s: State, aux: Aux, w: WorkerId)
    requires Named(s, aux) && PcOf(s, w).Enqueueing?
    ensures Named(DoEnqueue(s, w), aux)
  {
    var pc := PcOf(s, w);
    assert PcNamed(aux, pc);
    var s1 := EnqueueJob(s, pc.next, pc.nextStage);
    EnqueueNamedState(s, aux, pc.next, pc.nextStage);
    MoveNamed(s1, DoEnqueue(s, w), aux, w, Idle);
  }

  lemma EnqueueNamedState(s: State, aux: Aux, job: JobId, stage: Stage)
    requires Named(s, aux) && job in aux.jobs && aux.jobs[job].1 == stage
    ensures Named(EnqueueJob(s, job, stage), aux)
  {
    EnqueueNamed(s, aux, job, stage);
    EnqueueLeaves(s, job, stage, EnqueueJob(s, job, stage));
    QueueNamed(s, EnqueueJob(s, job, stage), aux);
  }

  /** Only ARQ's side changed. */
  lemma QueueNamed(s: State, s': State, aux: Aux)
    requires Named(s, aux) && NamedQueue(s', aux)
    requires s'.db == s.db && s'.uploads == s.uploads && s'.workers == s.workers && s'.sweeps == s.sweeps && s'.now == s.now
    ensures Named(s', aux)
  {
    forall v
      ensures PcNamed(aux, PcOf(s', v))
    {
      assert PcNamed(aux, PcOf(s, v));
    }
    NamedSame(s, s', aux);
  }

  lemma ArqNamed(cfg: Config, s: State, aux: Aux, op: ArqOp)
    requires Named(s, aux)
    ensures Named(OnArq(cfg, s, op), aux)
  {
    var s' := OnArq(cfg, s, op);
    forall v
      ensures PcNamed(aux, PcOf(s', v))
    {
      assert PcNamed(aux, PcOf(s, v));
    }
    SameOthers(s, s', aux);
  }

  lemma SweepBeginNamed(s: State, aux: Aux, p: nat, stuck: seq<JobId>)
    requires Named(s, aux)
    ensures Named(DoSweepBegin(s, p, stuck), aux)
  {
    var s' := DoSweepBegin(s, p, stuck);
    if IsSnapshot(s.db, s.now, stuck) {
      var todo := s'.sweeps[p].todo;
      forall i | 0 <= i < |todo|
        ensures todo[i].0 in aux.jobs && aux.jobs[todo[i].0] == (todo[i].1.document, todo[i].1.stage)
      {
        assert JobNamed(s.db, aux, stuck[i]);
      }
      SweepsNamed(s, s', aux);
    }
  }

  /** Only the sweep records changed. */
  lemma SweepsNamed(s: State, s': State, aux: Aux)
    requires Named(s, aux) && s' == s.(sweeps := s'.sweeps) && NamedSweeps(s', aux)
    ensures Named(s', aux)
  {
    forall v
      ensures PcNamed(aux, PcOf(s', v))
    {
      assert PcNamed(aux, PcOf(s, v));
    }
    forall j | j in s'.tasks || Recorded(s', j)
      ensures Queued1(s', aux, j)
    {
      assert Queued1(s, aux, j);
    }
    NamedSame(s, s', aux);
  }

  lemma SweepFailNamed(s: State, aux: Aux, id: JobId, error: string)
    requires Named(s, aux)
    ensures Named(s.(db := FailStage(s.db, id, error, s.now)), aux)
  {
    var s' := s.(db := FailStage(s.db, id, error, s.now));
    FailSameRows(s.db, id, error, s.now);
    forall v
      ensures PcNamed(aux, PcOf(s', v))
    {
      assert PcNamed(aux, PcOf(s, v));
    }
    SameOthers(s, s', aux);
  }

  lemma SweepItemNamed(s: State, aux: Aux, p: nat, id: JobId, job: Job, sweep: Sweep)
    requires Named(s, aux) && SweepNamed(aux, sweep)
    requires id in aux.jobs && aux.jobs[id].1 == job.stage
    ensures Named(SweepItem(s, p, id, job, sweep), aux)
  {
    var s' := SweepItem(s, p, id, job, sweep);
    if SweepFails(sweep, job) {
      FailedItemNamed(s, aux, p, id, job, sweep, s');
    } else if job.status != Queued || ArqKnows(s, id) {
      RecordNamed(s, aux, p, sweep.(skipped := sweep.skipped + 1), s');
    } else {
      RequeuedItemNamed(s, aux, p, id, job, sweep, s');
    }
  }

  lemma FailedItemNamed(s: State, aux: Aux, p: nat, id: JobId, job: Job, sweep: Sweep, s': State)
    requires Named(s, aux) && SweepNamed(aux, sweep) && SweepFails(sweep, job) && s' == SweepItem(s, p, id, job, sweep)
    ensures Named(s', aux)
  {
    SweepFailNamed(s, aux, id, SweepError(sweep, job));
    RecordNamed(s.(db := s'.db), aux, p, sweep.(failed := sweep.failed + 1), s');
  }

  lemma RequeuedItemNamed(s: State, aux: Aux, p: nat, id: JobId, job: Job, sweep: Sweep, s': State)
    requires Named(s, aux) && SweepNamed(aux, sweep) && !SweepFails(sweep, job) && job.status == Queued && !ArqKnows(s, id)
    requires id in aux.jobs && aux.jobs[id].1 == job.stage && s' == SweepItem(s, p, id, job, sweep)
    ensures Named(s', aux)
  {
    EnqueueNamedState(s, aux, id, job.stage);
    RecordNamed(EnqueueJob(s, id, job.stage), aux, p, sweep.(requeued := sweep.requeued + 1), s');
  }

  lemma RecordNamed(s: State, aux: Aux, p: nat, sweep: Sweep, s': State)
    requires Named(s, aux) && SweepNamed(aux, sweep) && s' == s.(sweeps := s.sweeps[p := sweep])
    ensures Named(s', aux)
  {
    SweepsNamed(s, s', aux);
  }

  lemma SweepStepNamed(s: State, aux: Aux, p: nat)
    requires Named(s, aux)
    ensures Named(DoSweepStep(s, p), aux)
  {
    if p in s.sweeps && s.sweeps[p].todo != [] {
      var sweep := s.sweeps[p];
      assert SweepNamed(aux, sweep);
      SweepItemNamed(s, aux, p, sweep.todo[0].0, sweep.todo[0].1, sweep.(todo := sweep.todo[1..]));
    }
  }

  lemma UploadNewNamed(cfg: Config, s: State, aux: Aux, user: UserId, content: Content, ext: Extension)
    requires Named(s, aux)
    ensures Named(DoUploadNew(cfg, s, user, content, ext), AuxOnRequest(cfg, s, aux, UploadNew(user, content, ext)))
  {
    if !Uploaded(s.db, user, cfg.hash(content)) {
      var row := Document(user, cfg.hash(content), ext, Pending, None, None, 0, None, None);
      var aux' := AuxOnRequest(cfg, s, aux, UploadNew(user, content, ext));
      RowReserved(s, row, aux, aux', Reserve(s, row));
      EnqueueNamedState(Reserve(s, row), aux', s.db.nextId + 1, Extract);
    }
  }

  lemma RowReserved(s: State, row: Document, aux: Aux, aux': Aux, s1: State)
    requires Named(s, aux) && s1 == Reserve(s, row) && row.status == Pending && row.parsedKey.None? && row.pageCount.None?
    requires aux' == aux.(jobs := aux.jobs[s.db.nextId + 1 := (s.db.nextId, Extract)], docs := aux.docs[s.db.nextId := SourceOf(row)])
    ensures Named(s1, aux')
  {
    ReserveNamed(s, s1, aux, aux', s.db.nextId);
  }

  lemma ReserveNamed(s: State, s1: State, aux: Aux, aux': Aux, doc: DocId)
    requires Named(s, aux) && Extends(aux, aux') && Bounded(s1.db, aux')
    requires doc == s.db.nextId
    requires s1 == s.(db := s.db.(nextId := s.db.nextId + 2), uploads := s1.uploads)
    requires doc in s1.uploads && s1.uploads == s.uploads[doc := s1.uploads[doc]]
    requires doc in aux'.docs && aux'.docs[doc] == SourceOf(s1.uploads[doc].document)
    requires s1.uploads[doc].job == doc + 1 && doc + 1 in aux'.jobs && aux'.jobs[doc + 1] == (doc, Extract)
    requires s1.uploads[doc].createdAt == s.now && s1.uploads[doc].document.status == Pending
    requires s1.uploads[doc].document.parsedKey.None? && s1.uploads[doc].document.pageCount.None?
    ensures Named(s1, aux')
  {
    forall j | j in s1.db.jobs
      ensures JobNamed(s1.db, aux', j)
    {
      assert JobNamed(s.db, aux, j);
    }
    forall d | d in s1.db.docs
      ensures DocNamed(s1.db, aux', d)
    {
      assert DocNamed(s.db, aux, d);
    }
    assert !DocNamed(s.db, aux, doc) && !JobNamed(s.db, aux, doc + 1);
    RegrowUploads(s, s1, aux, aux', doc);
  }

  lemma RegrowUploads(s: State, s': State, aux: Aux, aux': Aux, doc: DocId)
    requires Named(s, aux) && Extends(aux, aux') && NamedDb(s'.db, aux') && s'.now == s.now
    requires s'.tasks == s.tasks && s'.sweeps == s.sweeps && s'.workers == s.workers
    requires s'.queue == s.queue && s'.results == s.results
    requires s'.db.docs == s.db.docs && s'.db.jobs == s.db.jobs
    requires UploadNamed(s', aux', doc)
    requires forall d {:trigger s'.uploads[d]} :: d in s'.uploads && d != doc ==> d in s.uploads && s'.uploads[d] == s.uploads[d]
    ensures Named(s', aux')
  {
    forall v
      ensures PcNamed(aux', PcOf(s', v))
    {
      assert PcNamed(aux, PcOf(s, v));
    }
    forall j | j in s'.tasks || Recorded(s', j)
      ensures Queued1(s', aux', j)
    {
      assert Queued1(s, aux, j);
    }
    forall d | d in s'.uploads
      ensures UploadNamed(s', aux', d)
    {
      assert d != doc ==> UploadNamed(s, aux, d);
    }
    forall p | p in s'.sweeps
      ensures SweepNamed(aux', s'.sweeps[p])
    {
      assert SweepNamed(aux, s.sweeps[p]);
    }
  }

  lemma UploadCommitNamed(s: State, aux: Aux, aux': Aux, doc: DocId)
    requires Named(s, aux) && doc in s.uploads && aux'.jobs == aux.jobs && aux'.docs == aux.docs
    ensures Named(DoUploadCommit(s, doc), aux')
  {
    var s' := DoUploadCommit(s, doc);
    assert UploadNamed(s, aux, doc);
    forall j | j in s'.db.jobs
      ensures JobNamed(s'.db, aux', j)
    {
      assert j != s.uploads[doc].job ==> JobNamed(s.db, aux, j);
    }
    forall d | d in s'.db.docs
      ensures DocNamed(s'.db, aux', d)
    {
      assert d != doc ==> DocNamed(s.db, aux, d);
    }
    forall d | d in s'.uploads
      ensures UploadNamed(s', aux', d)
    {
      assert UploadNamed(s, aux, d);
    }
    RowsNamed(s, s', aux, aux');
  }

  /** Only tables and uploads changed. */
  lemma RowsNamed(s: State, s': State, aux: Aux, aux': Aux)
    requires Named(s, aux) && aux'.jobs == aux.jobs && aux'.docs == aux.docs
    requires s' == s.(db := s'.db, uploads := s'.uploads)
    requires NamedDb(s'.db, aux') && NamedUploads(s', aux')
    ensures Named(s', aux')
  {
    forall v
      ensures PcNamed(aux', PcOf(s', v))
    {
      assert PcNamed(aux, PcOf(s, v));
    }
    forall j | j in s'.tasks || Recorded(s', j)
      ensures Queued1(s', aux', j)
    {
      assert Queued1(s, aux, j);
    }
    forall p | p in s'.sweeps
      ensures SweepNamed(aux', s'.sweeps[p])
    {
      assert SweepNamed(aux, s.sweeps[p]);
    }
  }

  lemma DeleteNamed(s: State, aux: Aux, aux': Aux, doc: DocId)
    requires Named(s, aux) && aux'.jobs == aux.jobs && aux'.docs == aux.docs
    ensures Named(s.(db := DeleteDocument(s.db, doc)), aux')
  {
    var s' := s.(db := DeleteDocument(s.db, doc));
    forall j | j in s'.db.jobs
      ensures JobNamed(s'.db, aux', j)
    {
      assert JobNamed(s.db, aux, j);
    }
    forall d | d in s'.db.docs
      ensures DocNamed(s'.db, aux', d)
    {
      assert DocNamed(s.db, aux, d);
    }
    forall d | d in s'.uploads
      ensures UploadNamed(s', aux', d)
    {
      assert UploadNamed(s, aux, d);
    }
    RowsNamed(s, s', aux, aux');
  }

  /** The clock, storage, or a smaller set of pending uploads. */
  lemma OutsideNamed(s: State, s': State, aux: Aux)
    requires Named(s, aux) && s'.db == s.db && s.now <= s'.now
    requires s'.workers == s.workers && s'.tasks == s.tasks && s'.queue == s.queue && s'.results == s.results
    requires s'.sweeps == s.sweeps
    requires forall d {:trigger s'.uploads[d]} :: d in s'.uploads ==> d in s.uploads && s'.uploads[d] == s.uploads[d]
    ensures Named(s', aux)
  {
    forall v
      ensures PcNamed(aux, PcOf(s', v))
    {
      assert PcNamed(aux, PcOf(s, v));
    }
    forall j | j in s'.tasks || Recorded(s', j)
      ensures Queued1(s', aux, j)
    {
      assert Queued1(s, aux, j);
    }
    NamedSame(s, s', aux);
  }

  lemma InsertNamed(s: State, aux: Aux, doc: DocId, stage: Stage, aux': Aux)
    requires Named(s, aux) && doc in s.db.docs
    requires aux' == aux.(jobs := aux.jobs[s.db.nextId := (doc, stage)])
    ensures Named(InsertJob(s, doc, stage), aux')
  {
    InsertedNamed(s, aux, doc, stage, aux', InsertJob(s, doc, stage));
  }

  lemma InsertedNamed(s: State, aux: Aux, doc: DocId, stage: Stage, aux': Aux, s': State)
    requires Named(s, aux) && doc in s.db.docs && s' == InsertJob(s, doc, stage)
    requires aux' == aux.(jobs := aux.jobs[s.db.nextId := (doc, stage)])
    ensures Named(s', aux')
  {
    assert !JobNamed(s.db, aux, s.db.nextId);
    forall j | j in s'.db.jobs
      ensures JobNamed(s'.db, aux', j)
    {
      assert j != s.db.nextId ==> JobNamed(s.db, aux, j);
    }
    forall d | d in s'.db.docs
      ensures DocNamed(s'.db, aux', d)
    {
      assert DocNamed(s.db, aux, d);
    }
    assert PcNamed(aux, PcOf(s, 0)) && PcOf(s', 0) == PcOf(s, 0);
    Regrow(s, s', aux, aux', 0);
  }

  lemma ReprocessNamed(cfg: Config, s: State, aux: Aux, request: Request)
    requires Named(s, aux) && IsReprocess(Http(request))
    ensures Named(OnRequest(cfg, s, request), AuxOnRequest(cfg, s, aux, request))
  {
    var aux' := AuxOnRequest(cfg, s, aux, request);
    match request
    case ReprocessReset(doc) => ResetNamed(s, aux, doc);
    case ReprocessRestart(doc, stage) => if doc in s.db.docs { InsertNamed(s, aux, doc, stage, aux'); }
    case ReprocessExtract(doc) =>
      if doc in s.db.docs {
        InsertNamed(s, aux, doc, Extract, aux');
        EnqueueNamedState(InsertJob(s, doc, Extract), aux', s.db.nextId, Extract);
      }
  }

  lemma ResetSameRows(db: Db, doc: DocId)
    ensures SameRows(db, ResetDocument(db, doc))
  {
  }

  lemma ResetNamed(s: State, aux: Aux, doc: DocId)
    requires Named(s, aux)
    ensures Named(s.(db := ResetDocument(s.db, doc)), aux)
  {
    var s' := s.(db := ResetDocument(s.db, doc));
    ResetSameRows(s.db, doc);
    forall v
      ensures PcNamed(aux, PcOf(s', v))
    {
      assert PcNamed(aux, PcOf(s, v));
    }
    SameOthers(s, s', aux);
  }

  lemma RequestNamed(cfg: Config, s: State, aux: Aux, request: Request)
    requires Named(s, aux)
    ensures Named(OnRequest(cfg, s, request), AuxOnRequest(cfg, s, aux, request))
  {
    var aux' := AuxOnRequest(cfg, s, aux, request);
    match request
    case UploadNew(user, content, ext) => UploadNewNamed(cfg, s, aux, user, content, ext);
    case UploadCommit(doc) => if doc in s.uploads { UploadCommitNamed(s, aux, aux', doc); }
    case UploadKnown(doc, job) => UploadKnownNamed(s, aux, doc, job);
    case Delete(doc) => DeleteNamed(s, aux, aux', doc);
    case ReprocessReset(_) => ReprocessNamed(cfg, s, aux, request);
    case ReprocessRestart(_, _) => ReprocessNamed(cfg, s, aux, request);
    case ReprocessExtract(_) => ReprocessNamed(cfg, s, aux, request);
    case _ => OutsideNamed(s, OnRequest(cfg, s, request), aux);
  }

  lemma UploadKnownNamed(s: State, aux: Aux, doc: DocId, job: JobId)
    requires Named(s, aux)
    ensures Named(DoUploadKnown(s, doc, job), aux)
  {
    if doc in s.db.docs && IsLatestJob(s.db, doc, job) {
      assert JobNamed(s.db, aux, job);
      EnqueueNamedState(s, aux, job, s.db.jobs[job].stage);
    }
  }

  lemma DispatchNamed(cfg: Config, s: State, aux: Aux, ev: Event)
    requires Named(s, aux)
    ensures Named(Dispatch(cfg, s, ev), NextAux(cfg, s, aux, ev))
  {
    match ev
    case Tick(_) => OutsideNamed(s, Dispatch(cfg, s, ev), aux);
    case Http(request) => RequestNamed(cfg, s, aux, request);
    case Work(w, action) => WorkNamed(cfg, s, aux, w, action);
    case Arq(op) => ArqNamed(cfg, s, aux, op);
    case SweepBegin(p, stuck) => SweepBeginNamed(s, aux, p, stuck);
    case SweepStep(p) => SweepStepNamed(s, aux, p);
  }

  // ----- whole runs -----

  function AuxOf(cfg: Config, evs: seq<Event>): Aux
    decreases |evs|
  {
    if evs == [] then NO_AUX
    else
      var before := Run(cfg, INIT, evs[..|evs| - 1]);
      NextAux(cfg, Later(before), AuxOf(cfg, evs[..|evs| - 1]), evs[|evs| - 1])
  }

  lemma AuxSnoc(cfg: Config, evs: seq<Event>, ev: Event, s: State)
    requires s == Run(cfg, INIT, evs)
    ensures AuxOf(cfg, evs + [ev]) == NextAux(cfg, Later(s), AuxOf(cfg, evs), ev)
  {
    var all := evs + [ev];
    assert all[..|all| - 1] == evs && all[|all| - 1] == ev;
  }

  lemma ApplyNamed(cfg: Config, s: State, aux: Aux, ev: Event)
    requires Named(s, aux)
    ensures Named(Apply(cfg, s, ev), NextAux(cfg, Later(s), aux, ev))
  {
    OutsideNamed(s, Later(s), aux);
    DispatchNamed(cfg, Later(s), aux, ev);
  }

  /** Identities are consistent in every run, reprocess included. */
  lemma {:induction false} RunNamed(cfg: Config, evs: seq<Event>)
    ensures Named(Run(cfg, INIT, evs), AuxOf(cfg, evs))
    decreases |evs|
  {
    if evs == [] {
      InitNamed();
    } else {
      var prefix := evs[..|evs| - 1];
      assert Named(Run(cfg, INIT, prefix), AuxOf(cfg, prefix)) by { RunNamed(cfg, prefix); }
      ApplyNamed(cfg, Run(cfg, INIT, prefix), AuxOf(cfg, prefix), evs[|evs| - 1]);
    }
  }

  lemma InitNamed()
    ensures Named(INIT, NO_AUX)
  {
  }
}
