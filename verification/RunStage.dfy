// `run_stage` as straight-line code over sessions, storage and the queue. Between any two of its
// blocks other workers, requests, the queue and the sweeper may do anything; the code is proved to
// be a run of the pipeline's state machine.
module RunStage {
  import opened Types
  import opened Database
  import opened Pipeline
  import opened Ingestion
  import opened Moves
  import opened Retries
  import opened Conduct
  import opened Undisturbed

  /** What a stage function has in hand after reading and computing. */
  datatype Prepared = Prepared(write: Option<(Key, Artifact)>, effect: Effect, result: StageResult) | Refused(error: string)

  // ----- events of others do not depend on where this worker is -----

  lemma OtherWork(cfg: Config, s: State, w: WorkerId, pc: Pc, v: WorkerId, action: Action)
    requires v != w
    ensures OnWork(cfg, Goto(s, w, pc), v, action) == Goto(OnWork(cfg, s, v, action), w, pc)
  {
    var t := Goto(s, w, pc);
    assert PcOf(t, v) == PcOf(s, v);
    match action
    case Deliver(job, attempt) =>
      if PcOf(s, v) == Idle && job in s.tasks {
        OtherMove(s, s.(db := StartTx(s.db, job, s.tasks[job], s.now)), w, pc, v,
                  StartedPc(StartOutcomeOf(s.db, job, s.tasks[job]), job, s.tasks[job], attempt));
      }
    case Compute(cached) => OtherCompute(cfg, s, w, pc, v, cached);
    case Store => OtherStore(s, w, pc, v);
    case Commit => OtherCommit(cfg, s, w, pc, v);
    case Raise(error, permanent) => OtherRaise(cfg, s, w, pc, v, error, permanent);
    case Settle => OtherSettle(s, w, pc, v);
    case Complete => OtherComplete(s, w, pc, v);
    case Enqueue =>
      if PcOf(s, v).Enqueueing? {
        OtherEnqueue(s, w, pc, PcOf(s, v).next, PcOf(s, v).nextStage);
        OtherMove(s, EnqueueJob(s, PcOf(s, v).next, PcOf(s, v).nextStage), w, pc, v, Idle);
      }
    case Crash => OtherMove(s, s, w, pc, v, Idle);
  }

  lemma OtherMove(s: State, s': State, w: WorkerId, pc: Pc, v: WorkerId, pc': Pc)
    requires v != w && s'.workers == s.workers
    ensures Goto(Goto(s', w, pc), v, pc') == Goto(Goto(s', v, pc'), w, pc)
  {
    assert s.workers[w := pc][v := pc'] == s.workers[v := pc'][w := pc];
  }

  lemma OtherCompute(cfg: Config, s: State, w: WorkerId, pc: Pc, v: WorkerId, cached: bool)
    requires v != w
    ensures DoCompute(cfg, Goto(s, w, pc), v, cached) == Goto(DoCompute(cfg, s, v, cached), w, pc)
  {
    if PcOf(s, v).InStage? {
      var task := PcOf(s, v).task;
      assert Computed(cfg, Goto(s, w, pc), task, cached) == Computed(cfg, s, task, cached);
      OtherMove(s, s, w, pc, v, Computed(cfg, s, task, cached));
    }
  }

  lemma OtherStore(s: State, w: WorkerId, pc: Pc, v: WorkerId)
    requires v != w
    ensures DoStore(Goto(s, w, pc), v) == Goto(DoStore(s, v), w, pc)
  {
    var at := PcOf(s, v);
    if at.Storing? { OtherMove(s, s.(artifacts := s.artifacts[at.key := at.artifact]), w, pc, v, Committing(at.task, at.effect, at.result)); }
  }

  lemma OtherCommit(cfg: Config, s: State, w: WorkerId, pc: Pc, v: WorkerId)
    requires v != w
    ensures DoCommit(cfg, Goto(s, w, pc), v) == Goto(DoCommit(cfg, s, v), w, pc)
  {
    var at := PcOf(s, v);
    if at.Committing? {
      OtherMove(s, s.(db := CommittedDb(s.db, at.task.doc, at.effect)), w, pc, v, CommittedPc(cfg, s.db, at.task, at.effect, at.result));
    }
  }

  lemma OtherRaise(cfg: Config, s: State, w: WorkerId, pc: Pc, v: WorkerId, error: string, permanent: bool)
    requires v != w
    ensures DoRaise(cfg, Goto(s, w, pc), v, error, permanent) == Goto(DoRaise(cfg, s, v, error, permanent), w, pc)
  {
    var at := PcOf(s, v);
    assert PcOf(Goto(s, w, pc), v) == at;
    if at.InStage? || at.Storing? || at.Committing? { OtherMove(s, s, w, pc, v, Raised(cfg, at.task, error, permanent)); }
  }

  lemma OtherSettle(s: State, w: WorkerId, pc: Pc, v: WorkerId)
    requires v != w
    ensures DoSettle(Goto(s, w, pc), v) == Goto(DoSettle(s, v), w, pc)
  {
    var at := PcOf(s, v);
    assert PcOf(Goto(s, w, pc), v) == at;
    if at.Failing? {
      OtherMove(s, s.(db := FailStage(s.db, at.task.job, at.error, s.now)), w, pc, v, Idle);
    } else if at.Retrying? {
      OtherMove(s, s.(db := RecordAttempt(s.db, at.task.job, at.error, at.task.attempt)), w, pc, v, Idle);
    }
  }

  lemma OtherComplete(s: State, w: WorkerId, pc: Pc, v: WorkerId)
    requires v != w
    ensures DoComplete(Goto(s, w, pc), v) == Goto(DoComplete(s, v), w, pc)
  {
    var at := PcOf(s, v);
    if at.Completing? {
      var next := NextStage(at.task.stage);
      OtherMove(s, s.(db := CompleteStage(s.db, at.task.job, at.result, next, s.now)), w, pc, v,
                CompletedPc(CompleteOutcomeOf(s.db, at.task.job, next), at.task));
    }
  }

  lemma OtherRequest(cfg: Config, s: State, w: WorkerId, pc: Pc, request: Request)
    ensures OnRequest(cfg, Goto(s, w, pc), request) == Goto(OnRequest(cfg, s, request), w, pc)
  {
    match request
    case UploadNew(user, content, ext) => OtherUpload(cfg, s, w, pc, user, content, ext);
    case UploadCommit(doc) => OtherUploadCommit(s, w, pc, doc);
    case UploadKnown(doc, job) => OtherKnown(s, w, pc, doc, job);
    case ReprocessRestart(doc, stage) => OtherInsert(s, w, pc, doc, stage);
    case ReprocessExtract(doc) => OtherExtract(s, w, pc, doc);
    case _ => OtherPlain(cfg, s, w, pc, request, OnRequest(cfg, s, request));
  }

  lemma OtherKnown(s: State, w: WorkerId, pc: Pc, doc: DocId, job: JobId)
    ensures DoUploadKnown(Goto(s, w, pc), doc, job) == Goto(DoUploadKnown(s, doc, job), w, pc)
  {
    if doc in s.db.docs && IsLatestJob(s.db, doc, job) { OtherEnqueue(s, w, pc, job, s.db.jobs[job].stage); }
  }

  /** Requests that neither enqueue nor insert. */
  lemma OtherPlain(cfg: Config, s: State, w: WorkerId, pc: Pc, request: Request, s': State)
    requires request.PutSource? || request.UploadRollback? || request.Delete? || request.DropSource?
             || request.DropArtifact? || request.ReprocessReset?
    requires s' == OnRequest(cfg, s, request)
    ensures OnRequest(cfg, Goto(s, w, pc), request) == Goto(s', w, pc)
  {
  }

  lemma OtherExtract(s: State, w: WorkerId, pc: Pc, doc: DocId)
    ensures DoReprocessExtract(Goto(s, w, pc), doc) == Goto(DoReprocessExtract(s, doc), w, pc)
  {
    OtherInsert(s, w, pc, doc, Extract);
    OtherEnqueue(InsertJob(s, doc, Extract), w, pc, s.db.nextId, Extract);
  }

  lemma OtherUpload(cfg: Config, s: State, w: WorkerId, pc: Pc, user: UserId, content: Content, ext: Extension)
    ensures DoUploadNew(cfg, Goto(s, w, pc), user, content, ext) == Goto(DoUploadNew(cfg, s, user, content, ext), w, pc)
  {
    if !Uploaded(s.db, user, cfg.hash(content)) {
      var row := Document(user, cfg.hash(content), ext, Pending, None, None, 0, None, None);
      assert Reserve(Goto(s, w, pc), row) == Goto(Reserve(s, row), w, pc);
      OtherEnqueue(Reserve(s, row), w, pc, s.db.nextId + 1, Extract);
    }
  }

  lemma OtherUploadCommit(s: State, w: WorkerId, pc: Pc, doc: DocId)
    ensures DoUploadCommit(Goto(s, w, pc), doc) == Goto(DoUploadCommit(s, doc), w, pc)
  {
  }

  lemma OtherInsert(s: State, w: WorkerId, pc: Pc, doc: DocId, stage: Stage)
    ensures InsertJob(Goto(s, w, pc), doc, stage) == Goto(InsertJob(s, doc, stage), w, pc)
  {
  }

  lemma OtherArq(cfg: Config, s: State, w: WorkerId, pc: Pc, op: ArqOp)
    ensures OnArq(cfg, Goto(s, w, pc), op) == Goto(OnArq(cfg, s, op), w, pc)
  {
  }

  lemma OtherItem(s: State, w: WorkerId, pc: Pc, p: nat, id: JobId, job: Job, sweep: Sweep)
    ensures SweepItem(Goto(s, w, pc), p, id, job, sweep) == Goto(SweepItem(s, p, id, job, sweep), w, pc)
  {
    if SweepFails(sweep, job) {
      OtherFailed(s, w, pc, p, id, job, sweep);
    } else if job.status != Queued || ArqKnows(s, id) {
      OtherSkipped(s, w, pc, p, id, job, sweep);
    } else {
      OtherRequeued(s, w, pc, p, id, job, sweep);
    }
  }

  lemma OtherFailed(s: State, w: WorkerId, pc: Pc, p: nat, id: JobId, job: Job, sweep: Sweep)
    requires SweepFails(sweep, job)
    ensures SweepItem(Goto(s, w, pc), p, id, job, sweep) == Goto(SweepItem(s, p, id, job, sweep), w, pc)
  {
  }

  lemma OtherSkipped(s: State, w: WorkerId, pc: Pc, p: nat, id: JobId, job: Job, sweep: Sweep)
    requires !SweepFails(sweep, job) && (job.status != Queued || ArqKnows(s, id))
    ensures SweepItem(Goto(s, w, pc), p, id, job, sweep) == Goto(SweepItem(s, p, id, job, sweep), w, pc)
  {
  }

  lemma OtherRequeued(s: State, w: WorkerId, pc: Pc, p: nat, id: JobId, job: Job, sweep: Sweep)
    requires !SweepFails(sweep, job) && job.status == Queued && !ArqKnows(s, id)
    ensures SweepItem(Goto(s, w, pc), p, id, job, sweep) == Goto(SweepItem(s, p, id, job, sweep), w, pc)
  {
    OtherEnqueue(s, w, pc, id, job.stage);
  }

  lemma OtherEnqueue(s: State, w: WorkerId, pc: Pc, job: JobId, stage: Stage)
    ensures EnqueueJob(Goto(s, w, pc), job, stage) == Goto(EnqueueJob(s, job, stage), w, pc)
  {
  }

  lemma OtherSweep(s: State, w: WorkerId, pc: Pc, p: nat)
    ensures DoSweepStep(Goto(s, w, pc), p) == Goto(DoSweepStep(s, p), w, pc)
  {
    if p in s.sweeps && s.sweeps[p].todo != [] {
      var sweep := s.sweeps[p];
      OtherItem(s, w, pc, p, sweep.todo[0].0, sweep.todo[0].1, sweep.(todo := sweep.todo[1..]));
    }
  }

  lemma OtherBegin(s: State, w: WorkerId, pc: Pc, p: nat, stuck: seq<JobId>)
    ensures DoSweepBegin(Goto(s, w, pc), p, stuck) == Goto(DoSweepBegin(s, p, stuck), w, pc)
  {
  }

  lemma OtherDispatch(cfg: Config, s: State, w: WorkerId, pc: Pc, ev: Event)
    requires !ByWorker(ev, w)
    ensures Dispatch(cfg, Goto(s, w, pc), ev) == Goto(Dispatch(cfg, s, ev), w, pc)
  {
    match ev
    case Http(request) => OtherRequest(cfg, s, w, pc, request);
    case Work(v, action) => OtherWork(cfg, s, w, pc, v, action);
    case Arq(op) => OtherArq(cfg, s, w, pc, op);
    case SweepBegin(p, stuck) => OtherBegin(s, w, pc, p, stuck);
    case SweepStep(p) => OtherSweep(s, w, pc, p);
    case Tick(_) =>
  }

  /** The world's own record has this worker idle: its real position is in the code. */
  ghost predicate Unplaced(s: State, w: WorkerId) {
    w in s.workers && s.workers[w] == Idle
  }

  lemma OtherEvent(cfg: Config, s: State, w: WorkerId, pc: Pc, ev: Event, s': State)
    requires !ByWorker(ev, w) && Unplaced(s, w) && s' == Dispatch(cfg, s, ev)
    ensures Dispatch(cfg, Goto(s, w, pc), ev) == Goto(s', w, pc) && Unplaced(s', w)
  {
    OtherDispatch(cfg, s, w, pc, ev);
    StaysUnplaced(cfg, s, w, ev, s');
  }

  lemma OneMoreEvent(cfg: Config, start: State, w: WorkerId, pc: Pc, before: seq<Event>, s: State, ev: Event, s': State)
    requires Unplaced(s, w) && Goto(s, w, pc) == Run(cfg, start, before) && !ByWorker(ev, w) && s' == Dispatch(cfg, Later(s), ev)
    ensures Unplaced(s', w) && Goto(s', w, pc) == Run(cfg, start, before + [ev])
  {
    OtherEvent(cfg, Later(s), w, pc, ev, s');
    MovesOn(s, w, pc, pc);
    RunOne(cfg, Goto(s, w, pc), ev, Goto(s', w, pc));
    RunThen(cfg, start, before, Goto(s, w, pc), [ev], Goto(s', w, pc));
  }

  lemma StaysUnplaced(cfg: Config, s: State, w: WorkerId, ev: Event, s': State)
    requires !ByWorker(ev, w) && Unplaced(s, w) && s' == Dispatch(cfg, s, ev)
    ensures Unplaced(s', w)
  {
    OtherDispatch(cfg, s, w, Idle, ev);
    assert Goto(s, w, Idle) == s;
  }

  lemma DeliverIs(cfg: Config, s: State, w: WorkerId, job: JobId, stage: Stage, attempt: nat, s1: State)
    requires Unplaced(s, w) && job in s.tasks && s.tasks[job] == stage
    requires s1 == Later(s).(db := StartTx(s.db, job, stage, s.now + 1))
    ensures Unplaced(s1, w)
    ensures Goto(s1, w, StartedPc(StartOutcomeOf(s.db, job, stage), job, stage, attempt))
            == OnWork(cfg, Later(Goto(s, w, Idle)), w, Deliver(job, attempt))
  {
    assert Goto(s, w, Idle) == s;
  }

  lemma CommitIs(cfg: Config, s: State, w: WorkerId, task: Task, effect: Effect, result: StageResult, s1: State)
    requires Unplaced(s, w) && s1 == Later(s).(db := CommittedDb(s.db, task.doc, effect))
    ensures Unplaced(s1, w)
    ensures Goto(s1, w, CommittedPc(cfg, s.db, task, effect, result))
            == OnWork(cfg, Later(Goto(s, w, Committing(task, effect, result))), w, Commit)
  {
    MovesOn(s, w, Committing(task, effect, result), CommittedPc(cfg, s.db, task, effect, result));
  }

  lemma CompleteIs(cfg: Config, s: State, w: WorkerId, task: Task, result: StageResult, s1: State)
    requires Unplaced(s, w) && s1 == Later(s).(db := CompleteStage(s.db, task.job, result, NextStage(task.stage), s.now + 1))
    ensures Unplaced(s1, w)
    ensures Goto(s1, w, CompletedPc(CompleteOutcomeOf(s.db, task.job, NextStage(task.stage)), task))
            == OnWork(cfg, Later(Goto(s, w, Completing(task, result))), w, Complete)
  {
    MovesOn(s, w, Completing(task, result), CompletedPc(CompleteOutcomeOf(s.db, task.job, NextStage(task.stage)), task));
  }

  lemma EnqueueIs(cfg: Config, s: State, w: WorkerId, next: JobId, stage: Stage, s1: State)
    requires Unplaced(s, w) && s1 == EnqueueJob(Later(s), next, stage)
    ensures Unplaced(s1, w) && Goto(s1, w, Idle) == OnWork(cfg, Later(Goto(s, w, Enqueueing(next, stage))), w, Enqueue)
  {
    OtherEnqueue(Later(s), w, Enqueueing(next, stage), next, stage);
    MovesOn(s1, w, Enqueueing(next, stage), Idle);
    EnqueueLeaves(Later(s), next, stage, s1);
  }

  lemma MovesOn(s: State, w: WorkerId, pc: Pc, pc': Pc)
    ensures Goto(Goto(s, w, pc), w, pc') == Goto(s, w, pc') && Later(Goto(s, w, pc)) == Goto(Later(s), w, pc)
    ensures PcOf(Goto(s, w, pc), w) == pc
  {
  }

  /**
   * The trace is a run of the machine that ends here, with the worker at `pc`; its own events are
   * those the code calls for, and `transient` tells whether the stage function failed that way.
   */
  ghost predicate At(cfg: Config, env: Env, start: State, trace: seq<Event>, s: State, w: WorkerId, pc: Pc, transient: bool) {
    && Unplaced(s, w) && trace != [] && Run(cfg, start, trace) == Goto(s, w, pc)
    && Conducted(cfg, start, w, env, trace) && transient == FailedTransiently(cfg, start, w, trace)
  }

  lemma AtWork(cfg: Config, env: Env, start: State, trace: seq<Event>, s: State, w: WorkerId, pc: Pc, transient: bool,
               action: Action, s': State, pc': Pc)
    requires At(cfg, env, start, trace, s, w, pc, transient) && Unplaced(s', w) && Called(env, pc, action)
    requires Goto(s', w, pc') == OnWork(cfg, Later(Goto(s, w, pc)), w, action)
    ensures At(cfg, env, start, trace + [Work(w, action)], s', w, pc', transient || Transient(s.db, pc, action))
  {
    OwnStep(cfg, start, w, env, trace, Goto(s, w, pc), pc, action);
    RunSnoc(cfg, start, trace, Work(w, action));
  }

  lemma AtOthers(cfg: Config, env: Env, start: State, trace: seq<Event>, s: State, w: WorkerId, pc: Pc, transient: bool,
                 others: seq<Event>, s': State)
    requires At(cfg, env, start, trace, s, w, pc, transient) && Unplaced(s', w)
    requires Foreign(others, w) && forall i :: 0 <= i < |others| ==> InGap(env, others[i])
    requires Goto(s', w, pc) == Run(cfg, Goto(s, w, pc), others)
    ensures At(cfg, env, start, trace + others, s', w, pc, transient)
  {
    OthersSteps(cfg, start, w, env, trace, others);
    RunConcat(cfg, start, trace, others);
  }

  lemma ComputedUnplaced(cfg: Config, s: State, w: WorkerId, task: Task, cached: bool)
    ensures Computed(cfg, Goto(s, w, InStage(task)), task, cached) == Computed(cfg, s, task, cached)
  {
  }

  lemma ComputeIs(cfg: Config, s: State, w: WorkerId, task: Task, cached: bool, s1: State)
    requires Unplaced(s, w) && s1 == Later(s)
    ensures Unplaced(s1, w)
    ensures Goto(s1, w, Computed(cfg, s1, task, cached)) == OnWork(cfg, Later(Goto(s, w, InStage(task))), w, Compute(cached))
  {
    ComputedUnplaced(cfg, s1, w, task, cached);
    MovesOn(s, w, InStage(task), Computed(cfg, s1, task, cached));
    MovesOn(s1, w, InStage(task), Computed(cfg, s1, task, cached));
  }

  // ----- the stage functions -----

  /** The rows before `i` are fine and row `i` is not: it gives the error. */
  lemma {:induction false} FirstBadRow(cfg: Config, rows: seq<Row>, i: nat)
    requires i < |rows| && forall k :: 0 <= k < i ==> rows[k].embedding.Some? && |rows[k].embedding.value| == cfg.dimension
    requires rows[i].embedding.Some? ==> |rows[i].embedding.value| != cfg.dimension
    ensures !Indexable(cfg, rows)
    ensures IndexError(cfg.dimension, rows) == if rows[i].embedding.None? then "chunk has no embedding" else "chunk has wrong dimension"
  {
    if i > 0 { FirstBadRow(cfg, rows[1..], i - 1); }
  }

  /** Where the machine's worker is after computing. */
  function PcAfter(task: Task, p: Prepared): Pc {
    match p
    case Refused(error) => Failing(task, error)
    case Prepared(None, effect, result) => Committing(task, effect, result)
    case Prepared(Some((key, artifact)), effect, result) => Storing(task, key, artifact, effect, result)
  }

  /** Where it is after the try block. */
  function Tried(cfg: Config, task: Task, failure: Option<Fault>, result: StageResult): Pc {
    if failure.None? then Completing(task, result) else Raised(cfg, task, failure.value.error, failure.value.permanent)
  }

  /** Everything outside the worker. `state.workers` leaves out where the worker itself is. */
  class World {
    const cfg: Config
    var state: State

    constructor (cfg: Config, state: State)
      ensures this.cfg == cfg && this.state == state
    {
      this.cfg, this.state := cfg, state;
    }

    method DoExtract(task: Task, doc: Document, cached: bool) returns (p: Prepared)
      requires task.stage == Extract && task.doc in state.db.docs && doc == state.db.docs[task.doc]
      ensures PcAfter(task, p) == Computed(cfg, state, task, cached)
    {
      var key := Key(doc.contentHash, Extract);
      if cached {
        if key !in state.artifacts || !state.artifacts[key].ParsedDoc? { return Refused("object not found"); }
        return Prepared(None, SetParsedKey(key), StageResult(Some(state.artifacts[key].doc.pages), None));
      }
      var source := SourceKey(doc.user, doc.contentHash, doc.ext);
      if source !in state.sources { return Refused("object not found"); }
      var parsed := cfg.extract(state.sources[source], doc.ext);
      p := Prepared(Some((key, ParsedDoc(parsed))), SetParsedKey(key), StageResult(Some(parsed.pages), None));
    }

    method DoClean(task: Task, doc: Document, cached: bool) returns (p: Prepared)
      requires task.stage == Clean && task.doc in state.db.docs && doc == state.db.docs[task.doc]
      ensures PcAfter(task, p) == Computed(cfg, state, task, cached)
    {
      var key := Key(doc.contentHash, Clean);
      if cached && key in state.artifacts { return Prepared(None, NoEffect, StageResult(None, None)); }
      if doc.parsedKey.None? { return Refused("parsed_key missing"); }
      var parsedKey := doc.parsedKey.value;
      if parsedKey !in state.artifacts || !state.artifacts[parsedKey].ParsedDoc? { return Refused("object not found"); }
      var cleaned := cfg.clean(state.artifacts[parsedKey].doc);
      p := Prepared(Some((key, ParsedDoc(cleaned))), NoEffect, StageResult(None, None));
    }

    method DoChunk(task: Task, doc: Document) returns (p: Prepared)
      requires task.stage == Chunk && task.doc in state.db.docs && doc == state.db.docs[task.doc]
      ensures forall cached :: PcAfter(task, p) == Computed(cfg, state, task, cached)
    {
      var input := Key(doc.contentHash, Clean);
      if input !in state.artifacts || !state.artifacts[input].ParsedDoc? { return Refused("object not found"); }
      var chunkList := cfg.chunk(state.artifacts[input].doc);
      p := Prepared(Some((Key(doc.contentHash, Chunk), Rows(chunkList))), NoEffect, StageResult(None, None));
    }

    method DoEmbed(task: Task, doc: Document) returns (p: Prepared)
      requires task.stage == Embed && task.doc in state.db.docs && doc == state.db.docs[task.doc]
      ensures forall cached :: PcAfter(task, p) == Computed(cfg, state, task, cached)
    {
      var input := Key(doc.contentHash, Chunk);
      if input !in state.artifacts || !state.artifacts[input].Rows? { return Refused("object not found"); }
      if state.artifacts[input].rows == [] { return Refused("no chunks to embed"); }
      var rows := cfg.embed(state.artifacts[input].rows);
      p := Prepared(Some((Key(doc.contentHash, Embed), Rows(rows))), NoEffect, StageResult(None, None));
    }

    /** Every row is validated before the database is touched. */
    method DoIndex(task: Task, doc: Document) returns (p: Prepared)
      requires task.stage == Index && task.doc in state.db.docs && doc == state.db.docs[task.doc]
      ensures forall cached :: PcAfter(task, p) == Computed(cfg, state, task, cached)
    {
      var input := Key(doc.contentHash, Embed);
      if input !in state.artifacts || !state.artifacts[input].Rows? { return Refused("object not found"); }
      var rows := state.artifacts[input].rows;
      if rows == [] { return Refused("no chunks to index"); }
      for i := 0 to |rows|
        invariant forall k :: 0 <= k < i ==> rows[k].embedding.Some? && |rows[k].embedding.value| == cfg.dimension
      {
        if rows[i].embedding.None? {
          FirstBadRow(cfg, rows, i);
          return Refused("chunk has no embedding");
        }
        if |rows[i].embedding.value| != cfg.dimension {
          FirstBadRow(cfg, rows, i);
          return Refused("chunk has wrong dimension");
        }
      }
      p := Prepared(None, Replace(rows), StageResult(None, Some(|rows|)));
    }

    /** Loads the document and runs the function of the stage. */
    method RunFunction(task: Task, cached: bool) returns (p: Prepared)
      ensures PcAfter(task, p) == Computed(cfg, state, task, cached)
    {
      if task.doc !in state.db.docs { return Refused("document not found"); }
      var doc := state.db.docs[task.doc];
      match task.stage
      case Extract => p := DoExtract(task, doc, cached);
      case Clean => p := DoClean(task, doc, cached);
      case Chunk => p := DoChunk(task, doc);
      case Embed => p := DoEmbed(task, doc);
      case Index => p := DoIndex(task, doc);
    }

    // ----- the blocks between which others may act -----

    /** Anything that is not a step of this worker. */
    method Interfere(w: WorkerId, others: seq<Event>, ghost pc: Pc)
      requires Unplaced(state, w) && Foreign(others, w)
      modifies this
      ensures Unplaced(state, w) && Goto(state, w, pc) == Run(cfg, Goto(old(state), w, pc), others)
    {
      assert others[..0] == [];
      for i := 0 to |others|
        invariant Unplaced(state, w) && Goto(state, w, pc) == Run(cfg, Goto(old(state), w, pc), others[..i])
      {
        ghost var s := state;
        assert others[..i + 1] == others[..i] + [others[i]];
        state := Dispatch(cfg, Later(state), others[i]);
        OneMoreEvent(cfg, Goto(old(state), w, pc), w, pc, others[..i], s, others[i], state);
      }
      assert others[..|others|] == others;
    }

    /** First session: start the job; a refused transition or a missing document fails it. */
    method StartBlock(w: WorkerId, job: JobId, stage: Stage, attempt: nat) returns (started: StartOutcome)
      requires Unplaced(state, w) && job in state.tasks && state.tasks[job] == stage
      modifies this
      ensures Unplaced(state, w)
      ensures Goto(state, w, StartedPc(started, job, stage, attempt))
              == OnWork(cfg, Later(Goto(old(state), w, Idle)), w, Deliver(job, attempt))
    {
      state := Later(state);
      var ingester := new Ingester(state.db);
      started := ingester.StartStage(job, stage, state.now);
      if started.StartDocMissing? {
        ingester.FailStage(job, "document missing", state.now);
      } else if started.StartInvalid? {
        ingester.FailStage(job, "invalid transition", state.now);
      }
      state := state.(db := ingester.Tables());
      DeliverIs(cfg, old(state), w, job, stage, attempt, state);
    }

    /** The artifact write, outside any transaction. */
    method StoreBlock(w: WorkerId, task: Task, key: Key, artifact: Artifact, ghost effect: Effect, ghost result: StageResult)
      requires Unplaced(state, w)
      modifies this
      ensures Unplaced(state, w)
      ensures Goto(state, w, Committing(task, effect, result))
              == OnWork(cfg, Later(Goto(old(state), w, Storing(task, key, artifact, effect, result))), w, Store)
    {
      state := state.(now := state.now + 1, artifacts := state.artifacts[key := artifact]);
    }

    /** The stage's own changes and their commit; a vanished document row makes the write raise. */
    method CommitBlock(w: WorkerId, task: Task, effect: Effect, ghost result: StageResult) returns (failure: Option<Fault>)
      requires Unplaced(state, w)
      modifies this
      ensures Unplaced(state, w)
      ensures failure == if !effect.NoEffect? && task.doc !in old(state).db.docs then Some(Fault("document row missing", false)) else None
      ensures Goto(state, w, Tried(cfg, task, failure, result))
              == OnWork(cfg, Later(Goto(old(state), w, Committing(task, effect, result))), w, Commit)
    {
      state := Later(state);
      if effect.NoEffect? {
        CommitIs(cfg, old(state), w, task, effect, result, state);
        return None;
      }
      if task.doc !in state.db.docs {
        CommitIs(cfg, old(state), w, task, effect, result, state);
        return Some(Fault("document row missing", false));
      }
      var ingester := new Ingester(state.db);
      if effect.SetParsedKey? {
        ingester.SetParsedKey(task.doc, effect.key);
      } else {
        var deleted, inserted := ingester.BulkInsert(task.doc, effect.rows);
      }
      state := state.(db := ingester.Tables());
      failure := None;
      CommitIs(cfg, old(state), w, task, effect, result, state);
    }

    /** A separate session records the failure of job and document. */
    method FailBlock(w: WorkerId, task: Task, error: string)
      requires Unplaced(state, w)
      modifies this
      ensures Unplaced(state, w)
      ensures Goto(state, w, Idle) == OnWork(cfg, Later(Goto(old(state), w, Failing(task, error))), w, Settle)
    {
      state := Later(state);
      var ingester := new Ingester(state.db);
      ingester.FailStage(task.job, error, state.now);
      state := state.(db := ingester.Tables());
    }

    /** A separate session records the attempt before the retry is raised. */
    method RetryBlock(w: WorkerId, task: Task, error: string)
      requires Unplaced(state, w)
      modifies this
      ensures Unplaced(state, w)
      ensures Goto(state, w, Idle) == OnWork(cfg, Later(Goto(old(state), w, Retrying(task, error))), w, Settle)
    {
      state := Later(state);
      var ingester := new Ingester(state.db);
      ingester.RecordAttempt(task.job, error, task.attempt);
      state := state.(db := ingester.Tables());
    }

    /** Last session: the job is done and its successor exists, in one transaction. */
    method CompleteBlock(w: WorkerId, task: Task, result: StageResult) returns (outcome: CompleteOutcome)
      requires Unplaced(state, w)
      modifies this
      ensures Unplaced(state, w) && (outcome.Completed? ==> outcome.next.Some? == NextStage(task.stage).Some?)
      ensures Goto(state, w, CompletedPc(outcome, task)) == OnWork(cfg, Later(Goto(old(state), w, Completing(task, result))), w, Complete)
    {
      state := Later(state);
      var ingester := new Ingester(state.db);
      outcome := ingester.CompleteStage(task.job, result, NextStage(task.stage), state.now);
      state := state.(db := ingester.Tables());
      CompleteIs(cfg, old(state), w, task, result, state);
    }

    /** After the commit: the next stage's task, unless ARQ knows the job already. */
    method EnqueueBlock(w: WorkerId, next: JobId, stage: Stage)
      requires Unplaced(state, w)
      modifies this
      ensures Unplaced(state, w)
      ensures Goto(state, w, Idle) == OnWork(cfg, Later(Goto(old(state), w, Enqueueing(next, stage))), w, Enqueue)
    {
      state := Later(state);
      if !ArqKnows(state, next) {
        state := state.(queue := state.queue + {next}, tasks := state.tasks[next := stage]);
      }
      EnqueueIs(cfg, old(state), w, next, stage, state);
    }

    /** The queue cannot be reached: logged, and left to the sweeper. */
    method EnqueueFails(w: WorkerId, ghost next: JobId, ghost stage: Stage)
      requires Unplaced(state, w)
      modifies this
      ensures Unplaced(state, w)
      ensures Goto(state, w, Idle) == OnWork(cfg, Later(Goto(old(state), w, Enqueueing(next, stage))), w, Crash)
    {
      state := Later(state);
    }

    // ----- the whole task -----

    /** Others act in the k-th pause, while the worker waits between two blocks. */
    method Wait(w: WorkerId, env: Env, k: nat, ghost start: State, ghost trace0: seq<Event>, ghost pc: Pc, ghost transient: bool)
      returns (ghost trace: seq<Event>)
      requires At(cfg, env, start, trace0, state, w, pc, transient) && Foreign(env.gaps(k), w)
      modifies this
      ensures trace0 <= trace
      ensures At(cfg, env, start, trace, state, w, pc, transient)
    {
      ghost var s := state;
      Interfere(w, env.gaps(k), pc);
      trace := trace0 + env.gaps(k);
      AtOthers(cfg, env, start, trace0, s, w, pc, transient, env.gaps(k), state);
    }

    /** The stage function raises where it is. */
    method RaiseHere(w: WorkerId, env: Env, fault: Fault, ghost start: State, ghost trace0: seq<Event>, ghost task: Task, ghost pc: Pc)
      returns (ghost trace: seq<Event>)
      requires At(cfg, env, start, trace0, state, w, pc, false) && Called(env, pc, Raise(fault.error, fault.permanent))
      requires (pc.InStage? || pc.Storing? || pc.Committing?) && pc.task == task
      modifies this
      ensures trace0 <= trace
      ensures At(cfg, env, start, trace, state, w, Raised(cfg, task, fault.error, fault.permanent), !fault.permanent)
    {
      ghost var s := state;
      state := Later(state);
      trace := trace0 + [Work(w, Raise(fault.error, fault.permanent))];
      AtWork(cfg, env, start, trace0, s, w, pc, false, Raise(fault.error, fault.permanent), state,
             Raised(cfg, task, fault.error, fault.permanent));
    }

    /** Reading and computing as one step of the machine. */
    method ComputeBlock(w: WorkerId, task: Task, env: Env, ghost start: State, ghost trace0: seq<Event>)
      returns (p: Prepared, ghost trace: seq<Event>)
      requires At(cfg, env, start, trace0, state, w, InStage(task), false) && env.faults(BeforeComputing).None?
      modifies this
      ensures trace0 <= trace
      ensures At(cfg, env, start, trace, state, w, PcAfter(task, p), false)
    {
      ghost var s := state;
      state := Later(state);
      p := RunFunction(task, env.cached);
      trace := trace0 + [Work(w, Compute(env.cached))];
      ComputeIs(cfg, s, w, task, env.cached, state);
      AtWork(cfg, env, start, trace0, s, w, InStage(task), false, Compute(env.cached), state, PcAfter(task, p));
    }

    /** The try block: the stage function, its artifact write and its commit. */
    method TryStage(w: WorkerId, task: Task, env: Env, ghost start: State, ghost trace0: seq<Event>)
      returns (failure: Option<Fault>, result: StageResult, ghost trace: seq<Event>)
      requires At(cfg, env, start, trace0, state, w, InStage(task), false) && forall k {:trigger env.gaps(k)} :: Foreign(env.gaps(k), w)
      modifies this
      ensures trace0 <= trace
      ensures At(cfg, env, start, trace, state, w, Tried(cfg, task, failure, result), failure.Some? && !failure.value.permanent)
    {
      failure, result := env.faults(BeforeComputing), StageResult(None, None);
      if failure.Some? {
        trace := RaiseHere(w, env, failure.value, start, trace0, task, InStage(task));
        return;
      }
      var p;
      p, trace := ComputeBlock(w, task, env, start, trace0);
      if p.Refused? { return Some(Fault(p.error, true)), result, trace; }
      result := p.result;
      failure, trace := WriteStage(w, task, p, env, start, trace);
    }

    /** The artifact write, if there is one. */
    method WriteStage(w: WorkerId, task: Task, p: Prepared, env: Env, ghost start: State, ghost trace0: seq<Event>)
      returns (failure: Option<Fault>, ghost trace: seq<Event>)
      requires p.Prepared? && At(cfg, env, start, trace0, state, w, PcAfter(task, p), false)
      requires forall k {:trigger env.gaps(k)} :: Foreign(env.gaps(k), w)
      modifies this
      ensures trace0 <= trace
      ensures At(cfg, env, start, trace, state, w, Tried(cfg, task, failure, p.result), failure.Some? && !failure.value.permanent)
    {
      trace := Wait(w, env, 1, start, trace0, PcAfter(task, p), false);
      failure := env.faults(BeforeStoring);
      if failure.Some? {
        trace := RaiseHere(w, env, failure.value, start, trace, task, PcAfter(task, p));
        return;
      }
      if p.write.Some? {
        ghost var s := state;
        StoreBlock(w, task, p.write.value.0, p.write.value.1, p.effect, p.result);
        AtWork(cfg, env, start, trace, s, w, PcAfter(task, p), false, Store, state, Committing(task, p.effect, p.result));
        trace := trace + [Work(w, Store)];
      }
      failure, trace := FinishStage(w, task, p, env, start, trace);
    }

    method FinishStage(w: WorkerId, task: Task, p: Prepared, env: Env, ghost start: State, ghost trace0: seq<Event>)
      returns (failure: Option<Fault>, ghost trace: seq<Event>)
      requires p.Prepared? && At(cfg, env, start, trace0, state, w, Committing(task, p.effect, p.result), false)
      requires env.faults(BeforeStoring).None? && forall k {:trigger env.gaps(k)} :: Foreign(env.gaps(k), w)
      modifies this
      ensures trace0 <= trace
      ensures At(cfg, env, start, trace, state, w, Tried(cfg, task, failure, p.result), failure.Some? && !failure.value.permanent)
    {
      trace := Wait(w, env, 2, start, trace0, Committing(task, p.effect, p.result), false);
      failure := env.faults(BeforeCommitting);
      if failure.Some? {
        trace := RaiseHere(w, env, failure.value, start, trace, task, Committing(task, p.effect, p.result));
        return;
      }
      ghost var s := state;
      failure := CommitBlock(w, task, p.effect, p.result);
      AtWork(cfg, env, start, trace, s, w, Committing(task, p.effect, p.result), false, Commit, state,
             Tried(cfg, task, failure, p.result));
      trace := trace + [Work(w, Commit)];
    }

    /** Failure of the stage function: permanent, out of attempts, or to be retried after a delay. */
    method HandleFailure(w: WorkerId, task: Task, failure: Fault, env: Env, ghost start: State, ghost trace0: seq<Event>)
      returns (retry: Option<nat>, ghost trace: seq<Event>)
      requires At(cfg, env, start, trace0, state, w, Raised(cfg, task, failure.error, failure.permanent), !failure.permanent)
      modifies this
      ensures trace0 <= trace
      ensures At(cfg, env, start, trace, state, w, Idle, !failure.permanent)
      ensures retry.Some? <==> !failure.permanent && task.attempt < cfg.maxTries
      ensures retry.Some? ==> retry.value == Backoff(task.attempt)
    {
      ghost var s := state;
      retry := None;
      if failure.permanent {
        FailBlock(w, task, failure.error);
      } else if task.attempt >= cfg.maxTries {
        FailBlock(w, task, "retries exhausted: " + failure.error);
      } else {
        RetryBlock(w, task, failure.error);
        retry := Some(Backoff(task.attempt));
      }
      trace := trace0 + [Work(w, Settle)];
      AtWork(cfg, env, start, trace0, s, w, Raised(cfg, task, failure.error, failure.permanent), !failure.permanent, Settle, state, Idle);
    }

    /** Completion, and after its commit the enqueue of the next stage. */
    method FinishTask(w: WorkerId, task: Task, result: StageResult, env: Env, ghost start: State, ghost trace0: seq<Event>)
      returns (ghost trace: seq<Event>)
      requires At(cfg, env, start, trace0, state, w, Completing(task, result), false)
      requires forall k {:trigger env.gaps(k)} :: Foreign(env.gaps(k), w)
      modifies this
      ensures trace0 <= trace
      ensures At(cfg, env, start, trace, state, w, Idle, false)
    {
      ghost var s := state;
      var outcome := CompleteBlock(w, task, result);
      trace := trace0 + [Work(w, Complete)];
      AtWork(cfg, env, start, trace0, s, w, Completing(task, result), false, Complete, state, CompletedPc(outcome, task));
      match outcome
      case CompleteJobMissing => return;
      case CompleteAlreadyDone => return;
      case CompleteDocMissing => trace := FailCompletion(w, task, "document not found", env, start, trace);
      case CompleteInvalid => trace := FailCompletion(w, task, "invalid transition", env, start, trace);
      case Completed(nextJob) =>
        var nextStage := NextStage(task.stage);
        if nextStage.None? || nextJob.None? { return; }
        trace := HandOver(w, nextJob.value, nextStage.value, env, start, trace);
    }

    /** The enqueue of the next stage; an unreachable queue is only logged. */
    method HandOver(w: WorkerId, next: JobId, stage: Stage, env: Env, ghost start: State, ghost trace0: seq<Event>)
      returns (ghost trace: seq<Event>)
      requires At(cfg, env, start, trace0, state, w, Enqueueing(next, stage), false) && Foreign(env.gaps(5), w)
      modifies this
      ensures trace0 <= trace
      ensures At(cfg, env, start, trace, state, w, Idle, false)
    {
      trace := Wait(w, env, 5, start, trace0, Enqueueing(next, stage), false);
      ghost var s := state;
      if env.redisUp {
        EnqueueBlock(w, next, stage);
        AtWork(cfg, env, start, trace, s, w, Enqueueing(next, stage), false, Enqueue, state, Idle);
        trace := trace + [Work(w, Enqueue)];
      } else {
        EnqueueFails(w, next, stage);
        AtWork(cfg, env, start, trace, s, w, Enqueueing(next, stage), false, Crash, state, Idle);
        trace := trace + [Work(w, Crash)];
      }
    }

    method FailCompletion(w: WorkerId, task: Task, error: string, env: Env, ghost start: State, ghost trace0: seq<Event>)
      returns (ghost trace: seq<Event>)
      requires At(cfg, env, start, trace0, state, w, Failing(task, error), false) && Foreign(env.gaps(5), w)
      modifies this
      ensures trace0 <= trace
      ensures At(cfg, env, start, trace, state, w, Idle, false)
    {
      trace := Wait(w, env, 5, start, trace0, Failing(task, error), false);
      ghost var s := state;
      FailBlock(w, task, error);
      AtWork(cfg, env, start, trace, s, w, Failing(task, error), false, Settle, state, Idle);
      trace := trace + [Work(w, Settle)];
    }

    /**
     * The task function. `env.gaps(k)` is what others do in the k-th pause, `env.faults` what the
     * stage function raises. Whatever they are, the world afterwards is a state of the machine,
     * reached by a run that starts with this delivery and in which this worker takes every step
     * the code calls for and no other; a retry is raised exactly for a transient failure of the
     * stage function with tries left. `Achieves` says what that comes to when nobody else acts.
     */
    method RunStage(w: WorkerId, job: JobId, stage: Stage, attempt: nat, env: Env)
      returns (retry: Option<nat>, ghost trace: seq<Event>)
      requires Unplaced(state, w) && job in state.tasks && state.tasks[job] == stage
      requires forall k {:trigger env.gaps(k)} :: Foreign(env.gaps(k), w)
      modifies this
      ensures state == Run(cfg, old(state), trace) && Unplaced(state, w)
      ensures trace != [] && trace[0] == Work(w, Deliver(job, attempt))
      ensures Conducted(cfg, old(state), w, env, trace)
      ensures retry.Some? <==> FailedTransiently(cfg, old(state), w, trace) && attempt < cfg.maxTries
      ensures retry.Some? ==> retry.value == Backoff(attempt)
      ensures Achieves(cfg, env, old(state), w, job, attempt, retry.Some?, state)
    {
      ghost var start := state;
      var started;
      started, trace := Begin(w, job, stage, attempt, env);
      retry := None;
      if started.Started? {
        retry, trace := RunStarted(w, Task(job, started.document, stage, attempt), env, start, trace);
      }
      assert Goto(state, w, Idle) == state;
      DeliveryAchieves(cfg, env, start, w, job, attempt, trace, retry.Some?);
    }

    method Begin(w: WorkerId, job: JobId, stage: Stage, attempt: nat, env: Env)
      returns (started: StartOutcome, ghost trace: seq<Event>)
      requires Unplaced(state, w) && job in state.tasks && state.tasks[job] == stage
      modifies this
      ensures trace == [Work(w, Deliver(job, attempt))]
      ensures At(cfg, env, old(state), trace, state, w, StartedPc(started, job, stage, attempt), false)
    {
      ghost var start := state;
      started := StartBlock(w, job, stage, attempt);
      assert start == Goto(start, w, Idle);
      trace := [Work(w, Deliver(job, attempt))];
      assert trace[..0] == [];
      RunOne(cfg, start, trace[0], Goto(state, w, StartedPc(started, job, stage, attempt)));
    }

    method RunStarted(w: WorkerId, task: Task, env: Env, ghost start: State, ghost trace0: seq<Event>)
      returns (retry: Option<nat>, ghost trace: seq<Event>)
      requires At(cfg, env, start, trace0, state, w, InStage(task), false) && forall k {:trigger env.gaps(k)} :: Foreign(env.gaps(k), w)
      modifies this
      ensures trace0 <= trace
      ensures At(cfg, env, start, trace, state, w, Idle, FailedTransiently(cfg, start, w, trace))
      ensures retry.Some? <==> FailedTransiently(cfg, start, w, trace) && task.attempt < cfg.maxTries
      ensures retry.Some? ==> retry.value == Backoff(task.attempt)
    {
      trace := Wait(w, env, 0, start, trace0, InStage(task), false);
      var failure, result;
      failure, result, trace := TryStage(w, task, env, start, trace);
      if failure.Some? {
        trace := Wait(w, env, 3, start, trace, Raised(cfg, task, failure.value.error, failure.value.permanent), !failure.value.permanent);
        retry, trace := HandleFailure(w, task, failure.value, env, start, trace);
      } else {
        trace := Wait(w, env, 4, start, trace, Completing(task, result), false);
        trace := FinishTask(w, task, result, env, start, trace);
        retry := None;
      }
    }
  }
}
