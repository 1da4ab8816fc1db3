// The ingestion pipeline as one global state machine: tables, storage, the ARQ queue, workers
// with a program counter, and sweeper passes. Every committed session block, storage call and
// queue call is one atomic event. `Apply` is total: an event whose guard fails changes nothing
// but the clock, so every sequence of events is a run and covers every interleaving.
module Pipeline {
  import opened Types
  import opened Database

  const STUCK_QUEUE_AFTER := 20 * MINUTE
  const STUCK_RUNNING_AFTER := 3 * HOUR
  const GIVE_UP_AFTER := 12 * HOUR

  /** One delivery of an ARQ task; `doc` is read from the job row by the start block. */
  datatype Task = Task(job: JobId, doc: DocId, stage: Stage, attempt: nat)

  /** Database changes that the stage's own session will commit. */
  datatype Effect = NoEffect | SetParsedKey(key: Key) | Replace(rows: seq<Row>)

  /** Where a worker is inside `run_stage`. */
  datatype Pc =
    | Idle
    | InStage(task: Task)
    | Storing(task: Task, key: Key, artifact: Artifact, effect: Effect, result: StageResult)
    | Committing(task: Task, effect: Effect, result: StageResult)
    | Completing(task: Task, result: StageResult)
    | Enqueueing(next: JobId, nextStage: Stage)
    | Failing(task: Task, error: string)
    | Retrying(task: Task, error: string)

  /** Rows inserted by an upload request that has not committed yet. */
  datatype Upload = Upload(document: Document, job: JobId, createdAt: Time)

  datatype Sweep = Sweep(startedAt: Time, todo: seq<(JobId, Job)>, requeued: nat, failed: nat, skipped: nat)

  datatype State = State(
    db: Db,
    now: Time,
    sources: map<SourceKey, Content>,
    artifacts: map<Key, Artifact>,
    uploads: map<DocId, Upload>,
    queue: set<JobId>,
    results: map<JobId, Time>,
    tasks: map<JobId, Stage>,
    workers: map<WorkerId, Pc>,
    sweeps: map<nat, Sweep>)

  /** Committed steps of API requests, and storage objects removed by deletes and sweeps. */
  datatype Request =
    | PutSource(user: UserId, content: Content, ext: Extension)
    | UploadNew(user: UserId, content: Content, ext: Extension)
    | UploadCommit(doc: DocId)
    | UploadRollback(doc: DocId)
    | UploadKnown(doc: DocId, job: JobId)
    | Delete(doc: DocId)
    | DropSource(source: SourceKey)
    | DropArtifact(key: Key)
    | ReprocessReset(doc: DocId)
    | ReprocessRestart(doc: DocId, stage: Stage)
    | ReprocessExtract(doc: DocId)

  /** Steps of one worker through `run_stage`. */
  datatype Action =
    | Deliver(job: JobId, attempt: nat)
    | Compute(cached: bool)
    | Store
    | Commit
    | Raise(error: string, permanent: bool)
    | Settle
    | Complete
    | Enqueue
    | Crash

  /** An exception raised inside the stage function: the message, whether it is permanent, and where. */
  datatype Fault = Fault(error: string, permanent: bool)
  datatype Point = BeforeComputing | BeforeStoring | BeforeCommitting

  /** ARQ's own bookkeeping: a task ends and leaves a result for a while, a task is lost. */
  datatype ArqOp = Finish(job: JobId) | Lose(job: JobId)

  datatype Event =
    | Tick(elapsed: nat)
    | Http(request: Request)
    | Work(worker: WorkerId, action: Action)
    | Arq(op: ArqOp)
    | SweepBegin(pass: nat, stuck: seq<JobId>)
    | SweepStep(pass: nat)

  const INIT := State(Db(map[], map[], map[], 0), 0, map[], map[], map[], {}, map[], map[], map[], map[])

  predicate IsReprocess(ev: Event) {
    ev.Http? && (ev.request.ReprocessReset? || ev.request.ReprocessRestart? || ev.request.ReprocessExtract?)
  }

  function PcOf(s: State, w: WorkerId): Pc {
    if w in s.workers then s.workers[w] else Idle
  }

  function Goto(s: State, w: WorkerId, pc: Pc): State {
    s.(workers := s.workers[w := pc])
  }

  /** `enqueue_job` with `_job_id`: refused while ARQ still holds the task or its result. */
  predicate ArqKnows(s: State, job: JobId) {
    job in s.queue || (job in s.results && s.now < s.results[job])
  }

  /** ARQ has or had the task, whether or not its result has expired. */
  predicate Recorded(s: State, job: JobId) {
    job in s.queue || job in s.results
  }

  function EnqueueJob(s: State, job: JobId, stage: Stage): State {
    if ArqKnows(s, job) then s else s.(queue := s.queue + {job}, tasks := s.tasks[job := stage])
  }

  // ----- requests -----

  function DoPutSource(cfg: Config, s: State, user: UserId, content: Content, ext: Extension): State {
    var key := SourceKey(user, cfg.hash(content), ext);
    if key in s.sources then s else s.(sources := s.sources[key := content])
  }

  predicate Uploaded(db: Db, user: UserId, hash: Hash) {
    exists d :: d in db.docs && db.docs[d].user == user && db.docs[d].contentHash == hash
  }

  /** The document and job rows of a new upload, visible to nobody until the commit. */
  function Reserve(s: State, row: Document): State {
    s.(db := s.db.(nextId := s.db.nextId + 2), uploads := s.uploads[s.db.nextId := Upload(row, s.db.nextId + 1, s.now)])
  }

  /** Upload of new content: the first task is enqueued before the rows are committed. */
  function DoUploadNew(cfg: Config, s: State, user: UserId, content: Content, ext: Extension): State {
    if Uploaded(s.db, user, cfg.hash(content)) then s
    else
      EnqueueJob(Reserve(s, Document(user, cfg.hash(content), ext, Pending, None, None, 0, None, None)),
                 s.db.nextId + 1, Extract)
  }

  function DoUploadCommit(s: State, doc: DocId): State {
    if doc !in s.uploads then s
    else
      var up := s.uploads[doc];
      s.(db := s.db.(docs := s.db.docs[doc := up.document],
                     jobs := s.db.jobs[up.job := QueuedJob(doc, Extract, up.createdAt)]),
         uploads := s.uploads - {doc})
  }

  /** `latest_by_document`: some job of the document with the greatest creation time. */
  predicate IsLatestJob(db: Db, doc: DocId, job: JobId) {
    && job in db.jobs && db.jobs[job].document == doc
    && forall j :: j in db.jobs && db.jobs[j].document == doc ==> db.jobs[j].createdAt <= db.jobs[job].createdAt
  }

  /** Upload of content the user already has: its latest job is enqueued again. */
  function DoUploadKnown(s: State, doc: DocId, job: JobId): State {
    if doc in s.db.docs && IsLatestJob(s.db, doc, job) then EnqueueJob(s, job, s.db.jobs[job].stage) else s
  }

  function InsertJob(s: State, doc: DocId, stage: Stage): State {
    s.(db := SetJob(s.db, s.db.nextId, QueuedJob(doc, stage, s.now)).(nextId := s.db.nextId + 1))
  }

  function DoReprocessExtract(s: State, doc: DocId): State {
    if doc in s.db.docs then EnqueueJob(InsertJob(s, doc, Extract), s.db.nextId, Extract) else s
  }

  // ----- run_stage -----

  /** ARQ is at least once: any task ever enqueued may be delivered, at any attempt number. */
  function DoDeliver(s: State, w: WorkerId, job: JobId, attempt: nat): (s': State)
    ensures s'.now == s.now && s'.sources == s.sources && s'.sweeps == s.sweeps
  {
    if PcOf(s, w) != Idle || job !in s.tasks then s
    else
      Goto(s.(db := StartTx(s.db, job, s.tasks[job], s.now)), w,
           StartedPc(StartOutcomeOf(s.db, job, s.tasks[job]), job, s.tasks[job], attempt))
  }

  function StartedPc(outcome: StartOutcome, job: JobId, stage: Stage, attempt: nat): Pc {
    if outcome.Started? then InStage(Task(job, outcome.document, stage, attempt)) else Idle
  }

  /** Why the index stage refuses the rows: there are none, or the first bad row has no or a wrong embedding. */
  function IndexError(dimension: nat, rows: seq<Row>): string {
    if rows == [] then "no chunks to index"
    else if rows[0].embedding.None? then "chunk has no embedding"
    else if |rows[0].embedding.value| != dimension then "chunk has wrong dimension"
    else IndexError(dimension, rows[1..])
  }

  /** Reading and computing: the part of a stage function before its own writes. */
  function Computed(cfg: Config, s: State, task: Task, cached: bool): Pc {
    if task.doc !in s.db.docs then Failing(task, "document not found")
    else
      var doc := s.db.docs[task.doc];
      var key := Key(doc.contentHash, task.stage);
      var none := StageResult(None, None);
      match task.stage
      case Extract =>
        var source := SourceKey(doc.user, doc.contentHash, doc.ext);
        if cached then
          if key in s.artifacts && s.artifacts[key].ParsedDoc? then
            Committing(task, SetParsedKey(key), StageResult(Some(s.artifacts[key].doc.pages), None))
          else Failing(task, "object not found")
        else if source in s.sources then
          var parsed := cfg.extract(s.sources[source], doc.ext);
          Storing(task, key, ParsedDoc(parsed), SetParsedKey(key), StageResult(Some(parsed.pages), None))
        else Failing(task, "object not found")
      case Clean =>
        if cached && key in s.artifacts then Committing(task, NoEffect, none)
        else if doc.parsedKey.None? then Failing(task, "parsed_key missing")
        else if doc.parsedKey.value in s.artifacts && s.artifacts[doc.parsedKey.value].ParsedDoc? then
          Storing(task, key, ParsedDoc(cfg.clean(s.artifacts[doc.parsedKey.value].doc)), NoEffect, none)
        else Failing(task, "object not found")
      case Chunk =>
        var input := Key(doc.contentHash, Clean);
        if input in s.artifacts && s.artifacts[input].ParsedDoc? then
          Storing(task, key, Rows(cfg.chunk(s.artifacts[input].doc)), NoEffect, none)
        else Failing(task, "object not found")
      case Embed =>
        var input := Key(doc.contentHash, Chunk);
        if input !in s.artifacts || !s.artifacts[input].Rows? then Failing(task, "object not found")
        else if s.artifacts[input].rows == [] then Failing(task, "no chunks to embed")
        else Storing(task, key, Rows(cfg.embed(s.artifacts[input].rows)), NoEffect, none)
      case Index =>
        var input := Key(doc.contentHash, Embed);
        if input !in s.artifacts || !s.artifacts[input].Rows? then Failing(task, "object not found")
        else
          var rows := s.artifacts[input].rows;
          if Indexable(cfg, rows) then Committing(task, Replace(rows), StageResult(None, Some(|rows|)))
          else Failing(task, IndexError(cfg.dimension, rows))
  }

  function DoCompute(cfg: Config, s: State, w: WorkerId, cached: bool): (s': State)
    ensures s'.now == s.now && s'.sources == s.sources && s'.sweeps == s.sweeps
  {
    match PcOf(s, w)
    case InStage(task) => Goto(s, w, Computed(cfg, s, task, cached))
    case _ => s
  }

  /** The artifact write is outside the transaction and survives a later failure. */
  function DoStore(s: State, w: WorkerId): (s': State)
    ensures s'.now == s.now && s'.sources == s.sources && s'.sweeps == s.sweeps
  {
    match PcOf(s, w)
    case Storing(task, key, artifact, effect, result) =>
      Goto(s.(artifacts := s.artifacts[key := artifact]), w, Committing(task, effect, result))
    case _ => s
  }

  /** The stage's own writes; None when the document row they need is gone and the write raises. */
  function EffectDb(db: Db, doc: DocId, effect: Effect): Option<Db> {
    match effect
    case NoEffect => Some(db)
    case SetParsedKey(key) =>
      if doc in db.docs then Some(SetDoc(db, doc, db.docs[doc].(parsedKey := Some(key)))) else None
    case Replace(rows) =>
      if doc in db.docs then Some(ReplaceChunks(db, doc, rows)) else None
  }

  function CommittedPc(cfg: Config, db: Db, task: Task, effect: Effect, result: StageResult): Pc {
    if EffectDb(db, task.doc, effect).Some? then Completing(task, result)
    else Raised(cfg, task, "document row missing", false)
  }

  function CommittedDb(db: Db, doc: DocId, effect: Effect): Db {
    if EffectDb(db, doc, effect).Some? then EffectDb(db, doc, effect).value else db
  }

  /** Commit of the stage's session. */
  function DoCommit(cfg: Config, s: State, w: WorkerId): (s': State)
    ensures s'.now == s.now && s'.sources == s.sources && s'.sweeps == s.sweeps
  {
    match PcOf(s, w)
    case Committing(task, effect, result) =>
      Goto(s.(db := CommittedDb(s.db, task.doc, effect)), w, CommittedPc(cfg, s.db, task, effect, result))
    case _ => s
  }

  /** Classification of an exception raised inside the stage function. */
  function Raised(cfg: Config, task: Task, error: string, permanent: bool): Pc {
    if permanent then Failing(task, error)
    else if task.attempt >= cfg.maxTries then Failing(task, "retries exhausted: " + error)
    else Retrying(task, error)
  }

  function DoRaise(cfg: Config, s: State, w: WorkerId, error: string, permanent: bool): (s': State)
    ensures s'.now == s.now && s'.sources == s.sources && s'.sweeps == s.sweeps
  {
    var pc := PcOf(s, w);
    if pc.InStage? || pc.Storing? || pc.Committing? then Goto(s, w, Raised(cfg, pc.task, error, permanent)) else s
  }

  /** The separate session that records a failure; a retry is raised to ARQ afterwards. */
  function DoSettle(s: State, w: WorkerId): (s': State)
    ensures s'.now == s.now && s'.sources == s.sources && s'.sweeps == s.sweeps
  {
    match PcOf(s, w)
    case Failing(task, error) => Goto(s.(db := FailStage(s.db, task.job, error, s.now)), w, Idle)
    case Retrying(task, error) => Goto(s.(db := RecordAttempt(s.db, task.job, error, task.attempt)), w, Idle)
    case _ => s
  }

  /** Where the worker goes after the completing session; a missing job propagates out of the task. */
  function CompletedPc(outcome: CompleteOutcome, task: Task): Pc {
    match outcome
    case Completed(id) =>
      var next := NextStage(task.stage);
      if id.Some? && next.Some? then Enqueueing(id.value, next.value) else Idle
    case CompleteJobMissing => Idle
    case CompleteAlreadyDone => Idle
    case CompleteDocMissing => Failing(task, "document not found")
    case CompleteInvalid => Failing(task, "invalid transition")
  }

  function DoComplete(s: State, w: WorkerId): (s': State)
    ensures s'.now == s.now && s'.sources == s.sources && s'.sweeps == s.sweeps
  {
    match PcOf(s, w)
    case Completing(task, result) =>
      var next := NextStage(task.stage);
      Goto(s.(db := CompleteStage(s.db, task.job, result, next, s.now)), w,
           CompletedPc(CompleteOutcomeOf(s.db, task.job, next), task))
    case _ => s
  }

  function DoEnqueue(s: State, w: WorkerId): (s': State)
    ensures s'.now == s.now && s'.sources == s.sources && s'.sweeps == s.sweeps
  {
    match PcOf(s, w)
    case Enqueueing(next, stage) => Goto(EnqueueJob(s, next, stage), w, Idle)
    case _ => s
  }

  // ----- sweep_pipeline -----

  /** The rows `list_stuck` selects; a null `started_at` never compares as older. */
  predicate IsStuck(job: Job, now: Time) {
    || (job.status == Queued && job.createdAt + STUCK_QUEUE_AFTER < now)
    || (job.status == Running && job.startedAt.Some? && job.startedAt.value + STUCK_RUNNING_AFTER < now)
  }

  predicate IsSnapshot(db: Db, now: Time, stuck: seq<JobId>) {
    && (forall i, j :: 0 <= i < j < |stuck| ==> stuck[i] != stuck[j])
    && (forall i :: 0 <= i < |stuck| ==> stuck[i] in db.jobs && IsStuck(db.jobs[stuck[i]], now))
    && (forall j :: j in db.jobs && IsStuck(db.jobs[j], now) ==> j in stuck)
  }

  predicate TooOld(job: Job, now: Time) {
    (if job.startedAt.Some? then job.startedAt.value else job.createdAt) + GIVE_UP_AFTER < now
  }

  function DoSweepBegin(s: State, p: nat, stuck: seq<JobId>): (s': State)
    ensures s'.db == s.db && s'.now == s.now && s'.workers == s.workers
    ensures s'.uploads == s.uploads && s'.sources == s.sources && s'.artifacts == s.artifacts
  {
    if !IsSnapshot(s.db, s.now, stuck) then s
    else
      var todo := seq(|stuck|, i requires 0 <= i < |stuck| && stuck[i] in s.db.jobs => (stuck[i], s.db.jobs[stuck[i]]));
      s.(sweeps := s.sweeps[p := Sweep(s.now, todo, 0, 0, 0)])
  }

  /** Decided on the snapshot row: presumed dead, or too old whatever its status. */
  predicate SweepFails(sweep: Sweep, job: Job) {
    job.status == Running || TooOld(job, sweep.startedAt)
  }

  function SweepError(sweep: Sweep, job: Job): string {
    if TooOld(job, sweep.startedAt) then "sweep: retries/age exhausted" else "sweep: worker presumed dead"
  }

  function SweepDb(db: Db, id: JobId, job: Job, sweep: Sweep, now: Time): Db {
    if SweepFails(sweep, job) then FailStage(db, id, SweepError(sweep, job), now) else db
  }

  function SweepItem(s: State, p: nat, id: JobId, job: Job, sweep: Sweep): (s': State)
    ensures s'.db == SweepDb(s.db, id, job, sweep, s.now) && s'.now == s.now && s'.workers == s.workers
    ensures s'.uploads == s.uploads && s'.sources == s.sources && s'.artifacts == s.artifacts
  {
    if SweepFails(sweep, job) then
      s.(db := SweepDb(s.db, id, job, sweep, s.now),
         sweeps := s.sweeps[p := sweep.(failed := sweep.failed + 1)])
    else if job.status != Queued || ArqKnows(s, id) then
      s.(sweeps := s.sweeps[p := sweep.(skipped := sweep.skipped + 1)])
    else
      EnqueueJob(s, id, job.stage).(sweeps := s.sweeps[p := sweep.(requeued := sweep.requeued + 1)])
  }

  /** One iteration of the sweep loop. */
  function DoSweepStep(s: State, p: nat): (s': State)
    ensures s'.now == s.now && s'.workers == s.workers
  {
    if p !in s.sweeps || s.sweeps[p].todo == [] then s
    else
      var sweep := s.sweeps[p];
      SweepItem(s, p, sweep.todo[0].0, sweep.todo[0].1, sweep.(todo := sweep.todo[1..]))
  }

  // ----- runs -----

  function OnRequest(cfg: Config, s: State, request: Request): (s': State)
    ensures s'.now == s.now && s'.workers == s.workers && s'.sweeps == s.sweeps
  {
    match request
    case PutSource(user, content, ext) => DoPutSource(cfg, s, user, content, ext)
    case UploadNew(user, content, ext) => DoUploadNew(cfg, s, user, content, ext)
    case UploadCommit(doc) => DoUploadCommit(s, doc)
    case UploadRollback(doc) => s.(uploads := s.uploads - {doc})
    case UploadKnown(doc, job) => DoUploadKnown(s, doc, job)
    case Delete(doc) => s.(db := DeleteDocument(s.db, doc))
    case DropSource(key) => s.(sources := s.sources - {key})
    case DropArtifact(key) => s.(artifacts := s.artifacts - {key})
    case ReprocessReset(doc) => s.(db := ResetDocument(s.db, doc))
    case ReprocessRestart(doc, stage) => if doc in s.db.docs then InsertJob(s, doc, stage) else s
    case ReprocessExtract(doc) => DoReprocessExtract(s, doc)
  }

  function OnWork(cfg: Config, s: State, w: WorkerId, action: Action): (s': State)
    ensures s'.now == s.now && s'.sources == s.sources && s'.sweeps == s.sweeps
  {
    match action
    case Deliver(job, attempt) => DoDeliver(s, w, job, attempt)
    case Compute(cached) => DoCompute(cfg, s, w, cached)
    case Store => DoStore(s, w)
    case Commit => DoCommit(cfg, s, w)
    case Raise(error, permanent) => DoRaise(cfg, s, w, error, permanent)
    case Settle => DoSettle(s, w)
    case Complete => DoComplete(s, w)
    case Enqueue => DoEnqueue(s, w)
    case Crash => Goto(s, w, Idle)
  }

  function OnArq(cfg: Config, s: State, op: ArqOp): (s': State)
    ensures s'.db == s.db && s'.now == s.now && s'.workers == s.workers && s'.sweeps == s.sweeps
    ensures s'.uploads == s.uploads && s'.sources == s.sources && s'.artifacts == s.artifacts
  {
    match op
    case Finish(job) =>
      if job in s.queue then s.(queue := s.queue - {job}, results := s.results[job := s.now + cfg.keepResult]) else s
    case Lose(job) => s.(queue := s.queue - {job})
  }

  function Dispatch(cfg: Config, s: State, ev: Event): State {
    match ev
    case Tick(elapsed) => s.(now := s.now + elapsed)
    case Http(request) => OnRequest(cfg, s, request)
    case Work(w, action) => OnWork(cfg, s, w, action)
    case Arq(op) => OnArq(cfg, s, op)
    case SweepBegin(p, stuck) => DoSweepBegin(s, p, stuck)
    case SweepStep(p) => DoSweepStep(s, p)
  }

  /** The clock strictly advances with every event. */
  function Later(s: State): State {
    s.(now := s.now + 1)
  }

  function Apply(cfg: Config, s: State, ev: Event): State {
    Dispatch(cfg, Later(s), ev)
  }

  function Run(cfg: Config, s: State, evs: seq<Event>): State
    decreases |evs|
  {
    if evs == [] then s else Apply(cfg, Run(cfg, s, evs[..|evs| - 1]), evs[|evs| - 1])
  }

  lemma RunSnoc(cfg: Config, s: State, evs: seq<Event>, ev: Event)
    ensures Run(cfg, s, evs + [ev]) == Apply(cfg, Run(cfg, s, evs), ev)
  {
    assert (evs + [ev])[..|evs|] == evs;
  }

  lemma RunThen(cfg: Config, s: State, a: seq<Event>, s1: State, b: seq<Event>, s2: State)
    requires Run(cfg, s, a) == s1 && Run(cfg, s1, b) == s2
    ensures Run(cfg, s, a + b) == s2
  {
    RunConcat(cfg, s, a, b);
  }

  lemma RunOne(cfg: Config, s: State, ev: Event, s': State)
    requires s' == Dispatch(cfg, Later(s), ev)
    ensures Run(cfg, s, [ev]) == s'
  {
    RunSnoc(cfg, s, [], ev);
    assert [] + [ev] == [ev];
  }

  lemma {:induction false} RunConcat(cfg: Config, s: State, a: seq<Event>, b: seq<Event>)
    ensures Run(cfg, s, a + b) == Run(cfg, Run(cfg, s, a), b)
    decreases |b|
  {
    if b == [] {
      assert a + b == a;
    } else {
      var ab := a + b;
      assert ab[..|ab| - 1] == a + b[..|b| - 1] && ab[|ab| - 1] == b[|b| - 1];
      RunConcat(cfg, s, a, b[..|b| - 1]);
    }
  }
}
