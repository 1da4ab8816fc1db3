// Deliveries in which nothing fails: a document goes through all stages and is indexed. Used to
// show what the artifact cache does to the same bytes under two suffixes.
module HappyPath {
  import opened Types
  import opened Database
  import opened Pipeline
  import opened Deliveries
  import opened Moves

  /** The bytes produce chunks, and rows the index stage accepts. */
  predicate Usable(cfg: Config, c: Content, e: Extension) {
    cfg.chunk(cfg.clean(cfg.extract(c, e))) != [] && Indexable(cfg, PipelineRows(cfg, c, e))
  }

  /** The artifacts of the first `n` stages are cached, as computed under suffix `e`. */
  ghost predicate Cached(cfg: Config, artifacts: map<Key, Artifact>, c: Content, e: Extension, n: nat) {
    forall stage {:trigger Key(cfg.hash(c), stage)} :: stage != Index && StageIndex(stage) < n ==>
      Key(cfg.hash(c), stage) in artifacts && artifacts[Key(cfg.hash(c), stage)] == Expected(cfg, c, e, stage)
  }

  function EffectOf(cfg: Config, c: Content, e: Extension, stage: Stage): Effect {
    match stage
    case Extract => SetParsedKey(Key(cfg.hash(c), Extract))
    case Index => Replace(PipelineRows(cfg, c, e))
    case _ => NoEffect
  }

  function ResultOf(cfg: Config, c: Content, e: Extension, stage: Stage): StageResult {
    match stage
    case Extract => StageResult(Some(cfg.extract(c, e).pages), None)
    case Index => StageResult(None, Some(|PipelineRows(cfg, c, e)|))
    case _ => StageResult(None, None)
  }

  /** What the stage needs to find: its inputs, or its own artifact if it is to take that. */
  ghost predicate Supplied(cfg: Config, s: State, d: DocId, c: Content, e: Extension, stage: Stage, cached: bool) {
    && d in s.db.docs && s.db.docs[d].contentHash == cfg.hash(c)
    && Cached(cfg, s.artifacts, c, e, StageIndex(stage) + if cached && stage in {Extract, Clean} then 1 else 0)
    && (stage == Extract && !cached ==>
          var doc := s.db.docs[d];
          doc.ext == e && SourceKey(doc.user, doc.contentHash, e) in s.sources
          && s.sources[SourceKey(doc.user, doc.contentHash, e)] == c)
    && (stage == Clean && !cached ==> s.db.docs[d].parsedKey == Some(Key(cfg.hash(c), Extract)))
  }

  /** The stage writes no artifact: indexing never does, extract and clean may take what is cached. */
  predicate WritesNothing(stage: Stage, cached: bool) {
    stage == Index || (cached && stage in {Extract, Clean})
  }

  lemma ComputesExpected(cfg: Config, s: State, task: Task, c: Content, e: Extension, cached: bool)
    requires Usable(cfg, c, e) && Supplied(cfg, s, task.doc, c, e, task.stage, cached)
    ensures var effect, result := EffectOf(cfg, c, e, task.stage), ResultOf(cfg, c, e, task.stage);
            Computed(cfg, s, task, cached) ==
              if WritesNothing(task.stage, cached) then Committing(task, effect, result)
              else Storing(task, Key(cfg.hash(c), task.stage), Expected(cfg, c, e, task.stage), effect, result)
  {
    var h := cfg.hash(c);
    assert StageIndex(Extract) == 0 && StageIndex(Clean) == 1 && StageIndex(Chunk) == 2 && StageIndex(Embed) == 3;
    match task.stage
    case Extract => assert cached ==> Key(h, Extract) in s.artifacts;
    case Clean => assert Key(h, Extract) in s.artifacts && (cached ==> Key(h, Clean) in s.artifacts);
    case Chunk => assert Key(h, Clean) in s.artifacts;
    case Embed => assert Key(h, Chunk) in s.artifacts;
    case Index => assert Key(h, Embed) in s.artifacts;
  }

  /** The row is the same apart from its status and error. */
  predicate SameButStatus(a: Document, b: Document) {
    b == a.(status := b.status, error := b.error)
  }

  predicate SameStore(s: State, s': State) {
    s'.artifacts == s.artifacts && s'.sources == s.sources && s'.uploads == s.uploads
  }

  lemma DeliverContent(s: State, w: WorkerId, d: DocId, j: JobId, attempt: nat)
    requires Ready(s, w, d, j)
    ensures var s' := DoDeliver(s, w, j, attempt);
            && SameStore(s, s') && s'.db.chunks == s.db.chunks && s'.db.nextId == s.db.nextId
            && d in s'.db.docs && SameButStatus(s.db.docs[d], s'.db.docs[d]) && s'.db.docs == s.db.docs[d := s'.db.docs[d]]
  {
  }

  /** The stage function has run and committed: the artifact is cached and the effect is in the tables. */
  ghost predicate WorkDone(cfg: Config, s: State, w: WorkerId, task: Task, c: Content, e: Extension, cached: bool, s': State)
    requires task.doc in s.db.docs
  {
    && Live(s', w, task, Completing(task, ResultOf(cfg, c, e, task.stage)))
    && s'.sources == s.sources && s'.uploads == s.uploads && s'.db.nextId == s.db.nextId
    && SameButStatus(if task.stage == Extract then s.db.docs[task.doc].(parsedKey := Some(Key(cfg.hash(c), Extract)))
                     else s.db.docs[task.doc], s'.db.docs[task.doc])
    && s'.db.docs == s.db.docs[task.doc := s'.db.docs[task.doc]]
    && s'.db.chunks == (if task.stage == Index then s.db.chunks[task.doc := PipelineRows(cfg, c, e)] else s.db.chunks)
    && s'.artifacts == (if WritesNothing(task.stage, cached) then s.artifacts
                        else s.artifacts[Key(cfg.hash(c), task.stage) := Expected(cfg, c, e, task.stage)])
  }

  lemma StoreContent(s: State, w: WorkerId, task: Task, pc: Pc)
    requires Live(s, w, task, pc) && (pc.Storing? || pc.Committing?)
    ensures var s' := DoStore(s, w);
            && Live(s', w, task, Committing(pc.task, pc.effect, pc.result))
            && s'.sources == s.sources && s'.uploads == s.uploads && s'.db == s.db
            && s'.artifacts == if pc.Storing? then s.artifacts[pc.key := pc.artifact] else s.artifacts
  {
  }

  lemma StoreAndCommit(cfg: Config, s: State, w: WorkerId, task: Task, c: Content, e: Extension, cached: bool, pc: Pc)
    returns (s': State)
    requires Live(s, w, task, pc)
    requires var effect, result := EffectOf(cfg, c, e, task.stage), ResultOf(cfg, c, e, task.stage);
             pc == if WritesNothing(task.stage, cached) then Committing(task, effect, result)
                   else Storing(task, Key(cfg.hash(c), task.stage), Expected(cfg, c, e, task.stage), effect, result)
    ensures s' == DoCommit(cfg, Later(DoStore(Later(s), w)), w) && WorkDone(cfg, s, w, task, c, e, cached, s')
  {
    var effect, result := EffectOf(cfg, c, e, task.stage), ResultOf(cfg, c, e, task.stage);
    LaterLive(s, w, task, pc);
    StoreContent(Later(s), w, task, pc);
    var s2 := DoStore(Later(s), w);
    LaterLive(s2, w, task, Committing(task, effect, result));
    CommitContent(cfg, Later(s2), w, task, effect, result);
    s' := DoCommit(cfg, Later(s2), w);
  }

  lemma CommitContent(cfg: Config, s: State, w: WorkerId, task: Task, effect: Effect, result: StageResult)
    requires Live(s, w, task, Committing(task, effect, result))
    ensures var s', d := DoCommit(cfg, s, w), task.doc;
            && Live(s', w, task, Completing(task, result))
            && SameStore(s, s') && s'.db.nextId == s.db.nextId
            && s'.db.docs == (if effect.SetParsedKey? then s.db.docs[d := s.db.docs[d].(parsedKey := Some(effect.key))] else s.db.docs)
            && s'.db.chunks == (if effect.Replace? then s.db.chunks[d := effect.rows] else s.db.chunks)
  {
  }

  const NO_FAULT := Outcome(false, None)
  const FROM_CACHE := Outcome(true, None)

  function Plainly(cached: bool): Outcome {
    if cached then FROM_CACHE else NO_FAULT
  }

  lemma WorkedPlainly(cfg: Config, s: State, w: WorkerId, j: JobId, cached: bool)
    ensures Worked(cfg, s, w, j, 1, Plainly(cached))
            == DoCommit(cfg, Later(DoStore(Later(DoCompute(cfg, Later(DoDeliver(Later(s), w, j, 1)), w, cached)), w)), w)
  {
  }

  lemma ComputeAndCommit(cfg: Config, s: State, w: WorkerId, task: Task, c: Content, e: Extension, cached: bool) returns (s': State)
    requires Live(s, w, task, InStage(task)) && Usable(cfg, c, e) && Supplied(cfg, s, task.doc, c, e, task.stage, cached)
    ensures s' == DoCommit(cfg, Later(DoStore(Later(DoCompute(cfg, Later(s), w, cached)), w)), w)
    ensures WorkDone(cfg, s, w, task, c, e, cached, s')
  {
    LaterLive(s, w, task, InStage(task));
    ComputeStepPlain(cfg, Later(s), w, task, cached);
    ComputesExpected(cfg, Later(s), task, c, e, cached);
    s' := StoreAndCommit(cfg, DoCompute(cfg, Later(s), w, cached), w, task, c, e, cached, Computed(cfg, Later(s), task, cached));
  }

  lemma WorkDoneSinceDelivery(cfg: Config, s: State, s0: State, w: WorkerId, task: Task, c: Content, e: Extension, cached: bool, s': State)
    requires task.doc in s.db.docs && task.doc in s0.db.docs && SameStore(s, s0)
    requires s0.db.chunks == s.db.chunks && s0.db.nextId == s.db.nextId
    requires SameButStatus(s.db.docs[task.doc], s0.db.docs[task.doc]) && s0.db.docs == s.db.docs[task.doc := s0.db.docs[task.doc]]
    requires WorkDone(cfg, s0, w, task, c, e, cached, s')
    ensures WorkDone(cfg, s, w, task, c, e, cached, s')
  {
  }

  lemma WorkSucceeds(cfg: Config, s: State, w: WorkerId, d: DocId, j: JobId, c: Content, e: Extension, cached: bool)
    requires Ready(s, w, d, j) && Usable(cfg, c, e) && Supplied(cfg, s, d, c, e, s.db.jobs[j].stage, cached)
    ensures WorkDone(cfg, s, w, Task(j, d, s.db.jobs[j].stage, 1), c, e, cached, Worked(cfg, s, w, j, 1, Plainly(cached)))
  {
    var task := Task(j, d, s.db.jobs[j].stage, 1);
    LaterReady(s, w, d, j);
    DeliverStep(Later(s), w, d, j, 1);
    DeliverContent(Later(s), w, d, j, 1);
    var s0 := DoDeliver(Later(s), w, j, 1);
    var s' := ComputeAndCommit(cfg, s0, w, task, c, e, cached);
    WorkedPlainly(cfg, s, w, j, cached);
    WorkDoneSinceDelivery(cfg, s, s0, w, task, c, e, cached, s');
  }

  lemma ComputeStepPlain(cfg: Config, s: State, w: WorkerId, task: Task, cached: bool)
    requires Live(s, w, task, InStage(task))
    ensures var s' := DoCompute(cfg, s, w, cached);
            Live(s', w, task, Computed(cfg, s, task, cached)) && SameStore(s, s') && s'.db == s.db
  {
  }

  // ----- completing a stage -----

  /** Same owner, bytes and suffix, and the same link to the parsed artifact. */
  predicate SameIdentity(a: Document, b: Document) {
    b.user == a.user && b.contentHash == a.contentHash && b.ext == a.ext && b.parsedKey == a.parsedKey
  }

  /** What completing changes: only the row of the document, and for the index stage its final state. */
  ghost predicate CompletedContent(s: State, task: Task, result: StageResult, s': State) {
    && SameStore(s, s') && s'.db.chunks == s.db.chunks
    && task.doc in s.db.docs && task.doc in s'.db.docs
    && s'.db.docs == s.db.docs[task.doc := s'.db.docs[task.doc]]
    && SameIdentity(s.db.docs[task.doc], s'.db.docs[task.doc])
    && (task.stage == Index && result.inserted.Some? ==>
          s'.db.docs[task.doc].status == Indexed && s'.db.docs[task.doc].chunkCount == result.inserted.value)
  }

  lemma CompleteContent(s: State, w: WorkerId, task: Task, result: StageResult)
    requires Live(s, w, task, Completing(task, result))
    ensures CompletedContent(s, task, result, DoComplete(s, w))
  {
  }

  /** Enqueueing touches neither the tables nor the store. */
  lemma EnqueueContent(s: State, w: WorkerId, pc: Pc, s': State)
    requires pc == PcOf(s, w) && s' == DoEnqueue(s, w) && (pc.Idle? || pc.Enqueueing?)
    ensures s'.db == s.db && SameStore(s, s') && PcOf(s', w) == Idle
  {
    if pc.Enqueueing? { EnqueueLeaves(s, pc.next, pc.nextStage, EnqueueJob(s, pc.next, pc.nextStage)); }
  }

  lemma RestContent(s: State, w: WorkerId, task: Task, result: StageResult, s1: State, s2: State, s3: State)
    requires CompletedContent(s, task, result, s1) && (PcOf(s1, w).Idle? || PcOf(s1, w).Enqueueing?)
    requires s2 == DoEnqueue(Later(s1), w) && s3 == DoSettle(Later(s2), w)
    ensures CompletedContent(s, task, result, s3)
  {
    EnqueueContent(Later(s1), w, PcOf(s1, w), s2);
    NothingLeft(Later(s2), w);
  }

  lemma CompletionContent(cfg: Config, s: State, w: WorkerId, task: Task, result: StageResult) returns (s': State)
    requires Live(s, w, task, Completing(task, result))
    ensures s' == DoSettle(Later(DoEnqueue(Later(DoComplete(Later(s), w)), w)), w)
    ensures CompletedContent(s, task, result, s')
    ensures if task.stage == Index then PcOf(s', w) == Idle else Advanced(s', w, task.doc, task.job, task.stage)
  {
    LaterLive(s, w, task, Completing(task, result));
    CompleteContent(Later(s), w, task, result);
    CompleteStep(Later(s), w, task, result);
    s' := CompletionProgresses(cfg, s, w, task, result);
    RestContent(Later(s), w, task, result, DoComplete(Later(s), w), DoEnqueue(Later(DoComplete(Later(s), w)), w), s');
    if task.stage == Index {
      var s5 := DoComplete(Later(s), w);
      NothingLeft(Later(s5), w);
      NothingLeft(Later(Later(s5)), w);
    } else {
      NotFinished(s, w, task, result);
    }
  }

  lemma NotFinished(s: State, w: WorkerId, task: Task, result: StageResult)
    requires Live(s, w, task, Completing(task, result)) && task.stage != Index
    ensures !Finished(DoSettle(Later(DoEnqueue(Later(DoComplete(Later(s), w)), w)), w), task.doc)
  {
    LaterLive(s, w, task, Completing(task, result));
    CompleteStep(Later(s), w, task, result);
    var s5, n, next := DoComplete(Later(s), w), s.db.nextId, NextStage(task.stage).value;
    assert NextWaits(Later(s5), w, task.doc, n, next);
    EnqueueStep(Later(s5), w, task.doc, n, next);
    NothingLeft(Later(DoEnqueue(Later(s5), w)), w);
  }

  // ----- all stages -----

  ghost predicate StageDone(cfg: Config, s: State, w: WorkerId, task: Task, c: Content, e: Extension, cached: bool, s': State) {
    && s'.sources == s.sources && s'.uploads == s.uploads
    && task.doc in s.db.docs && task.doc in s'.db.docs && s'.db.docs == s.db.docs[task.doc := s'.db.docs[task.doc]]
    && SameIdentity(if task.stage == Extract then s.db.docs[task.doc].(parsedKey := Some(Key(cfg.hash(c), Extract)))
                    else s.db.docs[task.doc], s'.db.docs[task.doc])
    && s'.artifacts == (if WritesNothing(task.stage, cached) then s.artifacts
                        else s.artifacts[Key(cfg.hash(c), task.stage) := Expected(cfg, c, e, task.stage)])
    && if task.stage == Index then
         PcOf(s', w) == Idle && s'.db.docs[task.doc].status == Indexed
         && ChunkRows(s'.db, task.doc) == PipelineRows(cfg, c, e)
         && s'.db.docs[task.doc].chunkCount == |PipelineRows(cfg, c, e)|
       else Advanced(s', w, task.doc, task.job, task.stage)
  }

  lemma DoneTogether(cfg: Config, s: State, w: WorkerId, task: Task, c: Content, e: Extension, cached: bool, s4: State, s': State)
    requires task.doc in s.db.docs && WorkDone(cfg, s, w, task, c, e, cached, s4)
    requires CompletedContent(s4, task, ResultOf(cfg, c, e, task.stage), s')
    requires if task.stage == Index then PcOf(s', w) == Idle else Advanced(s', w, task.doc, task.job, task.stage)
    ensures StageDone(cfg, s, w, task, c, e, cached, s')
  {
  }

  lemma StageSucceeds(cfg: Config, s: State, w: WorkerId, d: DocId, j: JobId, c: Content, e: Extension, cached: bool)
    requires Ready(s, w, d, j) && Usable(cfg, c, e) && Supplied(cfg, s, d, c, e, s.db.jobs[j].stage, cached)
    ensures StageDone(cfg, s, w, Task(j, d, s.db.jobs[j].stage, 1), c, e, cached, Delivered(cfg, s, w, j, 1, Plainly(cached)))
  {
    var task := Task(j, d, s.db.jobs[j].stage, 1);
    WorkSucceeds(cfg, s, w, d, j, c, e, cached);
    var s4 := Worked(cfg, s, w, j, 1, Plainly(cached));
    var s' := CompletionContent(cfg, s4, w, task, ResultOf(cfg, c, e, task.stage));
    DoneTogether(cfg, s, w, task, c, e, cached, s4, s');
  }

  /** A finished stage leaves the cache with its artifact and everything that was there. */
  lemma CacheGrows(cfg: Config, s: State, w: WorkerId, task: Task, c: Content, e: Extension, cached: bool, s': State, n: nat)
    requires StageDone(cfg, s, w, task, c, e, cached, s') && Cached(cfg, s.artifacts, c, e, n) && n >= StageIndex(task.stage)
    requires WritesNothing(task.stage, cached) ==> n > StageIndex(task.stage) || task.stage == Index
    ensures Cached(cfg, s'.artifacts, c, e, n) && Cached(cfg, s'.artifacts, c, e, StageIndex(task.stage) + 1)
  {
    forall stage | stage != Index && StageIndex(stage) < StageIndex(task.stage) + 1
      ensures Key(cfg.hash(c), stage) in s'.artifacts && s'.artifacts[Key(cfg.hash(c), stage)] == Expected(cfg, c, e, stage)
    {
      if StageIndex(stage) == StageIndex(task.stage) { assert stage == task.stage; }
    }
  }

  /** Everything the remaining stages will need. */
  ghost predicate Provided(cfg: Config, s: State, d: DocId, c: Content, e: Extension, stage: Stage, cached: bool) {
    && Supplied(cfg, s, d, c, e, stage, cached)
    && (cached ==> Cached(cfg, s.artifacts, c, e, 2))
    && (stage != Extract ==> s.db.docs[d].parsedKey == Some(Key(cfg.hash(c), Extract)))
  }

  lemma ProvidesNext(cfg: Config, s: State, w: WorkerId, task: Task, c: Content, e: Extension, cached: bool, s': State)
    requires StageDone(cfg, s, w, task, c, e, cached, s') && task.stage != Index && Provided(cfg, s, task.doc, c, e, task.stage, cached)
    ensures Provided(cfg, s', task.doc, c, e, NextStage(task.stage).value, cached)
  {
    CacheGrows(cfg, s, w, task, c, e, cached, s',
               StageIndex(task.stage) + if cached && task.stage in {Extract, Clean} then 1 else 0);
    if cached && StageIndex(task.stage) <= 2 { CacheGrows(cfg, s, w, task, c, e, cached, s', 2); }
    if cached && StageIndex(task.stage) > 2 { CacheShrinks(cfg, s'.artifacts, c, e, StageIndex(task.stage) + 1, 2); }
  }

  lemma CacheShrinks(cfg: Config, artifacts: map<Key, Artifact>, c: Content, e: Extension, n: nat, m: nat)
    requires Cached(cfg, artifacts, c, e, n) && m <= n
    ensures Cached(cfg, artifacts, c, e, m)
  {
  }

  predicate OnlyWork(w: WorkerId, evs: seq<Event>) {
    forall i :: 0 <= i < |evs| ==> evs[i].Work? && evs[i].worker == w
  }

  /** The document is indexed with the rows of `c` under suffix `e`; the other rows are as before. */
  ghost predicate IndexedAs(cfg: Config, s: State, d: DocId, c: Content, e: Extension, s': State) {
    && s'.sources == s.sources && s'.uploads == s.uploads
    && d in s.db.docs && d in s'.db.docs && s'.db.docs == s.db.docs[d := s'.db.docs[d]]
    && s'.db.docs[d].user == s.db.docs[d].user && s'.db.docs[d].contentHash == s.db.docs[d].contentHash
    && s'.db.docs[d].ext == s.db.docs[d].ext && s'.db.docs[d].status == Indexed
    && ChunkRows(s'.db, d) == PipelineRows(cfg, c, e) && s'.db.docs[d].chunkCount == |PipelineRows(cfg, c, e)|
  }

  lemma IndexDone(cfg: Config, s: State, w: WorkerId, task: Task, c: Content, e: Extension, cached: bool, s': State)
    requires StageDone(cfg, s, w, task, c, e, cached, s') && task.stage == Index && Provided(cfg, s, task.doc, c, e, Index, cached)
    ensures IndexedAs(cfg, s, task.doc, c, e, s') && PcOf(s', w) == Idle && Cached(cfg, s'.artifacts, c, e, 4)
  {
    CacheGrows(cfg, s, w, task, c, e, cached, s', 4);
  }

  lemma StageThenRest(cfg: Config, s: State, w: WorkerId, task: Task, c: Content, e: Extension, cached: bool, s1: State, s': State)
    requires StageDone(cfg, s, w, task, c, e, cached, s1) && IndexedAs(cfg, s1, task.doc, c, e, s')
    ensures IndexedAs(cfg, s, task.doc, c, e, s')
  {
  }

  lemma StageRuns(cfg: Config, s: State, w: WorkerId, d: DocId, j: JobId, c: Content, e: Extension, cached: bool)
    returns (evs: seq<Event>, s1: State)
    requires Ready(s, w, d, j) && Usable(cfg, c, e) && Provided(cfg, s, d, c, e, s.db.jobs[j].stage, cached)
    ensures OnlyWork(w, evs) && s1 == Run(cfg, s, evs)
    ensures StageDone(cfg, s, w, Task(j, d, s.db.jobs[j].stage, 1), c, e, cached, s1)
  {
    StageSucceeds(cfg, s, w, d, j, c, e, cached);
    DeliveredIsRun(cfg, s, w, j, 1, Plainly(cached));
    evs, s1 := DeliveryEvents(w, j, 1, Plainly(cached)), Delivered(cfg, s, w, j, 1, Plainly(cached));
    WorkEvents(w, j, 1, Plainly(cached));
  }

  lemma WorkEvents(w: WorkerId, j: JobId, attempt: nat, outcome: Outcome)
    ensures OnlyWork(w, DeliveryEvents(w, j, attempt, outcome))
  {
  }

  lemma NextStageRuns(cfg: Config, s: State, w: WorkerId, d: DocId, j: JobId, c: Content, e: Extension, cached: bool)
    returns (evs: seq<Event>, s1: State, n: JobId)
    requires Ready(s, w, d, j) && Usable(cfg, c, e) && Provided(cfg, s, d, c, e, s.db.jobs[j].stage, cached)
    requires s.db.jobs[j].stage != Index
    ensures OnlyWork(w, evs) && s1 == Run(cfg, s, evs)
    ensures StageDone(cfg, s, w, Task(j, d, s.db.jobs[j].stage, 1), c, e, cached, s1)
    ensures Ready(s1, w, d, n) && NextStage(s.db.jobs[j].stage) == Some(s1.db.jobs[n].stage)
    ensures Provided(cfg, s1, d, c, e, s1.db.jobs[n].stage, cached)
  {
    evs, s1 := StageRuns(cfg, s, w, d, j, c, e, cached);
    n := s1.db.nextId - 1;
    ProvidesNext(cfg, s, w, Task(j, d, s.db.jobs[j].stage, 1), c, e, cached, s1);
  }

  lemma OnlyWorkBoth(w: WorkerId, a: seq<Event>, b: seq<Event>)
    requires OnlyWork(w, a) && OnlyWork(w, b)
    ensures OnlyWork(w, a + b)
  {
  }

  /** Left alone, the remaining stages index the document; the cache holds all their artifacts then. */
  lemma {:induction false} StagesIndex(cfg: Config, s: State, w: WorkerId, d: DocId, j: JobId, c: Content, e: Extension, cached: bool)
    returns (evs: seq<Event>, s': State)
    requires Ready(s, w, d, j) && Usable(cfg, c, e) && Provided(cfg, s, d, c, e, s.db.jobs[j].stage, cached)
    ensures OnlyWork(w, evs) && s' == Run(cfg, s, evs)
    ensures IndexedAs(cfg, s, d, c, e, s') && PcOf(s', w) == Idle && Cached(cfg, s'.artifacts, c, e, 4)
    decreases STAGE_COUNT - StageIndex(s.db.jobs[j].stage)
  {
    var task := Task(j, d, s.db.jobs[j].stage, 1);
    if task.stage == Index {
      evs, s' := StageRuns(cfg, s, w, d, j, c, e, cached);
      IndexDone(cfg, s, w, task, c, e, cached, s');
    } else {
      var first, s1, n := NextStageRuns(cfg, s, w, d, j, c, e, cached);
      var more;
      more, s' := StagesIndex(cfg, s1, w, d, n, c, e, cached);
      RunThen(cfg, s, first, s1, more, s');
      StageThenRest(cfg, s, w, task, c, e, cached, s1, s');
      OnlyWorkBoth(w, first, more);
      evs := first + more;
    }
  }

  // ----- uploads -----

  function UploadEvents(user: UserId, c: Content, ext: Extension, d: DocId): seq<Event> {
    [Http(PutSource(user, c, ext))] + [Http(UploadNew(user, c, ext))] + [Http(UploadCommit(d))]
  }

  /** A state in which nothing is in flight. */
  ghost predicate Quiet(s: State, w: WorkerId) {
    Unused(s) && s.uploads == map[] && PcOf(s, w) == Idle
  }

  function NewRow(cfg: Config, user: UserId, c: Content, ext: Extension): Document {
    Document(user, cfg.hash(c), ext, Pending, None, None, 0, None, None)
  }

  lemma PutIs(cfg: Config, s: State, w: WorkerId, user: UserId, c: Content, ext: Extension) returns (s': State)
    requires Quiet(s, w) && SourceKey(user, cfg.hash(c), ext) !in s.sources
    ensures s' == Run(cfg, s, [Http(PutSource(user, c, ext))])
    ensures Quiet(s', w) && s'.db == s.db && s'.artifacts == s.artifacts
    ensures s'.sources == s.sources[SourceKey(user, cfg.hash(c), ext) := c]
  {
    assert [Http(PutSource(user, c, ext))][..0] == [];
    s' := OnRequest(cfg, Later(s), PutSource(user, c, ext));
  }

  /** The rows of the upload are reserved and its task is enqueued. */
  ghost predicate Reserved(s: State, w: WorkerId, row: Document, s': State) {
    && s'.db == s.db.(nextId := s.db.nextId + 2) && s'.artifacts == s.artifacts && s'.sources == s.sources
    && s.db.nextId in s'.uploads && s'.uploads[s.db.nextId].document == row && s'.uploads[s.db.nextId].job == s.db.nextId + 1
    && s'.uploads.Keys == {s.db.nextId}
    && s.db.nextId + 1 in s'.tasks && s'.tasks[s.db.nextId + 1] == Extract && PcOf(s', w) == Idle && Unused(s')
  }

  lemma NewIs(cfg: Config, s: State, w: WorkerId, user: UserId, c: Content, ext: Extension) returns (s': State)
    requires Quiet(s, w) && !Uploaded(s.db, user, cfg.hash(c))
    ensures s' == Run(cfg, s, [Http(UploadNew(user, c, ext))])
    ensures Reserved(s, w, NewRow(cfg, user, c, ext), s')
  {
    assert [Http(UploadNew(user, c, ext))][..0] == [];
    s' := OnRequest(cfg, Later(s), UploadNew(user, c, ext));
    ReserveAndEnqueue(Later(s), w, NewRow(cfg, user, c, ext), s');
  }

  lemma ReserveAndEnqueue(s: State, w: WorkerId, row: Document, s': State)
    requires Quiet(s, w) && s' == EnqueueJob(Reserve(s, row), s.db.nextId + 1, Extract)
    ensures Reserved(s, w, row, s')
  {
    var s1 := Reserve(s, row);
    EnqueueLeaves(s1, s.db.nextId + 1, Extract, s');
    EnqueueQueue(s1, s.db.nextId + 1, Extract, s');
  }

  lemma CommitIs(cfg: Config, s0: State, s: State, w: WorkerId, row: Document) returns (s': State)
    requires Quiet(s0, w) && Reserved(s0, w, row, s) && row.status == Pending
    ensures var d := s0.db.nextId;
            && s' == Run(cfg, s, [Http(UploadCommit(d))])
            && s'.db.docs == s0.db.docs[d := row] && s'.artifacts == s0.artifacts && s'.sources == s0.sources && s'.uploads == map[]
            && Ready(s', w, d, d + 1) && s'.db.jobs[d + 1].stage == Extract
  {
    var d := s0.db.nextId;
    assert [Http(UploadCommit(d))][..0] == [];
    s' := OnRequest(cfg, Later(s), UploadCommit(d));
    assert s'.uploads.Keys == {};
  }

  lemma UploadsAreReady(cfg: Config, s: State, w: WorkerId, user: UserId, c: Content, ext: Extension) returns (s': State)
    requires Quiet(s, w) && SourceKey(user, cfg.hash(c), ext) !in s.sources && !Uploaded(s.db, user, cfg.hash(c))
    ensures var d := s.db.nextId;
            && s' == Run(cfg, s, UploadEvents(user, c, ext, d))
            && s'.db.docs == s.db.docs[d := NewRow(cfg, user, c, ext)] && s'.artifacts == s.artifacts && s'.uploads == map[]
            && s'.sources == s.sources[SourceKey(user, cfg.hash(c), ext) := c]
            && Ready(s', w, d, d + 1) && s'.db.jobs[d + 1].stage == Extract
  {
    var d := s.db.nextId;
    var s1 := PutIs(cfg, s, w, user, c, ext);
    var s2 := NewIs(cfg, s1, w, user, c, ext);
    s' := CommitIs(cfg, s1, s2, w, NewRow(cfg, user, c, ext));
    RunThen(cfg, s, [Http(PutSource(user, c, ext))], s1, [Http(UploadNew(user, c, ext))], s2);
    RunThen(cfg, s, [Http(PutSource(user, c, ext))] + [Http(UploadNew(user, c, ext))], s2, [Http(UploadCommit(d))], s');
  }
}
