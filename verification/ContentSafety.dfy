// Content safety over whole runs: whatever is cached, retried, duplicated, deleted or shared
// between documents, a stored artifact is what recomputing it would give, and an indexed
// document holds exactly the rows of its own bytes.
module ContentSafety {
  import opened Types
  import opened Database
  import opened Hashing
  import opened Moves
  import opened Pipeline
  import opened Chains
  import opened Naming
  import opened Control

  /** No two of the contents that occur in the run have the same digest. */
  ghost predicate CollisionFree(cfg: Config, contents: set<Content>) {
    NoCollisions(cfg.hash, contents)
  }

  /** Every upload of the run takes its bytes from `contents`. */
  predicate Within(evs: seq<Event>, contents: set<Content>) {
    forall i :: 0 <= i < |evs| ==> EventWithin(evs[i], contents)
  }

  predicate EventWithin(ev: Event, contents: set<Content>) {
    match ev
    case Http(PutSource(_, c, _)) => c in contents
    case Http(UploadNew(_, c, _)) => c in contents
    case _ => true
  }

  /** Recomputing the stage from `c` under some file suffix gives `a`. */
  ghost predicate FromBytes(cfg: Config, c: Content, stage: Stage, a: Artifact) {
    exists e {:trigger Expected(cfg, c, e, stage)} :: a == Expected(cfg, c, e, stage)
  }

  ghost predicate Genuine(cfg: Config, contents: set<Content>, key: Key, a: Artifact) {
    forall c {:trigger FromBytes(cfg, c, key.stage, a)} ::
      c in contents && cfg.hash(c) == key.hash ==> FromBytes(cfg, c, key.stage, a)
  }

  ghost predicate RowsGood(cfg: Config, contents: set<Content>, h: Hash, rows: seq<Row>) {
    Indexable(cfg, rows) && Genuine(cfg, contents, Key(h, Embed), Rows(rows))
  }

  ghost predicate CountGood(cfg: Config, contents: set<Content>, h: Hash, n: nat) {
    exists rows {:trigger RowsGood(cfg, contents, h, rows)} :: RowsGood(cfg, contents, h, rows) && |rows| == n
  }

  ghost predicate PagesGood(cfg: Config, contents: set<Content>, h: Hash, n: nat) {
    exists p {:trigger Genuine(cfg, contents, Key(h, Extract), ParsedDoc(p))} ::
      Genuine(cfg, contents, Key(h, Extract), ParsedDoc(p)) && p.pages == n
  }

  ghost predicate Known(cfg: Config, contents: set<Content>, h: Hash) {
    exists c :: c in contents && cfg.hash(c) == h
  }

  // ----- the invariant -----

  ghost predicate SourcesGood(cfg: Config, contents: set<Content>, sources: map<SourceKey, Content>) {
    forall k {:trigger sources[k]} :: k in sources ==> sources[k] in contents && cfg.hash(sources[k]) == k.hash
  }

  ghost predicate ArtifactsGood(cfg: Config, contents: set<Content>, artifacts: map<Key, Artifact>) {
    forall k {:trigger artifacts[k]} :: k in artifacts ==> Genuine(cfg, contents, k, artifacts[k])
  }

  ghost predicate DocGood(cfg: Config, contents: set<Content>, db: Db, chains: ChainMap, d: DocId) {
    && d in db.docs
    && var doc := db.docs[d];
    && Known(cfg, contents, doc.contentHash)
    && (doc.parsedKey.Some? ==> doc.parsedKey.value == Key(doc.contentHash, Extract))
    && (doc.pageCount.Some? ==> PagesGood(cfg, contents, doc.contentHash, doc.pageCount.value))
    && (d in chains && |chains[d]| >= 2 ==> doc.pageCount.Some?)
    && (d in db.chunks ==> RowsGood(cfg, contents, doc.contentHash, db.chunks[d]))
    && (doc.status == Indexed ==> d in db.chunks && CountGood(cfg, contents, doc.contentHash, doc.chunkCount))
  }

  ghost predicate DbGood(cfg: Config, contents: set<Content>, db: Db, chains: ChainMap) {
    && db.chunks.Keys <= db.docs.Keys
    && (forall d {:trigger DocGood(cfg, contents, db, chains, d)} :: d in db.docs ==> DocGood(cfg, contents, db, chains, d))
  }

  ghost predicate EffectGood(cfg: Config, contents: set<Content>, h: Hash, stage: Stage, effect: Effect, result: StageResult) {
    match stage
    case Extract => effect == SetParsedKey(Key(h, Extract)) && result.pages.Some? && PagesGood(cfg, contents, h, result.pages.value)
    case Index => effect.Replace? && RowsGood(cfg, contents, h, effect.rows) && result.inserted == Some(|effect.rows|)
    case _ => effect == NoEffect
  }

  ghost predicate ResultGood(cfg: Config, contents: set<Content>, h: Hash, stage: Stage, result: StageResult) {
    && (stage == Extract ==> result.pages.Some? && PagesGood(cfg, contents, h, result.pages.value))
    && (stage == Index ==> result.inserted.Some? && CountGood(cfg, contents, h, result.inserted.value))
  }

  predicate HasTask(pc: Pc) {
    !pc.Idle? && !pc.Enqueueing?
  }

  /** What a worker carries between two of its steps, given the digest of its document. */
  ghost predicate Carries(cfg: Config, contents: set<Content>, h: Hash, pc: Pc) {
    match pc
    case Storing(task, key, artifact, effect, result) =>
      Genuine(cfg, contents, key, artifact) && EffectGood(cfg, contents, h, task.stage, effect, result)
    case Committing(task, effect, result) => EffectGood(cfg, contents, h, task.stage, effect, result)
    case Completing(task, result) => ResultGood(cfg, contents, h, task.stage, result)
    case _ => true
  }

  ghost predicate PcGood(cfg: Config, contents: set<Content>, uploads: map<DocId, Upload>, db: Db, aux: Aux, pc: Pc) {
    HasTask(pc) ==>
      && pc.task.doc in aux.docs
      && pc.task.doc !in uploads
      && Carries(cfg, contents, aux.docs[pc.task.doc].hash, pc)
      && (pc.Completing? && pc.task.stage == Index && pc.task.doc in db.docs ==> pc.task.doc in db.chunks)
  }

  ghost predicate WorkersGood(cfg: Config, contents: set<Content>, s: State, aux: Aux) {
    forall w {:trigger PcOf(s, w)} :: PcGood(cfg, contents, s.uploads, s.db, aux, PcOf(s, w))
  }

  ghost predicate UploadsGood(cfg: Config, contents: set<Content>, s: State) {
    forall d {:trigger s.uploads[d]} :: d in s.uploads ==> Known(cfg, contents, s.uploads[d].document.contentHash)
  }

  ghost predicate Good(cfg: Config, contents: set<Content>, s: State, aux: Aux) {
    && SourcesGood(cfg, contents, s.sources)
    && ArtifactsGood(cfg, contents, s.artifacts)
    && DbGood(cfg, contents, s.db, aux.chains)
    && WorkersGood(cfg, contents, s, aux)
    && UploadsGood(cfg, contents, s)
  }

  // ----- what the stages compute -----

  lemma ExtractGenuine(cfg: Config, contents: set<Content>, c: Content, e: Extension)
    requires CollisionFree(cfg, contents) && c in contents
    ensures Genuine(cfg, contents, Key(cfg.hash(c), Extract), ParsedDoc(cfg.extract(c, e)))
    ensures PagesGood(cfg, contents, cfg.hash(c), cfg.extract(c, e).pages)
  {
    forall d | d in contents && cfg.hash(d) == cfg.hash(c)
      ensures FromBytes(cfg, d, Extract, ParsedDoc(cfg.extract(c, e)))
    {
      assert d == c;
      assert ParsedDoc(cfg.extract(c, e)) == Expected(cfg, c, e, Extract);
    }
  }

  lemma CleanGenuine(cfg: Config, contents: set<Content>, h: Hash, p: Parsed)
    requires Genuine(cfg, contents, Key(h, Extract), ParsedDoc(p))
    ensures Genuine(cfg, contents, Key(h, Clean), ParsedDoc(cfg.clean(p)))
  {
    forall c | c in contents && cfg.hash(c) == h
      ensures FromBytes(cfg, c, Clean, ParsedDoc(cfg.clean(p)))
    {
      assert FromBytes(cfg, c, Extract, ParsedDoc(p));
      var e :| ParsedDoc(p) == Expected(cfg, c, e, Extract);
      assert ParsedDoc(cfg.clean(p)) == Expected(cfg, c, e, Clean);
    }
  }

  lemma ChunkGenuine(cfg: Config, contents: set<Content>, h: Hash, p: Parsed)
    requires Genuine(cfg, contents, Key(h, Clean), ParsedDoc(p))
    ensures Genuine(cfg, contents, Key(h, Chunk), Rows(cfg.chunk(p)))
  {
    forall c | c in contents && cfg.hash(c) == h
      ensures FromBytes(cfg, c, Chunk, Rows(cfg.chunk(p)))
    {
      assert FromBytes(cfg, c, Clean, ParsedDoc(p));
      var e :| ParsedDoc(p) == Expected(cfg, c, e, Clean);
      assert Rows(cfg.chunk(p)) == Expected(cfg, c, e, Chunk);
    }
  }

  lemma EmbedGenuine(cfg: Config, contents: set<Content>, h: Hash, rows: seq<Row>)
    requires Genuine(cfg, contents, Key(h, Chunk), Rows(rows))
    ensures Genuine(cfg, contents, Key(h, Embed), Rows(cfg.embed(rows)))
  {
    forall c | c in contents && cfg.hash(c) == h
      ensures FromBytes(cfg, c, Embed, Rows(cfg.embed(rows)))
    {
      assert FromBytes(cfg, c, Chunk, Rows(rows));
      var e :| Rows(rows) == Expected(cfg, c, e, Chunk);
      assert Rows(cfg.embed(rows)) == Expected(cfg, c, e, Embed);
    }
  }

  /** A stage function that reads genuine inputs carries a genuine output. */
  lemma ComputedGood(cfg: Config, contents: set<Content>, s: State, chains: ChainMap, task: Task, cached: bool)
    requires CollisionFree(cfg, contents)
    requires SourcesGood(cfg, contents, s.sources) && ArtifactsGood(cfg, contents, s.artifacts)
    requires task.doc in s.db.docs ==> DocGood(cfg, contents, s.db, chains, task.doc)
    ensures var pc := Computed(cfg, s, task, cached);
            !pc.Completing? && (HasTask(pc) ==> pc.task == task)
            && (task.doc in s.db.docs ==> Carries(cfg, contents, s.db.docs[task.doc].contentHash, pc))
            && (task.doc !in s.db.docs ==> pc.Failing?)
  {
    if task.doc in s.db.docs {
      var doc := s.db.docs[task.doc];
      var h := doc.contentHash;
      match task.stage
      case Extract =>
        var source := SourceKey(doc.user, h, doc.ext);
        if source in s.sources { ExtractGenuine(cfg, contents, s.sources[source], doc.ext); }
      case Clean =>
        if doc.parsedKey.Some? && doc.parsedKey.value in s.artifacts && s.artifacts[doc.parsedKey.value].ParsedDoc? {
          CleanGenuine(cfg, contents, h, s.artifacts[doc.parsedKey.value].doc);
        }
      case Chunk =>
        var input := Key(h, Clean);
        if input in s.artifacts && s.artifacts[input].ParsedDoc? { ChunkGenuine(cfg, contents, h, s.artifacts[input].doc); }
      case Embed =>
        var input := Key(h, Chunk);
        if input in s.artifacts && s.artifacts[input].Rows? { EmbedGenuine(cfg, contents, h, s.artifacts[input].rows); }
      case Index =>
    }
  }

  // ----- tables -----

  /** Transactions that change neither content columns nor chunk rows and index nothing. */
  ghost predicate SameContent(db: Db, db': Db) {
    && db'.docs.Keys == db.docs.Keys && db'.chunks == db.chunks
    && (forall d {:trigger db'.docs[d]} :: d in db.docs ==>
          && db'.docs[d].contentHash == db.docs[d].contentHash
          && db'.docs[d].parsedKey == db.docs[d].parsedKey
          && db'.docs[d].pageCount == db.docs[d].pageCount
          && db'.docs[d].chunkCount == db.docs[d].chunkCount
          && (db'.docs[d].status == Indexed ==> db.docs[d].status == Indexed))
  }

  lemma SameContentGood(cfg: Config, contents: set<Content>, db: Db, db': Db, chains: ChainMap)
    requires DbGood(cfg, contents, db, chains) && SameContent(db, db')
    ensures DbGood(cfg, contents, db', chains)
  {
    forall d | d in db'.docs
      ensures DocGood(cfg, contents, db', chains, d)
    {
      assert DocGood(cfg, contents, db, chains, d);
    }
  }

  lemma FailSameContent(db: Db, id: JobId, error: string, now: Time)
    ensures SameContent(db, FailStage(db, id, error, now))
  {
  }

  lemma StartSameContent(db: Db, id: JobId, stage: Stage, now: Time)
    ensures SameContent(db, StartTx(db, id, stage, now))
  {
    match StartOutcomeOf(db, id, stage)
    case Started(_) => StartedSameContent(db, id, now, StartedDb(db, id, now));
    case StartDocMissing => FailSameContent(db, id, "document missing", now);
    case StartInvalid => FailSameContent(db, id, "invalid transition", now);
    case _ =>
  }

  lemma StartedSameContent(db: Db, id: JobId, now: Time, db': Db)
    requires id in db.jobs && db.jobs[id].document in db.docs && db' == StartedDb(db, id, now)
    ensures SameContent(db, db')
  {
  }

  lemma CommittedGood(cfg: Config, contents: set<Content>, db: Db, chains: ChainMap, task: Task, effect: Effect, result: StageResult)
    requires DbGood(cfg, contents, db, chains)
    requires task.doc in db.docs ==> EffectGood(cfg, contents, db.docs[task.doc].contentHash, task.stage, effect, result)
    ensures DbGood(cfg, contents, CommittedDb(db, task.doc, effect), chains)
    ensures db.chunks.Keys <= CommittedDb(db, task.doc, effect).chunks.Keys
  {
    var db' := CommittedDb(db, task.doc, effect);
    forall d | d in db'.docs
      ensures DocGood(cfg, contents, db', chains, d)
    {
      assert DocGood(cfg, contents, db, chains, d);
      if d == task.doc && effect.SetParsedKey? && task.stage == Extract {
        assert db'.docs[d].parsedKey == Some(Key(db.docs[d].contentHash, Extract));
      }
    }
  }

  lemma EffectCounts(cfg: Config, contents: set<Content>, h: Hash, stage: Stage, effect: Effect, result: StageResult)
    requires EffectGood(cfg, contents, h, stage, effect, result)
    ensures ResultGood(cfg, contents, h, stage, result)
  {
    if stage == Index { assert RowsGood(cfg, contents, h, effect.rows); }
  }

  lemma CompleteGood(cfg: Config, contents: set<Content>, db: Db, aux: Aux, task: Task, result: StageResult, now: Time)
    requires DbGood(cfg, contents, db, aux.chains)
    requires task.job in db.jobs ==> db.jobs[task.job].document == task.doc && db.jobs[task.job].stage == task.stage
    requires task.job in db.jobs && db.jobs[task.job].status == Running ==>
               OwnsChain(db, aux.chains, task.doc) && |aux.chains[task.doc]| == StageIndex(task.stage) + 1
    requires task.doc in db.docs ==>
               ResultGood(cfg, contents, db.docs[task.doc].contentHash, task.stage, result)
               && (task.stage == Index ==> task.doc in db.chunks)
    ensures DbGood(cfg, contents, CompleteStage(db, task.job, result, NextStage(task.stage), now),
                   AuxAfterComplete(db, aux, task).chains)
  {
    var next := NextStage(task.stage);
    var db' := CompleteStage(db, task.job, result, next, now);
    var chains' := AuxAfterComplete(db, aux, task).chains;
    forall d | d in db'.docs
      ensures DocGood(cfg, contents, db', chains', d)
    {
      assert DocGood(cfg, contents, db, aux.chains, d);
    }
  }

  // ----- events -----

  /** What may change around a worker without touching what it carries. */
  ghost predicate Around(s: State, uploads: map<DocId, Upload>, db: Db, aux: Aux, aux': Aux) {
    && Extends(aux, aux')
    && (forall d {:trigger d in uploads} :: d in uploads ==> d in s.uploads || d !in aux.docs)
    && (forall d {:trigger d in db.docs} :: d in db.docs ==> d in s.db.docs || d in s.uploads)
    && (forall d {:trigger d in db.chunks} :: d in s.db.chunks && d in db.docs ==> d in db.chunks)
  }

  lemma WorkersFrame(cfg: Config, contents: set<Content>, s: State, s': State, aux: Aux, aux': Aux)
    requires WorkersGood(cfg, contents, s, aux) && Around(s, s'.uploads, s'.db, aux, aux')
    requires s'.workers == s.workers
    ensures WorkersGood(cfg, contents, s', aux')
  {
    forall v
      ensures PcGood(cfg, contents, s'.uploads, s'.db, aux', PcOf(s', v))
    {
      assert PcGood(cfg, contents, s.uploads, s.db, aux, PcOf(s, v));
    }
  }

  /** A worker moves; tables and artifacts get versions that are already known to be good. */
  lemma MoveGood(cfg: Config, contents: set<Content>, s: State, db: Db, artifacts: map<Key, Artifact>,
                 aux: Aux, aux': Aux, w: WorkerId, pc: Pc)
    requires Good(cfg, contents, s, aux) && Extends(aux, aux')
    requires ArtifactsGood(cfg, contents, artifacts)
    requires DbGood(cfg, contents, db, aux'.chains) && db.docs.Keys == s.db.docs.Keys
    requires s.db.chunks.Keys <= db.chunks.Keys
    requires PcGood(cfg, contents, s.uploads, db, aux', pc)
    ensures Good(cfg, contents, Goto(s.(db := db, artifacts := artifacts), w, pc), aux')
  {
    var s' := Goto(s.(db := db, artifacts := artifacts), w, pc);
    forall v
      ensures PcGood(cfg, contents, s'.uploads, s'.db, aux', PcOf(s', v))
    {
      assert PcGood(cfg, contents, s.uploads, s.db, aux, PcOf(s, v));
    }
  }

  lemma StartedGood(cfg: Config, contents: set<Content>, s: State, db: Db, aux: Aux, job: JobId, attempt: nat)
    requires Named(s, aux) && job in s.tasks
    ensures PcGood(cfg, contents, s.uploads, db, aux,
                   StartedPc(StartOutcomeOf(s.db, job, s.tasks[job]), job, s.tasks[job], attempt))
  {
    var outcome := StartOutcomeOf(s.db, job, s.tasks[job]);
    if outcome.Started? {
      assert DocNamed(s.db, aux, outcome.document);
      assert !UploadNamed(s, aux, outcome.document);
    }
  }

  lemma DeliverGood(cfg: Config, contents: set<Content>, s: State, aux: Aux, w: WorkerId, job: JobId, attempt: nat)
    requires Good(cfg, contents, s, aux) && Named(s, aux)
    ensures Good(cfg, contents, DoDeliver(s, w, job, attempt), aux)
  {
    if PcOf(s, w) == Idle && job in s.tasks {
      var db := StartTx(s.db, job, s.tasks[job], s.now);
      StartSameContent(s.db, job, s.tasks[job], s.now);
      SameContentGood(cfg, contents, s.db, db, aux.chains);
      StartedGood(cfg, contents, s, db, aux, job, attempt);
      MoveGood(cfg, contents, s, db, s.artifacts, aux, aux, w,
               StartedPc(StartOutcomeOf(s.db, job, s.tasks[job]), job, s.tasks[job], attempt));
    }
  }

  lemma ComputeGood(cfg: Config, contents: set<Content>, s: State, aux: Aux, w: WorkerId, cached: bool)
    requires Good(cfg, contents, s, aux) && Named(s, aux) && CollisionFree(cfg, contents)
    ensures Good(cfg, contents, DoCompute(cfg, s, w, cached), aux)
  {
    var pc := PcOf(s, w);
    if pc.InStage? {
      assert PcGood(cfg, contents, s.uploads, s.db, aux, pc);
      var d := pc.task.doc;
      if d in s.db.docs { assert DocNamed(s.db, aux, d) && DocGood(cfg, contents, s.db, aux.chains, d); }
      ComputedGood(cfg, contents, s, aux.chains, pc.task, cached);
      MoveGood(cfg, contents, s, s.db, s.artifacts, aux, aux, w, Computed(cfg, s, pc.task, cached));
    }
  }

  lemma StoreGood(cfg: Config, contents: set<Content>, s: State, aux: Aux, w: WorkerId)
    requires Good(cfg, contents, s, aux)
    ensures Good(cfg, contents, DoStore(s, w), aux)
  {
    var pc := PcOf(s, w);
    if pc.Storing? {
      assert PcGood(cfg, contents, s.uploads, s.db, aux, pc);
      MoveGood(cfg, contents, s, s.db, s.artifacts[pc.key := pc.artifact], aux, aux, w,
               Committing(pc.task, pc.effect, pc.result));
    }
  }

  lemma CommitGood(cfg: Config, contents: set<Content>, s: State, aux: Aux, w: WorkerId)
    requires Good(cfg, contents, s, aux) && Named(s, aux)
    ensures Good(cfg, contents, DoCommit(cfg, s, w), aux)
  {
    var pc := PcOf(s, w);
    if pc.Committing? {
      assert PcGood(cfg, contents, s.uploads, s.db, aux, pc);
      if pc.task.doc in s.db.docs { assert DocNamed(s.db, aux, pc.task.doc); }
      CommittedGood(cfg, contents, s.db, aux.chains, pc.task, pc.effect, pc.result);
      CommittedPcGood(cfg, contents, s, aux, pc.task, pc.effect, pc.result);
      MoveGood(cfg, contents, s, CommittedDb(s.db, pc.task.doc, pc.effect), s.artifacts, aux, aux, w,
               CommittedPc(cfg, s.db, pc.task, pc.effect, pc.result));
    }
  }

  lemma CommittedPcGood(cfg: Config, contents: set<Content>, s: State, aux: Aux, task: Task, effect: Effect, result: StageResult)
    requires PcGood(cfg, contents, s.uploads, s.db, aux, Committing(task, effect, result))
    ensures PcGood(cfg, contents, s.uploads, CommittedDb(s.db, task.doc, effect), aux,
                   CommittedPc(cfg, s.db, task, effect, result))
  {
    EffectCounts(cfg, contents, aux.docs[task.doc].hash, task.stage, effect, result);
  }

  lemma RaiseGood(cfg: Config, contents: set<Content>, s: State, aux: Aux, w: WorkerId, error: string, permanent: bool)
    requires Good(cfg, contents, s, aux)
    ensures Good(cfg, contents, DoRaise(cfg, s, w, error, permanent), aux)
  {
    var pc := PcOf(s, w);
    assert PcGood(cfg, contents, s.uploads, s.db, aux, pc);
    if pc.InStage? || pc.Storing? || pc.Committing? {
      MoveGood(cfg, contents, s, s.db, s.artifacts, aux, aux, w, Raised(cfg, pc.task, error, permanent));
    }
  }

  lemma FailGood(cfg: Config, contents: set<Content>, db: Db, chains: ChainMap, id: JobId, error: string, now: Time)
    requires DbGood(cfg, contents, db, chains)
    ensures DbGood(cfg, contents, FailStage(db, id, error, now), chains)
    ensures SameContent(db, FailStage(db, id, error, now))
  {
    FailSameContent(db, id, error, now);
    SameContentGood(cfg, contents, db, FailStage(db, id, error, now), chains);
  }

  lemma RetryGood(cfg: Config, contents: set<Content>, db: Db, chains: ChainMap, id: JobId, error: string, attempt: nat)
    requires DbGood(cfg, contents, db, chains)
    ensures DbGood(cfg, contents, RecordAttempt(db, id, error, attempt), chains)
    ensures SameContent(db, RecordAttempt(db, id, error, attempt))
  {
    SameContentGood(cfg, contents, db, RecordAttempt(db, id, error, attempt), chains);
  }

  lemma SettleGood(cfg: Config, contents: set<Content>, s: State, aux: Aux, w: WorkerId)
    requires Good(cfg, contents, s, aux)
    ensures Good(cfg, contents, DoSettle(s, w), aux)
  {
    match PcOf(s, w)
    case Failing(task, error) =>
      FailGood(cfg, contents, s.db, aux.chains, task.job, error, s.now);
      MoveGood(cfg, contents, s, FailStage(s.db, task.job, error, s.now), s.artifacts, aux, aux, w, Idle);
    case Retrying(task, error) =>
      RetryGood(cfg, contents, s.db, aux.chains, task.job, error, task.attempt);
      MoveGood(cfg, contents, s, RecordAttempt(s.db, task.job, error, task.attempt), s.artifacts, aux, aux, w, Idle);
    case _ =>
  }

  /** The running job that a worker completes is the last link of its chain. */
  lemma RunningIsLast(s: State, aux: Aux, task: Task)
    requires Controlled(s, aux) && TaskNamed(aux, task)
    ensures task.job in s.db.jobs ==> s.db.jobs[task.job].document == task.doc && s.db.jobs[task.job].stage == task.stage
    ensures task.job in s.db.jobs && s.db.jobs[task.job].status == Running ==>
              OwnsChain(s.db, aux.chains, task.doc) && |aux.chains[task.doc]| == StageIndex(task.stage) + 1
  {
    if task.job in s.db.jobs {
      assert JobNamed(s.db, aux, task.job);
      if s.db.jobs[task.job].status == Running {
        ActiveIsLast(s.db, aux.chains, task.job);
        assert Link(s.db, task.doc, |aux.chains[task.doc]| - 1, task.job);
      }
    }
  }

  lemma CompletedPcGood(cfg: Config, contents: set<Content>, s: State, db: Db, aux: Aux, task: Task, result: StageResult, outcome: CompleteOutcome)
    requires PcGood(cfg, contents, s.uploads, s.db, aux, Completing(task, result))
    ensures PcGood(cfg, contents, s.uploads, db, aux, CompletedPc(outcome, task))
  {
  }

  /** What the completing session leaves in the tables. */
  lemma CompletedTables(cfg: Config, contents: set<Content>, s: State, aux: Aux, task: Task, result: StageResult, db: Db, aux': Aux)
    requires Good(cfg, contents, s, aux) && Controlled(s, aux)
    requires PcNamed(aux, Completing(task, result)) && PcGood(cfg, contents, s.uploads, s.db, aux, Completing(task, result))
    requires db == CompleteStage(s.db, task.job, result, NextStage(task.stage), s.now) && aux' == AuxAfterComplete(s.db, aux, task)
    ensures DbGood(cfg, contents, db, aux'.chains) && db.docs.Keys == s.db.docs.Keys && s.db.chunks.Keys <= db.chunks.Keys
    ensures Extends(aux, aux') && aux'.docs == aux.docs
  {
    RunningIsLast(s, aux, task);
    if task.doc in s.db.docs { assert DocNamed(s.db, aux, task.doc); }
    CompleteGood(cfg, contents, s.db, aux, task, result, s.now);
    CompleteGrows(s.db, aux, task);
    CompleteFrame(s.db, aux, task, result, s.now);
  }

  lemma CompleteKeepsGood(cfg: Config, contents: set<Content>, s: State, aux: Aux, w: WorkerId, task: Task, result: StageResult)
    requires Good(cfg, contents, s, aux) && Controlled(s, aux) && PcOf(s, w) == Completing(task, result)
    ensures Good(cfg, contents, DoComplete(s, w), AuxAfterComplete(s.db, aux, task))
  {
    assert PcNamed(aux, PcOf(s, w)) && PcGood(cfg, contents, s.uploads, s.db, aux, PcOf(s, w));
    var next := NextStage(task.stage);
    var db := CompleteStage(s.db, task.job, result, next, s.now);
    var aux' := AuxAfterComplete(s.db, aux, task);
    CompletedTables(cfg, contents, s, aux, task, result, db, aux');
    CompletedGood(cfg, contents, s, db, aux, aux', w, task, result, CompleteOutcomeOf(s.db, task.job, next));
  }

  lemma CompletedGood(cfg: Config, contents: set<Content>, s: State, db: Db, aux: Aux, aux': Aux, w: WorkerId, task: Task,
                      result: StageResult, outcome: CompleteOutcome)
    requires Good(cfg, contents, s, aux) && Extends(aux, aux') && aux'.docs == aux.docs
    requires DbGood(cfg, contents, db, aux'.chains) && db.docs.Keys == s.db.docs.Keys && s.db.chunks.Keys <= db.chunks.Keys
    requires PcGood(cfg, contents, s.uploads, s.db, aux, Completing(task, result))
    ensures Good(cfg, contents, Goto(s.(db := db), w, CompletedPc(outcome, task)), aux')
  {
    CompletedPcGood(cfg, contents, s, db, aux', task, result, outcome);
    MoveGood(cfg, contents, s, db, s.artifacts, aux, aux', w, CompletedPc(outcome, task));
  }

  lemma WorkGood(cfg: Config, contents: set<Content>, s: State, aux: Aux, w: WorkerId, action: Action)
    requires Good(cfg, contents, s, aux) && Controlled(s, aux) && CollisionFree(cfg, contents)
    ensures Good(cfg, contents, OnWork(cfg, s, w, action), AuxOnWork(s, aux, w, action))
  {
    match action
    case Deliver(job, attempt) => DeliverGood(cfg, contents, s, aux, w, job, attempt);
    case Compute(cached) => ComputeGood(cfg, contents, s, aux, w, cached);
    case Store => StoreGood(cfg, contents, s, aux, w);
    case Commit => CommitGood(cfg, contents, s, aux, w);
    case Raise(error, permanent) => RaiseGood(cfg, contents, s, aux, w, error, permanent);
    case Settle => SettleGood(cfg, contents, s, aux, w);
    case Complete => CompleteStepGood(cfg, contents, s, aux, w, PcOf(s, w), DoComplete(s, w));
    case Enqueue => EnqueueStepGood(cfg, contents, s, aux, w, PcOf(s, w), DoEnqueue(s, w));
    case Crash => LeaveGood(cfg, contents, s, aux, w, Goto(s, w, Idle));
  }

  lemma CompleteStepGood(cfg: Config, contents: set<Content>, s: State, aux: Aux, w: WorkerId, pc: Pc, s': State)
    requires Good(cfg, contents, s, aux) && Controlled(s, aux) && pc == PcOf(s, w) && s' == DoComplete(s, w)
    ensures Good(cfg, contents, s', AuxOnWork(s, aux, w, Complete))
  {
    if pc.Completing? { CompleteKeepsGood(cfg, contents, s, aux, w, pc.task, pc.result); }
  }

  lemma EnqueueStepGood(cfg: Config, contents: set<Content>, s: State, aux: Aux, w: WorkerId, pc: Pc, s': State)
    requires Good(cfg, contents, s, aux) && pc == PcOf(s, w) && s' == DoEnqueue(s, w)
    ensures Good(cfg, contents, s', aux)
  {
    EnqueueWorkers(s, w, pc, s');
    if pc.Enqueueing? {
      EnqueueLeaves(s, pc.next, pc.nextStage, EnqueueJob(s, pc.next, pc.nextStage));
      LeaveGood(cfg, contents, s, aux, w, s');
    }
  }

  /** A worker that goes idle, whatever happens to queue and sweeps. */
  lemma LeaveGood(cfg: Config, contents: set<Content>, s: State, aux: Aux, w: WorkerId, s': State)
    requires Good(cfg, contents, s, aux)
    requires s'.db == s.db && s'.artifacts == s.artifacts && s'.sources == s.sources && s'.uploads == s.uploads
    requires s'.workers == s.workers || s'.workers == s.workers[w := Idle]
    ensures Good(cfg, contents, s', aux)
  {
    forall v
      ensures PcGood(cfg, contents, s'.uploads, s'.db, aux, PcOf(s', v))
    {
      assert PcGood(cfg, contents, s.uploads, s.db, aux, PcOf(s, v));
    }
  }

  lemma SweepGood(cfg: Config, contents: set<Content>, s: State, aux: Aux, p: nat)
    requires Good(cfg, contents, s, aux)
    ensures Good(cfg, contents, DoSweepStep(s, p), aux)
  {
    if p in s.sweeps && s.sweeps[p].todo != [] {
      var sweep := s.sweeps[p];
      SweepItemGood(cfg, contents, s, DoSweepStep(s, p), aux, sweep.todo[0].0, sweep.todo[0].1, sweep.(todo := sweep.todo[1..]));
    }
  }

  /** New tables and pending uploads under workers that stay where they are. */
  lemma SwapGood(cfg: Config, contents: set<Content>, s: State, db: Db, uploads: map<DocId, Upload>, aux: Aux, aux': Aux)
    requires Good(cfg, contents, s, aux) && DbGood(cfg, contents, db, aux'.chains) && Around(s, uploads, db, aux, aux')
    requires forall d {:trigger uploads[d]} :: d in uploads ==> Known(cfg, contents, uploads[d].document.contentHash)
    ensures Good(cfg, contents, s.(db := db, uploads := uploads), aux')
  {
    WorkersFrame(cfg, contents, s, s.(db := db, uploads := uploads), aux, aux');
  }

  lemma SweepItemGood(cfg: Config, contents: set<Content>, s: State, s': State, aux: Aux, id: JobId, job: Job, sweep: Sweep)
    requires Good(cfg, contents, s, aux)
    requires s'.db == SweepDb(s.db, id, job, sweep, s.now) && s'.workers == s.workers
    requires s'.uploads == s.uploads && s'.sources == s.sources && s'.artifacts == s.artifacts
    ensures Good(cfg, contents, s', aux)
  {
    FailGood(cfg, contents, s.db, aux.chains, id, SweepError(sweep, job), s.now);
    WorkersFrame(cfg, contents, s, s', aux, aux);
  }

  // ----- requests -----

  lemma UploadNewGood(cfg: Config, contents: set<Content>, s: State, aux: Aux, user: UserId, c: Content, ext: Extension)
    requires Good(cfg, contents, s, aux) && Named(s, aux) && c in contents
    ensures Good(cfg, contents, DoUploadNew(cfg, s, user, c, ext), AuxOnRequest(cfg, s, aux, UploadNew(user, c, ext)))
  {
    var h := cfg.hash(c);
    var aux' := AuxOnRequest(cfg, s, aux, UploadNew(user, c, ext));
    if !Uploaded(s.db, user, h) {
      var row := Document(user, h, ext, Pending, None, None, 0, None, None);
      ReserveGood(cfg, contents, s, aux, row, c, aux', Reserve(s, row));
      EnqueueGood(cfg, contents, Reserve(s, row), aux', s.db.nextId + 1, Extract);
    }
  }

  lemma ReserveGood(cfg: Config, contents: set<Content>, s: State, aux: Aux, row: Document, c: Content, aux': Aux, s1: State)
    requires Good(cfg, contents, s, aux) && Named(s, aux) && c in contents && row.contentHash == cfg.hash(c)
    requires s1 == Reserve(s, row) && aux'.chains == aux.chains && Extends(aux, aux')
    ensures Good(cfg, contents, s1, aux')
  {
    SameContentGood(cfg, contents, s.db, s1.db, aux.chains);
    ReserveAround(s, aux, row, aux', s1);
    SwapGood(cfg, contents, s, s1.db, s1.uploads, aux, aux');
  }

  lemma ReserveAround(s: State, aux: Aux, row: Document, aux': Aux, s1: State)
    requires Named(s, aux) && Extends(aux, aux') && s1 == Reserve(s, row)
    ensures Around(s, s1.uploads, s1.db, aux, aux')
  {
  }

  lemma EnqueueGood(cfg: Config, contents: set<Content>, s: State, aux: Aux, job: JobId, stage: Stage)
    requires Good(cfg, contents, s, aux)
    ensures Good(cfg, contents, EnqueueJob(s, job, stage), aux)
  {
    EnqueueLeaves(s, job, stage, EnqueueJob(s, job, stage));
    LeaveGood(cfg, contents, s, aux, 0, EnqueueJob(s, job, stage));
  }

  lemma UploadCommitGood(cfg: Config, contents: set<Content>, s: State, aux: Aux, doc: DocId)
    requires Good(cfg, contents, s, aux) && Controlled(s, aux) && doc in s.uploads
    ensures Good(cfg, contents, DoUploadCommit(s, doc), AuxOnRequest(cfg, s, aux, UploadCommit(doc)))
  {
    var s' := DoUploadCommit(s, doc);
    var aux' := AuxOnRequest(cfg, s, aux, UploadCommit(doc));
    assert UploadNamed(s, aux, doc);
    forall d | d in s'.db.docs
      ensures DocGood(cfg, contents, s'.db, aux'.chains, d)
    {
      if d != doc { assert DocGood(cfg, contents, s.db, aux.chains, d); }
    }
    WorkersFrame(cfg, contents, s, s', aux, aux');
  }

  lemma DeleteGood(cfg: Config, contents: set<Content>, s: State, aux: Aux, doc: DocId)
    requires Good(cfg, contents, s, aux)
    ensures Good(cfg, contents, s.(db := DeleteDocument(s.db, doc)), AuxOnRequest(cfg, s, aux, Delete(doc)))
  {
    var s' := s.(db := DeleteDocument(s.db, doc));
    var aux' := AuxOnRequest(cfg, s, aux, Delete(doc));
    forall d | d in s'.db.docs
      ensures DocGood(cfg, contents, s'.db, aux'.chains, d)
    {
      assert DocGood(cfg, contents, s.db, aux.chains, d);
    }
    WorkersFrame(cfg, contents, s, s', aux, aux');
  }

  /** The clock, queues and storage objects; nothing that is read back changes for the worse. */
  lemma OutsideGood(cfg: Config, contents: set<Content>, s: State, s': State, aux: Aux)
    requires Good(cfg, contents, s, aux) && s'.db == s.db && s'.workers == s.workers
    requires SourcesGood(cfg, contents, s'.sources) && ArtifactsGood(cfg, contents, s'.artifacts)
    requires forall d {:trigger s'.uploads[d]} :: d in s'.uploads ==> d in s.uploads && s'.uploads[d] == s.uploads[d]
    ensures Good(cfg, contents, s', aux)
  {
    WorkersFrame(cfg, contents, s, s', aux, aux);
  }

  /** Requests that put or drop a source. */
  lemma SourceRequest(cfg: Config, contents: set<Content>, s: State, request: Request, s': State)
    requires request.PutSource? || request.DropSource?
    requires s' == OnRequest(cfg, s, request) && EventWithin(Http(request), contents)
    requires SourcesGood(cfg, contents, s.sources)
    ensures s' == s.(sources := s'.sources) && SourcesGood(cfg, contents, s'.sources)
  {
  }

  lemma PlainRequest(cfg: Config, contents: set<Content>, s: State, request: Request, s': State)
    requires request.PutSource? || request.UploadRollback? || request.UploadKnown? || request.DropSource? || request.DropArtifact?
    requires s' == OnRequest(cfg, s, request) && EventWithin(Http(request), contents)
    requires SourcesGood(cfg, contents, s.sources) && ArtifactsGood(cfg, contents, s.artifacts)
    ensures s'.db == s.db && SourcesGood(cfg, contents, s'.sources) && ArtifactsGood(cfg, contents, s'.artifacts)
    ensures forall d {:trigger s'.uploads[d]} :: d in s'.uploads ==> d in s.uploads && s'.uploads[d] == s.uploads[d]
  {
    PlainRequestDb(cfg, s, request, s');
    match request
    case PutSource(_, _, _) => SourceRequest(cfg, contents, s, request, s');
    case DropSource(_) => SourceRequest(cfg, contents, s, request, s');
    case UploadKnown(doc, job) => KnownLeaves(s, doc, job, s');
    case _ =>
  }

  /** Enqueueing a known document's job again changes ARQ alone. */
  lemma KnownLeaves(s: State, doc: DocId, job: JobId, s': State)
    requires s' == DoUploadKnown(s, doc, job)
    ensures s'.db == s.db && s'.sources == s.sources && s'.artifacts == s.artifacts && s'.uploads == s.uploads
  {
    if s' != s { EnqueueLeaves(s, job, s.db.jobs[job].stage, s'); }
  }

  lemma RequestGood(cfg: Config, contents: set<Content>, s: State, aux: Aux, request: Request)
    requires Good(cfg, contents, s, aux) && Controlled(s, aux)
    requires !IsReprocess(Http(request)) && EventWithin(Http(request), contents)
    ensures Good(cfg, contents, OnRequest(cfg, s, request), AuxOnRequest(cfg, s, aux, request))
  {
    match request
    case UploadNew(user, c, ext) => UploadNewGood(cfg, contents, s, aux, user, c, ext);
    case UploadCommit(doc) => if doc in s.uploads { UploadCommitGood(cfg, contents, s, aux, doc); }
    case Delete(doc) => DeleteGood(cfg, contents, s, aux, doc);
    case _ =>
      PlainRequest(cfg, contents, s, request, OnRequest(cfg, s, request));
      OutsideGood(cfg, contents, s, OnRequest(cfg, s, request), aux);
  }

  lemma DispatchGood(cfg: Config, contents: set<Content>, s: State, aux: Aux, ev: Event)
    requires Good(cfg, contents, s, aux) && Controlled(s, aux) && CollisionFree(cfg, contents)
    requires !IsReprocess(ev) && EventWithin(ev, contents)
    ensures Good(cfg, contents, Dispatch(cfg, s, ev), NextAux(cfg, s, aux, ev))
  {
    match ev
    case Http(request) => RequestGood(cfg, contents, s, aux, request);
    case Work(w, action) => WorkGood(cfg, contents, s, aux, w, action);
    case SweepStep(p) => SweepGood(cfg, contents, s, aux, p);
    case _ => LeaveGood(cfg, contents, s, aux, 0, Dispatch(cfg, s, ev));
  }

  lemma ApplyGood(cfg: Config, contents: set<Content>, s: State, aux: Aux, ev: Event)
    requires Good(cfg, contents, s, aux) && Controlled(s, aux) && CollisionFree(cfg, contents)
    requires !IsReprocess(ev) && EventWithin(ev, contents)
    ensures Good(cfg, contents, Apply(cfg, s, ev), NextAux(cfg, Later(s), aux, ev))
  {
    var s1 := Later(s);
    TickControlled(s, aux);
    LaterGood(cfg, contents, s, aux);
    DispatchGood(cfg, contents, s1, aux, ev);
  }

  lemma LaterGood(cfg: Config, contents: set<Content>, s: State, aux: Aux)
    requires Good(cfg, contents, s, aux)
    ensures Good(cfg, contents, Later(s), aux)
  {
    LeaveGood(cfg, contents, s, aux, 0, Later(s));
  }

  lemma {:induction false} RunGood(cfg: Config, contents: set<Content>, evs: seq<Event>)
    requires CollisionFree(cfg, contents) && NoReprocess(evs) && Within(evs, contents)
    ensures Good(cfg, contents, Run(cfg, INIT, evs), AuxOf(cfg, evs))
    decreases |evs|
  {
    if evs != [] {
      var prefix := evs[..|evs| - 1];
      RunGood(cfg, contents, prefix);
      RunControlled(cfg, prefix);
      ApplyGood(cfg, contents, Run(cfg, INIT, prefix), AuxOf(cfg, prefix), evs[|evs| - 1]);
    }
  }

  // ----- main results -----

  /** In every run any artifact under a key is what recomputing it from those bytes would give. */
  lemma StoredArtifactsAreGenuine(cfg: Config, contents: set<Content>, evs: seq<Event>, key: Key, c: Content)
    requires CollisionFree(cfg, contents) && NoReprocess(evs) && Within(evs, contents)
    requires key in Run(cfg, INIT, evs).artifacts && c in contents && cfg.hash(c) == key.hash
    ensures exists e :: Run(cfg, INIT, evs).artifacts[key] == Expected(cfg, c, e, key.stage)
  {
    RunGood(cfg, contents, evs);
    var a := Run(cfg, INIT, evs).artifacts[key];
    assert FromBytes(cfg, c, key.stage, a);
    var e :| a == Expected(cfg, c, e, key.stage);
  }

  /** In every run an indexed document holds the rows of its own bytes, ready to be searched. */
  lemma IndexedRowsAreGenuine(cfg: Config, contents: set<Content>, evs: seq<Event>, d: DocId)
    requires CollisionFree(cfg, contents) && NoReprocess(evs) && Within(evs, contents)
    requires d in Run(cfg, INIT, evs).db.docs && Run(cfg, INIT, evs).db.docs[d].status == Indexed
    ensures var db := Run(cfg, INIT, evs).db;
            exists c, e, e', e'' ::
              && c in contents && cfg.hash(c) == db.docs[d].contentHash
              && ChunkRows(db, d) == PipelineRows(cfg, c, e)
              && Indexable(cfg, ChunkRows(db, d))
              && Indexable(cfg, PipelineRows(cfg, c, e')) && db.docs[d].chunkCount == |PipelineRows(cfg, c, e')|
              && db.docs[d].pageCount == Some(cfg.extract(c, e'').pages)
  {
    RunGood(cfg, contents, evs);
    RunControlled(cfg, evs);
    var db := Run(cfg, INIT, evs).db;
    var ch := AuxOf(cfg, evs).chains;
    var doc := db.docs[d];
    var h := doc.contentHash;
    assert DocGood(cfg, contents, db, ch, d) && OwnsChain(db, ch, d);
    var c :| c in contents && cfg.hash(c) == h;
    var e := SuffixOf(cfg, contents, c, Embed, Rows(db.chunks[d]));
    var rows :| RowsGood(cfg, contents, h, rows) && |rows| == doc.chunkCount;
    var e' := SuffixOf(cfg, contents, c, Embed, Rows(rows));
    var p :| Genuine(cfg, contents, Key(h, Extract), ParsedDoc(p)) && p.pages == doc.pageCount.value;
    var e'' := SuffixOf(cfg, contents, c, Extract, ParsedDoc(p));
  }

  lemma SuffixOf(cfg: Config, contents: set<Content>, c: Content, stage: Stage, a: Artifact) returns (e: Extension)
    requires c in contents && Genuine(cfg, contents, Key(cfg.hash(c), stage), a)
    ensures a == Expected(cfg, c, e, stage)
  {
    assert FromBytes(cfg, c, stage, a);
    e :| a == Expected(cfg, c, e, stage);
  }
}
