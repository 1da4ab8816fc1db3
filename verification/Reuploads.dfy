// What uploading the same content again does: which job it finds, whether that resumes the document,
// and what becomes of a document that is already INDEXED or FAILED.
module Reuploads {
  import opened Types
  import opened Database
  import opened Pipeline
  import opened Moves
  import opened Chains
  import opened Naming
  import opened Control
  import opened JobHistory
  import opened ReadModel
  import opened Records

  // ----- the newest job is the end of the chain -----

  ghost predicate InOrder(db: Db, i: JobId, j: JobId) {
    (i in db.jobs && j in db.jobs && db.jobs[i].document == db.jobs[j].document
     && StageIndex(db.jobs[i].stage) < StageIndex(db.jobs[j].stage)) ==> db.jobs[i].createdAt < db.jobs[j].createdAt
  }

  /** A job of a later stage is a later row. */
  ghost predicate AllInOrder(db: Db) {
    forall i, j {:trigger InOrder(db, i, j)} :: InOrder(db, i, j)
  }

  /** A queued job of a chain is its last one, so no row of the document is of a later stage. */
  lemma QueuedIsLast(db: Db, ch: ChainMap, i: JobId, j: JobId)
    requires Chained(db, ch) && i in db.jobs && db.jobs[i].status == Queued
    requires j in db.jobs && db.jobs[j].document == db.jobs[i].document
    ensures StageIndex(db.jobs[j].stage) <= StageIndex(db.jobs[i].stage)
  {
    ActiveIsLast(db, ch, i);
    assert InChain(db, ch, i) && InChain(db, ch, j);
  }

  lemma StepInOrder(cfg: Config, s: State, aux: Aux, ev: Event, s': State, ch': ChainMap, i: JobId, j: JobId)
    requires Named(s, aux) && s.now > 0 && AllStamped(s.db, s.now - 1) && AllInOrder(s.db) && s' == Dispatch(cfg, s, ev)
    requires Chained(s'.db, ch')
    requires i in s.db.jobs ==> Keeps(s.db, s'.db, i)
    requires j in s.db.jobs ==> Keeps(s.db, s'.db, j)
    ensures InOrder(s'.db, i, j)
  {
    if i in s'.db.jobs && j in s'.db.jobs && s'.db.jobs[i].document == s'.db.jobs[j].document {
      if i !in s.db.jobs {
        NewRowIsBlank(cfg, s, ev, i, s');
        QueuedIsLast(s'.db, ch', i, j);
      } else if j !in s.db.jobs {
        NewRowIsBlank(cfg, s, ev, j, s');
        NewRowIsLater(s, aux, s'.db.jobs[j], i);
      } else {
        assert InOrder(s.db, i, j);
      }
    }
  }

  lemma NewRowIsLater(s: State, aux: Aux, new_: Job, i: JobId)
    requires Named(s, aux) && s.now > 0 && AllStamped(s.db, s.now - 1) && IsNew(s, new_)
    requires i in s.db.jobs && s.db.jobs[i].document == new_.document
    ensures s.db.jobs[i].createdAt < new_.createdAt
  {
    assert Stamped(s.db, s.now - 1, i) && JobNamed(s.db, aux, i);
    assert new_.document in s.uploads ==> UploadNamed(s, aux, new_.document);
  }

  lemma {:induction false} RunInOrder(cfg: Config, evs: seq<Event>)
    requires NoReprocess(evs)
    ensures AllInOrder(Run(cfg, INIT, evs).db)
    decreases |evs|
  {
    if evs != [] {
      var before, ev := evs[..|evs| - 1], evs[|evs| - 1];
      RunInOrder(cfg, before);
      assert before + [ev] == evs;
      OneMoreInOrder(cfg, before, ev, Run(cfg, INIT, before).db, Run(cfg, INIT, evs).db);
    }
  }

  lemma OneMoreInOrder(cfg: Config, before: seq<Event>, ev: Event, db: Db, db': Db)
    requires NoReprocess(before + [ev]) && db == Run(cfg, INIT, before).db && db' == Run(cfg, INIT, before + [ev]).db
    requires AllInOrder(db)
    ensures AllInOrder(db')
  {
    var s, aux, s' := LastStep(cfg, before, ev);
    ChainedAfter(cfg, before + [ev], db', AuxOf(cfg, before + [ev]).chains);
    RowsKeep(cfg, before, ev, db, db');
    DispatchInOrder(cfg, s, aux, ev, s', AuxOf(cfg, before + [ev]).chains);
  }

  /** The last event of a run, and what is known where it happens. */
  lemma LastStep(cfg: Config, before: seq<Event>, ev: Event) returns (s: State, aux: Aux, s': State)
    ensures s.db == Run(cfg, INIT, before).db && s'.db == Run(cfg, INIT, before + [ev]).db && s' == Dispatch(cfg, s, ev)
    ensures Named(s, aux) && s.now > 0 && AllStamped(s.db, s.now - 1)
  {
    s, aux := Later(Run(cfg, INIT, before)), AuxOf(cfg, before);
    RunSane(cfg, before);
    LaterSane(Run(cfg, INIT, before), aux);
    RunSnoc(cfg, INIT, before, ev);
    s' := Dispatch(cfg, s, ev);
  }

  lemma ChainedAfter(cfg: Config, evs: seq<Event>, db: Db, ch: ChainMap)
    requires NoReprocess(evs) && db == Run(cfg, INIT, evs).db && ch == AuxOf(cfg, evs).chains
    ensures Chained(db, ch)
  {
    RunControlled(cfg, evs);
  }

  lemma DispatchInOrder(cfg: Config, s: State, aux: Aux, ev: Event, s': State, ch': ChainMap)
    requires Named(s, aux) && s.now > 0 && AllStamped(s.db, s.now - 1) && AllInOrder(s.db) && s' == Dispatch(cfg, s, ev)
    requires Chained(s'.db, ch') && AllKeep(s.db, s'.db)
    ensures AllInOrder(s'.db)
  {
    forall i, j
      ensures InOrder(s'.db, i, j)
    {
      StepInOrder(cfg, s, aux, ev, s', ch', i, j);
    }
  }

  ghost predicate AllKeep(db: Db, db': Db) {
    forall j {:trigger Keeps(db, db', j)} :: j in db.jobs ==> Keeps(db, db', j)
  }

  lemma RowsKeep(cfg: Config, evs: seq<Event>, ev: Event, db: Db, db': Db)
    requires db == Run(cfg, INIT, evs).db && db' == Run(cfg, INIT, evs + [ev]).db
    ensures AllKeep(db, db')
  {
    forall j | j in db.jobs
      ensures Keeps(db, db', j)
    {
      PresentIsBorn(cfg, evs, j);
      LastKeeps(cfg, evs, ev, j);
    }
  }

  /** The job that accounts for the whole document: its own status gives the document's, and all others are done before it. */
  ghost predicate Current(db: Db, d: DocId, j: JobId) {
    && d in db.docs && j in db.jobs && db.jobs[j].document == d && db.docs[d].status == StatusFor(db.jobs[j])
    && forall i {:trigger db.jobs[i]} :: i in db.jobs && db.jobs[i].document == d && i != j ==>
         db.jobs[i].status == Done && StageIndex(db.jobs[i].stage) < StageIndex(db.jobs[j].stage)
  }

  lemma LastIsCurrent(db: Db, ch: ChainMap, d: DocId, j: JobId)
    requires Chained(db, ch) && AllInOrder(db) && d in db.docs && IsLatestJob(db, d, j)
    ensures Current(db, d, j)
  {
    assert OwnsChain(db, ch, d) && InChain(db, ch, j);
    var last := Last(ch[d]);
    assert Link(db, d, |ch[d]| - 1, last);
    assert InOrder(db, j, last);
    forall i | i in db.jobs && db.jobs[i].document == d && i != j
      ensures db.jobs[i].status == Done && StageIndex(db.jobs[i].stage) < StageIndex(db.jobs[j].stage)
    {
      assert InChain(db, ch, i);
      assert DoneAt(db, ch[d][StageIndex(db.jobs[i].stage)]);
    }
  }

  /**
   * In every run without reprocess the newest job of a document, with which a repeated upload is
   * answered, is the one where its pipeline stands.
   */
  lemma ReuploadFindsTheCurrentJob(cfg: Config, evs: seq<Event>, d: DocId, j: JobId)
    requires NoReprocess(evs) && d in Run(cfg, INIT, evs).db.docs && IsLatestJob(Run(cfg, INIT, evs).db, d, j)
    ensures Current(Run(cfg, INIT, evs).db, d, j)
  {
    RunControlled(cfg, evs);
    RunInOrder(cfg, evs);
    LastIsCurrent(Run(cfg, INIT, evs).db, AuxOf(cfg, evs).chains, d, j);
  }

  /**
   * Uploading known content again changes no row, and leaves ARQ with a task for an active job of the
   * document exactly when the document is PENDING or PROCESSING: it brings a lost task back, and
   * resumes nothing that is FAILED.
   */
  lemma ReuploadResumesIff(cfg: Config, evs: seq<Event>, d: DocId, j: JobId, s: State, s': State)
    requires NoReprocess(evs) && s == Run(cfg, INIT, evs) && d in s.db.docs && IsLatestJob(s.db, d, j)
    requires s' == Apply(cfg, s, Http(UploadKnown(d, j)))
    ensures s'.db == s.db && ArqKnows(s', j)
    ensures (exists i {:trigger ActiveFor(s'.db, d, i)} :: ActiveFor(s'.db, d, i) && ArqKnows(s', i))
            <==> s.db.docs[d].status in {Pending, Processing}
  {
    ReuploadFindsTheCurrentJob(cfg, evs, d, j);
    ReuploadLeaves(cfg, s, d, j, s');
    if s.db.docs[d].status in {Pending, Processing} { assert ActiveFor(s'.db, d, j); }
  }

  lemma ReuploadLeaves(cfg: Config, s: State, d: DocId, j: JobId, s': State)
    requires d in s.db.docs && IsLatestJob(s.db, d, j) && s' == Apply(cfg, s, Http(UploadKnown(d, j)))
    ensures s'.db == s.db && ArqKnows(s', j)
  {
    assert s' == DoUploadKnown(Later(s), d, j);
  }

  // ----- INDEXED and FAILED documents -----

  /** Status, error, chunk count and indexing time are the same. */
  predicate SameOutcome(old_: Document, new_: Document) {
    && new_.status == old_.status && new_.error == old_.error
    && new_.chunkCount == old_.chunkCount && new_.indexedAt == old_.indexedAt
  }

  predicate Concluded(doc: Document) {
    doc.status == Indexed || doc.status == DocFailed
  }

  ghost predicate DocStays(db: Db, db': Db, d: DocId) {
    d in db'.docs ==> d in db.docs && (Concluded(db.docs[d]) ==> SameOutcome(db.docs[d], db'.docs[d]))
  }

  lemma FailStays(db: Db, id: JobId, error: string, now: Time, d: DocId)
    ensures DocStays(db, FailStage(db, id, error, now), d)
  {
  }

  lemma StartStays(db: Db, id: JobId, stage: Stage, now: Time, d: DocId)
    ensures DocStays(db, StartTx(db, id, stage, now), d)
  {
    match StartOutcomeOf(db, id, stage)
    case StartDocMissing => FailStays(db, id, "document missing", now, d);
    case StartInvalid => FailStays(db, id, "invalid transition", now, d);
    case _ =>
  }

  lemma CompleteStays(db: Db, id: JobId, result: StageResult, next: Option<Stage>, now: Time, d: DocId)
    ensures DocStays(db, CompleteStage(db, id, result, next, now), d)
  {
  }

  lemma CommitStays(db: Db, doc: DocId, effect: Effect, d: DocId)
    ensures DocStays(db, CommittedDb(db, doc, effect), d)
  {
  }

  lemma WorkStays(cfg: Config, s: State, w: WorkerId, action: Action, d: DocId, s': State)
    requires s' == OnWork(cfg, s, w, action)
    ensures DocStays(s.db, s'.db, d)
  {
    var pc := PcOf(s, w);
    match action
    case Deliver(job, attempt) =>
      DeliverDb(s, w, pc, job, attempt, s');
      if job in s.tasks { StartStays(s.db, job, s.tasks[job], s.now, d); }
    case Settle =>
      SettleDb(s, w, pc, s');
      if pc.Failing? { FailStays(s.db, pc.task.job, pc.error, s.now, d); }
    case Complete =>
      CompleteDb(s, w, pc, s');
      if pc.Completing? { CompleteStays(s.db, pc.task.job, pc.result, NextStage(pc.task.stage), s.now, d); }
    case Commit =>
      CommitDb(cfg, s, w, pc, s');
      if pc.Committing? { CommitStays(s.db, pc.task.doc, pc.effect, d); }
    case _ => PlainDb(cfg, s, w, action, s');
  }

  lemma RequestStays(cfg: Config, s: State, request: Request, d: DocId, s': State)
    requires s' == OnRequest(cfg, s, request) && d !in s.uploads && request != ReprocessReset(d)
    ensures DocStays(s.db, s'.db, d)
  {
    match request
    case UploadNew(user, content, ext) => UploadNewDb(cfg, s, user, content, ext, s');
    case UploadCommit(doc) => UploadCommitDb(s, doc, s');
    case ReprocessReset(doc) =>
    case ReprocessRestart(doc, stage) =>
    case ReprocessExtract(doc) =>
    case Delete(doc) =>
    case _ => PlainRequestDb(cfg, s, request, s');
  }

  lemma SweepStays(s: State, p: nat, d: DocId, s': State)
    requires s' == DoSweepStep(s, p)
    ensures DocStays(s.db, s'.db, d)
  {
    if p in s.sweeps && s.sweeps[p].todo != [] {
      var sweep := s.sweeps[p];
      var (id, job) := sweep.todo[0];
      assert s'.db == SweepDb(s.db, id, job, sweep.(todo := sweep.todo[1..]), s.now);
      FailStays(s.db, id, SweepError(sweep, job), s.now, d);
    }
  }

  lemma DispatchStays(cfg: Config, s: State, ev: Event, d: DocId, s': State)
    requires s' == Dispatch(cfg, s, ev) && d !in s.uploads && ev != Http(ReprocessReset(d))
    ensures DocStays(s.db, s'.db, d)
  {
    match ev
    case Http(request) => RequestStays(cfg, s, request, d, s');
    case Work(w, action) => WorkStays(cfg, s, w, action, d, s');
    case SweepStep(p) => SweepStays(s, p, d, s');
    case _ =>
  }

  /** The identifier is handed out and not waiting in an open upload. */
  ghost predicate Taken(s: State, aux: Aux, d: DocId) {
    d in aux.docs && d !in s.uploads
  }

  lemma DispatchTaken(cfg: Config, s: State, aux: Aux, ev: Event, d: DocId, s': State)
    requires Named(s, aux) && Taken(s, aux, d) && s' == Dispatch(cfg, s, ev)
    ensures Taken(s', NextAux(cfg, s, aux, ev), d)
  {
    AuxGrows(cfg, s, aux, ev);
    match ev
    case Http(request) => RequestTaken(cfg, s, request, d, s');
    case Work(w, action) => WorkUploads(cfg, s, w, action, s');
    case _ =>
  }

  lemma RequestTaken(cfg: Config, s: State, request: Request, d: DocId, s': State)
    requires d < s.db.nextId && d !in s.uploads && s' == OnRequest(cfg, s, request)
    ensures d !in s'.uploads
  {
  }

  lemma {:induction false} OutcomeStays(cfg: Config, evs: seq<Event>, more: seq<Event>, d: DocId)
    requires d in Run(cfg, INIT, evs).db.docs && Concluded(Run(cfg, INIT, evs).db.docs[d]) && Http(ReprocessReset(d)) !in more
    ensures DocStays(Run(cfg, INIT, evs).db, Run(cfg, INIT, evs + more).db, d)
    ensures Taken(Run(cfg, INIT, evs + more), AuxOf(cfg, evs + more), d)
    decreases |more|
  {
    RunSane(cfg, evs);
    assert DocNamed(Run(cfg, INIT, evs).db, AuxOf(cfg, evs), d);
    if more == [] {
      assert evs + more == evs;
      NotUploading(Run(cfg, INIT, evs), AuxOf(cfg, evs), d);
    } else {
      var less, ev := more[..|more| - 1], more[|more| - 1];
      var before := evs + less;
      assert evs + more == before + [ev];
      OutcomeStays(cfg, evs, less, d);
      RunSane(cfg, before);
      LaterSane(Run(cfg, INIT, before), AuxOf(cfg, before));
      RunSnoc(cfg, INIT, before, ev);
      AuxSnoc(cfg, before, ev, Run(cfg, INIT, before));
      var s, s' := Later(Run(cfg, INIT, before)), Run(cfg, INIT, evs + more);
      DispatchStays(cfg, s, ev, d, s');
      DispatchTaken(cfg, s, AuxOf(cfg, before), ev, d, s');
    }
  }

  lemma NotUploading(s: State, aux: Aux, d: DocId)
    requires Named(s, aux) && d in s.db.docs
    ensures d !in s.uploads
  {
    assert d in s.uploads ==> UploadNamed(s, aux, d);
  }

  /**
   * An INDEXED or FAILED document keeps its outcome through every run that does not reprocess it,
   * repeated uploads, late deliveries and sweeps included, for as long as it exists.
   */
  lemma ConcludedDocumentsStay(cfg: Config, evs: seq<Event>, more: seq<Event>, d: DocId)
    requires d in Run(cfg, INIT, evs).db.docs && Concluded(Run(cfg, INIT, evs).db.docs[d]) && Http(ReprocessReset(d)) !in more
    requires d in Run(cfg, INIT, evs + more).db.docs
    ensures SameOutcome(Run(cfg, INIT, evs).db.docs[d], Run(cfg, INIT, evs + more).db.docs[d])
  {
    OutcomeStays(cfg, evs, more, d);
  }
}
