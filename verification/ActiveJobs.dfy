// How many jobs of one document can be active at once, reprocess included.
module ActiveJobs {
  import opened Sets
  import opened Types
  import opened Database
  import opened Pipeline
  import opened Naming
  import opened Control
  import opened JobHistory

  ghost function ActiveOf(db: Db, d: DocId): set<JobId> {
    set j | j in db.jobs && db.jobs[j].document == d && Active(db.jobs[j])
  }

  /** The job row that an event inserts. */
  function Created(s: State, ev: Event): Option<JobId> {
    match ev
    case Http(UploadCommit(doc)) => if doc in s.uploads then Some(s.uploads[doc].job) else None
    case Http(ReprocessRestart(doc, _)) => if doc in s.db.docs then Some(s.db.nextId) else None
    case Http(ReprocessExtract(doc)) => if doc in s.db.docs then Some(s.db.nextId) else None
    case Work(w, Complete) =>
      if PcOf(s, w).Completing? then
        (match CompleteOutcomeOf(s.db, PcOf(s, w).task.job, NextStage(PcOf(s, w).task.stage))
         case Completed(id) => id
         case _ => None)
      else None
    case _ => None
  }

  lemma CompleteCreates(s: State, w: WorkerId, j: JobId)
    requires j in DoComplete(s, w).db.jobs
    ensures j in s.db.jobs || Created(s, Work(w, Complete)) == Some(j)
  {
  }

  lemma WorkCreates(cfg: Config, s: State, w: WorkerId, action: Action, j: JobId)
    requires j in OnWork(cfg, s, w, action).db.jobs
    ensures j in s.db.jobs || Created(s, Work(w, action)) == Some(j)
  {
    match action
    case Complete => CompleteCreates(s, w, j);
    case Commit => if PcOf(s, w).Committing? { EffectSameRows(s.db, PcOf(s, w).task.doc, PcOf(s, w).effect); }
    case Deliver(job, attempt) => DeliverSameRows(s, w, job, attempt);
    case Settle => SettleSameRows(s, w);
    case _ => assert OnWork(cfg, s, w, action).db == s.db;
  }

  lemma RequestCreates(cfg: Config, s: State, request: Request, j: JobId)
    requires j in OnRequest(cfg, s, request).db.jobs
    ensures j in s.db.jobs || Created(s, Http(request)) == Some(j)
  {
  }

  lemma SweepCreates(s: State, p: nat, j: JobId)
    requires j in DoSweepStep(s, p).db.jobs
    ensures j in s.db.jobs
  {
  }

  lemma OnlyCreated(cfg: Config, s: State, ev: Event, j: JobId)
    requires j in Dispatch(cfg, s, ev).db.jobs
    ensures j in s.db.jobs || Created(s, ev) == Some(j)
  {
    match ev
    case Http(request) => RequestCreates(cfg, s, request, j);
    case Work(w, action) => WorkCreates(cfg, s, w, action, j);
    case SweepStep(p) => SweepCreates(s, p, j);
    case _ =>
  }

  /** A job active after an event was active before it, or is the one just created. */
  lemma ActiveBefore(cfg: Config, s: State, aux: Aux, ev: Event, d: DocId, j: JobId)
    requires Sane(s, aux) && j in ActiveOf(Dispatch(cfg, s, ev).db, d)
    ensures j in ActiveOf(s.db, d) || Created(s, ev) == Some(j)
  {
    OnlyCreated(cfg, s, ev, j);
    if j in s.db.jobs {
      assert JobNamed(s.db, aux, j);
      forall e | e in s.uploads
        ensures s.uploads[e].job != j
      {
        assert UploadNamed(s, aux, e);
      }
      DispatchKeeps(cfg, s, aux, ev, j);
    }
  }

  predicate Inserts(ev: Event, d: DocId) {
    match ev
    case Http(ReprocessRestart(doc, _)) => doc == d
    case Http(ReprocessExtract(doc)) => doc == d
    case _ => false
  }

  /** A completed job of the document makes room for its successor. */
  lemma CompletionReplaces(cfg: Config, s: State, w: WorkerId, d: DocId, n: JobId)
    requires Created(s, Work(w, Complete)) == Some(n) && n in ActiveOf(OnWork(cfg, s, w, Complete).db, d)
    ensures PcOf(s, w).task.job in ActiveOf(s.db, d) - ActiveOf(OnWork(cfg, s, w, Complete).db, d) || n in s.db.jobs
  {
  }

  lemma InsertForOthers(cfg: Config, s: State, request: Request, d: DocId, j: JobId)
    requires Created(s, Http(request)) == Some(j) && j in ActiveOf(OnRequest(cfg, s, request).db, d)
    requires !Inserts(Http(request), d) && j !in s.db.jobs
    ensures request == UploadCommit(d)
  {
  }

  lemma CommitFindsNone(s: State, aux: Aux, d: DocId)
    requires Sane(s, aux) && d in s.uploads
    ensures ActiveOf(s.db, d) == {}
  {
    assert UploadNamed(s, aux, d);
    forall j | j in s.db.jobs
      ensures s.db.jobs[j].document != d
    {
      assert JobNamed(s.db, aux, j);
    }
  }

  lemma ActiveStep(cfg: Config, s: State, aux: Aux, ev: Event, d: DocId)
    requires Sane(s, aux)
    ensures |ActiveOf(Dispatch(cfg, s, ev).db, d)| <=
            (if |ActiveOf(s.db, d)| >= 1 then |ActiveOf(s.db, d)| else 1) + (if Inserts(ev, d) then 1 else 0)
  {
    var before, after := ActiveOf(s.db, d), ActiveOf(Dispatch(cfg, s, ev).db, d);
    forall j | j in after
      ensures j in before || Created(s, ev) == Some(j)
    {
      ActiveBefore(cfg, s, aux, ev, d, j);
    }
    if n :| Created(s, ev) == Some(n) && n in after && n !in before {
      assert after <= before + {n};
      SizeOfSubset(after, before + {n});
      if !Inserts(ev, d) { CreatedReplaces(cfg, s, aux, ev, d, n, before, after); }
    } else {
      SizeOfSubset(after, before);
    }
  }

  /** Outside reprocess a new active job takes the place of the one completed, or is the document's first. */
  lemma CreatedReplaces(cfg: Config, s: State, aux: Aux, ev: Event, d: DocId, n: JobId, before: set<JobId>, after: set<JobId>)
    requires Sane(s, aux) && Created(s, ev) == Some(n) && !Inserts(ev, d) && n in after && n !in before && after <= before + {n}
    requires before == ActiveOf(s.db, d) && after == ActiveOf(Dispatch(cfg, s, ev).db, d)
    ensures |after| <= if |before| >= 1 then |before| else 1
  {
    CreatedIsNew(s, aux, ev, n);
    if ev.Http? { InsertForOthers(cfg, s, ev.request, d, n); }
    if ev.Work? {
      CompletionReplaces(cfg, s, ev.worker, d, n);
      var old_ := PcOf(s, ev.worker).task.job;
      SizeOfSubset(after, before - {old_} + {n});
    } else {
      CommitFindsNone(s, aux, d);
      SizeOfSubset(after, {n});
    }
  }

  lemma CreatedIsNew(s: State, aux: Aux, ev: Event, n: JobId)
    requires Sane(s, aux) && Created(s, ev) == Some(n)
    ensures n !in s.db.jobs
  {
    if n in s.db.jobs { assert JobNamed(s.db, aux, n); }
    if ev.Http? && ev.request.UploadCommit? { assert UploadNamed(s, aux, ev.request.doc); }
  }

  function Inserted(evs: seq<Event>, d: DocId): nat
    decreases |evs|
  {
    if evs == [] then 0 else Inserted(evs[..|evs| - 1], d) + if Inserts(evs[|evs| - 1], d) then 1 else 0
  }

  /**
   * With reprocess allowed: a document never has more active jobs than one plus the job rows that
   * reprocess calls inserted for it, of which every call inserts two.
   */
  lemma {:induction false} ActiveJobsAreBounded(cfg: Config, evs: seq<Event>, d: DocId)
    ensures |ActiveOf(Run(cfg, INIT, evs).db, d)| <= 1 + Inserted(evs, d)
    decreases |evs|
  {
    if evs == [] {
      assert ActiveOf(INIT.db, d) == {};
    } else {
      var prefix := evs[..|evs| - 1];
      var s, aux := Run(cfg, INIT, prefix), AuxOf(cfg, prefix);
      ActiveJobsAreBounded(cfg, prefix, d);
      RunSane(cfg, prefix);
      LaterSane(s, aux);
      ActiveStep(cfg, Later(s), aux, evs[|evs| - 1], d);
    }
  }
}
