// What one step of a worker does to the tables and to the workers' positions, action by action.
module Moves {
  import opened Types
  import opened Database
  import opened Pipeline

  // ----- positions -----

  lemma DeliverWorkers(s: State, w: WorkerId, pc: Pc, job: JobId, attempt: nat, s': State)
    requires pc == PcOf(s, w) && s' == DoDeliver(s, w, job, attempt)
    ensures s'.workers ==
              if pc.Idle? && job in s.tasks
              then s.workers[w := StartedPc(StartOutcomeOf(s.db, job, s.tasks[job]), job, s.tasks[job], attempt)] else s.workers
  {
  }

  lemma ComputeWorkers(cfg: Config, s: State, w: WorkerId, pc: Pc, cached: bool, s': State)
    requires pc == PcOf(s, w) && s' == DoCompute(cfg, s, w, cached)
    ensures s'.workers == if pc.InStage? then s.workers[w := Computed(cfg, s, pc.task, cached)] else s.workers
  {
  }

  lemma StoreWorkers(s: State, w: WorkerId, pc: Pc, s': State)
    requires pc == PcOf(s, w) && s' == DoStore(s, w)
    ensures s'.workers == if pc.Storing? then s.workers[w := Committing(pc.task, pc.effect, pc.result)] else s.workers
  {
  }

  lemma CommitWorkers(cfg: Config, s: State, w: WorkerId, pc: Pc, s': State)
    requires pc == PcOf(s, w) && s' == DoCommit(cfg, s, w)
    ensures s'.workers ==
              if pc.Committing? then s.workers[w := CommittedPc(cfg, s.db, pc.task, pc.effect, pc.result)] else s.workers
  {
  }

  lemma RaiseWorkers(cfg: Config, s: State, w: WorkerId, pc: Pc, error: string, permanent: bool, s': State)
    requires pc == PcOf(s, w) && s' == DoRaise(cfg, s, w, error, permanent)
    ensures s'.workers ==
              if pc.InStage? || pc.Storing? || pc.Committing? then s.workers[w := Raised(cfg, pc.task, error, permanent)] else s.workers
  {
  }

  lemma SettleWorkers(s: State, w: WorkerId, pc: Pc, s': State)
    requires pc == PcOf(s, w) && s' == DoSettle(s, w)
    ensures s'.workers == if pc.Failing? || pc.Retrying? then s.workers[w := Idle] else s.workers
  {
  }

  lemma CompleteWorkers(s: State, w: WorkerId, pc: Pc, s': State)
    requires pc == PcOf(s, w) && s' == DoComplete(s, w)
    ensures s'.workers ==
              if pc.Completing?
              then s.workers[w := CompletedPc(CompleteOutcomeOf(s.db, pc.task.job, NextStage(pc.task.stage)), pc.task)] else s.workers
  {
  }

  lemma EnqueueWorkers(s: State, w: WorkerId, pc: Pc, s': State)
    requires pc == PcOf(s, w) && s' == DoEnqueue(s, w)
    ensures s'.workers == if pc.Enqueueing? then s.workers[w := Idle] else s.workers
  {
  }

  // ----- tables -----

  lemma DeliverDb(s: State, w: WorkerId, pc: Pc, job: JobId, attempt: nat, s': State)
    requires pc == PcOf(s, w) && s' == DoDeliver(s, w, job, attempt)
    ensures s'.db == if pc.Idle? && job in s.tasks then StartTx(s.db, job, s.tasks[job], s.now) else s.db
  {
  }

  lemma CommitDb(cfg: Config, s: State, w: WorkerId, pc: Pc, s': State)
    requires pc == PcOf(s, w) && s' == DoCommit(cfg, s, w)
    ensures s'.db == if pc.Committing? then CommittedDb(s.db, pc.task.doc, pc.effect) else s.db
  {
  }

  lemma SettleDb(s: State, w: WorkerId, pc: Pc, s': State)
    requires pc == PcOf(s, w) && s' == DoSettle(s, w)
    ensures s'.db == if pc.Failing? then FailStage(s.db, pc.task.job, pc.error, s.now)
                     else if pc.Retrying? then RecordAttempt(s.db, pc.task.job, pc.error, pc.task.attempt)
                     else s.db
  {
  }

  lemma CompleteDb(s: State, w: WorkerId, pc: Pc, s': State)
    requires pc == PcOf(s, w) && s' == DoComplete(s, w)
    ensures s'.db == if pc.Completing? then CompleteStage(s.db, pc.task.job, pc.result, NextStage(pc.task.stage), s.now) else s.db
  {
  }

  lemma PlainDb(cfg: Config, s: State, w: WorkerId, action: Action, s': State)
    requires action.Compute? || action.Store? || action.Raise? || action.Enqueue? || action.Crash?
    requires s' == OnWork(cfg, s, w, action)
    ensures s'.db == s.db
  {
  }

  lemma PlainRequestDb(cfg: Config, s: State, request: Request, s': State)
    requires request.PutSource? || request.UploadRollback? || request.UploadKnown? || request.DropSource? || request.DropArtifact?
    requires s' == OnRequest(cfg, s, request)
    ensures s'.db == s.db
  {
  }

  lemma UploadNewDb(cfg: Config, s: State, user: UserId, content: Content, ext: Extension, s': State)
    requires s' == DoUploadNew(cfg, s, user, content, ext)
    ensures s'.db == if Uploaded(s.db, user, cfg.hash(content)) then s.db else s.db.(nextId := s.db.nextId + 2)
  {
  }

  lemma UploadCommitDb(s: State, doc: DocId, s': State)
    requires s' == DoUploadCommit(s, doc)
    ensures s'.db == if doc !in s.uploads then s.db
                     else s.db.(docs := s.db.docs[doc := s.uploads[doc].document],
                                jobs := s.db.jobs[s.uploads[doc].job := QueuedJob(doc, Extract, s.uploads[doc].createdAt)])
  {
  }

  /** No worker touches a pending upload. */
  lemma WorkUploads(cfg: Config, s: State, w: WorkerId, action: Action, s': State)
    requires s' == OnWork(cfg, s, w, action)
    ensures s'.uploads == s.uploads
  {
    match action
    case Settle => SettleUploads(s, w, s');
    case Complete => CompleteUploads(s, w, s');
    case Enqueue =>
      var pc := PcOf(s, w);
      if pc.Enqueueing? { EnqueueLeaves(s, pc.next, pc.nextStage, EnqueueJob(s, pc.next, pc.nextStage)); }
    case _ =>
  }

  lemma SettleUploads(s: State, w: WorkerId, s': State)
    requires s' == DoSettle(s, w)
    ensures s'.uploads == s.uploads
  {
  }

  lemma CompleteUploads(s: State, w: WorkerId, s': State)
    requires s' == DoComplete(s, w)
    ensures s'.uploads == s.uploads
  {
  }

  // ----- ARQ's side -----

  lemma PlainQueue(cfg: Config, s: State, w: WorkerId, action: Action, s': State)
    requires !action.Enqueue? && s' == OnWork(cfg, s, w, action)
    ensures s'.queue == s.queue && s'.results == s.results && s'.tasks == s.tasks
  {
    var pc := PcOf(s, w);
    match action
    case Deliver(job, attempt) => DeliverQueue(s, w, pc, job, attempt, s');
    case Complete => CompleteQueue(s, w, pc, s');
    case Settle => SettleQueue(s, w, pc, s');
    case Commit => CommitQueue(cfg, s, w, pc, s');
    case _ =>
  }

  lemma DeliverQueue(s: State, w: WorkerId, pc: Pc, job: JobId, attempt: nat, s': State)
    requires pc == PcOf(s, w) && s' == DoDeliver(s, w, job, attempt)
    ensures s'.queue == s.queue && s'.results == s.results && s'.tasks == s.tasks
  {
  }

  lemma CompleteQueue(s: State, w: WorkerId, pc: Pc, s': State)
    requires pc == PcOf(s, w) && s' == DoComplete(s, w)
    ensures s'.queue == s.queue && s'.results == s.results && s'.tasks == s.tasks
  {
  }

  lemma SettleQueue(s: State, w: WorkerId, pc: Pc, s': State)
    requires pc == PcOf(s, w) && s' == DoSettle(s, w)
    ensures s'.queue == s.queue && s'.results == s.results && s'.tasks == s.tasks
  {
  }

  lemma CommitQueue(cfg: Config, s: State, w: WorkerId, pc: Pc, s': State)
    requires pc == PcOf(s, w) && s' == DoCommit(cfg, s, w)
    ensures s'.queue == s.queue && s'.results == s.results && s'.tasks == s.tasks
  {
  }

  lemma EnqueueStepQueue(s: State, w: WorkerId, pc: Pc, s': State)
    requires pc == PcOf(s, w) && s' == DoEnqueue(s, w)
    ensures if !pc.Enqueueing? then s' == s
            else s'.queue == EnqueueJob(s, pc.next, pc.nextStage).queue && s'.results == s.results
                 && s'.tasks == EnqueueJob(s, pc.next, pc.nextStage).tasks
  {
    if pc.Enqueueing? { EnqueueQueue(s, pc.next, pc.nextStage, EnqueueJob(s, pc.next, pc.nextStage)); }
  }

  /** One iteration of a sweep enqueues its job or leaves ARQ alone. */
  lemma ItemQueue(s: State, p: nat, id: JobId, job: Job, sweep: Sweep, s': State)
    requires s' == SweepItem(s, p, id, job, sweep)
    ensures s'.results == s.results
    ensures s'.queue == if !SweepFails(sweep, job) && job.status == Queued then EnqueueJob(s, id, job.stage).queue else s.queue
    ensures s'.tasks == if !SweepFails(sweep, job) && job.status == Queued then EnqueueJob(s, id, job.stage).tasks else s.tasks
  {
    if SweepFails(sweep, job) {
      FailedItemQueue(s, p, id, job, sweep, s');
    } else if job.status != Queued || ArqKnows(s, id) {
      SkippedItemQueue(s, p, id, job, sweep, s');
      if ArqKnows(s, id) { assert EnqueueJob(s, id, job.stage) == s; }
    } else {
      RequeuedItemQueue(s, p, id, job, sweep, EnqueueJob(s, id, job.stage), s');
      EnqueueQueue(s, id, job.stage, EnqueueJob(s, id, job.stage));
    }
  }

  lemma FailedItemQueue(s: State, p: nat, id: JobId, job: Job, sweep: Sweep, s': State)
    requires s' == SweepItem(s, p, id, job, sweep) && SweepFails(sweep, job)
    ensures s'.queue == s.queue && s'.results == s.results && s'.tasks == s.tasks
  {
  }

  lemma SkippedItemQueue(s: State, p: nat, id: JobId, job: Job, sweep: Sweep, s': State)
    requires s' == SweepItem(s, p, id, job, sweep) && !SweepFails(sweep, job) && (job.status != Queued || ArqKnows(s, id))
    ensures s'.queue == s.queue && s'.results == s.results && s'.tasks == s.tasks
  {
  }

  lemma RequeuedItemQueue(s: State, p: nat, id: JobId, job: Job, sweep: Sweep, s1: State, s': State)
    requires s' == SweepItem(s, p, id, job, sweep) && !SweepFails(sweep, job) && job.status == Queued && !ArqKnows(s, id)
    requires s1 == EnqueueJob(s, id, job.stage)
    ensures s'.queue == s1.queue && s'.results == s1.results && s'.tasks == s1.tasks
  {
  }

  lemma EnqueueLeaves(s: State, job: JobId, stage: Stage, s': State)
    requires s' == EnqueueJob(s, job, stage)
    ensures s'.db == s.db && s'.artifacts == s.artifacts && s'.sources == s.sources && s'.uploads == s.uploads
    ensures s'.workers == s.workers && s'.sweeps == s.sweeps && s'.now == s.now
  {
    if !ArqKnows(s, job) { assert s' == s.(queue := s'.queue, tasks := s'.tasks); }
  }

  /** What an enqueue does to ARQ's queue and to the record of tasks. */
  lemma EnqueueQueue(s: State, job: JobId, stage: Stage, s': State)
    requires s' == EnqueueJob(s, job, stage)
    ensures s'.queue == (if ArqKnows(s, job) then s.queue else s.queue + {job}) && s'.results == s.results
    ensures s'.tasks == if ArqKnows(s, job) then s.tasks else s.tasks[job := stage]
  {
  }
}
