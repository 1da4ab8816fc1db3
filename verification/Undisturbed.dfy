// What a delivery achieves when nobody else acts: it finishes the document, moves it on to the next
// stage or waits for a retry; and on a good input, without errors, it does exactly its stage's work.
module Undisturbed {
  import opened Types
  import opened Database
  import opened Pipeline
  import opened Deliveries
  import opened HappyPath
  import opened Conduct

  /** Nobody else acts and the queue can be reached. */
  ghost predicate Quietly(env: Env) {
    env.redisUp && forall k {:trigger env.gaps(k)} :: env.gaps(k) == []
  }

  predicate NoFaults(env: Env) {
    env.faults(BeforeComputing).None? && env.faults(BeforeStoring).None? && env.faults(BeforeCommitting).None?
  }

  /** The end of a delivery: another attempt if `retrying`, else the document is finished or one stage further. */
  ghost predicate Ended(cfg: Config, s: State, w: WorkerId, task: Task, retrying: bool) {
    if retrying then WaitsForRetry(cfg, s, w, task.doc, task.job, task.stage, task.attempt)
    else Finished(s, task.doc) || Advanced(s, w, task.doc, task.job, task.stage)
  }

  /** The job is done and the next one waits to be enqueued. */
  ghost predicate HandsOver(s: State, w: WorkerId, task: Task) {
    && task.stage != Index && s.db.nextId > 0 && task.job in s.db.jobs && s.db.jobs[task.job].status == Done
    && NextWaits(s, w, task.doc, s.db.nextId - 1, NextStage(task.stage).value)
  }

  /** Where an undisturbed worker can be, given whether the stage function has failed transiently. */
  ghost predicate Somewhere(cfg: Config, s: State, w: WorkerId, task: Task, transient: bool) {
    match PcOf(s, w)
    case Idle => Ended(cfg, s, w, task, transient && task.attempt < cfg.maxTries)
    case Enqueueing(_, _) => !transient && HandsOver(s, w, task)
    case Retrying(_, _) => Going(cfg, s, w, task) && transient
    case Failing(_, _) => Going(cfg, s, w, task) && (transient ==> task.attempt >= cfg.maxTries)
    case _ => Going(cfg, s, w, task) && !transient
  }

  lemma WriteStep(cfg: Config, env: Env, s: State, w: WorkerId, task: Task, action: Action, s': State)
    requires Somewhere(cfg, s, w, task, false) && Called(env, PcOf(s, w), action) && s' == OnWork(cfg, s, w, action)
    requires action.Compute? || action.Store? || action.Commit?
    ensures Somewhere(cfg, s', w, task, false) && !Transient(s.db, PcOf(s, w), action)
  {
    match action
    case Compute(cached) => ComputeGoes(cfg, s, w, task, cached); ComputedShape(cfg, s, task, cached);
    case Store => StoreGoes(cfg, s, w, task);
    case Commit => CommitGoes(cfg, s, w, task); CommitsWell(cfg, s, w, task, PcOf(s, w), s');
  }

  /** The row is there, so the stage's own writes go through. */
  lemma CommitsWell(cfg: Config, s: State, w: WorkerId, task: Task, pc: Pc, s': State)
    requires Live(s, w, task, pc) && pc.Committing? && pc.task == task && s' == DoCommit(cfg, s, w)
    ensures PcOf(s', w).Completing?
  {
  }

  lemma RaiseStep(cfg: Config, env: Env, s: State, w: WorkerId, task: Task, error: string, permanent: bool, s': State)
    requires Somewhere(cfg, s, w, task, false) && Called(env, PcOf(s, w), Raise(error, permanent))
    requires s' == DoRaise(cfg, s, w, error, permanent)
    ensures Somewhere(cfg, s', w, task, !permanent)
  {
    RaiseGoes(cfg, s, w, task, error, permanent);
    MoveGoes(cfg, s, w, task, Raised(cfg, task, error, permanent));
  }

  lemma SettleStep(cfg: Config, s: State, w: WorkerId, task: Task, transient: bool, pc: Pc, s': State)
    requires Somewhere(cfg, s, w, task, transient) && pc == PcOf(s, w) && (pc.Failing? || pc.Retrying?)
    requires s' == DoSettle(s, w)
    ensures Somewhere(cfg, s', w, task, transient) && PcOf(s', w) == Idle
  {
    if pc.Failing? { FailStep(s, w, task, pc.error); } else { RetryStep(s, w, task, pc.error); }
  }

  lemma CompletesOnce(cfg: Config, s: State, w: WorkerId, task: Task, result: StageResult, s': State)
    requires Live(s, w, task, Completing(task, result)) && s' == DoComplete(s, w)
    ensures Somewhere(cfg, s', w, task, false)
  {
    CompleteStep(s, w, task, result);
  }

  lemma EnqueuesOnce(cfg: Config, s: State, w: WorkerId, task: Task, s': State)
    requires HandsOver(s, w, task) && s' == DoEnqueue(s, w)
    ensures Somewhere(cfg, s', w, task, false)
  {
    EnqueueStep(s, w, task.doc, s.db.nextId - 1, NextStage(task.stage).value);
  }

  /** Every step that is called for leads from one of these places to another. */
  lemma CalledStep(cfg: Config, env: Env, s: State, w: WorkerId, task: Task, transient: bool, action: Action, s': State)
    requires env.redisUp && Somewhere(cfg, s, w, task, transient) && Called(env, PcOf(s, w), action)
    requires s' == OnWork(cfg, s, w, action)
    ensures Somewhere(cfg, s', w, task, transient || Transient(s.db, PcOf(s, w), action))
  {
    if action.Complete? || action.Enqueue? {
      LastStep(cfg, env, s, w, task, transient, action, PcOf(s, w), s');
    } else if action.Settle? {
      SettleStep(cfg, s, w, task, transient, PcOf(s, w), s');
    } else {
      EarlyStep(cfg, env, s, w, task, transient, action, PcOf(s, w), s');
    }
  }

  lemma EarlyStep(cfg: Config, env: Env, s: State, w: WorkerId, task: Task, transient: bool, action: Action, pc: Pc, s': State)
    requires Somewhere(cfg, s, w, task, transient) && pc == PcOf(s, w) && Called(env, pc, action) && s' == OnWork(cfg, s, w, action)
    requires action.Compute? || action.Store? || action.Commit? || action.Raise?
    ensures !transient && Somewhere(cfg, s', w, task, Transient(s.db, pc, action))
  {
    if action.Raise? {
      RaiseStep(cfg, env, s, w, task, action.error, action.permanent, s');
    } else {
      WriteStep(cfg, env, s, w, task, action, s');
    }
  }

  lemma LastStep(cfg: Config, env: Env, s: State, w: WorkerId, task: Task, transient: bool, action: Action, pc: Pc, s': State)
    requires Somewhere(cfg, s, w, task, transient) && pc == PcOf(s, w) && Called(env, pc, action) && s' == OnWork(cfg, s, w, action)
    requires action.Complete? || action.Enqueue?
    ensures !transient && Somewhere(cfg, s', w, task, false)
  {
    if action.Complete? { CompletesOnce(cfg, s, w, task, pc.result, s'); } else { EnqueuesOnce(cfg, s, w, task, s'); }
  }

  lemma LaterSomewhere(cfg: Config, s: State, w: WorkerId, task: Task, transient: bool, later: State)
    requires Somewhere(cfg, s, w, task, transient) && later == Later(s)
    ensures Somewhere(cfg, later, w, task, transient) && PcOf(later, w) == PcOf(s, w)
  {
  }

  /** The first event of an undisturbed delivery. */
  lemma FirstStep(cfg: Config, s: State, w: WorkerId, d: DocId, j: JobId, attempt: nat, trace: seq<Event>)
    requires Ready(s, w, d, j) && trace == [Work(w, Deliver(j, attempt))]
    ensures Somewhere(cfg, Run(cfg, s, trace), w, Task(j, d, s.db.jobs[j].stage, attempt), false)
    ensures !FailedTransiently(cfg, s, w, trace)
  {
    LaterReady(s, w, d, j);
    DeliverStep(Later(s), w, d, j, attempt);
    RunOne(cfg, s, trace[0], DoDeliver(Later(s), w, j, attempt));
    assert trace[..0] == [];
  }

  lemma {:induction false} StaysSomewhere(cfg: Config, env: Env, s: State, w: WorkerId, d: DocId, j: JobId, attempt: nat, trace: seq<Event>)
    requires Ready(s, w, d, j) && Quietly(env) && Conducted(cfg, s, w, env, trace)
    requires trace != [] && trace[0] == Work(w, Deliver(j, attempt))
    ensures Somewhere(cfg, Run(cfg, s, trace), w, Task(j, d, s.db.jobs[j].stage, attempt), FailedTransiently(cfg, s, w, trace))
    decreases |trace|
  {
    var n := |trace| - 1;
    if n == 0 {
      FirstStep(cfg, s, w, d, j, attempt, trace);
    } else {
      StaysSomewhere(cfg, env, s, w, d, j, attempt, trace[..n]);
      var task, t, transient := Task(j, d, s.db.jobs[j].stage, attempt), Run(cfg, s, trace[..n]), FailedTransiently(cfg, s, w, trace[..n]);
      assert ByWorker(trace[n], w);
      LaterSomewhere(cfg, t, w, task, transient, Later(t));
      CalledStep(cfg, env, Later(t), w, task, transient, trace[n].action, Run(cfg, s, trace));
    }
  }

  /**
   * An undisturbed delivery of a ready job that has come to its end: the job waits for another
   * attempt if the stage function failed transiently with tries left; otherwise the document is
   * finished, or the job is done and the next stage's is ready and enqueued.
   */
  lemma DeliveryEnds(cfg: Config, env: Env, s: State, w: WorkerId, d: DocId, j: JobId, attempt: nat, trace: seq<Event>)
    requires Ready(s, w, d, j) && Quietly(env) && Conducted(cfg, s, w, env, trace)
    requires trace != [] && trace[0] == Work(w, Deliver(j, attempt)) && PcOf(Run(cfg, s, trace), w) == Idle
    ensures Ended(cfg, Run(cfg, s, trace), w, Task(j, d, s.db.jobs[j].stage, attempt),
                  FailedTransiently(cfg, s, w, trace) && attempt < cfg.maxTries)
  {
    StaysSomewhere(cfg, env, s, w, d, j, attempt, trace);
  }

  // ----- on a good input, without errors -----

  /** Where the worker is between computing and completing, with the stage's expected output in hand. */
  ghost predicate Along(cfg: Config, s: State, w: WorkerId, task: Task, c: Content, e: Extension, cached: bool, s': State) {
    var effect, result := EffectOf(cfg, c, e, task.stage), ResultOf(cfg, c, e, task.stage);
    match PcOf(s', w)
    case InStage(_) => Started(s, s', w, task, InStage(task)) && s'.artifacts == s.artifacts
    case Storing(_, _, _, _, _) =>
      && Started(s, s', w, task, Storing(task, Key(cfg.hash(c), task.stage), Expected(cfg, c, e, task.stage), effect, result))
      && s'.artifacts == s.artifacts && !WritesNothing(task.stage, cached)
    case Committing(_, _, _) =>
      && Started(s, s', w, task, Committing(task, effect, result))
      && s'.artifacts == (if WritesNothing(task.stage, cached) then s.artifacts
                          else s.artifacts[Key(cfg.hash(c), task.stage) := Expected(cfg, c, e, task.stage)])
    case Completing(_, _) => task.doc in s.db.docs && WorkDone(cfg, s, w, task, c, e, cached, s')
    case Enqueueing(_, _) => HandsOver(s', w, task) && DoneButHandOver(cfg, s, task, c, e, cached, s')
    case Idle => StageDone(cfg, s, w, task, c, e, cached, s')
    case _ => false
  }

  /** The job is running, and but for that nothing outside the artifacts has changed. */
  ghost predicate Started(s: State, s': State, w: WorkerId, task: Task, pc: Pc) {
    && Live(s', w, task, pc) && s'.sources == s.sources && s'.uploads == s.uploads
    && s'.db.chunks == s.db.chunks && s'.db.nextId == s.db.nextId && task.doc in s.db.docs
    && SameButStatus(s.db.docs[task.doc], s'.db.docs[task.doc]) && s'.db.docs == s.db.docs[task.doc := s'.db.docs[task.doc]]
  }

  /** The stage is completed, all but the enqueue of the next one. */
  ghost predicate DoneButHandOver(cfg: Config, s: State, task: Task, c: Content, e: Extension, cached: bool, s': State) {
    && s'.sources == s.sources && s'.uploads == s.uploads
    && task.doc in s.db.docs && task.doc in s'.db.docs && s'.db.docs == s.db.docs[task.doc := s'.db.docs[task.doc]]
    && SameIdentity(if task.stage == Extract then s.db.docs[task.doc].(parsedKey := Some(Key(cfg.hash(c), Extract)))
                    else s.db.docs[task.doc], s'.db.docs[task.doc])
    && s'.artifacts == (if WritesNothing(task.stage, cached) then s.artifacts
                        else s.artifacts[Key(cfg.hash(c), task.stage) := Expected(cfg, c, e, task.stage)])
  }

  /** What the stage needs, found where the delivery starts. */
  ghost predicate GoodInput(cfg: Config, s: State, task: Task, c: Content, e: Extension, cached: bool) {
    Usable(cfg, c, e) && Supplied(cfg, s, task.doc, c, e, task.stage, cached)
  }

  lemma ComputesAlong(cfg: Config, s: State, w: WorkerId, task: Task, c: Content, e: Extension, cached: bool, t: State, t': State)
    requires GoodInput(cfg, s, task, c, e, cached) && Started(s, t, w, task, InStage(task)) && t.artifacts == s.artifacts
    requires t' == DoCompute(cfg, t, w, cached)
    ensures Along(cfg, s, w, task, c, e, cached, t')
  {
    ComputesExpected(cfg, t, task, c, e, cached);
    ComputeStepPlain(cfg, t, w, task, cached);
  }

  lemma StoresAlong(cfg: Config, s: State, w: WorkerId, task: Task, c: Content, e: Extension, cached: bool, t: State, pc: Pc, t': State)
    requires pc == PcOf(t, w) && pc.Storing? && Along(cfg, s, w, task, c, e, cached, t) && t' == DoStore(t, w)
    ensures Along(cfg, s, w, task, c, e, cached, t')
  {
    StoreContent(t, w, task, pc);
  }

  lemma CommitsAlong(cfg: Config, s: State, w: WorkerId, task: Task, c: Content, e: Extension, cached: bool, t: State, pc: Pc, t': State)
    requires pc == PcOf(t, w) && pc.Committing? && Along(cfg, s, w, task, c, e, cached, t) && t' == DoCommit(cfg, t, w)
    ensures Along(cfg, s, w, task, c, e, cached, t')
  {
    CommitContent(cfg, t, w, task, pc.effect, pc.result);
  }

  lemma CompletesAlong(cfg: Config, s: State, w: WorkerId, task: Task, c: Content, e: Extension, cached: bool, t: State, pc: Pc, t': State)
    requires pc == PcOf(t, w) && pc.Completing? && Along(cfg, s, w, task, c, e, cached, t) && t' == DoComplete(t, w)
    ensures Along(cfg, s, w, task, c, e, cached, t')
  {
    CompleteContent(t, w, task, pc.result);
    CompleteStep(t, w, task, pc.result);
    if task.stage == Index { DoneTogether(cfg, s, w, task, c, e, cached, t, t'); }
  }

  lemma EnqueuesAlong(cfg: Config, s: State, w: WorkerId, task: Task, c: Content, e: Extension, cached: bool, t: State, t': State)
    requires HandsOver(t, w, task) && DoneButHandOver(cfg, s, task, c, e, cached, t) && t' == DoEnqueue(t, w)
    ensures Along(cfg, s, w, task, c, e, cached, t')
  {
    EnqueueContent(t, w, PcOf(t, w), t');
    EnqueueStep(t, w, task.doc, t.db.nextId - 1, NextStage(task.stage).value);
  }

  lemma AlongStep(cfg: Config, env: Env, s: State, w: WorkerId, task: Task, c: Content, e: Extension, t: State, action: Action, t': State)
    requires env.redisUp && NoFaults(env) && GoodInput(cfg, s, task, c, e, env.cached) && Along(cfg, s, w, task, c, e, env.cached, t)
    requires Called(env, PcOf(t, w), action) && t' == OnWork(cfg, t, w, action)
    ensures Along(cfg, s, w, task, c, e, env.cached, t')
  {
    match action
    case Compute(_) => ComputesAlong(cfg, s, w, task, c, e, env.cached, t, t');
    case Store => StoresAlong(cfg, s, w, task, c, e, env.cached, t, PcOf(t, w), t');
    case Commit => CommitsAlong(cfg, s, w, task, c, e, env.cached, t, PcOf(t, w), t');
    case Complete => CompletesAlong(cfg, s, w, task, c, e, env.cached, t, PcOf(t, w), t');
    case Enqueue => EnqueuesAlong(cfg, s, w, task, c, e, env.cached, t, t');
  }

  lemma LaterAlong(cfg: Config, s: State, w: WorkerId, task: Task, c: Content, e: Extension, cached: bool, t: State, later: State)
    requires Along(cfg, s, w, task, c, e, cached, t) && later == Later(t)
    ensures Along(cfg, s, w, task, c, e, cached, later) && PcOf(later, w) == PcOf(t, w)
  {
    var pc := PcOf(t, w);
    if pc.InStage? || pc.Storing? || pc.Committing? {
      LaterStarted(s, t, w, task, pc, later);
    } else if pc.Completing? {
      LaterWorkDone(cfg, s, w, task, c, e, cached, t, later);
    } else if pc.Idle? {
      LaterStageDone(cfg, s, w, task, c, e, cached, t, later);
    } else if pc.Enqueueing? {
      LaterHandsOver(cfg, s, w, task, c, e, cached, t, later);
    }
  }

  lemma LaterWorkDone(cfg: Config, s: State, w: WorkerId, task: Task, c: Content, e: Extension, cached: bool, t: State, later: State)
    requires task.doc in s.db.docs && WorkDone(cfg, s, w, task, c, e, cached, t) && later == Later(t)
    ensures WorkDone(cfg, s, w, task, c, e, cached, later)
  {
    LaterLive(t, w, task, Completing(task, ResultOf(cfg, c, e, task.stage)));
  }

  lemma LaterStageDone(cfg: Config, s: State, w: WorkerId, task: Task, c: Content, e: Extension, cached: bool, t: State, later: State)
    requires StageDone(cfg, s, w, task, c, e, cached, t) && later == Later(t)
    ensures StageDone(cfg, s, w, task, c, e, cached, later)
  {
    if task.stage != Index { LaterReady(t, w, task.doc, t.db.nextId - 1); }
  }

  lemma LaterHandsOver(cfg: Config, s: State, w: WorkerId, task: Task, c: Content, e: Extension, cached: bool, t: State, later: State)
    requires HandsOver(t, w, task) && DoneButHandOver(cfg, s, task, c, e, cached, t) && later == Later(t)
    ensures HandsOver(later, w, task) && DoneButHandOver(cfg, s, task, c, e, cached, later)
  {
  }

  lemma LaterStarted(s: State, t: State, w: WorkerId, task: Task, pc: Pc, later: State)
    requires Started(s, t, w, task, pc) && later == Later(t)
    ensures Started(s, later, w, task, pc)
  {
    LaterLive(t, w, task, pc);
  }

  lemma FirstAlong(cfg: Config, s: State, w: WorkerId, d: DocId, j: JobId, attempt: nat, trace: seq<Event>, c: Content, e: Extension, cached: bool)
    requires Ready(s, w, d, j) && trace == [Work(w, Deliver(j, attempt))]
    ensures Along(cfg, s, w, Task(j, d, s.db.jobs[j].stage, attempt), c, e, cached, Run(cfg, s, trace))
  {
    LaterReady(s, w, d, j);
    DeliverStep(Later(s), w, d, j, attempt);
    DeliverContent(Later(s), w, d, j, attempt);
    RunOne(cfg, s, trace[0], DoDeliver(Later(s), w, j, attempt));
  }

  lemma {:induction false} StaysAlong(cfg: Config, env: Env, s: State, w: WorkerId, d: DocId, j: JobId, attempt: nat, trace: seq<Event>,
                                      c: Content, e: Extension)
    requires Ready(s, w, d, j) && Quietly(env) && NoFaults(env) && Conducted(cfg, s, w, env, trace)
    requires trace != [] && trace[0] == Work(w, Deliver(j, attempt))
    requires GoodInput(cfg, s, Task(j, d, s.db.jobs[j].stage, attempt), c, e, env.cached)
    ensures Along(cfg, s, w, Task(j, d, s.db.jobs[j].stage, attempt), c, e, env.cached, Run(cfg, s, trace))
    decreases |trace|
  {
    var n, task := |trace| - 1, Task(j, d, s.db.jobs[j].stage, attempt);
    if n == 0 {
      FirstAlong(cfg, s, w, d, j, attempt, trace, c, e, env.cached);
    } else {
      StaysAlong(cfg, env, s, w, d, j, attempt, trace[..n], c, e);
      var t := Run(cfg, s, trace[..n]);
      assert ByWorker(trace[n], w);
      LaterAlong(cfg, s, w, task, c, e, env.cached, t, Later(t));
      AlongStep(cfg, env, s, w, task, c, e, Later(t), trace[n].action, Run(cfg, s, trace));
    }
  }

  /**
   * Without errors on a usable input, such a delivery stores, commits and completes exactly its
   * stage's output and enqueues the next stage's job, or leaves the document indexed.
   */
  lemma GoodDeliveryDoesTheStage(cfg: Config, env: Env, s: State, w: WorkerId, d: DocId, j: JobId, attempt: nat, trace: seq<Event>,
                                 c: Content, e: Extension)
    requires Ready(s, w, d, j) && Quietly(env) && NoFaults(env) && Conducted(cfg, s, w, env, trace)
    requires trace != [] && trace[0] == Work(w, Deliver(j, attempt)) && PcOf(Run(cfg, s, trace), w) == Idle
    requires GoodInput(cfg, s, Task(j, d, s.db.jobs[j].stage, attempt), c, e, env.cached)
    ensures StageDone(cfg, s, w, Task(j, d, s.db.jobs[j].stage, attempt), c, e, env.cached, Run(cfg, s, trace))
  {
    StaysAlong(cfg, env, s, w, d, j, attempt, trace, c, e);
  }

  /**
   * What a delivery of job `j` achieves from `s` to `s'` if nobody else acts and the queue is up:
   * another attempt exactly if `retrying`, else the document is finished or one stage further; and
   * on a good input without errors its stage's work, all of it.
   */
  ghost predicate Achieves(cfg: Config, env: Env, s: State, w: WorkerId, j: JobId, attempt: nat, retrying: bool, s': State) {
    forall d {:trigger Ready(s, w, d, j)} :: Ready(s, w, d, j) && Quietly(env) ==>
      var task := Task(j, d, s.db.jobs[j].stage, attempt);
      && Ended(cfg, s', w, task, retrying)
      && forall c, e {:trigger GoodInput(cfg, s, task, c, e, env.cached)} ::
           NoFaults(env) && GoodInput(cfg, s, task, c, e, env.cached) ==> StageDone(cfg, s, w, task, c, e, env.cached, s')
  }

  lemma DeliveryAchieves(cfg: Config, env: Env, s: State, w: WorkerId, j: JobId, attempt: nat, trace: seq<Event>, retrying: bool)
    requires Conducted(cfg, s, w, env, trace) && retrying == (FailedTransiently(cfg, s, w, trace) && attempt < cfg.maxTries)
    requires trace != [] && trace[0] == Work(w, Deliver(j, attempt)) && PcOf(Run(cfg, s, trace), w) == Idle
    ensures Achieves(cfg, env, s, w, j, attempt, retrying, Run(cfg, s, trace))
  {
    forall d | Ready(s, w, d, j) && Quietly(env)
      ensures Ended(cfg, Run(cfg, s, trace), w, Task(j, d, s.db.jobs[j].stage, attempt), retrying)
    {
      DeliveryEnds(cfg, env, s, w, d, j, attempt, trace);
    }
    forall d, c, e | Ready(s, w, d, j) && Quietly(env) && NoFaults(env)
                     && GoodInput(cfg, s, Task(j, d, s.db.jobs[j].stage, attempt), c, e, env.cached)
      ensures StageDone(cfg, s, w, Task(j, d, s.db.jobs[j].stage, attempt), c, e, env.cached, Run(cfg, s, trace))
    {
      GoodDeliveryDoesTheStage(cfg, env, s, w, d, j, attempt, trace, c, e);
    }
  }
}
