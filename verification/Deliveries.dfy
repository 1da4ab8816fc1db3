// One delivery of a task by a worker that is left alone, and the measure that deliveries lower.
module Deliveries {
  import opened Types
  import opened Database
  import opened Pipeline
  import opened Naming

  // ----- one undisturbed delivery -----

  /** How the stage function goes: with or without the cache, and whether it raises and at which point. */
  datatype Outcome = Outcome(cached: bool, raises: Option<(Point, Fault)>)

  function RaiseAt(w: WorkerId, outcome: Outcome, point: Point): seq<Event> {
    if outcome.raises.Some? && outcome.raises.value.0 == point
    then [Work(w, Raise(outcome.raises.value.1.error, outcome.raises.value.1.permanent))] else []
  }

  function DeliveryEvents(w: WorkerId, j: JobId, attempt: nat, outcome: Outcome): seq<Event> {
    ([Work(w, Deliver(j, attempt))] + RaiseAt(w, outcome, BeforeComputing))
    + ([Work(w, Compute(outcome.cached))] + RaiseAt(w, outcome, BeforeStoring))
    + ([Work(w, Store)] + RaiseAt(w, outcome, BeforeCommitting))
    + ([Work(w, Commit)] + [Work(w, Complete)] + [Work(w, Enqueue)] + [Work(w, Settle)])
  }

  /** Identifiers not handed out yet are unknown to tables and queue. */
  ghost predicate Unused(s: State) {
    && (forall j {:trigger j in s.db.jobs} :: j in s.db.jobs ==> j < s.db.nextId)
    && (forall j {:trigger j in s.queue} :: j in s.queue ==> j < s.db.nextId)
    && (forall j {:trigger j in s.results} :: j in s.results ==> j < s.db.nextId)
  }

  /** Job `j` of document `d` can be delivered to the idle worker. */
  ghost predicate Ready(s: State, w: WorkerId, d: DocId, j: JobId) {
    && j in s.db.jobs && s.db.jobs[j].document == d && Active(s.db.jobs[j])
    && d in s.db.docs && s.db.docs[d].status in {Pending, Processing}
    && j in s.tasks && s.tasks[j] == s.db.jobs[j].stage
    && PcOf(s, w) == Idle && Unused(s)
  }

  /** The worker is somewhere inside `run_stage` for the running job. */
  ghost predicate Live(s: State, w: WorkerId, task: Task, pc: Pc) {
    && task.job in s.db.jobs && s.db.jobs[task.job].document == task.doc
    && s.db.jobs[task.job].stage == task.stage && s.db.jobs[task.job].status == Running
    && task.doc in s.db.docs && s.db.docs[task.doc].status == Processing
    && task.job in s.tasks && s.tasks[task.job] == task.stage
    && PcOf(s, w) == pc && Unused(s)
  }

  ghost predicate Finished(s: State, d: DocId) {
    d in s.db.docs && s.db.docs[d].status in {Indexed, DocFailed}
  }

  lemma LaterReady(s: State, w: WorkerId, d: DocId, j: JobId)
    requires Ready(s, w, d, j)
    ensures Ready(Later(s), w, d, j)
  {
  }

  lemma LaterLive(s: State, w: WorkerId, task: Task, pc: Pc)
    requires Live(s, w, task, pc)
    ensures Live(Later(s), w, task, pc)
  {
  }

  lemma DeliverStep(s: State, w: WorkerId, d: DocId, j: JobId, attempt: nat)
    requires Ready(s, w, d, j)
    ensures var task := Task(j, d, s.db.jobs[j].stage, attempt);
            Live(DoDeliver(s, w, j, attempt), w, task, InStage(task))
  {
  }

  lemma ComputedShape(cfg: Config, s: State, task: Task, cached: bool)
    requires task.doc in s.db.docs
    ensures var pc := Computed(cfg, s, task, cached); (pc.Storing? || pc.Committing? || pc.Failing?) && pc.task == task
  {
  }

  /** A worker inside the stage function, or with its result or failure in hand. */
  ghost predicate Shape(cfg: Config, task: Task, pc: Pc) {
    && HasTaskOf(pc, task)
    && (pc.Retrying? ==> task.attempt < cfg.maxTries)
  }

  predicate HasTaskOf(pc: Pc, task: Task) {
    !pc.Idle? && !pc.Enqueueing? && pc.task == task
  }

  ghost predicate Going(cfg: Config, s: State, w: WorkerId, task: Task) {
    Live(s, w, task, PcOf(s, w)) && Shape(cfg, task, PcOf(s, w))
  }

  lemma LaterGoing(cfg: Config, s: State, w: WorkerId, task: Task)
    requires Going(cfg, s, w, task)
    ensures Going(cfg, Later(s), w, task) && PcOf(Later(s), w) == PcOf(s, w)
  {
  }

  lemma MoveGoes(cfg: Config, s: State, w: WorkerId, task: Task, pc: Pc)
    requires Going(cfg, s, w, task) && Shape(cfg, task, pc)
    ensures Going(cfg, Goto(s, w, pc), w, task) && PcOf(Goto(s, w, pc), w) == pc
  {
  }

  lemma RaiseGoes(cfg: Config, s: State, w: WorkerId, task: Task, error: string, permanent: bool)
    requires Going(cfg, s, w, task)
    ensures var pc, pc' := PcOf(s, w), PcOf(DoRaise(cfg, s, w, error, permanent), w);
            Going(cfg, DoRaise(cfg, s, w, error, permanent), w, task) && (pc' == pc || pc'.Failing? || pc'.Retrying?)
  {
    var pc := PcOf(s, w);
    if pc.InStage? || pc.Storing? || pc.Committing? { MoveGoes(cfg, s, w, task, Raised(cfg, task, error, permanent)); }
  }

  lemma ComputeGoes(cfg: Config, s: State, w: WorkerId, task: Task, cached: bool)
    requires Going(cfg, s, w, task)
    ensures Going(cfg, DoCompute(cfg, s, w, cached), w, task) && !PcOf(DoCompute(cfg, s, w, cached), w).InStage?
  {
    if PcOf(s, w).InStage? {
      ComputedShape(cfg, s, task, cached);
      MoveGoes(cfg, s, w, task, Computed(cfg, s, task, cached));
    }
  }

  lemma StoreGoes(cfg: Config, s: State, w: WorkerId, task: Task)
    requires Going(cfg, s, w, task) && !PcOf(s, w).InStage?
    ensures Going(cfg, DoStore(s, w), w, task)
    ensures var pc := PcOf(DoStore(s, w), w); !pc.InStage? && !pc.Storing?
  {
    var pc := PcOf(s, w);
    if pc.Storing? {
      var s1 := s.(artifacts := s.artifacts[pc.key := pc.artifact]);
      assert Going(cfg, s1, w, task);
      MoveGoes(cfg, s1, w, task, Committing(task, pc.effect, pc.result));
    }
  }

  lemma CommitGoes(cfg: Config, s: State, w: WorkerId, task: Task)
    requires Going(cfg, s, w, task)
    requires var pc := PcOf(s, w); !pc.InStage? && !pc.Storing?
    ensures Going(cfg, DoCommit(cfg, s, w), w, task)
    ensures var pc := PcOf(DoCommit(cfg, s, w), w); pc.Completing? || pc.Failing? || pc.Retrying?
  {
    var pc := PcOf(s, w);
    if pc.Committing? {
      var s1 := s.(db := CommittedDb(s.db, task.doc, pc.effect));
      CommittedGoes(cfg, s, w, task, pc.effect, s1);
      MoveGoes(cfg, s1, w, task, CommittedPc(cfg, s.db, task, pc.effect, pc.result));
    }
  }

  lemma CommittedGoes(cfg: Config, s: State, w: WorkerId, task: Task, effect: Effect, s': State)
    requires Going(cfg, s, w, task) && s' == s.(db := CommittedDb(s.db, task.doc, effect))
    ensures Going(cfg, s', w, task)
  {
    assert s'.db.jobs == s.db.jobs && s'.db.nextId == s.db.nextId;
  }

  /** After the completing session: the document is indexed, or its next job waits to be enqueued. */
  lemma CompleteStep(s: State, w: WorkerId, task: Task, result: StageResult)
    requires Live(s, w, task, Completing(task, result))
    ensures var s', n := DoComplete(s, w), s.db.nextId;
            && s'.queue == s.queue && s'.results == s.results && s'.tasks == s.tasks
            && task.job in s'.db.jobs && s'.db.jobs[task.job].status == Done
            && if task.stage == Index then Finished(s', task.doc) && PcOf(s', w) == Idle
               else s'.db.nextId == n + 1 && NextWaits(s', w, task.doc, n, NextStage(task.stage).value)
  {
  }

  ghost predicate NextWaits(s: State, w: WorkerId, d: DocId, n: JobId, next: Stage) {
    && n in s.db.jobs && s.db.jobs[n].document == d && s.db.jobs[n].stage == next && s.db.jobs[n].status == Queued
    && d in s.db.docs && s.db.docs[d].status == Processing
    && n !in s.queue && n !in s.results && PcOf(s, w) == Enqueueing(n, next) && Unused(s)
  }

  lemma EnqueueStep(s: State, w: WorkerId, d: DocId, n: JobId, next: Stage)
    requires NextWaits(s, w, d, n, next)
    ensures Ready(DoEnqueue(s, w), w, d, n) && DoEnqueue(s, w).db == s.db && n in DoEnqueue(s, w).queue
  {
  }

  lemma FailStep(s: State, w: WorkerId, task: Task, error: string)
    requires Live(s, w, task, Failing(task, error))
    ensures Finished(DoSettle(s, w), task.doc) && PcOf(DoSettle(s, w), w) == Idle
  {
  }

  lemma RetryStep(s: State, w: WorkerId, task: Task, error: string)
    requires Live(s, w, task, Retrying(task, error))
    ensures Ready(DoSettle(s, w), w, task.doc, task.job) && DoSettle(s, w).db.jobs[task.job].stage == task.stage
    ensures DoSettle(s, w).db.nextId == s.db.nextId
  {
  }

  // ----- the whole delivery -----

  function RaisedAt(cfg: Config, s: State, w: WorkerId, outcome: Outcome, point: Point): State {
    if outcome.raises.Some? && outcome.raises.value.0 == point
    then DoRaise(cfg, Later(s), w, outcome.raises.value.1.error, outcome.raises.value.1.permanent) else s
  }

  /** The stage function and its commit. */
  function Worked(cfg: Config, s: State, w: WorkerId, j: JobId, attempt: nat, outcome: Outcome): State {
    var s1 := RaisedAt(cfg, DoDeliver(Later(s), w, j, attempt), w, outcome, BeforeComputing);
    var s2 := RaisedAt(cfg, DoCompute(cfg, Later(s1), w, outcome.cached), w, outcome, BeforeStoring);
    var s3 := RaisedAt(cfg, DoStore(Later(s2), w), w, outcome, BeforeCommitting);
    DoCommit(cfg, Later(s3), w)
  }

  function Delivered(cfg: Config, s: State, w: WorkerId, j: JobId, attempt: nat, outcome: Outcome): State {
    DoSettle(Later(DoEnqueue(Later(DoComplete(Later(Worked(cfg, s, w, j, attempt, outcome)), w)), w)), w)
  }

  lemma RaisedAtGoes(cfg: Config, s: State, w: WorkerId, task: Task, outcome: Outcome, point: Point)
    requires Going(cfg, s, w, task)
    ensures var s' := RaisedAt(cfg, s, w, outcome, point);
            Going(cfg, s', w, task) && (PcOf(s', w) == PcOf(s, w) || PcOf(s', w).Failing? || PcOf(s', w).Retrying?)
  {
    LaterGoing(cfg, s, w, task);
    if outcome.raises.Some? { RaiseGoes(cfg, Later(s), w, task, outcome.raises.value.1.error, outcome.raises.value.1.permanent); }
  }

  lemma WorkedGoes(cfg: Config, s: State, w: WorkerId, d: DocId, j: JobId, attempt: nat, outcome: Outcome)
    requires Ready(s, w, d, j)
    ensures var s', task := Worked(cfg, s, w, j, attempt, outcome), Task(j, d, s.db.jobs[j].stage, attempt);
            Going(cfg, s', w, task) && (PcOf(s', w).Completing? || PcOf(s', w).Failing? || PcOf(s', w).Retrying?)
  {
    var task := Task(j, d, s.db.jobs[j].stage, attempt);
    LaterReady(s, w, d, j);
    DeliverStep(Later(s), w, d, j, attempt);
    var s0 := DoDeliver(Later(s), w, j, attempt);
    RaisedAtGoes(cfg, s0, w, task, outcome, BeforeComputing);
    var s1 := RaisedAt(cfg, s0, w, outcome, BeforeComputing);
    LaterGoing(cfg, s1, w, task);
    ComputeGoes(cfg, Later(s1), w, task, outcome.cached);
    RaisedAtGoes(cfg, DoCompute(cfg, Later(s1), w, outcome.cached), w, task, outcome, BeforeStoring);
    var s2 := RaisedAt(cfg, DoCompute(cfg, Later(s1), w, outcome.cached), w, outcome, BeforeStoring);
    LaterGoing(cfg, s2, w, task);
    StoreGoes(cfg, Later(s2), w, task);
    RaisedAtGoes(cfg, DoStore(Later(s2), w), w, task, outcome, BeforeCommitting);
    var s3 := RaisedAt(cfg, DoStore(Later(s2), w), w, outcome, BeforeCommitting);
    LaterGoing(cfg, s3, w, task);
    CommitGoes(cfg, Later(s3), w, task);
  }

  /** The job waits for another attempt. */
  ghost predicate WaitsForRetry(cfg: Config, s: State, w: WorkerId, d: DocId, j: JobId, stage: Stage, attempt: nat) {
    Ready(s, w, d, j) && s.db.jobs[j].stage == stage && attempt < cfg.maxTries
  }

  /** The job is done and a job of the following stage, the newest one, is ready and in the queue. */
  ghost predicate Advanced(s: State, w: WorkerId, d: DocId, j: JobId, stage: Stage) {
    && j in s.db.jobs && s.db.jobs[j].status == Done
    && s.db.nextId > 0 && Ready(s, w, d, s.db.nextId - 1) && s.db.nextId - 1 in s.queue
    && NextStage(stage) == Some(s.db.jobs[s.db.nextId - 1].stage)
  }

  lemma NothingLeft(s: State, w: WorkerId)
    requires PcOf(s, w) == Idle
    ensures DoEnqueue(s, w) == s && DoSettle(s, w) == s
  {
  }

  /** After the index stage nothing is left to enqueue. */
  lemma LastStageRests(s: State, w: WorkerId, d: DocId, s6: State, s': State)
    requires PcOf(s, w) == Idle && Finished(s, d)
    requires s6 == DoEnqueue(Later(s), w) && s' == DoSettle(Later(s6), w)
    ensures Finished(s', d)
  {
    NothingLeft(Later(s), w);
    NothingLeft(Later(s6), w);
  }

  /** After any other stage the next job is enqueued. */
  lemma NextStageRests(s: State, w: WorkerId, d: DocId, n: JobId, next: Stage, s6: State, s': State)
    requires NextWaits(s, w, d, n, next)
    requires s6 == DoEnqueue(Later(s), w) && s' == DoSettle(Later(s6), w)
    ensures Ready(s', w, d, n) && s'.db == s.db && n in s'.queue
  {
    assert NextWaits(Later(s), w, d, n, next);
    EnqueueStep(Later(s), w, d, n, next);
    LaterReady(s6, w, d, n);
    NothingLeft(Later(s6), w);
  }

  lemma CompletionProgresses(cfg: Config, s: State, w: WorkerId, task: Task, result: StageResult) returns (s': State)
    requires Live(s, w, task, Completing(task, result))
    ensures s' == DoSettle(Later(DoEnqueue(Later(DoComplete(Later(s), w)), w)), w)
    ensures Finished(s', task.doc) || Advanced(s', w, task.doc, task.job, task.stage)
  {
    LaterLive(s, w, task, Completing(task, result));
    CompleteStep(Later(s), w, task, result);
    var s5 := DoComplete(Later(s), w);
    var s6 := DoEnqueue(Later(s5), w);
    s' := DoSettle(Later(s6), w);
    if task.stage == Index {
      LastStageRests(s5, w, task.doc, s6, s');
    } else {
      NextStageRests(s5, w, task.doc, s.db.nextId, NextStage(task.stage).value, s6, s');
    }
  }

  lemma FailureProgresses(cfg: Config, s: State, w: WorkerId, task: Task) returns (s': State)
    requires Going(cfg, s, w, task) && (PcOf(s, w).Failing? || PcOf(s, w).Retrying?)
    ensures s' == DoSettle(Later(DoEnqueue(Later(DoComplete(Later(s), w)), w)), w)
    ensures Finished(s', task.doc) || WaitsForRetry(cfg, s', w, task.doc, task.job, task.stage, task.attempt)
  {
    var pc := PcOf(s, w);
    LaterLive(s, w, task, pc);
    LaterLive(Later(s), w, task, pc);
    LaterLive(Later(Later(s)), w, task, pc);
    assert DoComplete(Later(s), w) == Later(s) && DoEnqueue(Later(Later(s)), w) == Later(Later(s));
    s' := DoSettle(Later(Later(Later(s))), w);
    if pc.Failing? {
      FailStep(Later(Later(Later(s))), w, task, pc.error);
    } else {
      RetryStep(Later(Later(Later(s))), w, task, pc.error);
    }
  }

  /** One delivery finishes the document, uses up an attempt, or moves on to the next stage. */
  lemma OneDelivery(cfg: Config, s: State, w: WorkerId, d: DocId, j: JobId, attempt: nat, outcome: Outcome)
    requires Ready(s, w, d, j)
    ensures var s', stage := Delivered(cfg, s, w, j, attempt, outcome), s.db.jobs[j].stage;
            Finished(s', d) || WaitsForRetry(cfg, s', w, d, j, stage, attempt) || Advanced(s', w, d, j, stage)
  {
    WorkedGoes(cfg, s, w, d, j, attempt, outcome);
    var s4, task := Worked(cfg, s, w, j, attempt, outcome), Task(j, d, s.db.jobs[j].stage, attempt);
    if PcOf(s4, w).Completing? {
      var s' := CompletionProgresses(cfg, s4, w, task, PcOf(s4, w).result);
    } else {
      var s' := FailureProgresses(cfg, s4, w, task);
    }
  }

  lemma WorkIs(cfg: Config, s: State, w: WorkerId, action: Action)
    ensures Run(cfg, s, [Work(w, action)]) == OnWork(cfg, Later(s), w, action)
  {
    RunSnoc(cfg, s, [], Work(w, action));
    assert [] + [Work(w, action)] == [Work(w, action)];
  }

  lemma RaiseIs(cfg: Config, s: State, w: WorkerId, outcome: Outcome, point: Point)
    ensures Run(cfg, s, RaiseAt(w, outcome, point)) == RaisedAt(cfg, s, w, outcome, point)
  {
    if outcome.raises.Some? { WorkIs(cfg, s, w, Raise(outcome.raises.value.1.error, outcome.raises.value.1.permanent)); }
  }

  lemma StepThenRaise(cfg: Config, s: State, w: WorkerId, action: Action, outcome: Outcome, point: Point, s': State)
    requires s' == OnWork(cfg, Later(s), w, action)
    ensures Run(cfg, s, [Work(w, action)] + RaiseAt(w, outcome, point)) == RaisedAt(cfg, s', w, outcome, point)
  {
    WorkIs(cfg, s, w, action);
    RaiseIs(cfg, s', w, outcome, point);
    RunThen(cfg, s, [Work(w, action)], s', RaiseAt(w, outcome, point), RaisedAt(cfg, s', w, outcome, point));
  }

  /** The delivery is a run of the pipeline. */
  lemma DeliveredIsRun(cfg: Config, s: State, w: WorkerId, j: JobId, attempt: nat, outcome: Outcome)
    ensures Run(cfg, s, DeliveryEvents(w, j, attempt, outcome)) == Delivered(cfg, s, w, j, attempt, outcome)
  {
    var s0 := DoDeliver(Later(s), w, j, attempt);
    var s1 := RaisedAt(cfg, s0, w, outcome, BeforeComputing);
    StepThenRaise(cfg, s, w, Deliver(j, attempt), outcome, BeforeComputing, s0);
    var s1' := DoCompute(cfg, Later(s1), w, outcome.cached);
    var s2 := RaisedAt(cfg, s1', w, outcome, BeforeStoring);
    StepThenRaise(cfg, s1, w, Compute(outcome.cached), outcome, BeforeStoring, s1');
    var s2' := DoStore(Later(s2), w);
    var s3 := RaisedAt(cfg, s2', w, outcome, BeforeCommitting);
    StepThenRaise(cfg, s2, w, Store, outcome, BeforeCommitting, s2');
    TailIsRun(cfg, s3, w);
    ChainRuns(cfg, s, w, j, attempt, outcome, s1, s2, s3, Delivered(cfg, s, w, j, attempt, outcome));
  }

  lemma ChainRuns(cfg: Config, s: State, w: WorkerId, j: JobId, attempt: nat, outcome: Outcome,
                  s1: State, s2: State, s3: State, s': State)
    requires Run(cfg, s, [Work(w, Deliver(j, attempt))] + RaiseAt(w, outcome, BeforeComputing)) == s1
    requires Run(cfg, s1, [Work(w, Compute(outcome.cached))] + RaiseAt(w, outcome, BeforeStoring)) == s2
    requires Run(cfg, s2, [Work(w, Store)] + RaiseAt(w, outcome, BeforeCommitting)) == s3
    requires Run(cfg, s3, [Work(w, Commit)] + [Work(w, Complete)] + [Work(w, Enqueue)] + [Work(w, Settle)]) == s'
    ensures Run(cfg, s, DeliveryEvents(w, j, attempt, outcome)) == s'
  {
    var a := [Work(w, Deliver(j, attempt))] + RaiseAt(w, outcome, BeforeComputing);
    var b := [Work(w, Compute(outcome.cached))] + RaiseAt(w, outcome, BeforeStoring);
    var c := [Work(w, Store)] + RaiseAt(w, outcome, BeforeCommitting);
    var d := [Work(w, Commit)] + [Work(w, Complete)] + [Work(w, Enqueue)] + [Work(w, Settle)];
    RunThen(cfg, s, a, s1, b, s2);
    RunThen(cfg, s, a + b, s2, c, s3);
    RunThen(cfg, s, a + b + c, s3, d, s');
  }

  lemma TailIsRun(cfg: Config, s: State, w: WorkerId)
    ensures Run(cfg, s, [Work(w, Commit)] + [Work(w, Complete)] + [Work(w, Enqueue)] + [Work(w, Settle)])
            == DoSettle(Later(DoEnqueue(Later(DoComplete(Later(DoCommit(cfg, Later(s), w)), w)), w)), w)
  {
    var s4 := DoCommit(cfg, Later(s), w);
    var s5 := DoComplete(Later(s4), w);
    var s6 := DoEnqueue(Later(s5), w);
    WorkIs(cfg, s, w, Commit);
    WorkIs(cfg, s4, w, Complete);
    WorkIs(cfg, s5, w, Enqueue);
    WorkIs(cfg, s6, w, Settle);
    RunThen(cfg, s, [Work(w, Commit)], s4, [Work(w, Complete)], s5);
    RunThen(cfg, s, [Work(w, Commit)] + [Work(w, Complete)], s5, [Work(w, Enqueue)], s6);
    RunThen(cfg, s, [Work(w, Commit)] + [Work(w, Complete)] + [Work(w, Enqueue)], s6, [Work(w, Settle)], DoSettle(Later(s6), w));
  }

  // ----- the measure -----

  function Tries(cfg: Config): nat {
    if cfg.maxTries > 1 then cfg.maxTries else 1
  }

  /** Stages left and attempts left, lexicographically, as one number. */
  function Measure(cfg: Config, stage: Stage, attempt: nat): int {
    (STAGE_COUNT - 1 - StageIndex(stage)) * Tries(cfg) + Tries(cfg) - attempt + 1
  }

  lemma MeasureDrops(cfg: Config, stage: Stage, attempt: nat)
    requires 1 <= attempt <= Tries(cfg)
    ensures Measure(cfg, stage, attempt) >= 1
    ensures attempt < cfg.maxTries ==> attempt + 1 <= Tries(cfg) && Measure(cfg, stage, attempt + 1) == Measure(cfg, stage, attempt) - 1
    ensures NextStage(stage).Some? ==> Measure(cfg, NextStage(stage).value, 1) <= Measure(cfg, stage, attempt) - 1
    ensures Measure(cfg, stage, attempt) <= STAGE_COUNT * Tries(cfg)
  {
  }

  lemma ReachableIsUnused(s: State, aux: Aux)
    requires Named(s, aux)
    ensures Unused(s)
  {
    forall j | j in s.db.jobs
      ensures j < s.db.nextId
    {
      assert JobNamed(s.db, aux, j);
    }
    forall j: JobId | j in s.queue || j in s.results
      ensures j < s.db.nextId
    {
      assert Queued1(s, aux, j);
    }
  }
}
