// `sweep_pipeline` as a loop over the snapshot, with anything happening between two of its jobs.
module Sweeping {
  import opened Types
  import opened Database
  import opened Pipeline
  import opened Ingestion
  import opened SweepPass
  import opened SweepBounds

  datatype Verdict = Requeued | Failed | Skipped

  /** What the loop decides about one job, and what it does to the tables and to ARQ. */
  ghost predicate Decided(startedAt: Time, s: State, id: JobId, job: Job, verdict: Verdict, s': State) {
    var sweep := Sweep(startedAt, [], 0, 0, 0);
    && verdict.Failed? == SweepFails(sweep, job)
    && (!verdict.Failed? ==> (verdict.Requeued? <==> job.status == Queued && !ArqKnows(s, id)))
    && s' == (if verdict.Requeued? then EnqueueJob(s, id, job.stage) else s).(db := SweepDb(s.db, id, job, sweep, s.now))
  }

  /** Nobody else acts between two jobs. */
  ghost predicate Uninterrupted(gaps: nat -> seq<Event>) {
    forall k {:trigger gaps(k)} :: gaps(k) == []
  }

  class Sweeper {
    const cfg: Config
    var state: State

    constructor (cfg: Config, state: State)
      ensures this.cfg == cfg && this.state == state
    {
      this.cfg, this.state := cfg, state;
    }

    /** One job of the snapshot: presumed dead, too old, lost, or still with ARQ. */
    method SweepJob(id: JobId, job: Job, startedAt: Time) returns (verdict: Verdict)
      modifies this
      ensures Decided(startedAt, old(state), id, job, verdict, state)
    {
      var anchor := if job.startedAt.Some? then job.startedAt.value else job.createdAt;
      var tooOld := anchor + GIVE_UP_AFTER < startedAt;
      if job.status == Running || tooOld {
        var ingester := new Ingester(state.db);
        ingester.FailStage(id, if !tooOld then "sweep: worker presumed dead" else "sweep: retries/age exhausted", state.now);
        state := state.(db := ingester.Tables());
        return Failed;
      }
      if job.status != Queued { return Skipped; }
      if ArqKnows(state, id) { return Skipped; }
      state := state.(queue := state.queue + {id}, tasks := state.tasks[id := job.stage]);
      return Requeued;
    }

    /** Anything but a step of this pass. */
    method Interfere(p: nat, others: seq<Event>)
      requires p in state.sweeps && Elsewhere(others, p)
      modifies this
      ensures state == Run(cfg, old(state), others) && p in state.sweeps && state.sweeps[p] == old(state).sweeps[p]
    {
      assert others[..0] == [];
      for i := 0 to |others|
        invariant p in state.sweeps && state.sweeps[p] == old(state).sweeps[p]
        invariant state == Run(cfg, old(state), others[..i])
      {
        ghost var s := state;
        assert others[..i + 1] == others[..i] + [others[i]];
        state := Dispatch(cfg, Later(state), others[i]);
        RecordStays(cfg, Later(s), others[i], p, state);
        RunOne(cfg, s, others[i], state);
        RunThen(cfg, old(state), others[..i], s, [others[i]], state);
      }
      assert others[..|others|] == others;
    }

    /** The record the machine keeps of this pass: what is left, and the counters. */
    method Record(p: nat, startedAt: Time, rest: seq<(JobId, Job)>, requeued: nat, failed: nat, skipped: nat)
      modifies this
      ensures state == old(state).(sweeps := old(state).sweeps[p := Sweep(startedAt, rest, requeued, failed, skipped)])
    {
      state := state.(sweeps := state.sweeps[p := Sweep(startedAt, rest, requeued, failed, skipped)]);
    }

    /** One iteration of the loop is one step of the machine's pass. */
    method Iterate(p: nat, startedAt: Time, todo: seq<(JobId, Job)>, requeued0: nat, failed0: nat, skipped0: nat)
      returns (requeued: nat, failed: nat, skipped: nat)
      requires todo != [] && p in state.sweeps && state.sweeps[p] == Sweep(startedAt, todo, requeued0, failed0, skipped0)
      modifies this
      ensures requeued + failed + skipped == requeued0 + failed0 + skipped0 + 1
      ensures state == DoSweepStep(Later(old(state)), p)
      ensures p in state.sweeps && state.sweeps[p] == Sweep(startedAt, todo[1..], requeued, failed, skipped)
    {
      state := Later(state);
      var verdict := SweepJob(todo[0].0, todo[0].1, startedAt);
      requeued := requeued0 + if verdict.Requeued? then 1 else 0;
      failed := failed0 + if verdict.Failed? then 1 else 0;
      skipped := skipped0 + if verdict.Skipped? then 1 else 0;
      ghost var decided := state;
      Record(p, startedAt, todo[1..], requeued, failed, skipped);
      IterationIs(old(state), p, Sweep(startedAt, todo, requeued0, failed0, skipped0), verdict, decided, state);
    }

    /** What others do before the next job, and the job itself. */
    method NextJob(p: nat, ghost stuck: seq<JobId>, startedAt: Time, todo: seq<(JobId, Job)>,
                   requeued0: nat, failed0: nat, skipped0: nat, others: seq<Event>, ghost start: State, ghost trace0: seq<Event>)
      returns (requeued: nat, failed: nat, skipped: nat, ghost trace: seq<Event>)
      requires todo != [] && p in state.sweeps && state.sweeps[p] == Sweep(startedAt, todo, requeued0, failed0, skipped0)
      requires state == Run(cfg, start, [SweepBegin(p, stuck)] + trace0) && OnePass(trace0, p) && Elsewhere(others, p)
      modifies this
      ensures requeued + failed + skipped == requeued0 + failed0 + skipped0 + 1
      ensures state == Run(cfg, start, [SweepBegin(p, stuck)] + trace) && OnePass(trace, p)
      ensures others == [] && OnlySteps(trace0, p) ==> OnlySteps(trace, p)
      ensures p in state.sweeps && state.sweeps[p] == Sweep(startedAt, todo[1..], requeued, failed, skipped)
    {
      ghost var s0 := state;
      Interfere(p, others);
      ghost var s1 := state;
      requeued, failed, skipped := Iterate(p, startedAt, todo, requeued0, failed0, skipped0);
      Extend(cfg, start, p, stuck, trace0, s0, others, s1, state);
      trace := trace0 + others + [SweepStep(p)];
    }

    /** The snapshot: the stuck jobs as they are now. */
    method Begin(p: nat, stuck: seq<JobId>) returns (startedAt: Time, todo: seq<(JobId, Job)>)
      requires IsSnapshot(state.db, state.now + 1, stuck)
      modifies this
      ensures startedAt == old(state).now + 1 && |todo| == |stuck|
      ensures state == Run(cfg, old(state), [SweepBegin(p, stuck)] + [])
      ensures p in state.sweeps && state.sweeps[p] == Sweep(startedAt, todo, 0, 0, 0)
    {
      ghost var start := state;
      state := Later(state);
      startedAt := state.now;
      var jobs := state.db.jobs;
      todo := seq(|stuck|, i requires 0 <= i < |stuck| && stuck[i] in jobs => (stuck[i], jobs[stuck[i]]));
      Record(p, startedAt, todo, 0, 0, 0);
      BeginIs(cfg, start, p, stuck, todo, state);
    }

    /**
     * The whole pass over the jobs `list_stuck` found. `gaps(k)` is what others do before the k-th
     * job. The world afterwards is reached by a run of the machine in which the pass has begun with
     * this snapshot and has nothing left to do, and every job was counted once. If nobody else
     * acts, `QuietlyPassed` says what became of every row, in the snapshot or not.
     */
    method SweepPipeline(p: nat, stuck: seq<JobId>, gaps: nat -> seq<Event>)
      returns (requeued: nat, failed: nat, skipped: nat, ghost trace: seq<Event>)
      requires IsSnapshot(state.db, state.now + 1, stuck) && forall k {:trigger gaps(k)} :: Elsewhere(gaps(k), p)
      modifies this
      ensures state == Run(cfg, old(state), [SweepBegin(p, stuck)] + trace) && OnePass(trace, p)
      ensures p in state.sweeps && state.sweeps[p] == Sweep(old(state).now + 1, [], requeued, failed, skipped)
      ensures requeued + failed + skipped == |stuck|
      ensures Uninterrupted(gaps) ==> QuietlyPassed(old(state), stuck, state)
    {
      ghost var start := state;
      var startedAt, todo := Begin(p, stuck);
      requeued, failed, skipped, trace := 0, 0, 0, [];
      for i := 0 to |todo|
        invariant state == Run(cfg, start, [SweepBegin(p, stuck)] + trace) && OnePass(trace, p)
        invariant p in state.sweeps && state.sweeps[p] == Sweep(startedAt, todo[i..], requeued, failed, skipped)
        invariant requeued + failed + skipped == i
        invariant Uninterrupted(gaps) ==> OnlySteps(trace, p)
      {
        requeued, failed, skipped, trace := NextJob(p, stuck, startedAt, todo[i..], requeued, failed, skipped, gaps(i), start, trace);
      }
      PassedAlone(cfg, start, p, stuck, trace, gaps, state);
    }
  }

  lemma PassedAlone(cfg: Config, start: State, p: nat, stuck: seq<JobId>, trace: seq<Event>, gaps: nat -> seq<Event>, s: State)
    requires IsSnapshot(start.db, start.now + 1, stuck) && s == Run(cfg, start, [SweepBegin(p, stuck)] + trace)
    requires p in s.sweeps && s.sweeps[p].todo == [] && (Uninterrupted(gaps) ==> OnlySteps(trace, p))
    ensures Uninterrupted(gaps) ==> QuietlyPassed(start, stuck, s)
  {
    if Uninterrupted(gaps) { QuietPass(cfg, start, p, stuck, trace); }
  }

  lemma BeginIs(cfg: Config, s: State, p: nat, stuck: seq<JobId>, todo: seq<(JobId, Job)>, s': State)
    requires IsSnapshot(s.db, s.now + 1, stuck) && |todo| == |stuck|
    requires forall i :: 0 <= i < |stuck| ==> todo[i] == (stuck[i], s.db.jobs[stuck[i]])
    requires s' == s.(now := s.now + 1, sweeps := s.sweeps[p := Sweep(s.now + 1, todo, 0, 0, 0)])
    ensures Run(cfg, s, [SweepBegin(p, stuck)] + []) == s'
  {
    assert [SweepBegin(p, stuck)] + [] == [SweepBegin(p, stuck)];
    RunOne(cfg, s, SweepBegin(p, stuck), DoSweepBegin(Later(s), p, stuck));
    assert DoSweepBegin(Later(s), p, stuck).sweeps[p].todo == todo;
  }

  lemma IterationIs(s: State, p: nat, sweep: Sweep, verdict: Verdict, decided: State, s': State)
    requires p in s.sweeps && s.sweeps[p] == sweep && sweep.todo != []
    requires Decided(sweep.startedAt, Later(s), sweep.todo[0].0, sweep.todo[0].1, verdict, decided)
    requires s' == decided.(sweeps := decided.sweeps[p := Sweep(sweep.startedAt, sweep.todo[1..],
               sweep.requeued + if verdict.Requeued? then 1 else 0, sweep.failed + if verdict.Failed? then 1 else 0,
               sweep.skipped + if verdict.Skipped? then 1 else 0)])
    ensures s' == DoSweepStep(Later(s), p)
  {
    var (id, job) := sweep.todo[0];
    VerdictIs(Later(s), p, id, job, sweep.(todo := sweep.todo[1..]), verdict, decided, s');
  }

  lemma VerdictIs(s: State, p: nat, id: JobId, job: Job, sweep: Sweep, verdict: Verdict, decided: State, s': State)
    requires Decided(sweep.startedAt, s, id, job, verdict, decided)
    requires s' == decided.(sweeps := decided.sweeps[p := Sweep(sweep.startedAt, sweep.todo,
               sweep.requeued + if verdict.Requeued? then 1 else 0, sweep.failed + if verdict.Failed? then 1 else 0,
               sweep.skipped + if verdict.Skipped? then 1 else 0)])
    ensures s' == SweepItem(s, p, id, job, sweep)
  {
  }

  lemma Extend(cfg: Config, start: State, p: nat, stuck: seq<JobId>, trace: seq<Event>, s0: State, others: seq<Event>,
               s1: State, s2: State)
    requires OnePass(trace, p) && Elsewhere(others, p)
    requires Run(cfg, start, [SweepBegin(p, stuck)] + trace) == s0 && Run(cfg, s0, others) == s1
    requires s2 == DoSweepStep(Later(s1), p)
    ensures OnePass(trace + others + [SweepStep(p)], p)
    ensures Run(cfg, start, [SweepBegin(p, stuck)] + (trace + others + [SweepStep(p)])) == s2
  {
    RunOne(cfg, s1, SweepStep(p), s2);
    ThreeRuns(cfg, start, [SweepBegin(p, stuck)], trace, s0, others, s1, [SweepStep(p)], s2);
  }

  lemma ThreeRuns(cfg: Config, s: State, first: seq<Event>, a: seq<Event>, s0: State, b: seq<Event>, s1: State,
                  c: seq<Event>, s2: State)
    requires Run(cfg, s, first + a) == s0 && Run(cfg, s0, b) == s1 && Run(cfg, s1, c) == s2
    ensures Run(cfg, s, first + (a + b + c)) == s2
  {
    var x := first + a;
    RunThen(cfg, s, x, s0, b, s1);
    var y := x + b;
    RunThen(cfg, s, y, s1, c, s2);
    Regroup(first, a, b, c);
  }

  lemma Regroup<T>(first: seq<T>, a: seq<T>, b: seq<T>, c: seq<T>)
    ensures first + (a + b + c) == ((first + a) + b) + c
  {
  }

  predicate Elsewhere(events: seq<Event>, p: nat) {
    forall i :: 0 <= i < |events| ==> !Restarts(events[i], p) && events[i] != SweepStep(p)
  }
}
