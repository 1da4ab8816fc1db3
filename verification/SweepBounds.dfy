// What a pass of the pipeline sweeper leaves alone, and exactly what it does when nobody else acts.
// Ages are literal microseconds here: 20 minutes, 3 hours and 12 hours.
module SweepBounds {
  import opened Types
  import opened Database
  import opened Pipeline
  import opened Naming
  import opened Control
  import opened Moves
  import opened ReadModel
  import opened SweepPass

  /** Queued for more than 20 minutes, or running for more than 3 hours. */
  predicate Overdue(job: Job, now: Time) {
    || (job.status == Queued && now > job.createdAt + 1_200_000_000)
    || (job.status == Running && job.startedAt.Some? && now > job.startedAt.value + 10_800_000_000)
  }

  /** Started, or created if never started, more than 12 hours ago. */
  predicate Ancient(job: Job, now: Time) {
    now > (if job.startedAt.Some? then job.startedAt.value else job.createdAt) + 43_200_000_000
  }

  /** Queued or running, but not for long. */
  predicate Young(job: Job, now: Time) {
    Active(job) && !Overdue(job, now)
  }

  /** A snapshot holds exactly the overdue jobs. */
  lemma SnapshotIsOverdue(db: Db, now: Time, stuck: seq<JobId>, j: JobId)
    requires IsSnapshot(db, now, stuck) && j in db.jobs
    ensures j in stuck <==> Overdue(db.jobs[j], now)
  {
    if j in stuck {
      var i :| 0 <= i < |stuck| && stuck[i] == j;
    } else {
      assert !IsStuck(db.jobs[j], now);
    }
  }

  // ----- one step -----

  /** The row of the job and its place in ARQ are the same. */
  predicate SameJob(s: State, s': State, j: JobId) {
    && (j in s'.db.jobs <==> j in s.db.jobs) && (j in s.db.jobs ==> s'.db.jobs[j] == s.db.jobs[j])
    && (j in s'.queue <==> j in s.queue)
    && (j in s'.results <==> j in s.results) && (j in s.results ==> s'.results[j] == s.results[j])
    && (j in s'.tasks <==> j in s.tasks) && (j in s.tasks ==> s'.tasks[j] == s.tasks[j])
  }

  /** The row of the document is the same. */
  predicate SameDoc(s: State, s': State, d: DocId) {
    (d in s'.db.docs <==> d in s.db.docs) && (d in s.db.docs ==> s'.db.docs[d] == s.db.docs[d])
  }

  lemma ItemSparesJob(s: State, p: nat, id: JobId, job: Job, sweep: Sweep, j: JobId, s': State)
    requires j != id && s' == SweepItem(s, p, id, job, sweep)
    ensures SameJob(s, s', j)
  {
    ItemQueue(s, p, id, job, sweep, s');
    EnqueueQueue(s, id, job.stage, EnqueueJob(s, id, job.stage));
  }

  lemma ItemSparesDoc(s: State, p: nat, id: JobId, job: Job, sweep: Sweep, d: DocId, s': State)
    requires id in s.db.jobs ==> s.db.jobs[id].document != d
    requires s' == SweepItem(s, p, id, job, sweep)
    ensures SameDoc(s, s', d)
  {
  }

  // ----- any pass: the young are left alone -----

  lemma {:induction false} AuxGrowsOver(cfg: Config, evs: seq<Event>, more: seq<Event>)
    ensures Extends(AuxOf(cfg, evs), AuxOf(cfg, evs + more))
    decreases |more|
  {
    if more == [] {
      assert evs + more == evs;
    } else {
      var less, ev := more[..|more| - 1], more[|more| - 1];
      assert evs + more == (evs + less) + [ev] && (evs + more)[..|evs + more| - 1] == evs + less;
      AuxGrowsOver(cfg, evs, less);
      RunNamed(cfg, evs + less);
      AuxGrows(cfg, Later(Run(cfg, INIT, evs + less)), AuxOf(cfg, evs + less), ev);
    }
  }

  /** An identifier that is a job at two moments of a run is a job of the same document. */
  lemma SameDocument(cfg: Config, evs: seq<Event>, more: seq<Event>, id: JobId)
    requires id in Run(cfg, INIT, evs).db.jobs && id in Run(cfg, INIT, evs + more).db.jobs
    ensures Run(cfg, INIT, evs + more).db.jobs[id].document == Run(cfg, INIT, evs).db.jobs[id].document
  {
    RunNamed(cfg, evs);
    RunNamed(cfg, evs + more);
    AuxGrowsOver(cfg, evs, more);
    assert JobNamed(Run(cfg, INIT, evs).db, AuxOf(cfg, evs), id);
    assert JobNamed(Run(cfg, INIT, evs + more).db, AuxOf(cfg, evs + more), id);
  }

  /** What is left of the pass comes from its snapshot. */
  lemma TodoIsStuck(cfg: Config, evs: seq<Event>, p: nat, stuck: seq<JobId>, more: seq<Event>)
    requires IsSnapshot(Run(cfg, INIT, evs).db, Run(cfg, INIT, evs).now + 1, stuck) && OnePass(more, p)
    ensures var s := Run(cfg, INIT, evs + [SweepBegin(p, stuck)] + more);
            p in s.sweeps && forall i {:trigger s.sweeps[p].todo[i]} :: 0 <= i < |s.sweeps[p].todo| ==> s.sweeps[p].todo[i].0 in stuck
  {
    SnapshotBegins(cfg, evs, p, stuck);
    SnapshotIsBorn(cfg, evs, p, stuck);
    var evs' := evs + [SweepBegin(p, stuck)];
    var start := Run(cfg, INIT, evs').sweeps[p];
    var done := PassRuns(cfg, evs', p, start, more);
    var s := Run(cfg, INIT, evs' + more);
    forall i | 0 <= i < |s.sweeps[p].todo|
      ensures s.sweeps[p].todo[i].0 in stuck
    {
      assert s.sweeps[p].todo[i] == start.todo[done + i] && start.todo[done + i].0 == stuck[done + i];
    }
  }

  /** Without reprocess no other job of a young job's document is in the snapshot. */
  lemma AloneInMotion(cfg: Config, evs: seq<Event>, stuck: seq<JobId>, j: JobId, id: JobId)
    requires NoReprocess(evs)
    requires var s := Run(cfg, INIT, evs); IsSnapshot(s.db, s.now + 1, stuck) && j in s.db.jobs && Young(s.db.jobs[j], s.now + 1)
    requires id in stuck
    ensures var s := Run(cfg, INIT, evs); id in s.db.jobs && s.db.jobs[id].document != s.db.jobs[j].document
  {
    var s := Run(cfg, INIT, evs);
    var d := s.db.jobs[j].document;
    var i :| 0 <= i < |stuck| && stuck[i] == id;
    SnapshotIsOverdue(s.db, s.now + 1, stuck, id);
    RunNamed(cfg, evs);
    assert JobNamed(s.db, AuxOf(cfg, evs), j);
    OneActiveJob(cfg, evs, d);
    if s.db.jobs[id].document == d { assert ActiveFor(s.db, d, id) && ActiveFor(s.db, d, j); }
  }

  lemma StuckElsewhere(cfg: Config, evs: seq<Event>, stuck: seq<JobId>, tail: seq<Event>, j: JobId, id: JobId)
    requires NoReprocess(evs)
    requires var s := Run(cfg, INIT, evs); IsSnapshot(s.db, s.now + 1, stuck) && j in s.db.jobs && Young(s.db.jobs[j], s.now + 1)
    requires id in stuck && id in Run(cfg, INIT, evs + tail).db.jobs
    ensures Run(cfg, INIT, evs + tail).db.jobs[id].document != Run(cfg, INIT, evs).db.jobs[j].document
  {
    AloneInMotion(cfg, evs, stuck, j, id);
    SameDocument(cfg, evs, tail, id);
  }

  /**
   * A pass begun with the snapshot `stuck` after `evs`, with anything at all in between: a job that
   * was queued for at most 20 minutes or running for at most 3 hours when it began is not in the
   * snapshot, and no step of the pass changes its row or its place in ARQ, nor, in a run without
   * reprocess, the row of its document.
   */
  lemma PassSparesTheYoung(cfg: Config, evs: seq<Event>, p: nat, stuck: seq<JobId>, more: seq<Event>, j: JobId)
    requires IsSnapshot(Run(cfg, INIT, evs).db, Run(cfg, INIT, evs).now + 1, stuck) && OnePass(more, p)
    requires var s := Run(cfg, INIT, evs); j in s.db.jobs && Young(s.db.jobs[j], s.now + 1)
    ensures j !in stuck
    ensures var s := Run(cfg, INIT, evs + [SweepBegin(p, stuck)] + more);
            && SameJob(s, Apply(cfg, s, SweepStep(p)), j)
            && (NoReprocess(evs) ==> SameDoc(s, Apply(cfg, s, SweepStep(p)), Run(cfg, INIT, evs).db.jobs[j].document))
  {
    var s := Run(cfg, INIT, evs + [SweepBegin(p, stuck)] + more);
    SnapshotIsOverdue(Run(cfg, INIT, evs).db, Run(cfg, INIT, evs).now + 1, stuck, j);
    TodoIsStuck(cfg, evs, p, stuck, more);
    assert evs + [SweepBegin(p, stuck)] + more == evs + ([SweepBegin(p, stuck)] + more);
    HeadElsewhere(cfg, evs, p, stuck, [SweepBegin(p, stuck)] + more, j, s);
    StepOfPass(cfg, s, p, stuck, j, Run(cfg, INIT, evs).db.jobs[j].document, Apply(cfg, s, SweepStep(p)));
  }

  lemma HeadElsewhere(cfg: Config, evs: seq<Event>, p: nat, stuck: seq<JobId>, tail: seq<Event>, j: JobId, s: State)
    requires var s0 := Run(cfg, INIT, evs); IsSnapshot(s0.db, s0.now + 1, stuck) && j in s0.db.jobs && Young(s0.db.jobs[j], s0.now + 1)
    requires s == Run(cfg, INIT, evs + tail) && p in s.sweeps
    requires forall i {:trigger s.sweeps[p].todo[i]} :: 0 <= i < |s.sweeps[p].todo| ==> s.sweeps[p].todo[i].0 in stuck
    ensures NoReprocess(evs) && s.sweeps[p].todo != [] ==>
              var id := s.sweeps[p].todo[0].0; id in s.db.jobs ==> s.db.jobs[id].document != Run(cfg, INIT, evs).db.jobs[j].document
  {
    if NoReprocess(evs) && s.sweeps[p].todo != [] && s.sweeps[p].todo[0].0 in s.db.jobs {
      StuckElsewhere(cfg, evs, stuck, tail, j, s.sweeps[p].todo[0].0);
    }
  }

  lemma StepOfPass(cfg: Config, s: State, p: nat, stuck: seq<JobId>, j: JobId, d: DocId, s': State)
    requires p in s.sweeps && forall i {:trigger s.sweeps[p].todo[i]} :: 0 <= i < |s.sweeps[p].todo| ==> s.sweeps[p].todo[i].0 in stuck
    requires j !in stuck && s' == Apply(cfg, s, SweepStep(p))
    ensures SameJob(s, s', j)
    ensures (s.sweeps[p].todo != [] ==> var id := s.sweeps[p].todo[0].0; id in s.db.jobs ==> s.db.jobs[id].document != d)
            ==> SameDoc(s, s', d)
  {
    if s.sweeps[p].todo != [] { StepSpares(cfg, s, p, j, d, s'); } else { StepIdles(cfg, s, p, s'); }
  }

  lemma StepSpares(cfg: Config, s: State, p: nat, j: JobId, d: DocId, s': State)
    requires p in s.sweeps && s.sweeps[p].todo != [] && s.sweeps[p].todo[0].0 != j && s' == Apply(cfg, s, SweepStep(p))
    ensures SameJob(s, s', j)
    ensures (var id := s.sweeps[p].todo[0].0; id in s.db.jobs ==> s.db.jobs[id].document != d) ==> SameDoc(s, s', d)
  {
    var sweep := s.sweeps[p];
    var (id, job) := sweep.todo[0];
    ItemSparesJob(Later(s), p, id, job, sweep.(todo := sweep.todo[1..]), j, s');
    if id in s.db.jobs ==> s.db.jobs[id].document != d {
      ItemSparesDoc(Later(s), p, id, job, sweep.(todo := sweep.todo[1..]), d, s');
    }
  }

  lemma StepIdles(cfg: Config, s: State, p: nat, s': State)
    requires p in s.sweeps && s.sweeps[p].todo == [] && s' == Apply(cfg, s, SweepStep(p))
    ensures s' == Later(s)
  {
  }

  // ----- a pass with nothing in between, exactly -----

  /** What such a pass makes of a job that it found as `job`, having begun at `now`. */
  predicate Treated(s: State, s': State, now: Time, j: JobId, job: Job) {
    if !Overdue(job, now) then SameJob(s, s', j)
    else if job.status == Running || Ancient(job, now) then
      && j in s'.db.jobs && s'.db.jobs[j].finishedAt.Some?
      && s'.db.jobs[j] == job.(status := JobFailed, finishedAt := s'.db.jobs[j].finishedAt, details := job.details.(error :=
           Some(if Ancient(job, now) then "sweep: retries/age exhausted" else "sweep: worker presumed dead")))
      && (j in s'.queue <==> j in s.queue)
    else
      && j in s'.db.jobs && s'.db.jobs[j] == job
      && (j in s.queue ==> j in s'.queue)
      && (j in s'.queue || (j in s.results && now < s.results[j]))
  }

  predicate Listed(db: Db, stuck: seq<JobId>, list: seq<(JobId, Job)>) {
    |list| == |stuck| && forall i :: 0 <= i < |stuck| ==> stuck[i] in db.jobs && list[i] == (stuck[i], db.jobs[stuck[i]])
  }

  /** The pass over `list` is through with its first `k` jobs. */
  ghost predicate Through(s: State, p: nat, stuck: seq<JobId>, list: seq<(JobId, Job)>, k: nat, s': State)
    requires k <= |stuck| == |list|
  {
    && p in s'.sweeps && s'.sweeps[p].todo == list[k..] && s'.sweeps[p].startedAt == s.now + 1 && s.now + 1 <= s'.now
    && s'.results == s.results
    && (forall j {:trigger s.db.jobs[j]} :: j in s.db.jobs ==>
          if j in stuck[..k] then Treated(s, s', s.now + 1, j, s.db.jobs[j]) else SameJob(s, s', j))
    && (forall d {:trigger SameDoc(s, s', d)} :: SparesDoc(s, stuck, d) ==> SameDoc(s, s', d))
  }

  /** No job of the snapshot is for the document. */
  predicate SparesDoc(s: State, stuck: seq<JobId>, d: DocId) {
    forall i :: 0 <= i < |stuck| ==> stuck[i] in s.db.jobs && s.db.jobs[stuck[i]].document != d
  }

  /** One iteration settles its own job. */
  lemma ItemTreats(s0: State, s: State, p: nat, id: JobId, job: Job, sweep: Sweep, s': State)
    requires id in s.db.jobs && s.db.jobs[id] == job && Overdue(job, sweep.startedAt) && sweep.startedAt <= s.now
    requires SameJob(s0, s, id) && s.results == s0.results && s' == SweepItem(s, p, id, job, sweep)
    ensures Treated(s0, s', sweep.startedAt, id, job)
  {
    ItemQueue(s, p, id, job, sweep, s');
    EnqueueQueue(s, id, job.stage, EnqueueJob(s, id, job.stage));
    ItemRow(s, p, id, job, sweep, s');
  }

  lemma ItemRow(s: State, p: nat, id: JobId, job: Job, sweep: Sweep, s': State)
    requires id in s.db.jobs && s.db.jobs[id] == job && Active(job) && s' == SweepItem(s, p, id, job, sweep)
    ensures id in s'.db.jobs
    ensures s'.db.jobs[id] == if job.status == Running || Ancient(job, sweep.startedAt)
                              then job.(status := JobFailed, finishedAt := Some(s.now), details := job.details.(error :=
                                     Some(if Ancient(job, sweep.startedAt) then "sweep: retries/age exhausted" else "sweep: worker presumed dead")))
                              else job
  {
  }

  lemma TreatedStays(s: State, t: State, t': State, now: Time, j: JobId, job: Job)
    requires Treated(s, t, now, j, job) && SameJob(t, t', j)
    ensures Treated(s, t', now, j, job)
  {
  }

  /** One more step, for one job. */
  lemma ThroughJob(s: State, p: nat, stuck: seq<JobId>, k: nat, t: State, sweep: Sweep, t': State, j: JobId)
    requires IsSnapshot(s.db, s.now + 1, stuck) && k < |stuck| && stuck[k] in s.db.jobs && s.results == t.results && s.now <= t.now
    requires j in s.db.jobs && if j in stuck[..k] then Treated(s, t, s.now + 1, j, s.db.jobs[j]) else SameJob(s, t, j)
    requires sweep.startedAt == s.now + 1 && t' == SweepItem(Later(t), p, stuck[k], s.db.jobs[stuck[k]], sweep)
    ensures if j in stuck[..k + 1] then Treated(s, t', s.now + 1, j, s.db.jobs[j]) else SameJob(s, t', j)
  {
    OneMoreStuck(stuck, k, j);
    if j == stuck[k] {
      SnapshotIsOverdue(s.db, s.now + 1, stuck, j);
      ItemTreats(s, Later(t), p, j, s.db.jobs[j], sweep, t');
    } else {
      ItemSparesJob(Later(t), p, stuck[k], s.db.jobs[stuck[k]], sweep, j, t');
      OtherJob(s, t, t', s.now + 1, j, j in stuck[..k]);
    }
  }

  lemma OneMoreStuck(stuck: seq<JobId>, k: nat, j: JobId)
    requires k < |stuck| && forall a, b :: 0 <= a < b < |stuck| ==> stuck[a] != stuck[b]
    ensures j in stuck[..k + 1] <==> j in stuck[..k] || j == stuck[k]
    ensures stuck[k] !in stuck[..k]
  {
    assert stuck[..k + 1] == stuck[..k] + [stuck[k]];
  }

  lemma OtherJob(s: State, t: State, t': State, now: Time, j: JobId, treated: bool)
    requires j in s.db.jobs && SameJob(Later(t), t', j)
    requires if treated then Treated(s, t, now, j, s.db.jobs[j]) else SameJob(s, t, j)
    ensures if treated then Treated(s, t', now, j, s.db.jobs[j]) else SameJob(s, t', j)
  {
    if treated { TreatedStays(s, t, t', now, j, s.db.jobs[j]); }
  }

  lemma ThroughDoc(s: State, p: nat, stuck: seq<JobId>, k: nat, t: State, sweep: Sweep, t': State, d: DocId)
    requires k < |stuck| && stuck[k] in s.db.jobs && SameJob(s, t, stuck[k]) && SameDoc(s, t, d) && SparesDoc(s, stuck, d)
    requires t' == SweepItem(Later(t), p, stuck[k], s.db.jobs[stuck[k]], sweep)
    ensures SameDoc(s, t', d)
  {
    ItemSparesDoc(Later(t), p, stuck[k], s.db.jobs[stuck[k]], sweep, d, t');
  }

  /** The step takes the next job of the list. */
  lemma NextItem(cfg: Config, s: State, p: nat, list: seq<(JobId, Job)>, k: nat, s': State) returns (sweep: Sweep)
    requires k < |list| && p in s.sweeps && s.sweeps[p].todo == list[k..] && s' == Apply(cfg, s, SweepStep(p))
    ensures sweep == s.sweeps[p].(todo := list[k + 1..]) && s' == SweepItem(Later(s), p, list[k].0, list[k].1, sweep)
    ensures p in s'.sweeps && s'.sweeps[p].todo == list[k + 1..] && s'.sweeps[p].startedAt == s.sweeps[p].startedAt
    ensures s'.results == s.results && s'.now == s.now + 1
  {
    assert list[k..][0] == list[k] && list[k..][1..] == list[k + 1..];
    sweep := s.sweeps[p].(todo := list[k + 1..]);
    StepApplies(cfg, s, p, DoSweepStep(Later(s), p));
    ItemTodo(Later(s), p, list[k].0, list[k].1, sweep, s');
    ItemQueue(Later(s), p, list[k].0, list[k].1, sweep, s');
  }

  lemma ThroughOne(cfg: Config, s: State, p: nat, stuck: seq<JobId>, list: seq<(JobId, Job)>, k: nat, t: State, t': State)
    requires IsSnapshot(s.db, s.now + 1, stuck) && Listed(s.db, stuck, list) && k < |stuck| && Through(s, p, stuck, list, k, t)
    requires t' == Apply(cfg, t, SweepStep(p))
    ensures Through(s, p, stuck, list, k + 1, t')
  {
    var sweep := NextItem(cfg, t, p, list, k, t');
    forall j | j in s.db.jobs
      ensures if j in stuck[..k + 1] then Treated(s, t', s.now + 1, j, s.db.jobs[j]) else SameJob(s, t', j)
    {
      ThroughJob(s, p, stuck, k, t, sweep, t', j);
    }
    assert stuck[k] !in stuck[..k] && SameJob(s, t, stuck[k]);
    forall d | SparesDoc(s, stuck, d)
      ensures SameDoc(s, t', d)
    {
      assert SameDoc(s, t, d);
      ThroughDoc(s, p, stuck, k, t, sweep, t', d);
    }
  }

  lemma ItemTodo(s: State, p: nat, id: JobId, job: Job, sweep: Sweep, s': State)
    requires s' == SweepItem(s, p, id, job, sweep)
    ensures p in s'.sweeps && s'.sweeps[p].todo == sweep.todo && s'.sweeps[p].startedAt == sweep.startedAt
  {
  }

  lemma ThroughNone(cfg: Config, s: State, p: nat, stuck: seq<JobId>, list: seq<(JobId, Job)>, s': State)
    requires IsSnapshot(s.db, s.now + 1, stuck) && Listed(s.db, stuck, list) && s' == DoSweepBegin(Later(s), p, stuck)
    ensures Through(s, p, stuck, list, 0, s')
  {
    SnapshotTaken(Later(s), p, stuck, s');
    assert s'.sweeps[p].todo == list;
    BeginLeavesArq(Later(s), p, stuck, s');
  }

  lemma BeginLeavesArq(s: State, p: nat, stuck: seq<JobId>, s': State)
    requires s' == DoSweepBegin(s, p, stuck)
    ensures s'.queue == s.queue && s'.results == s.results && s'.tasks == s.tasks
  {
  }

  predicate OnlySteps(more: seq<Event>, p: nat) {
    forall i :: 0 <= i < |more| ==> more[i] == SweepStep(p)
  }

  lemma {:induction false} ThroughSteps(cfg: Config, s: State, p: nat, stuck: seq<JobId>, list: seq<(JobId, Job)>, more: seq<Event>)
    returns (k: nat)
    requires IsSnapshot(s.db, s.now + 1, stuck) && Listed(s.db, stuck, list) && OnlySteps(more, p)
    ensures k <= |stuck| && Through(s, p, stuck, list, k, Run(cfg, s, [SweepBegin(p, stuck)] + more))
    decreases |more|
  {
    var first := [SweepBegin(p, stuck)];
    if more == [] {
      k := 0;
      assert first + more == first;
      RunOne(cfg, s, first[0], DoSweepBegin(Later(s), p, stuck));
      ThroughNone(cfg, s, p, stuck, list, Run(cfg, s, first));
    } else {
      var less := more[..|more| - 1];
      k := ThroughSteps(cfg, s, p, stuck, list, less);
      var t, t' := Run(cfg, s, first + less), Run(cfg, s, first + more);
      assert first + more == (first + less) + [SweepStep(p)];
      RunSnoc(cfg, s, first + less, SweepStep(p));
      if k < |stuck| {
        ThroughOne(cfg, s, p, stuck, list, k, t, t');
        k := k + 1;
      } else {
        StepIdles(cfg, t, p, t');
        StillThrough(s, p, stuck, list, k, t, t');
      }
    }
  }

  lemma StillThrough(s: State, p: nat, stuck: seq<JobId>, list: seq<(JobId, Job)>, k: nat, t: State, t': State)
    requires k <= |stuck| == |list| && Through(s, p, stuck, list, k, t) && t' == Later(t)
    ensures Through(s, p, stuck, list, k, t')
  {
    forall j | j in s.db.jobs
      ensures if j in stuck[..k] then Treated(s, t', s.now + 1, j, s.db.jobs[j]) else SameJob(s, t', j)
    {
      var job := s.db.jobs[j];
      if j in stuck[..k] { TreatedStays(s, t, t', s.now + 1, j, s.db.jobs[j]); }
    }
    forall d | SparesDoc(s, stuck, d)
      ensures SameDoc(s, t', d)
    {
      assert SameDoc(s, t, d);
    }
  }

  /**
   * A whole pass with nothing in between, from any state, on every job: one running for over 3
   * hours, or queued for over 12, is failed with the error for it; one queued for over 20 minutes
   * otherwise keeps its row and is in the queue unless ARQ held a fresh result; all others keep row
   * and place. The row of a document is the same unless a job of the snapshot is for it.
   */
  lemma QuietPass(cfg: Config, s: State, p: nat, stuck: seq<JobId>, more: seq<Event>)
    requires IsSnapshot(s.db, s.now + 1, stuck) && OnlySteps(more, p)
    requires var s' := Run(cfg, s, [SweepBegin(p, stuck)] + more); p in s'.sweeps && s'.sweeps[p].todo == []
    ensures QuietlyPassed(s, stuck, Run(cfg, s, [SweepBegin(p, stuck)] + more))
  {
    var list := seq(|stuck|, i requires 0 <= i < |stuck| && stuck[i] in s.db.jobs => (stuck[i], s.db.jobs[stuck[i]]));
    var k := ThroughSteps(cfg, s, p, stuck, list, more);
    ThroughAll(s, p, stuck, list, k, Run(cfg, s, [SweepBegin(p, stuck)] + more));
  }

  lemma ThroughAll(s: State, p: nat, stuck: seq<JobId>, list: seq<(JobId, Job)>, k: nat, s': State)
    requires IsSnapshot(s.db, s.now + 1, stuck) && k <= |stuck| == |list| && Through(s, p, stuck, list, k, s') && s'.sweeps[p].todo == []
    ensures QuietlyPassed(s, stuck, s')
  {
    forall j | j in s.db.jobs
      ensures Treated(s, s', s.now + 1, j, s.db.jobs[j])
    {
      SnapshotIsOverdue(s.db, s.now + 1, stuck, j);
      assert stuck[..k] == stuck;
    }
    forall d | SparesDoc(s, stuck, d)
      ensures SameDoc(s, s', d)
    {
      assert Through(s, p, stuck, list, k, s');
    }
  }

  ghost predicate QuietlyPassed(s: State, stuck: seq<JobId>, s': State) {
    && (forall j {:trigger s.db.jobs[j]} :: j in s.db.jobs ==> Treated(s, s', s.now + 1, j, s.db.jobs[j]))
    && (forall d {:trigger SameDoc(s, s', d)} :: SparesDoc(s, stuck, d) ==> SameDoc(s, s', d))
  }
}
