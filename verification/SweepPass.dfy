// One pass of the pipeline sweeper, interleaved with live workers, deliveries, uploads, deletes
// and other passes: every job it found stuck is dealt with, and nothing finished is touched.
module SweepPass {
  import opened Types
  import opened Database
  import opened Pipeline
  import opened Naming
  import opened Control
  import opened JobHistory
  import opened Moves

  /** ARQ loses the task. */
  predicate Forgets(ev: Event, j: JobId) {
    ev == Arq(Lose(j))
  }

  /** The task is in the queue, or it ended and its result was still there after `since`. */
  predicate Held(s: State, j: JobId, since: Time) {
    j in s.queue || (j in s.results && since < s.results[j])
  }

  predicate Remembered(evs: seq<Event>, j: JobId) {
    forall i :: 0 <= i < |evs| ==> !Forgets(evs[i], j)
  }

  predicate Restarts(ev: Event, p: nat) {
    ev.SweepBegin? && ev.pass == p
  }

  predicate OnePass(evs: seq<Event>, p: nat) {
    forall i :: 0 <= i < |evs| ==> !Restarts(evs[i], p)
  }

  /** What the pass owes a job of its snapshot once it has looked at it. */
  ghost predicate Handled(s: State, sweep: Sweep, id: JobId, job: Job, remembered: bool) {
    if SweepFails(sweep, job) then id in s.db.jobs ==> Terminal(s.db.jobs[id])
    else job.status == Queued && remembered ==> Held(s, id, sweep.startedAt)
  }

  // ----- single events -----

  lemma HeldDispatch(cfg: Config, s: State, ev: Event, j: JobId, since: Time)
    requires Held(s, j, since) && !Forgets(ev, j) && since < s.now
    ensures Held(Dispatch(cfg, s, ev), j, since)
  {
    match ev
    case Http(request) => RequestHeld(cfg, s, request, j, since);
    case Work(w, action) => WorkHeld(cfg, s, w, action, j, since);
    case Arq(op) => ArqHeld(cfg, s, op, j, since);
    case SweepBegin(p, stuck) => BeginHeld(s, p, stuck, j, since);
    case SweepStep(p) => StepHeld(s, p, j, since);
    case Tick(_) =>
  }

  lemma BeginHeld(s: State, p: nat, stuck: seq<JobId>, j: JobId, since: Time)
    requires Held(s, j, since)
    ensures Held(DoSweepBegin(s, p, stuck), j, since)
  {
  }

  lemma ArqHeld(cfg: Config, s: State, op: ArqOp, j: JobId, since: Time)
    requires Held(s, j, since) && op != Lose(j) && since < s.now
    ensures Held(OnArq(cfg, s, op), j, since)
  {
  }

  lemma ItemHeld(s: State, p: nat, id: JobId, job: Job, sweep: Sweep, j: JobId, since: Time)
    requires Held(s, j, since)
    ensures Held(SweepItem(s, p, id, job, sweep), j, since)
  {
    ItemQueue(s, p, id, job, sweep, SweepItem(s, p, id, job, sweep));
  }

  lemma StepHeld(s: State, p: nat, j: JobId, since: Time)
    requires Held(s, j, since)
    ensures Held(DoSweepStep(s, p), j, since)
  {
    if p in s.sweeps && s.sweeps[p].todo != [] {
      var sweep := s.sweeps[p];
      ItemHeld(s, p, sweep.todo[0].0, sweep.todo[0].1, sweep.(todo := sweep.todo[1..]), j, since);
    }
  }

  lemma RequestHeld(cfg: Config, s: State, request: Request, j: JobId, since: Time)
    requires Held(s, j, since)
    ensures Held(OnRequest(cfg, s, request), j, since)
  {
  }

  lemma WorkHeld(cfg: Config, s: State, w: WorkerId, action: Action, j: JobId, since: Time)
    requires Held(s, j, since)
    ensures Held(OnWork(cfg, s, w, action), j, since)
  {
    var s' := OnWork(cfg, s, w, action);
    if action.Enqueue? { EnqueueStepQueue(s, w, PcOf(s, w), s'); } else { PlainQueue(cfg, s, w, action, s'); }
  }

  /** Only its own steps change the record of a pass. */
  lemma RecordDispatch(cfg: Config, s: State, ev: Event, p: nat)
    requires p in s.sweeps && !Restarts(ev, p) && ev != SweepStep(p)
    ensures p in Dispatch(cfg, s, ev).sweeps && Dispatch(cfg, s, ev).sweeps[p] == s.sweeps[p] && s.now <= Dispatch(cfg, s, ev).now
  {
    match ev
    case SweepBegin(q, stuck) => BeginRecord(s, q, stuck, p);
    case SweepStep(q) => OtherStep(s, q, p);
    case _ =>
  }

  lemma RecordStays(cfg: Config, s: State, ev: Event, p: nat, s': State)
    requires p in s.sweeps && !Restarts(ev, p) && ev != SweepStep(p) && s' == Dispatch(cfg, s, ev)
    ensures p in s'.sweeps && s'.sweeps[p] == s.sweeps[p] && s.now <= s'.now
  {
    RecordDispatch(cfg, s, ev, p);
  }

  lemma RecordKept(cfg: Config, s: State, ev: Event, p: nat, s': State)
    requires p in s.sweeps && !Restarts(ev, p) && ev != SweepStep(p) && s' == Apply(cfg, s, ev)
    ensures p in s'.sweeps && s'.sweeps[p] == s.sweeps[p] && s.now <= s'.now
  {
    RecordStays(cfg, Later(s), ev, p, s');
  }

  lemma BeginRecord(s: State, q: nat, stuck: seq<JobId>, p: nat)
    requires p in s.sweeps && q != p
    ensures p in DoSweepBegin(s, q, stuck).sweeps && DoSweepBegin(s, q, stuck).sweeps[p] == s.sweeps[p]
  {
  }

  lemma OtherStep(s: State, q: nat, p: nat)
    requires p in s.sweeps && q != p
    ensures p in DoSweepStep(s, q).sweeps && DoSweepStep(s, q).sweeps[p] == s.sweeps[p]
  {
    if q in s.sweeps && s.sweeps[q].todo != [] {
      var sweep := s.sweeps[q];
      ItemRecord(s, q, sweep.todo[0].0, sweep.todo[0].1, sweep.(todo := sweep.todo[1..]), p);
    }
  }

  lemma ItemRecord(s: State, q: nat, id: JobId, job: Job, sweep: Sweep, p: nat)
    requires p in s.sweeps && q != p
    ensures p in SweepItem(s, q, id, job, sweep).sweeps && SweepItem(s, q, id, job, sweep).sweeps[p] == s.sweeps[p]
  {
  }

  /** A step takes the first job, counts it once and settles what it owes it. */
  lemma StepHandles(s: State, p: nat)
    requires p in s.sweeps && s.sweeps[p].todo != [] && s.sweeps[p].startedAt < s.now
    ensures var sweep, s' := s.sweeps[p], DoSweepStep(s, p);
            && p in s'.sweeps
            && s'.sweeps[p].startedAt == sweep.startedAt && s'.sweeps[p].todo == sweep.todo[1..]
            && s'.sweeps[p].requeued + s'.sweeps[p].failed + s'.sweeps[p].skipped
               == sweep.requeued + sweep.failed + sweep.skipped + 1
            && Handled(s', sweep, sweep.todo[0].0, sweep.todo[0].1, true)
  {
    var sweep := s.sweeps[p];
    ItemHandles(s, p, sweep.todo[0].0, sweep.todo[0].1, sweep.(todo := sweep.todo[1..]));
  }

  lemma ItemHandles(s: State, p: nat, id: JobId, job: Job, sweep: Sweep)
    requires sweep.startedAt < s.now
    ensures var s' := SweepItem(s, p, id, job, sweep);
            && p in s'.sweeps && s'.sweeps[p].startedAt == sweep.startedAt && s'.sweeps[p].todo == sweep.todo
            && s'.sweeps[p].requeued + s'.sweeps[p].failed + s'.sweeps[p].skipped
               == sweep.requeued + sweep.failed + sweep.skipped + 1
            && Handled(s', sweep, id, job, true)
  {
    ItemSettles(s, p, id, job, sweep);
  }

  lemma ItemSettles(s: State, p: nat, id: JobId, job: Job, sweep: Sweep)
    requires sweep.startedAt < s.now
    ensures Handled(SweepItem(s, p, id, job, sweep), sweep, id, job, true)
  {
  }

  // ----- the pass over a run -----

  /** After `done` steps: the rest is still to do, and the jobs before it are handled. */
  ghost predicate InPass(s: State, p: nat, start: Sweep, events: seq<Event>, done: nat) {
    && p in s.sweeps && done <= |start.todo| && start.startedAt <= s.now
    && s.sweeps[p].startedAt == start.startedAt && s.sweeps[p].todo == start.todo[done..]
    && s.sweeps[p].requeued + s.sweeps[p].failed + s.sweeps[p].skipped == done
    && forall i {:trigger start.todo[i]} :: 0 <= i < done ==>
         Handled(s, start, start.todo[i].0, start.todo[i].1, Remembered(events, start.todo[i].0))
  }

  ghost predicate AllBorn(s: State, aux: Aux, start: Sweep) {
    forall i {:trigger start.todo[i]} :: 0 <= i < |start.todo| ==> Born(s, aux, start.todo[i].0)
  }

  lemma HandledLater(cfg: Config, s: State, ev: Event, s': State, start: Sweep, id: JobId, job: Job, remembered: bool)
    requires s' == Apply(cfg, s, ev) && Keeps(s.db, s'.db, id) && start.startedAt <= s.now
    requires Handled(s, start, id, job, remembered)
    ensures Handled(s', start, id, job, remembered && !Forgets(ev, id))
  {
    if !SweepFails(start, job) && job.status == Queued && remembered && !Forgets(ev, id) {
      HeldApply(cfg, s, ev, s', id, start.startedAt);
    }
  }

  lemma HeldApply(cfg: Config, s: State, ev: Event, s': State, j: JobId, since: Time)
    requires s' == Apply(cfg, s, ev) && Held(s, j, since) && !Forgets(ev, j) && since <= s.now
    ensures Held(s', j, since)
  {
    HeldFrom(cfg, Later(s), ev, s', j, since);
  }

  lemma HeldFrom(cfg: Config, later: State, ev: Event, s': State, j: JobId, since: Time)
    requires s' == Dispatch(cfg, later, ev) && Held(later, j, since) && !Forgets(ev, j) && since < later.now
    ensures Held(s', j, since)
  {
    HeldDispatch(cfg, later, ev, j, since);
  }

  lemma HandledStays(cfg: Config, evs: seq<Event>, ev: Event, start: Sweep, id: JobId, job: Job, remembered: bool)
    requires Born(Run(cfg, INIT, evs), AuxOf(cfg, evs), id) && start.startedAt <= Run(cfg, INIT, evs).now
    requires Handled(Run(cfg, INIT, evs), start, id, job, remembered)
    ensures Handled(Run(cfg, INIT, evs + [ev]), start, id, job, remembered && !Forgets(ev, id))
  {
    LastKeeps(cfg, evs, ev, id);
    HandledLater(cfg, Run(cfg, INIT, evs), ev, Run(cfg, INIT, evs + [ev]), start, id, job, remembered);
  }

  lemma {:induction false} RememberedMore(events: seq<Event>, ev: Event, j: JobId)
    ensures Remembered(events + [ev], j) <==> Remembered(events, j) && !Forgets(ev, j)
  {
    if Remembered(events + [ev], j) {
      assert (events + [ev])[|events|] == ev;
      forall i | 0 <= i < |events|
        ensures !Forgets(events[i], j)
      {
        assert (events + [ev])[i] == events[i];
      }
    }
  }

  lemma AllHandledStay(cfg: Config, evs: seq<Event>, ev: Event, start: Sweep, events: seq<Event>, done: nat)
    requires AllBorn(Run(cfg, INIT, evs), AuxOf(cfg, evs), start) && done <= |start.todo|
    requires start.startedAt <= Run(cfg, INIT, evs).now
    requires forall i {:trigger start.todo[i]} :: 0 <= i < done ==>
               Handled(Run(cfg, INIT, evs), start, start.todo[i].0, start.todo[i].1, Remembered(events, start.todo[i].0))
    ensures AllBorn(Run(cfg, INIT, evs + [ev]), AuxOf(cfg, evs + [ev]), start)
    ensures forall i {:trigger start.todo[i]} :: 0 <= i < done ==>
              Handled(Run(cfg, INIT, evs + [ev]), start, start.todo[i].0, start.todo[i].1, Remembered(events + [ev], start.todo[i].0))
  {
    forall i | 0 <= i < |start.todo|
      ensures Born(Run(cfg, INIT, evs + [ev]), AuxOf(cfg, evs + [ev]), start.todo[i].0)
    {
      LastKeeps(cfg, evs, ev, start.todo[i].0);
    }
    forall i | 0 <= i < done
      ensures Handled(Run(cfg, INIT, evs + [ev]), start, start.todo[i].0, start.todo[i].1, Remembered(events + [ev], start.todo[i].0))
    {
      RememberedMore(events, ev, start.todo[i].0);
      HandledStays(cfg, evs, ev, start, start.todo[i].0, start.todo[i].1, Remembered(events, start.todo[i].0));
    }
  }

  lemma OtherEventKeeps(cfg: Config, evs: seq<Event>, ev: Event, p: nat, start: Sweep, events: seq<Event>, done: nat)
    requires InPass(Run(cfg, INIT, evs), p, start, events, done) && AllBorn(Run(cfg, INIT, evs), AuxOf(cfg, evs), start)
    requires !Restarts(ev, p) && ev != SweepStep(p)
    ensures InPass(Run(cfg, INIT, evs + [ev]), p, start, events + [ev], done)
  {
    AllHandledStay(cfg, evs, ev, start, events, done);
    var s := Run(cfg, INIT, evs);
    RunSnoc(cfg, INIT, evs, ev);
    var s' := Run(cfg, INIT, evs + [ev]);
    RecordKept(cfg, s, ev, p, s');
    StillInPass(s, p, start, events, events + [ev], done, s');
  }

  lemma StillInPass(s: State, p: nat, start: Sweep, events: seq<Event>, events': seq<Event>, done: nat, s': State)
    requires InPass(s, p, start, events, done) && p in s'.sweeps && s'.sweeps[p] == s.sweeps[p] && s.now <= s'.now
    requires forall i {:trigger start.todo[i]} :: 0 <= i < done ==>
               Handled(s', start, start.todo[i].0, start.todo[i].1, Remembered(events', start.todo[i].0))
    ensures InPass(s', p, start, events', done)
  {
  }

  lemma StepMoves(s: State, p: nat, start: Sweep, done: nat, s': State)
    requires p in s.sweeps && done < |start.todo| && s' == DoSweepStep(s, p) && start.startedAt < s.now
    requires s.sweeps[p].startedAt == start.startedAt && s.sweeps[p].todo == start.todo[done..]
    ensures p in s'.sweeps && s'.sweeps[p].startedAt == start.startedAt && s'.sweeps[p].todo == start.todo[done + 1..]
    ensures s'.now == s.now
    ensures s'.sweeps[p].requeued + s'.sweeps[p].failed + s'.sweeps[p].skipped
            == s.sweeps[p].requeued + s.sweeps[p].failed + s.sweeps[p].skipped + 1
    ensures Handled(s', start, start.todo[done].0, start.todo[done].1, true)
  {
    StepHandles(s, p);
    assert s.sweeps[p].todo[0] == start.todo[done];
    assert s.sweeps[p].todo[1..] == start.todo[done + 1..];
  }

  lemma SweepStepHandlesOne(cfg: Config, evs: seq<Event>, p: nat, start: Sweep, events: seq<Event>, done: nat)
    requires InPass(Run(cfg, INIT, evs), p, start, events, done) && AllBorn(Run(cfg, INIT, evs), AuxOf(cfg, evs), start)
    requires done < |start.todo|
    ensures InPass(Run(cfg, INIT, evs + [SweepStep(p)]), p, start, events + [SweepStep(p)], done + 1)
  {
    var s, s' := Run(cfg, INIT, evs), Run(cfg, INIT, evs + [SweepStep(p)]);
    AllHandledStay(cfg, evs, SweepStep(p), start, events, done);
    RunSnoc(cfg, INIT, evs, SweepStep(p));
    StepApplies(cfg, s, p, DoSweepStep(Later(s), p));
    StepMoves(Later(s), p, start, done, s');
    OneMore(s', p, start, events + [SweepStep(p)], done);
  }

  lemma OneMore(s: State, p: nat, start: Sweep, events: seq<Event>, done: nat)
    requires p in s.sweeps && done < |start.todo| && start.startedAt <= s.now
    requires s.sweeps[p].startedAt == start.startedAt && s.sweeps[p].todo == start.todo[done + 1..]
    requires s.sweeps[p].requeued + s.sweeps[p].failed + s.sweeps[p].skipped == done + 1
    requires forall i {:trigger start.todo[i]} :: 0 <= i < done ==>
               Handled(s, start, start.todo[i].0, start.todo[i].1, Remembered(events, start.todo[i].0))
    requires Handled(s, start, start.todo[done].0, start.todo[done].1, true)
    ensures InPass(s, p, start, events, done + 1)
  {
  }

  lemma IdleStep(cfg: Config, evs: seq<Event>, p: nat, start: Sweep, events: seq<Event>, done: nat)
    requires InPass(Run(cfg, INIT, evs), p, start, events, done) && AllBorn(Run(cfg, INIT, evs), AuxOf(cfg, evs), start)
    requires done == |start.todo|
    ensures InPass(Run(cfg, INIT, evs + [SweepStep(p)]), p, start, events + [SweepStep(p)], done)
  {
    AllHandledStay(cfg, evs, SweepStep(p), start, events, done);
    assert (evs + [SweepStep(p)])[..|evs|] == evs;
  }

  lemma {:induction false} PassRuns(cfg: Config, evs: seq<Event>, p: nat, start: Sweep, more: seq<Event>) returns (done: nat)
    requires InPass(Run(cfg, INIT, evs), p, start, [], 0) && AllBorn(Run(cfg, INIT, evs), AuxOf(cfg, evs), start)
    requires OnePass(more, p)
    ensures InPass(Run(cfg, INIT, evs + more), p, start, more, done)
    ensures AllBorn(Run(cfg, INIT, evs + more), AuxOf(cfg, evs + more), start)
    decreases |more|
  {
    if more == [] {
      assert evs + more == evs;
      done := 0;
    } else {
      var less, ev := more[..|more| - 1], more[|more| - 1];
      assert evs + more == (evs + less) + [ev] && less + [ev] == more;
      done := PassRuns(cfg, evs, p, start, less);
      AllHandledStay(cfg, evs + less, ev, start, less, done);
      if ev != SweepStep(p) {
        OtherEventKeeps(cfg, evs + less, ev, p, start, less, done);
      } else if done < |start.todo| {
        SweepStepHandlesOne(cfg, evs + less, p, start, less, done);
        done := done + 1;
      } else {
        IdleStep(cfg, evs + less, p, start, less, done);
      }
    }
  }

  // ----- the snapshot -----

  lemma SnapshotBegins(cfg: Config, evs: seq<Event>, p: nat, stuck: seq<JobId>)
    requires IsSnapshot(Run(cfg, INIT, evs).db, Run(cfg, INIT, evs).now + 1, stuck)
    ensures var s, s' := Run(cfg, INIT, evs), Run(cfg, INIT, evs + [SweepBegin(p, stuck)]);
            && s'.db == s.db && p in s'.sweeps && |s'.sweeps[p].todo| == |stuck| && s'.sweeps[p].startedAt == s.now + 1
            && InPass(s', p, s'.sweeps[p], [], 0)
            && (forall i {:trigger stuck[i]} :: 0 <= i < |stuck| ==>
                  stuck[i] in s.db.jobs && s'.sweeps[p].todo[i] == (stuck[i], s.db.jobs[stuck[i]]))
  {
    var s := Run(cfg, INIT, evs);
    RunSnoc(cfg, INIT, evs, SweepBegin(p, stuck));
    BeginApplies(cfg, s, p, stuck, DoSweepBegin(Later(s), p, stuck));
    SnapshotTaken(Later(s), p, stuck, DoSweepBegin(Later(s), p, stuck));
  }

  lemma SnapshotTaken(s: State, p: nat, stuck: seq<JobId>, s': State)
    requires IsSnapshot(s.db, s.now, stuck) && s' == DoSweepBegin(s, p, stuck)
    ensures s'.db == s.db && p in s'.sweeps && |s'.sweeps[p].todo| == |stuck| && s'.sweeps[p].startedAt == s.now
    ensures InPass(s', p, s'.sweeps[p], [], 0)
    ensures forall i {:trigger stuck[i]} :: 0 <= i < |stuck| ==>
              stuck[i] in s.db.jobs && s'.sweeps[p].todo[i] == (stuck[i], s.db.jobs[stuck[i]])
  {
  }

  lemma SnapshotIsBorn(cfg: Config, evs: seq<Event>, p: nat, stuck: seq<JobId>)
    requires IsSnapshot(Run(cfg, INIT, evs).db, Run(cfg, INIT, evs).now + 1, stuck)
    ensures var evs' := evs + [SweepBegin(p, stuck)];
            && p in Run(cfg, INIT, evs').sweeps
            && AllBorn(Run(cfg, INIT, evs'), AuxOf(cfg, evs'), Run(cfg, INIT, evs').sweeps[p])
  {
    SnapshotBegins(cfg, evs, p, stuck);
    var evs' := evs + [SweepBegin(p, stuck)];
    var start := Run(cfg, INIT, evs').sweeps[p];
    forall i | 0 <= i < |start.todo|
      ensures Born(Run(cfg, INIT, evs'), AuxOf(cfg, evs'), start.todo[i].0)
    {
      assert start.todo[i].0 == stuck[i];
      PresentIsBorn(cfg, evs', stuck[i]);
    }
  }

  // ----- main result -----

  /** The anchor the sweeper measures the age of a job from. */
  function Since(job: Job): Time {
    if job.startedAt.Some? then job.startedAt.value else job.createdAt
  }

  /**
   * A pass over the snapshot `stuck`, taken after `evs` and finished after `more`, in any run at
   * all. Every job that had been running for over 3 hours or queued for over 12 hours is terminal
   * (or deleted with its document); every other job queued for over 20 minutes is in ARQ's queue,
   * or ARQ held a result of it during the pass, unless ARQ lost the task meanwhile; and each job of
   * the snapshot was counted exactly once.
   */
  lemma SweepLosesNothing(cfg: Config, evs: seq<Event>, p: nat, stuck: seq<JobId>, more: seq<Event>, j: JobId)
    requires IsSnapshot(Run(cfg, INIT, evs).db, Run(cfg, INIT, evs).now + 1, stuck) && OnePass(more, p)
    requires var s := Run(cfg, INIT, evs + [SweepBegin(p, stuck)] + more); p in s.sweeps && s.sweeps[p].todo == []
    requires j in Run(cfg, INIT, evs).db.jobs
    ensures var job, now := Run(cfg, INIT, evs).db.jobs[j], Run(cfg, INIT, evs).now + 1;
            var s := Run(cfg, INIT, evs + [SweepBegin(p, stuck)] + more);
            && s.sweeps[p].requeued + s.sweeps[p].failed + s.sweeps[p].skipped == |stuck|
            && (((job.status == Running && Since(job) + STUCK_RUNNING_AFTER < now)
                 || (job.status == Queued && job.createdAt + GIVE_UP_AFTER < now))
                ==> (j in s.db.jobs ==> Terminal(s.db.jobs[j])))
            && ((job.status == Queued && job.createdAt + STUCK_QUEUE_AFTER < now <= job.createdAt + GIVE_UP_AFTER
                 && Remembered(more, j)) ==> Held(s, j, now))
  {
    var evs' := evs + [SweepBegin(p, stuck)];
    var s := Run(cfg, INIT, evs);
    SnapshotBegins(cfg, evs, p, stuck);
    SnapshotIsBorn(cfg, evs, p, stuck);
    var start := Run(cfg, INIT, evs').sweeps[p];
    var done := PassRuns(cfg, evs', p, start, more);
    RunSane(cfg, evs);
    assert Stamped(s.db, s.now, j);
    if IsStuck(s.db.jobs[j], s.now + 1) {
      var i :| 0 <= i < |stuck| && stuck[i] == j;
      assert start.todo[i] == (j, s.db.jobs[j]);
    }
  }

  // ----- what the pass cannot do -----

  /** A queued job is back in the queue exactly when ARQ held its task or no result that is still fresh. */
  lemma RequeueReachesQueueIff(s: State, p: nat, id: JobId, job: Job, sweep: Sweep)
    requires job.status == Queued && !SweepFails(sweep, job)
    ensures id in SweepItem(s, p, id, job, sweep).queue <==> id in s.queue || id !in s.results || s.results[id] <= s.now
    ensures SweepItem(s, p, id, job, sweep).sweeps[p].requeued == sweep.requeued + if ArqKnows(s, id) then 0 else 1
  {
  }

  /** The state after an upload whose delivery came before its commit; the result goes at `expiry`. */
  ghost predicate Stranded(s: State, doc: Document, expiry: Time) {
    && s.db.docs == map[0 := doc] && s.db.jobs.Keys == {1}
    && s.db.jobs[1].document == 0 && s.db.jobs[1].stage == Extract && s.db.jobs[1].status == Queued
    && s.db.jobs[1].startedAt.None?
    && s.queue == {} && s.results == map[1 := expiry]
  }

  lemma TwoEvents(cfg: Config, e1: Event, e2: Event)
    ensures Run(cfg, INIT, [e1, e2]) == Apply(cfg, Apply(cfg, INIT, e1), e2)
  {
    assert [e1, e2] == [] + [e1] + [e2];
    RunSnoc(cfg, INIT, [], e1);
    RunSnoc(cfg, INIT, [] + [e1], e2);
  }

  lemma DeliveredTooEarly(cfg: Config, user: UserId, c: Content, ext: Extension, row: Document)
    requires row == Document(user, cfg.hash(c), ext, Pending, None, None, 0, None, None)
    ensures var s := Run(cfg, INIT, [Http(UploadNew(user, c, ext)), Work(0, Deliver(1, 1))]);
            && s.db == Db(map[], map[], map[], 2) && s.uploads == map[0 := Upload(row, 1, 1)] && s.now == 2
            && s.queue == {1} && s.results == map[] && s.sweeps == map[]
  {
    var e1, e2 := Http(UploadNew(user, c, ext)), Work(0, Deliver(1, 1));
    TwoEvents(cfg, e1, e2);
    var s1 := FirstUpload(cfg, user, c, ext, row);
    DeliveredNowhere(cfg, s1);
  }

  lemma FirstUpload(cfg: Config, user: UserId, c: Content, ext: Extension, row: Document) returns (s': State)
    requires row == Document(user, cfg.hash(c), ext, Pending, None, None, 0, None, None)
    ensures s' == Apply(cfg, INIT, Http(UploadNew(user, c, ext)))
    ensures s'.db == Db(map[], map[], map[], 2) && s'.uploads == map[0 := Upload(row, 1, 1)] && s'.now == 1
    ensures s'.queue == {1} && s'.results == map[] && s'.sweeps == map[] && s'.tasks == map[1 := Extract] && s'.workers == map[]
  {
    s' := DoUploadNew(cfg, INIT.(now := 1), user, c, ext);
  }

  lemma DeliveredNowhere(cfg: Config, s: State)
    requires s.db.jobs == map[] && 1 in s.tasks && s.workers == map[]
    ensures Apply(cfg, s, Work(0, Deliver(1, 1))) == Goto(Later(s), 0, Idle)
  {
    assert StartTx(s.db, 1, s.tasks[1], s.now + 1) == s.db;
  }

  /** Enqueued at time 1, delivered at 2, ended at 3, committed at 4. */
  const ENDED: Time := 3

  lemma DeliveryBeforeCommit(cfg: Config, user: UserId, c: Content, ext: Extension) returns (evs: seq<Event>)
    ensures Stranded(Run(cfg, INIT, evs), Document(user, cfg.hash(c), ext, Pending, None, None, 0, None, None), ENDED + cfg.keepResult)
    ensures Run(cfg, INIT, evs).db.jobs[1].createdAt == 1 && Run(cfg, INIT, evs).now == 4
    ensures Run(cfg, INIT, evs).sweeps == map[]
  {
    var row := Document(user, cfg.hash(c), ext, Pending, None, None, 0, None, None);
    var early := [Http(UploadNew(user, c, ext)), Work(0, Deliver(1, 1))];
    DeliveredTooEarly(cfg, user, c, ext, row);
    RunSnoc(cfg, INIT, early, Arq(Finish(1)));
    RunSnoc(cfg, INIT, early + [Arq(Finish(1))], Http(UploadCommit(0)));
    evs := early + [Arq(Finish(1))] + [Http(UploadCommit(0))];
    var s := Run(cfg, INIT, early);
    var s1 := OnArq(cfg, Later(s), Finish(1));
    CommittedLate(cfg, s, row, s1, DoUploadCommit(Later(s1), 0));
  }

  lemma CommittedLate(cfg: Config, s: State, row: Document, s1: State, s2: State)
    requires s.db == Db(map[], map[], map[], 2) && s.uploads == map[0 := Upload(row, 1, 1)] && s.now == 2
    requires s.queue == {1} && s.results == map[] && s.sweeps == map[]
    requires s1 == OnArq(cfg, Later(s), Finish(1)) && s2 == DoUploadCommit(Later(s1), 0)
    ensures Stranded(s2, row, ENDED + cfg.keepResult)
    ensures s2.db.jobs[1].createdAt == 1 && s2.now == 4 && s2.sweeps == map[]
  {
  }

  /** What one pass does with the stranded job is decided by the age of the result. */
  lemma SweepOfStranded(cfg: Config, s: State, doc: Document, expiry: Time, p: nat) returns (s': State)
    requires Stranded(s, doc, expiry)
    requires s.db.jobs[1].createdAt + STUCK_QUEUE_AFTER < s.now + 1 <= s.db.jobs[1].createdAt + GIVE_UP_AFTER
    ensures s' == Apply(cfg, Apply(cfg, s, SweepBegin(p, [1])), SweepStep(p)) && s'.db == s.db && s'.now == s.now + 2
    ensures p in s'.sweeps && s'.sweeps == s.sweeps[p := s'.sweeps[p]] && s'.sweeps[p].todo == []
    ensures if s'.now < expiry then Skips(s', p) && Stranded(s', doc, expiry) else Requeues(s', p)
  {
    var s1 := DoSweepBegin(Later(s), p, [1]);
    BeginApplies(cfg, s, p, [1], s1);
    SnapshotOfStranded(s, doc, expiry, p, s1);
    s' := StepAfterBegin(s, s1, doc, expiry, p);
    StepApplies(cfg, s1, p, s');
  }

  lemma StepAfterBegin(s: State, s1: State, doc: Document, expiry: Time, p: nat) returns (s': State)
    requires Stranded(s, doc, expiry) && s.now + 1 <= s.db.jobs[1].createdAt + GIVE_UP_AFTER
    requires s1.db == s.db && s1.now == s.now + 1 && s1.queue == s.queue && s1.results == s.results
    requires p in s1.sweeps && s1.sweeps == s.sweeps[p := Sweep(s.now + 1, [(1, s.db.jobs[1])], 0, 0, 0)]
    ensures s' == DoSweepStep(Later(s1), p) && s'.db == s.db && s'.now == s.now + 2
    ensures p in s'.sweeps && s'.sweeps == s.sweeps[p := s'.sweeps[p]] && s'.sweeps[p].todo == []
    ensures if s'.now < expiry then Skips(s', p) && Stranded(s', doc, expiry) else Requeues(s', p)
  {
    s' := StepOfStranded(Later(s1), doc, expiry, p, s.now + 1);
  }

  lemma BeginApplies(cfg: Config, s: State, p: nat, stuck: seq<JobId>, s': State)
    requires s' == DoSweepBegin(Later(s), p, stuck)
    ensures s' == Apply(cfg, s, SweepBegin(p, stuck))
  {
  }

  lemma StepApplies(cfg: Config, s: State, p: nat, s': State)
    requires s' == DoSweepStep(Later(s), p)
    ensures s' == Apply(cfg, s, SweepStep(p))
  {
  }

  lemma StepOfStranded(s: State, doc: Document, expiry: Time, p: nat, startedAt: Time) returns (s': State)
    requires Stranded(s, doc, expiry) && startedAt <= s.db.jobs[1].createdAt + GIVE_UP_AFTER
    requires p in s.sweeps && s.sweeps[p] == Sweep(startedAt, [(1, s.db.jobs[1])], 0, 0, 0)
    ensures s' == DoSweepStep(s, p) && s'.db == s.db && s'.now == s.now
    ensures p in s'.sweeps && s'.sweeps == s.sweeps[p := s'.sweeps[p]] && s'.sweeps[p].todo == []
    ensures if s'.now < expiry then Skips(s', p) && Stranded(s', doc, expiry) else Requeues(s', p)
  {
    var job, sweep := s.db.jobs[1], Sweep(startedAt, [], 0, 0, 0);
    assert s.sweeps[p].todo[1..] == [];
    s' := SweepItem(s, p, 1, job, sweep);
    RequeueReachesQueueIff(s, p, 1, job, sweep);
    ItemOfStranded(s, doc, expiry, p, sweep, s');
  }

  lemma ItemOfStranded(s: State, doc: Document, expiry: Time, p: nat, sweep: Sweep, s': State)
    requires Stranded(s, doc, expiry) && sweep.startedAt <= s.db.jobs[1].createdAt + GIVE_UP_AFTER
    requires s' == SweepItem(s, p, 1, s.db.jobs[1], sweep) && sweep == Sweep(sweep.startedAt, [], 0, 0, 0)
    requires 1 in s'.queue <==> expiry <= s.now
    ensures s'.db == s.db && s'.now == s.now
    ensures p in s'.sweeps && s'.sweeps == s.sweeps[p := s'.sweeps[p]] && s'.sweeps[p].todo == []
    ensures if s'.now < expiry then Skips(s', p) && Stranded(s', doc, expiry) else Requeues(s', p)
  {
    if s.now < expiry {
      SkippedItem(s, p, s.db.jobs[1], sweep, s');
    } else {
      RequeuedItem(s, p, s.db.jobs[1], sweep, s');
    }
  }

  lemma SkippedItem(s: State, p: nat, job: Job, sweep: Sweep, s': State)
    requires job.status == Queued && !TooOld(job, sweep.startedAt) && ArqKnows(s, 1) && s' == SweepItem(s, p, 1, job, sweep)
    ensures s' == s.(sweeps := s.sweeps[p := sweep.(skipped := sweep.skipped + 1)])
  {
  }

  lemma RequeuedItem(s: State, p: nat, job: Job, sweep: Sweep, s': State)
    requires job.status == Queued && !TooOld(job, sweep.startedAt) && !ArqKnows(s, 1) && s' == SweepItem(s, p, 1, job, sweep)
    ensures s'.db == s.db && s'.now == s.now && s'.queue == s.queue + {1}
    ensures s'.sweeps == s.sweeps[p := sweep.(requeued := sweep.requeued + 1)]
  {
  }

  /** The pass found one stuck job and left it where it was: in no queue. */
  predicate Skips(s: State, p: nat) {
    p in s.sweeps && s.sweeps[p].todo == [] && s.sweeps[p].skipped == 1 && s.sweeps[p].requeued == 0 && s.queue == {}
  }

  predicate Requeues(s: State, p: nat) {
    p in s.sweeps && s.sweeps[p].todo == [] && s.sweeps[p].skipped == 0 && s.sweeps[p].requeued == 1 && s.queue == {1}
  }

  lemma SnapshotOfStranded(s: State, doc: Document, expiry: Time, p: nat, s1: State)
    requires Stranded(s, doc, expiry) && s.db.jobs[1].createdAt + STUCK_QUEUE_AFTER < s.now + 1
    requires s1 == DoSweepBegin(Later(s), p, [1])
    ensures s1.db == s.db && s1.now == s.now + 1 && s1.queue == s.queue && s1.results == s.results && s1.tasks == s.tasks
    ensures p in s1.sweeps && s1.sweeps == s.sweeps[p := Sweep(s.now + 1, [(1, s.db.jobs[1])], 0, 0, 0)]
  {
    assert IsSnapshot(s.db, s.now + 1, [1]);
    assert s1.sweeps[p].todo == [(1, s.db.jobs[1])];
  }

  /** The clock, then one pass. */
  function WaitAndSweep(wait: nat, p: nat): seq<Event> {
    [Tick(wait)] + [SweepBegin(p, [1])] + [SweepStep(p)]
  }

  lemma WaitAndSweepRuns(cfg: Config, evs: seq<Event>, s: State, doc: Document, expiry: Time, wait: nat, p: nat) returns (s': State)
    requires s == Run(cfg, INIT, evs) && Stranded(s, doc, expiry)
    requires s.db.jobs[1].createdAt + STUCK_QUEUE_AFTER < s.now + wait + 2 <= s.db.jobs[1].createdAt + GIVE_UP_AFTER
    ensures s' == Run(cfg, INIT, evs + WaitAndSweep(wait, p)) && s'.db == s.db && s'.now == s.now + wait + 3
    ensures p in s'.sweeps && s'.sweeps == s.sweeps[p := s'.sweeps[p]]
    ensures if s'.now < expiry then Skips(s', p) && Stranded(s', doc, expiry) else Requeues(s', p)
  {
    var late := evs + [Tick(wait)];
    RunSnoc(cfg, INIT, evs, Tick(wait));
    RunSnoc(cfg, INIT, late, SweepBegin(p, [1]));
    RunSnoc(cfg, INIT, late + [SweepBegin(p, [1])], SweepStep(p));
    s' := SweepOfStranded(cfg, Run(cfg, INIT, late), doc, expiry, p);
    assert evs + WaitAndSweep(wait, p) == late + [SweepBegin(p, [1])] + [SweepStep(p)];
  }

  /**
   * "Still in ARQ" can mean that only a result is left. The upload enqueues before it commits; if
   * the delivery comes first it finds no job and ends, and its result refuses the sweeper's enqueue:
   * the job is counted as skipped although no queue holds it. This is so exactly while the result
   * is younger than its lifetime; a pass after that requeues the job.
   */
  lemma StrandedIsSkippedIff(cfg: Config, user: UserId, c: Content, ext: Extension, wait: nat) returns (evs: seq<Event>)
    requires STUCK_QUEUE_AFTER <= wait < GIVE_UP_AFTER - SECOND
    ensures var s := Run(cfg, INIT, evs);
            && 1 in s.db.jobs && s.db.jobs[1].status == Queued && s.db.jobs[1].createdAt + STUCK_QUEUE_AFTER < s.now
    ensures var s := Run(cfg, INIT, evs);
            && (Skips(s, 0) <==> s.now - ENDED < cfg.keepResult)
            && (Requeues(s, 0) <==> s.now - ENDED >= cfg.keepResult)
    ensures Run(cfg, INIT, evs).now == wait + 7
  {
    var doc := Document(user, cfg.hash(c), ext, Pending, None, None, 0, None, None);
    var early := DeliveryBeforeCommit(cfg, user, c, ext);
    var s' := WaitAndSweepRuns(cfg, early, Run(cfg, INIT, early), doc, ENDED + cfg.keepResult, wait, 0);
    evs := early + WaitAndSweep(wait, 0);
  }

  /** Delayed, not lost: what one pass skipped, the first pass after the result has expired requeues. */
  lemma SkippedIsRequeuedLater(cfg: Config, user: UserId, c: Content, ext: Extension, first: nat, second: nat)
    returns (before: seq<Event>, after: seq<Event>)
    requires STUCK_QUEUE_AFTER <= first && first + second < GIVE_UP_AFTER - SECOND
    requires first + 7 - ENDED < cfg.keepResult <= first + second + 10 - ENDED
    ensures Skips(Run(cfg, INIT, before), 0)
    ensures Requeues(Run(cfg, INIT, before + after), 1) && Run(cfg, INIT, before + after).db == Run(cfg, INIT, before).db
  {
    var doc, expiry := Document(user, cfg.hash(c), ext, Pending, None, None, 0, None, None), ENDED + cfg.keepResult;
    var early := DeliveryBeforeCommit(cfg, user, c, ext);
    var s1 := WaitAndSweepRuns(cfg, early, Run(cfg, INIT, early), doc, expiry, first, 0);
    before, after := early + WaitAndSweep(first, 0), WaitAndSweep(second, 1);
    var s2 := WaitAndSweepRuns(cfg, before, s1, doc, expiry, second, 1);
  }
}
