// What a worker's own steps look like when it executes `run_stage`: which action the code takes
// where the worker stands, and when the stage function has failed with an error worth a retry.
module Conduct {
  import opened Types
  import opened Database
  import opened Pipeline

  /**
   * What one delivery meets: whether the cache probe answers yes, what the stage function raises at
   * each point, whether the queue can be reached, and what others do in each pause.
   */
  datatype Env = Env(cached: bool, faults: Point -> Option<Fault>, redisUp: bool, gaps: nat -> seq<Event>)

  predicate ByWorker(ev: Event, w: WorkerId) {
    ev.Work? && ev.worker == w
  }

  predicate Foreign(events: seq<Event>, w: WorkerId) {
    forall i :: 0 <= i < |events| ==> !ByWorker(events[i], w)
  }

  /** What is raised between computing and the commit, by a stage that writes no artifact. */
  function LateFault(env: Env): Option<Fault> {
    if env.faults(BeforeStoring).Some? then env.faults(BeforeStoring) else env.faults(BeforeCommitting)
  }

  /**
   * The action the code takes at this position. Only an enqueue that cannot reach the queue is
   * dropped; nothing else is skipped, and nothing is raised but the given faults.
   */
  predicate Called(env: Env, pc: Pc, action: Action) {
    match action
    case Deliver(_, _) => false
    case Compute(cached) => pc.InStage? && env.faults(BeforeComputing).None? && cached == env.cached
    case Store => pc.Storing? && env.faults(BeforeStoring).None?
    case Commit => pc.Committing? && LateFault(env).None?
    case Raise(error, permanent) =>
      || (pc.InStage? && env.faults(BeforeComputing) == Some(Fault(error, permanent)))
      || (pc.Storing? && env.faults(BeforeStoring) == Some(Fault(error, permanent)))
      || (pc.Committing? && LateFault(env) == Some(Fault(error, permanent)))
    case Settle => pc.Failing? || pc.Retrying?
    case Complete => pc.Completing?
    case Enqueue => pc.Enqueueing? && env.redisUp
    case Crash => pc.Enqueueing? && !env.redisUp
  }

  ghost predicate InGap(env: Env, ev: Event) {
    exists k {:trigger env.gaps(k)} :: ev in env.gaps(k)
  }

  /** The worker's own events are a delivery and then the actions called for; all others come from the pauses. */
  ghost predicate Conducted(cfg: Config, start: State, w: WorkerId, env: Env, trace: seq<Event>)
    decreases |trace|
  {
    trace == [] ||
    var before, ev := trace[..|trace| - 1], trace[|trace| - 1];
    && Conducted(cfg, start, w, env, before)
    && if !ByWorker(ev, w) then InGap(env, ev)
       else if before == [] then ev.action.Deliver?
       else Called(env, PcOf(Run(cfg, start, before), w), ev.action)
  }

  /** The stage function fails with an error that is worth another attempt: raised, or met by its own writes. */
  predicate Transient(db: Db, pc: Pc, action: Action) {
    match action
    case Raise(_, permanent) => !permanent
    case Commit => pc.Committing? && !pc.effect.NoEffect? && pc.task.doc !in db.docs
    case _ => false
  }

  ghost predicate FailedTransiently(cfg: Config, start: State, w: WorkerId, trace: seq<Event>)
    decreases |trace|
  {
    trace != [] &&
    var before, ev := trace[..|trace| - 1], trace[|trace| - 1];
    || FailedTransiently(cfg, start, w, before)
    || (ByWorker(ev, w) && var s := Run(cfg, start, before); Transient(s.db, PcOf(s, w), ev.action))
  }

  // ----- one more event -----

  lemma OwnStep(cfg: Config, start: State, w: WorkerId, env: Env, trace: seq<Event>, s: State, pc: Pc, action: Action)
    requires Conducted(cfg, start, w, env, trace) && trace != []
    requires s == Run(cfg, start, trace) && pc == PcOf(s, w) && Called(env, pc, action)
    ensures Conducted(cfg, start, w, env, trace + [Work(w, action)])
    ensures FailedTransiently(cfg, start, w, trace + [Work(w, action)])
            <==> FailedTransiently(cfg, start, w, trace) || Transient(s.db, pc, action)
  {
    assert (trace + [Work(w, action)])[..|trace|] == trace;
  }

  lemma {:induction false} OthersSteps(cfg: Config, start: State, w: WorkerId, env: Env, trace: seq<Event>, others: seq<Event>)
    requires Conducted(cfg, start, w, env, trace) && Foreign(others, w) && forall i :: 0 <= i < |others| ==> InGap(env, others[i])
    ensures Conducted(cfg, start, w, env, trace + others)
    ensures FailedTransiently(cfg, start, w, trace + others) <==> FailedTransiently(cfg, start, w, trace)
    decreases |others|
  {
    if others == [] {
      assert trace + others == trace;
    } else {
      var n := |others| - 1;
      OthersSteps(cfg, start, w, env, trace, others[..n]);
      assert (trace + others)[..|trace + others| - 1] == trace + others[..n];
    }
  }

  /** What no event of a delivery is: a crash while the queue is up, a second delivery, an uncalled-for error. */
  lemma {:induction false} OwnEvents(cfg: Config, start: State, w: WorkerId, env: Env, trace: seq<Event>, i: nat)
    requires Conducted(cfg, start, w, env, trace) && i < |trace|
    ensures ByWorker(trace[i], w) && i > 0 ==> Called(env, PcOf(Run(cfg, start, trace[..i]), w), trace[i].action)
    ensures !ByWorker(trace[i], w) ==> InGap(env, trace[i])
    decreases |trace|
  {
    var n := |trace| - 1;
    if i < n {
      OwnEvents(cfg, start, w, env, trace[..n], i);
      assert trace[..n][..i] == trace[..i];
    }
  }

  /** In particular: no crash while the queue can be reached, and one only in place of the enqueue while it cannot. */
  lemma NoCrash(cfg: Config, start: State, w: WorkerId, env: Env, trace: seq<Event>, i: nat)
    requires Conducted(cfg, start, w, env, trace) && 0 < i < |trace| && trace[i] == Work(w, Crash)
    ensures !env.redisUp && PcOf(Run(cfg, start, trace[..i]), w).Enqueueing?
  {
    OwnEvents(cfg, start, w, env, trace, i);
  }
}
