// The document-state endpoint and its agreement with the pipeline: one chain of jobs per
// document, the reported stage is the stage of the only active job, and progress never drops.
module ReadModel {
  import opened Types
  import opened Database
  import opened Pipeline
  import opened Chains
  import opened Naming
  import opened Control
  import opened JobHistory
  import opened Moves

  const STAGES: seq<Stage> := [Extract, Clean, Chunk, Embed, Index]

  datatype StageState = StageState(
    stage: Stage, status: JobStatus, startedAt: Option<Time>, finishedAt: Option<Time>, durationMs: Option<int>)

  datatype DocumentState = DocumentState(
    status: DocStatus, progress: real, stages: seq<StageState>, currentStage: Option<Stage>)

  // ----- the query and the projection -----

  /** Whole milliseconds of a microsecond difference, truncated toward zero. */
  function Millis(us: int): int {
    if us >= 0 then us / 1000 else -((-us) / 1000)
  }

  /** First row of a stage in a listing ordered newest first. */
  function NewestOf(rows: seq<Job>, stage: Stage): Option<Job> {
    if rows == [] then None
    else if rows[0].stage == stage then Some(rows[0])
    else NewestOf(rows[1..], stage)
  }

  /** The order of the query: by creation time, descending. */
  predicate NewestFirst(rows: seq<Job>) {
    forall i, j :: 0 <= i < j < |rows| ==> rows[i].createdAt >= rows[j].createdAt
  }

  lemma {:induction false} NewestIsLatest(rows: seq<Job>, stage: Stage)
    requires NewestFirst(rows)
    ensures var newest := NewestOf(rows, stage);
            forall i :: 0 <= i < |rows| && rows[i].stage == stage ==>
              newest.Some? && newest.value in rows && newest.value.stage == stage && rows[i].createdAt <= newest.value.createdAt
  {
    if rows != [] && rows[0].stage != stage {
      NewestIsLatest(rows[1..], stage);
      assert forall i :: 0 < i < |rows| ==> rows[i] == rows[1..][i - 1];
    }
  }

  method LatestByStage(rows: seq<Job>) returns (latest: map<Stage, Job>)
    ensures forall stage :: (stage in latest <==> NewestOf(rows, stage).Some?)
                            && (stage in latest ==> NewestOf(rows, stage) == Some(latest[stage]))
    ensures NewestFirst(rows) ==>
              forall i :: 0 <= i < |rows| ==>
                && rows[i].stage in latest && latest[rows[i].stage] in rows && latest[rows[i].stage].stage == rows[i].stage
                && rows[i].createdAt <= latest[rows[i].stage].createdAt
  {
    latest := map[];
    for i := 0 to |rows|
      invariant forall stage {:trigger stage in latest} ::
                  NewestOf(rows, stage) == if stage in latest then Some(latest[stage]) else NewestOf(rows[i..], stage)
    {
      if rows[i].stage !in latest {
        latest := latest[rows[i].stage := rows[i]];
      }
    }
    if NewestFirst(rows) {
      forall i | 0 <= i < |rows|
        ensures rows[i].stage in latest && latest[rows[i].stage] in rows && latest[rows[i].stage].stage == rows[i].stage
                && rows[i].createdAt <= latest[rows[i].stage].createdAt
      {
        NewestIsLatest(rows, rows[i].stage);
      }
    }
  }

  function StateOfStage(rows: seq<Job>, stage: Stage): StageState {
    match NewestOf(rows, stage)
    case None => StageState(stage, Queued, None, None, None)
    case Some(job) =>
      StageState(job.stage, job.status, job.startedAt, job.finishedAt,
                 if job.startedAt.Some? && job.finishedAt.Some?
                 then Some(Millis(job.finishedAt.value - job.startedAt.value)) else None)
  }

  function DoneIn(rows: seq<Job>, stage: Stage): nat {
    if NewestOf(rows, stage).Some? && NewestOf(rows, stage).value.status == Done then 1 else 0
  }

  function DoneCount(rows: seq<Job>): nat {
    DoneIn(rows, Extract) + DoneIn(rows, Clean) + DoneIn(rows, Chunk) + DoneIn(rows, Embed) + DoneIn(rows, Index)
  }

  /** First stage whose state is running, else the first that is not done. */
  function CurrentStage(status: DocStatus, stages: seq<StageState>): Option<Stage> {
    if status == DocFailed then None
    else if FirstWith(stages, Running, true).Some? then FirstWith(stages, Running, true)
    else FirstWith(stages, Done, false)
  }

  function FirstWith(stages: seq<StageState>, status: JobStatus, equal: bool): Option<Stage> {
    if stages == [] then None
    else if (stages[0].status == status) == equal then Some(stages[0].stage)
    else FirstWith(stages[1..], status, equal)
  }

  function StateOf(status: DocStatus, rows: seq<Job>): DocumentState {
    var stages := [StateOfStage(rows, Extract), StateOfStage(rows, Clean), StateOfStage(rows, Chunk),
                   StateOfStage(rows, Embed), StateOfStage(rows, Index)];
    DocumentState(status, DoneCount(rows) as real / STAGE_COUNT as real, stages, CurrentStage(status, stages))
  }

  function DoneUpTo(rows: seq<Job>, n: nat): nat
    requires n <= |STAGES|
  {
    if n == 0 then 0 else DoneUpTo(rows, n - 1) + DoneIn(rows, STAGES[n - 1])
  }

  method GetDocumentState(status: DocStatus, rows: seq<Job>) returns (state: DocumentState)
    ensures state == StateOf(status, rows)
  {
    var latest := LatestByStage(rows);
    var stages: seq<StageState> := [];
    var doneCount := 0;
    for i := 0 to |STAGES|
      invariant |stages| == i && doneCount == DoneUpTo(rows, i)
      invariant forall k :: 0 <= k < i ==> stages[k] == StateOfStage(rows, STAGES[k])
    {
      var stage := STAGES[i];
      if stage !in latest {
        stages := stages + [StageState(stage, Queued, None, None, None)];
      } else {
        var job := latest[stage];
        var durationMs := None;
        if job.startedAt.Some? && job.finishedAt.Some? {
          durationMs := Some(Millis(job.finishedAt.value - job.startedAt.value));
        }
        if job.status == Done {
          doneCount := doneCount + 1;
        }
        stages := stages + [StageState(job.stage, job.status, job.startedAt, job.finishedAt, durationMs)];
      }
    }
    AllDone(rows);
    state := DocumentState(status, doneCount as real / |STAGES| as real, stages, CurrentStage(status, stages));
    assert stages == StateOf(status, rows).stages;
  }

  lemma AllDone(rows: seq<Job>)
    ensures DoneUpTo(rows, |STAGES|) == DoneCount(rows)
  {
    assert DoneUpTo(rows, 1) == DoneIn(rows, Extract);
    assert DoneUpTo(rows, 2) == DoneUpTo(rows, 1) + DoneIn(rows, Clean);
    assert DoneUpTo(rows, 3) == DoneUpTo(rows, 2) + DoneIn(rows, Chunk);
    assert DoneUpTo(rows, 4) == DoneUpTo(rows, 3) + DoneIn(rows, Embed);
  }

  // ----- agreement with the pipeline -----

  /** `ids` lists the jobs of one document, each once, in any order. */
  ghost predicate Lists(db: Db, d: DocId, ids: seq<JobId>) {
    && (forall i {:trigger ids[i]} :: 0 <= i < |ids| ==> ids[i] in db.jobs && db.jobs[ids[i]].document == d)
    && (forall j {:trigger j in ids} :: j in db.jobs && db.jobs[j].document == d ==> j in ids)
  }

  function RowsOf(db: Db, ids: seq<JobId>): (rows: seq<Job>)
    requires forall i {:trigger ids[i]} :: 0 <= i < |ids| ==> ids[i] in db.jobs
    ensures |rows| == |ids| && forall i :: 0 <= i < |ids| ==> rows[i] == db.jobs[ids[i]]
  {
    seq(|ids|, i requires 0 <= i < |ids| && ids[i] in db.jobs => db.jobs[ids[i]])
  }

  lemma {:induction false} NewestIs(rows: seq<Job>, stage: Stage, job: Option<Job>)
    requires forall i :: 0 <= i < |rows| && rows[i].stage == stage ==> job == Some(rows[i])
    requires job.Some? ==> exists i :: 0 <= i < |rows| && rows[i].stage == stage
    ensures NewestOf(rows, stage) == job
  {
    if rows != [] && rows[0].stage != stage {
      assert forall i :: 0 <= i < |rows[1..]| ==> rows[1..][i] == rows[i + 1];
      if job.Some? {
        var i :| 0 <= i < |rows| && rows[i].stage == stage;
        assert rows[1..][i - 1].stage == stage;
      }
      NewestIs(rows[1..], stage, job);
    }
  }

  function LinkAt(db: Db, c: seq<JobId>, i: nat): Option<Job> {
    if i < |c| && c[i] in db.jobs then Some(db.jobs[c[i]]) else None
  }

  /** The newest job of each stage is the link of the chain at that stage. */
  lemma NewestIsLink(db: Db, ch: ChainMap, d: DocId, ids: seq<JobId>, stage: Stage)
    requires Chained(db, ch) && d in ch && Lists(db, d, ids)
    ensures NewestOf(RowsOf(db, ids), stage) == LinkAt(db, ch[d], StageIndex(stage))
  {
    var c, k, rows := ch[d], StageIndex(stage), RowsOf(db, ids);
    assert OwnsChain(db, ch, d);
    if k < |c| {
      assert Link(db, d, k, c[k]);
      assert c[k] in ids;
      var i :| 0 <= i < |ids| && ids[i] == c[k];
      assert rows[i].stage == stage;
    }
    forall i | 0 <= i < |rows| && rows[i].stage == stage
      ensures LinkAt(db, c, k) == Some(rows[i])
    {
      assert InChain(db, ch, ids[i]);
    }
    NewestIs(rows, stage, LinkAt(db, c, k));
  }

  function DoneOf(db: Db, c: seq<JobId>): nat
    requires c != []
  {
    if Last(c) in db.jobs && db.jobs[Last(c)].status == Done then |c| else |c| - 1
  }

  lemma {:induction false} FirstWithIs(stages: seq<StageState>, status: JobStatus, equal: bool, k: nat)
    requires k <= |stages|
    requires forall i :: 0 <= i < k ==> (stages[i].status == status) != equal
    requires k < |stages| ==> (stages[k].status == status) == equal
    ensures FirstWith(stages, status, equal) == if k < |stages| then Some(stages[k].stage) else None
  {
    if k > 0 { FirstWithIs(stages[1..], status, equal, k - 1); }
  }

  lemma LinksOfChain(db: Db, ch: ChainMap, d: DocId, ids: seq<JobId>, stage: Stage)
    requires Chained(db, ch) && d in ch && Lists(db, d, ids)
    ensures IsChain(db, d, ch[d])
    ensures var c, k, rows := ch[d], StageIndex(stage), RowsOf(db, ids);
            && NewestOf(rows, stage) == LinkAt(db, c, k)
            && (k < |c| ==> LinkAt(db, c, k).Some? && LinkAt(db, c, k).value.stage == stage)
            && (k < |c| - 1 ==> LinkAt(db, c, k).value.status == Done)
            && LinkAt(db, c, |c| - 1) == Some(db.jobs[Last(c)])
  {
    var c, k := ch[d], StageIndex(stage);
    assert OwnsChain(db, ch, d);
    NewestIsLink(db, ch, d, ids, stage);
    if k < |c| {
      assert Link(db, d, k, c[k]);
      StageIndexInjective(db.jobs[c[k]].stage, stage);
    }
    if k < |c| - 1 { assert DoneAt(db, c[k]); }
    assert Link(db, d, |c| - 1, Last(c));
  }

  lemma StageIndexInjective(a: Stage, b: Stage)
    requires StageIndex(a) == StageIndex(b)
    ensures a == b
  {
  }

  /** The projection of a chain: links before the last are done, stages after it never ran. */
  lemma StagesOfChain(db: Db, ch: ChainMap, d: DocId, ids: seq<JobId>)
    requires Chained(db, ch) && d in ch && Lists(db, d, ids)
    ensures IsChain(db, d, ch[d]) && OwnsChain(db, ch, d)
    ensures DoneCount(RowsOf(db, ids)) == DoneOf(db, ch[d])
    ensures var c, stages := ch[d], StateOf(db.docs[d].status, RowsOf(db, ids)).stages;
            && |stages| == STAGE_COUNT
            && (forall i :: 0 <= i < |stages| ==> StageIndex(stages[i].stage) == i)
            && (forall i :: 0 <= i < |c| - 1 ==> stages[i].status == Done)
            && stages[|c| - 1].status == db.jobs[Last(c)].status
            && (forall i :: |c| <= i < |stages| ==> stages[i].status == Queued)
  {
    LinksOfChain(db, ch, d, ids, Extract);
    LinksOfChain(db, ch, d, ids, Clean);
    LinksOfChain(db, ch, d, ids, Chunk);
    LinksOfChain(db, ch, d, ids, Embed);
    LinksOfChain(db, ch, d, ids, Index);
    assert OwnsChain(db, ch, d);
  }

  lemma StateOfChain(db: Db, ch: ChainMap, d: DocId, ids: seq<JobId>)
    requires Chained(db, ch) && d in ch && Lists(db, d, ids)
    ensures IsChain(db, d, ch[d]) && OwnsChain(db, ch, d)
    ensures DoneCount(RowsOf(db, ids)) == DoneOf(db, ch[d])
    ensures StateOf(db.docs[d].status, RowsOf(db, ids)).currentStage ==
            if Active(db.jobs[Last(ch[d])]) then Some(db.jobs[Last(ch[d])].stage) else None
  {
    StagesOfChain(db, ch, d, ids);
    var c := ch[d];
    assert Link(db, d, |c| - 1, Last(c));
    var last := db.jobs[Last(c)];
    var stages := StateOf(db.docs[d].status, RowsOf(db, ids)).stages;
    StageIndexInjective(stages[|c| - 1].stage, last.stage);
    match last.status
    case Running => FirstWithIs(stages, Running, true, |c| - 1);
    case Queued =>
      FirstWithIs(stages, Running, true, |stages|);
      FirstWithIs(stages, Done, false, |c| - 1);
    case Done =>
      FirstWithIs(stages, Running, true, |stages|);
      FirstWithIs(stages, Done, false, |stages|);
    case JobFailed =>
  }

  ghost predicate ActiveFor(db: Db, d: DocId, j: JobId) {
    j in db.jobs && db.jobs[j].document == d && Active(db.jobs[j])
  }

  // ----- main results -----

  /**
   * In every run without reprocess: the jobs of a document are one chain in stage order from
   * EXTRACT, one job per stage, all done except possibly the last, whose status fixes the status
   * of the document.
   */
  lemma JobsFormOneChain(cfg: Config, evs: seq<Event>, d: DocId)
    requires NoReprocess(evs) && d in Run(cfg, INIT, evs).db.docs
    ensures var db := Run(cfg, INIT, evs).db;
            exists c :: IsChain(db, d, c)
              && (forall j :: j in db.jobs && db.jobs[j].document == d ==> j in c)
              && db.docs[d].status == StatusFor(db.jobs[Last(c)])
              && (db.jobs[Last(c)].status == Done ==> |c| == STAGE_COUNT)
  {
    RunControlled(cfg, evs);
    var db, ch := Run(cfg, INIT, evs).db, AuxOf(cfg, evs).chains;
    assert OwnsChain(db, ch, d);
    forall j | j in db.jobs && db.jobs[j].document == d
      ensures j in ch[d]
    {
      assert InChain(db, ch, j);
    }
  }

  /** At most one job of a document is active, and there is one exactly while it is in motion. */
  lemma OneActiveJob(cfg: Config, evs: seq<Event>, d: DocId)
    requires NoReprocess(evs) && d in Run(cfg, INIT, evs).db.docs
    ensures var db := Run(cfg, INIT, evs).db;
            && (forall i, j :: ActiveFor(db, d, i) && ActiveFor(db, d, j) ==> i == j)
            && ((exists j :: ActiveFor(db, d, j)) <==> db.docs[d].status in {Pending, Processing})
            && (exists j :: j in db.jobs && db.jobs[j].document == d)
  {
    RunControlled(cfg, evs);
    var db, ch := Run(cfg, INIT, evs).db, AuxOf(cfg, evs).chains;
    assert OwnsChain(db, ch, d);
    assert Link(db, d, |ch[d]| - 1, Last(ch[d]));
    forall j | ActiveFor(db, d, j)
      ensures j == Last(ch[d])
    {
      ActiveIsLast(db, ch, j);
    }
    assert Active(db.jobs[Last(ch[d])]) ==> ActiveFor(db, d, Last(ch[d]));
  }

  /** A delivery is never refused as an invalid transition and never finds a job without its document. */
  lemma StartsAreNeverInvalid(cfg: Config, evs: seq<Event>, j: JobId)
    requires NoReprocess(evs) && j in Run(cfg, INIT, evs).tasks
    ensures var s := Run(cfg, INIT, evs);
            var outcome := StartOutcomeOf(s.db, j, s.tasks[j]);
            !outcome.StartInvalid? && !outcome.StartDocMissing?
  {
    RunControlled(cfg, evs);
    var s, aux := Run(cfg, INIT, evs), AuxOf(cfg, evs);
    assert Queued1(s, aux, j);
    if j in s.db.jobs {
      assert JobNamed(s.db, aux, j);
      if Active(s.db.jobs[j]) { ActiveIsLast(s.db, aux.chains, j); }
    }
  }

  /** What the endpoint reports, in every state reachable without reprocess. */
  lemma ReportedStateAgrees(cfg: Config, evs: seq<Event>, d: DocId, ids: seq<JobId>)
    requires NoReprocess(evs) && d in Run(cfg, INIT, evs).db.docs
    requires Lists(Run(cfg, INIT, evs).db, d, ids)
    ensures var db := Run(cfg, INIT, evs).db;
            var state := StateOf(db.docs[d].status, RowsOf(db, ids));
            && (state.currentStage.None? <==> db.docs[d].status in {Indexed, DocFailed})
            && (forall j :: ActiveFor(db, d, j) ==> state.currentStage == Some(db.jobs[j].stage))
            && (state.progress == 1.0 <==> db.docs[d].status == Indexed)
  {
    RunControlled(cfg, evs);
    var db, ch := Run(cfg, INIT, evs).db, AuxOf(cfg, evs).chains;
    StateOfChain(db, ch, d, ids);
    assert Link(db, d, |ch[d]| - 1, Last(ch[d]));
    forall j | ActiveFor(db, d, j)
      ensures j == Last(ch[d])
    {
      ActiveIsLast(db, ch, j);
    }
  }

  // ----- what is reported of each stage -----

  /** `ms` whole milliseconds make up `us` microseconds, but for less than one, and never more than it. */
  predicate WholeMillis(us: int, ms: int) {
    if us >= 0 then 0 <= 1000 * ms <= us < 1000 * ms + 1000 else 1000 * ms - 1000 < us <= 1000 * ms <= 0
  }

  /** The state of a stage says what the row of its job says. */
  predicate Reports(state: StageState, job: Job) {
    && state.stage == job.stage && state.status == job.status
    && state.startedAt == job.startedAt && state.finishedAt == job.finishedAt
    && (state.durationMs.Some? <==> job.startedAt.Some? && job.finishedAt.Some?)
    && (state.durationMs.Some? ==> WholeMillis(job.finishedAt.value - job.startedAt.value, state.durationMs.value))
  }

  lemma ReportsNewest(rows: seq<Job>, stage: Stage)
    ensures NewestOf(rows, stage).Some? ==> Reports(StateOfStage(rows, stage), NewestOf(rows, stage).value)
    ensures NewestOf(rows, stage).None? ==> StateOfStage(rows, stage) == StageState(stage, Queued, None, None, None)
  {
  }

  lemma StageAt(status: DocStatus, rows: seq<Job>, stage: Stage)
    ensures |StateOf(status, rows).stages| == 5 && StateOf(status, rows).stages[StageIndex(stage)] == StateOfStage(rows, stage)
  {
    match stage
    case Extract =>
    case Clean =>
    case Chunk =>
    case Embed =>
    case Index =>
  }

  function DoneJobs(db: Db, d: DocId): set<JobId> {
    set j | j in db.jobs && db.jobs[j].document == d && db.jobs[j].status == Done
  }

  lemma {:induction false} SizeOfList(xs: seq<JobId>, s: set<JobId>)
    requires (forall i, j :: 0 <= i < j < |xs| ==> xs[i] != xs[j]) && forall x :: x in s <==> x in xs
    ensures |s| == |xs|
    decreases |xs|
  {
    if xs == [] {
      assert s == {};
    } else {
      var n := |xs| - 1;
      assert xs == xs[..n] + [xs[n]];
      SizeOfList(xs[..n], s - {xs[n]});
    }
  }

  /** The done jobs of a document are those of its chain, without the last one unless that is done too. */
  lemma DoneJobsOfChain(db: Db, ch: ChainMap, d: DocId)
    requires Chained(db, ch) && d in ch
    ensures IsChain(db, d, ch[d]) && |DoneJobs(db, d)| == DoneOf(db, ch[d])
  {
    assert OwnsChain(db, ch, d);
    var c := ch[d];
    var n := DoneOf(db, c);
    forall i | 0 <= i < |c|
      ensures Link(db, d, i, c[i]) && (c[i] in DoneJobs(db, d) <==> i < n)
    {
      assert Link(db, d, i, c[i]);
      if i < |c| - 1 { assert DoneAt(db, c[i]); }
    }
    forall j | j in DoneJobs(db, d)
      ensures j in c[..n]
    {
      assert InChain(db, ch, j);
    }
    SizeOfList(c[..n], DoneJobs(db, d));
  }

  /**
   * In every state reachable without reprocess the endpoint reports the document's own status, for
   * each stage the status, times and duration of its one job, or queued if it has none yet, and the
   * share of the five stages whose job is done.
   */
  lemma StagesReportTheirJobs(cfg: Config, evs: seq<Event>, d: DocId, ids: seq<JobId>, stage: Stage)
    requires NoReprocess(evs) && d in Run(cfg, INIT, evs).db.docs
    requires Lists(Run(cfg, INIT, evs).db, d, ids)
    ensures var db := Run(cfg, INIT, evs).db;
            var state := StateOf(db.docs[d].status, RowsOf(db, ids));
            && state.status == db.docs[d].status && state.progress * 5.0 == |DoneJobs(db, d)| as real
            && |state.stages| == 5
            && (forall j :: j in db.jobs && db.jobs[j].document == d && db.jobs[j].stage == stage ==>
                  Reports(state.stages[StageIndex(stage)], db.jobs[j]))
            && ((forall j :: j in db.jobs && db.jobs[j].document == d ==> db.jobs[j].stage != stage) ==>
                  state.stages[StageIndex(stage)] == StageState(stage, Queued, None, None, None))
  {
    RunControlled(cfg, evs);
    var db, ch := Run(cfg, INIT, evs).db, AuxOf(cfg, evs).chains;
    StagesOfChain(db, ch, d, ids);
    LinksOfChain(db, ch, d, ids, stage);
    DoneJobsOfChain(db, ch, d);
    ReportsNewest(RowsOf(db, ids), stage);
    StageAt(db.docs[d].status, RowsOf(db, ids), stage);
    StageOfChain(db, ch, d, stage);
  }

  lemma StageOfChain(db: Db, ch: ChainMap, d: DocId, stage: Stage)
    requires Chained(db, ch) && d in ch
    ensures var link := LinkAt(db, ch[d], StageIndex(stage));
            && (forall j :: j in db.jobs && db.jobs[j].document == d && db.jobs[j].stage == stage ==> link == Some(db.jobs[j]))
            && (link.Some? ==> exists j :: j in db.jobs && db.jobs[j].document == d && db.jobs[j].stage == stage)
  {
    var c, k := ch[d], StageIndex(stage);
    assert OwnsChain(db, ch, d);
    forall j | j in db.jobs && db.jobs[j].document == d && db.jobs[j].stage == stage
      ensures LinkAt(db, c, k) == Some(db.jobs[j])
    {
      assert InChain(db, ch, j);
    }
    if k < |c| {
      assert Link(db, d, k, c[k]);
      StageIndexInjective(db.jobs[c[k]].stage, stage);
    }
  }

  // ----- progress over a run -----

  ghost predicate DocBorn(s: State, aux: Aux, d: DocId) {
    d in aux.docs && d !in s.uploads
  }

  lemma RequestDocRows(cfg: Config, s: State, request: Request, d: DocId)
    requires d !in s.uploads
    ensures d in OnRequest(cfg, s, request).db.docs ==> d in s.db.docs
  {
    if request.ReprocessReset? {
      ResetSameRows(s.db, request.doc);
    }
  }

  lemma RequestUploads(cfg: Config, s: State, request: Request, d: DocId)
    requires d !in s.uploads && d < s.db.nextId
    ensures d !in OnRequest(cfg, s, request).uploads
  {
  }

  lemma RequestDocs(cfg: Config, s: State, aux: Aux, request: Request, d: DocId)
    requires Bounded(s.db, aux) && DocBorn(s, aux, d)
    ensures d in OnRequest(cfg, s, request).db.docs ==> d in s.db.docs
    ensures DocBorn(OnRequest(cfg, s, request), AuxOnRequest(cfg, s, aux, request), d)
  {
    assert d < s.db.nextId;
    RequestDocRows(cfg, s, request, d);
    RequestUploads(cfg, s, request, d);
    AuxGrows(cfg, s, aux, Http(request));
  }

  lemma CompleteDocRows(db: Db, id: JobId, result: StageResult, next: Option<Stage>, now: Time)
    ensures CompleteStage(db, id, result, next, now).docs.Keys == db.docs.Keys
  {
  }

  lemma WorkDocRows(cfg: Config, s: State, w: WorkerId, action: Action)
    ensures OnWork(cfg, s, w, action).db.docs.Keys == s.db.docs.Keys
  {
    var pc := PcOf(s, w);
    match action
    case Commit => if pc.Committing? { EffectSameRows(s.db, pc.task.doc, pc.effect); }
    case Deliver(job, attempt) => DeliverSameRows(s, w, job, attempt);
    case Settle => SettleSameRows(s, w);
    case Complete => if pc.Completing? { CompleteDocRows(s.db, pc.task.job, pc.result, NextStage(pc.task.stage), s.now); }
    case _ => assert OnWork(cfg, s, w, action).db == s.db;
  }

  lemma WorkDocs(cfg: Config, s: State, aux: Aux, w: WorkerId, action: Action, d: DocId)
    requires Bounded(s.db, aux) && DocBorn(s, aux, d)
    ensures d in OnWork(cfg, s, w, action).db.docs ==> d in s.db.docs
    ensures DocBorn(OnWork(cfg, s, w, action), AuxOnWork(s, aux, w, action), d)
  {
    WorkDocRows(cfg, s, w, action);
    WorkAux(s, aux, w, action);
    WorkUploads(cfg, s, w, action, OnWork(cfg, s, w, action));
  }

  lemma WorkAux(s: State, aux: Aux, w: WorkerId, action: Action)
    ensures AuxOnWork(s, aux, w, action).docs == aux.docs
  {
  }


  /** A deleted document never comes back under its identifier. */
  lemma DispatchDocs(cfg: Config, s: State, aux: Aux, ev: Event, d: DocId)
    requires Bounded(s.db, aux) && DocBorn(s, aux, d)
    ensures d in Dispatch(cfg, s, ev).db.docs ==> d in s.db.docs
    ensures DocBorn(Dispatch(cfg, s, ev), NextAux(cfg, s, aux, ev), d)
  {
    match ev
    case Http(request) => RequestDocs(cfg, s, aux, request, d);
    case Work(w, action) => WorkDocs(cfg, s, aux, w, action, d);
    case SweepStep(p) => SweepSameRows(s, p);
    case _ =>
  }

  predicate Grown(c: seq<JobId>, c': seq<JobId>) {
    c' == c || (|c'| == |c| + 1 && c'[..|c|] == c)
  }

  lemma ChainsGrow(cfg: Config, s: State, aux: Aux, ev: Event, d: DocId)
    requires Named(s, aux) && d in s.db.docs && d in aux.chains && d in NextAux(cfg, s, aux, ev).chains
    ensures Grown(aux.chains[d], NextAux(cfg, s, aux, ev).chains[d])
  {
    if ev.Http? && ev.request.UploadCommit? && ev.request.doc in s.uploads { assert UploadNamed(s, aux, ev.request.doc); }
  }

  lemma OwnsChainAfter(cfg: Config, evs: seq<Event>, d: DocId)
    requires NoReprocess(evs) && d in Run(cfg, INIT, evs).db.docs
    ensures Controlled(Run(cfg, INIT, evs), AuxOf(cfg, evs))
    ensures d in AuxOf(cfg, evs).chains && AuxOf(cfg, evs).chains[d] != []
    ensures Last(AuxOf(cfg, evs).chains[d]) in Run(cfg, INIT, evs).db.jobs
  {
    RunControlled(cfg, evs);
    var db, c := Run(cfg, INIT, evs).db, AuxOf(cfg, evs).chains[d];
    assert OwnsChain(db, AuxOf(cfg, evs).chains, d);
    assert Link(db, d, |c| - 1, Last(c));
  }

  lemma LaterChainsGrow(cfg: Config, s: State, aux: Aux, ev: Event, aux': Aux, d: DocId)
    requires Named(s, aux) && d in s.db.docs && aux' == NextAux(cfg, Later(s), aux, ev)
    requires d in aux.chains && d in aux'.chains
    ensures Grown(aux.chains[d], aux'.chains[d])
  {
    LaterSaneNamed(s, aux);
    ChainsGrow(cfg, Later(s), aux, ev, d);
  }

  lemma LastProgress(cfg: Config, evs: seq<Event>, ev: Event, d: DocId)
    requires NoReprocess(evs + [ev]) && d in Run(cfg, INIT, evs).db.docs && d in Run(cfg, INIT, evs + [ev]).db.docs
    ensures d in AuxOf(cfg, evs).chains && AuxOf(cfg, evs).chains[d] != []
    ensures d in AuxOf(cfg, evs + [ev]).chains && AuxOf(cfg, evs + [ev]).chains[d] != []
    ensures DoneOf(Run(cfg, INIT, evs).db, AuxOf(cfg, evs).chains[d])
            <= DoneOf(Run(cfg, INIT, evs + [ev]).db, AuxOf(cfg, evs + [ev]).chains[d])
  {
    NoReprocessPrefix(evs, ev);
    OwnsChainAfter(cfg, evs, d);
    OwnsChainAfter(cfg, evs + [ev], d);
    AuxSnoc(cfg, evs, ev, Run(cfg, INIT, evs));
    LaterChainsGrow(cfg, Run(cfg, INIT, evs), AuxOf(cfg, evs), ev, AuxOf(cfg, evs + [ev]), d);
    DoneGrows(cfg, evs, ev, d, Last(AuxOf(cfg, evs).chains[d]));
  }

  lemma LaterSaneNamed(s: State, aux: Aux)
    requires Named(s, aux)
    ensures Named(Later(s), aux)
  {
    OutsideNamed(s, Later(s), aux);
  }

  lemma DoneGrows(cfg: Config, evs: seq<Event>, ev: Event, d: DocId, j: JobId)
    requires var db', ch' := Run(cfg, INIT, evs + [ev]).db, AuxOf(cfg, evs + [ev]).chains;
             Chained(db', ch') && d in ch'
    requires d in AuxOf(cfg, evs).chains && AuxOf(cfg, evs).chains[d] != [] && j == Last(AuxOf(cfg, evs).chains[d])
    requires j in Run(cfg, INIT, evs).db.jobs
    requires Grown(AuxOf(cfg, evs).chains[d], AuxOf(cfg, evs + [ev]).chains[d])
    ensures DoneOf(Run(cfg, INIT, evs).db, AuxOf(cfg, evs).chains[d])
            <= DoneOf(Run(cfg, INIT, evs + [ev]).db, AuxOf(cfg, evs + [ev]).chains[d])
  {
    var db', c' := Run(cfg, INIT, evs + [ev]).db, AuxOf(cfg, evs + [ev]).chains[d];
    assert OwnsChain(db', AuxOf(cfg, evs + [ev]).chains, d);
    assert Link(db', d, |c'| - 1, Last(c'));
    PresentIsBorn(cfg, evs, j);
    LastKeeps(cfg, evs, ev, j);
  }

  lemma PresentDocIsBorn(cfg: Config, evs: seq<Event>, d: DocId)
    requires d in Run(cfg, INIT, evs).db.docs
    ensures DocBorn(Run(cfg, INIT, evs), AuxOf(cfg, evs), d)
  {
    RunNamed(cfg, evs);
    var s, aux := Run(cfg, INIT, evs), AuxOf(cfg, evs);
    assert DocNamed(s.db, aux, d) && !UploadNamed(s, aux, d);
  }

  lemma StepDocs(cfg: Config, s: State, aux: Aux, ev: Event, d: DocId, s': State, aux': Aux)
    requires Bounded(s.db, aux) && DocBorn(s, aux, d)
    requires s' == Dispatch(cfg, s, ev) && aux' == NextAux(cfg, s, aux, ev)
    ensures DocBorn(s', aux', d) && (d in s'.db.docs ==> d in s.db.docs)
  {
    DispatchDocs(cfg, s, aux, ev, d);
  }

  lemma LastDocs(cfg: Config, evs: seq<Event>, ev: Event, d: DocId)
    requires DocBorn(Run(cfg, INIT, evs), AuxOf(cfg, evs), d)
    ensures DocBorn(Run(cfg, INIT, evs + [ev]), AuxOf(cfg, evs + [ev]), d)
    ensures d in Run(cfg, INIT, evs + [ev]).db.docs ==> d in Run(cfg, INIT, evs).db.docs
  {
    var s := Run(cfg, INIT, evs);
    RunNamed(cfg, evs);
    RunSnoc(cfg, INIT, evs, ev);
    AuxSnoc(cfg, evs, ev, s);
    StepDocs(cfg, Later(s), AuxOf(cfg, evs), ev, d, Run(cfg, INIT, evs + [ev]), AuxOf(cfg, evs + [ev]));
  }

  lemma {:induction false} DoneOverRun(cfg: Config, evs: seq<Event>, more: seq<Event>, d: DocId)
    requires NoReprocess(evs + more) && d in Run(cfg, INIT, evs).db.docs
    ensures DocBorn(Run(cfg, INIT, evs + more), AuxOf(cfg, evs + more), d)
    ensures d in Run(cfg, INIT, evs + more).db.docs ==>
              var ch, ch' := AuxOf(cfg, evs).chains, AuxOf(cfg, evs + more).chains;
              d in ch && ch[d] != [] && d in ch' && ch'[d] != []
              && DoneOf(Run(cfg, INIT, evs).db, ch[d]) <= DoneOf(Run(cfg, INIT, evs + more).db, ch'[d])
    decreases |more|
  {
    if more == [] {
      assert evs + more == evs;
      PresentDocIsBorn(cfg, evs, d);
      RunControlled(cfg, evs);
      assert OwnsChain(Run(cfg, INIT, evs).db, AuxOf(cfg, evs).chains, d);
    } else {
      var less, ev := more[..|more| - 1], more[|more| - 1];
      assert evs + more == (evs + less) + [ev];
      NoReprocessPrefix(evs + less, ev);
      DoneOverRun(cfg, evs, less, d);
      LastDocs(cfg, evs + less, ev, d);
      if d in Run(cfg, INIT, evs + more).db.docs { LastProgress(cfg, evs + less, ev, d); }
    }
  }

  lemma NoReprocessPrefix(evs: seq<Event>, ev: Event)
    requires NoReprocess(evs + [ev])
    ensures NoReprocess(evs)
  {
    forall i | 0 <= i < |evs|
      ensures !IsReprocess(evs[i])
    {
      assert (evs + [ev])[i] == evs[i];
    }
  }

  /** The progress a client polls never goes down while the document exists. */
  lemma ProgressNeverDrops(cfg: Config, evs: seq<Event>, more: seq<Event>, d: DocId, ids: seq<JobId>, ids': seq<JobId>)
    requires NoReprocess(evs) && NoReprocess(evs + more)
    requires var db, db' := Run(cfg, INIT, evs).db, Run(cfg, INIT, evs + more).db;
             d in db.docs && d in db'.docs && Lists(db, d, ids) && Lists(db', d, ids')
    ensures var db, db' := Run(cfg, INIT, evs).db, Run(cfg, INIT, evs + more).db;
            StateOf(db.docs[d].status, RowsOf(db, ids)).progress <= StateOf(db'.docs[d].status, RowsOf(db', ids')).progress
  {
    RunControlled(cfg, evs);
    RunControlled(cfg, evs + more);
    DoneOverRun(cfg, evs, more, d);
    StateOfChain(Run(cfg, INIT, evs).db, AuxOf(cfg, evs).chains, d, ids);
    StateOfChain(Run(cfg, INIT, evs + more).db, AuxOf(cfg, evs + more).chains, d, ids');
  }
}
