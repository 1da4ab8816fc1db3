// The stored chunk count and the stored rows. Both are written by deliveries of one index job, but
// in two sessions, and not necessarily by the same delivery.
module ChunkCounts {
  import opened Types
  import opened Database
  import opened Pipeline
  import opened Naming
  import opened Control
  import opened Deliveries
  import opened HappyPath
  import opened Suffixes
  import opened Termination

  /** If the document is indexed, its chunk count is the number of its rows. */
  ghost predicate CountsAt(cfg: Config, evs: seq<Event>, d: DocId) {
    var db := Run(cfg, INIT, evs).db;
    d in db.docs && db.docs[d].status == Indexed ==> db.docs[d].chunkCount == |ChunkRows(db, d)|
  }

  // ----- other workers -----

  predicate NotOf(v: WorkerId, evs: seq<Event>) {
    forall i :: 0 <= i < |evs| ==> !(evs[i].Work? && evs[i].worker == v)
  }

  lemma {:induction false} OthersPc(cfg: Config, s: State, evs: seq<Event>, v: WorkerId)
    requires NotOf(v, evs)
    ensures PcOf(Run(cfg, s, evs), v) == PcOf(s, v)
    decreases |evs|
  {
    if evs != [] {
      var less, ev := evs[..|evs| - 1], evs[|evs| - 1];
      OthersPc(cfg, s, less, v);
      OthersStay(cfg, Later(Run(cfg, s, less)), ev, v);
    }
  }

  // ----- the stages of one document up to a given one -----

  /** Only the row of the document changes, and neither its owner, its bytes nor its suffix. */
  ghost predicate Kept(s: State, d: DocId, s': State) {
    && s'.sources == s.sources && s'.uploads == s.uploads
    && d in s.db.docs && d in s'.db.docs && s'.db.docs == s.db.docs[d := s'.db.docs[d]]
    && s'.db.docs[d].user == s.db.docs[d].user && s'.db.docs[d].contentHash == s.db.docs[d].contentHash
    && s'.db.docs[d].ext == s.db.docs[d].ext
  }

  lemma KeptTwice(s: State, d: DocId, s1: State, s': State)
    requires Kept(s, d, s1) && Kept(s1, d, s')
    ensures Kept(s, d, s')
  {
  }

  lemma StageKeeps(cfg: Config, s: State, w: WorkerId, task: Task, c: Content, e: Extension, s': State)
    requires StageDone(cfg, s, w, task, c, e, false, s')
    ensures Kept(s, task.doc, s')
  {
  }

  /** Undisturbed and without a cache, the job of any later stage becomes ready. */
  lemma {:induction false} StagesReach(cfg: Config, s: State, w: WorkerId, d: DocId, j: JobId, c: Content, e: Extension, target: Stage)
    returns (evs: seq<Event>, s': State, n: JobId)
    requires Ready(s, w, d, j) && Usable(cfg, c, e) && Provided(cfg, s, d, c, e, s.db.jobs[j].stage, false)
    requires StageIndex(s.db.jobs[j].stage) <= StageIndex(target)
    ensures OnlyWork(w, evs) && s' == Run(cfg, s, evs) && Kept(s, d, s')
    ensures Ready(s', w, d, n) && s'.db.jobs[n].stage == target && Provided(cfg, s', d, c, e, target, false)
    decreases StageIndex(target) - StageIndex(s.db.jobs[j].stage)
  {
    var stage := s.db.jobs[j].stage;
    if stage == target {
      evs, s', n := [], s, j;
    } else {
      var first, s1, n1 := NextStageRuns(cfg, s, w, d, j, c, e, false);
      StageKeeps(cfg, s, w, Task(j, d, stage, 1), c, e, s1);
      var more;
      more, s', n := StagesReach(cfg, s1, w, d, n1, c, e, target);
      RunThen(cfg, s, first, s1, more, s');
      OnlyWorkBoth(w, first, more);
      KeptTwice(s, d, s1, s');
      evs := first + more;
    }
  }

  // ----- a delivery of the index job up to its commit -----

  function UpToCommit(w: WorkerId, j: JobId): seq<Event> {
    [Work(w, Deliver(j, 1))] + [Work(w, Compute(false))] + [Work(w, Store)] + [Work(w, Commit)]
  }

  /** It takes the embedded chunks that are there, whatever else is cached. */
  lemma IndexWorks(cfg: Config, s: State, w: WorkerId, d: DocId, j: JobId, c: Content, e: Extension) returns (s': State)
    requires Ready(s, w, d, j) && s.db.jobs[j].stage == Index && Usable(cfg, c, e)
    requires s.db.docs[d].contentHash == cfg.hash(c)
    requires Key(cfg.hash(c), Embed) in s.artifacts && s.artifacts[Key(cfg.hash(c), Embed)] == Expected(cfg, c, e, Embed)
    ensures s' == Run(cfg, s, UpToCommit(w, j)) && WorkDone(cfg, s, w, Task(j, d, Index, 1), c, e, false, s')
  {
    var task := Task(j, d, Index, 1);
    var s1 := DeliveredForIndex(cfg, s, w, d, j);
    var s2 := ComputesRows(cfg, s1, w, task, c, e);
    s' := StoreAndCommit(cfg, s2, w, task, c, e, false, Committing(task, Replace(PipelineRows(cfg, c, e)), ResultOf(cfg, c, e, Index)));
    WorkDoneSinceDelivery(cfg, s, s2, w, task, c, e, false, s');
    FourRuns(cfg, s, w, j, s1, s2, s');
  }

  lemma DeliveredForIndex(cfg: Config, s: State, w: WorkerId, d: DocId, j: JobId) returns (s1: State)
    requires Ready(s, w, d, j) && s.db.jobs[j].stage == Index
    ensures s1 == DoDeliver(Later(s), w, j, 1) && Live(s1, w, Task(j, d, Index, 1), InStage(Task(j, d, Index, 1)))
    ensures SameStore(s, s1) && s1.db.chunks == s.db.chunks && s1.db.nextId == s.db.nextId
    ensures d in s1.db.docs && SameButStatus(s.db.docs[d], s1.db.docs[d]) && s1.db.docs == s.db.docs[d := s1.db.docs[d]]
  {
    LaterReady(s, w, d, j);
    DeliverStep(Later(s), w, d, j, 1);
    DeliverContent(Later(s), w, d, j, 1);
    s1 := DoDeliver(Later(s), w, j, 1);
  }

  lemma ComputesRows(cfg: Config, s: State, w: WorkerId, task: Task, c: Content, e: Extension) returns (s': State)
    requires Live(s, w, task, InStage(task)) && task.stage == Index && Usable(cfg, c, e)
    requires s.db.docs[task.doc].contentHash == cfg.hash(c)
    requires Key(cfg.hash(c), Embed) in s.artifacts && s.artifacts[Key(cfg.hash(c), Embed)] == Expected(cfg, c, e, Embed)
    ensures s' == DoCompute(cfg, Later(s), w, false) && SameStore(s, s') && s'.db == s.db
    ensures Live(s', w, task, Committing(task, Replace(PipelineRows(cfg, c, e)), ResultOf(cfg, c, e, Index)))
  {
    LaterLive(s, w, task, InStage(task));
    ComputeStepPlain(cfg, Later(s), w, task, false);
    s' := DoCompute(cfg, Later(s), w, false);
  }

  lemma FourRuns(cfg: Config, s: State, w: WorkerId, j: JobId, s1: State, s2: State, s': State)
    requires s1 == DoDeliver(Later(s), w, j, 1) && s2 == DoCompute(cfg, Later(s1), w, false)
    requires s' == DoCommit(cfg, Later(DoStore(Later(s2), w)), w)
    ensures s' == Run(cfg, s, UpToCommit(w, j))
  {
    var s3 := DoStore(Later(s2), w);
    var a, b := [Work(w, Deliver(j, 1))], [Work(w, Compute(false))];
    WorkIs(cfg, s, w, Deliver(j, 1));
    WorkIs(cfg, s1, w, Compute(false));
    WorkIs(cfg, s2, w, Store);
    WorkIs(cfg, s3, w, Commit);
    RunThen(cfg, s, a, s1, b, s2);
    RunThen(cfg, s, a + b, s2, [Work(w, Store)], s3);
    RunThen(cfg, s, a + b + [Work(w, Store)], s3, [Work(w, Commit)], s');
  }

  // ----- a worker that has embedded and not yet stored -----

  /** Worker 1 is about to write the embedded chunks of `c` under suffix `e`; the rest is quiet. */
  ghost predicate Holding(cfg: Config, s: State, c: Content, e: Extension) {
    && Quiet(s, 0) && PcOf(s, 2) == Idle
    && PcOf(s, 1).Storing? && PcOf(s, 1).key == Key(cfg.hash(c), Embed) && PcOf(s, 1).artifact == Expected(cfg, c, e, Embed)
  }

  lemma EmbedWaits(cfg: Config, s: State, w: WorkerId, d: DocId, j: JobId, c: Content, e: Extension) returns (evs: seq<Event>, s': State)
    requires Ready(s, w, d, j) && s.db.jobs[j].stage == Embed && Usable(cfg, c, e) && Provided(cfg, s, d, c, e, Embed, false)
    ensures OnlyWork(w, evs) && s' == Run(cfg, s, evs) && Kept(s, d, s')
    ensures PcOf(s', w).Storing? && PcOf(s', w).key == Key(cfg.hash(c), Embed) && PcOf(s', w).artifact == Expected(cfg, c, e, Embed)
  {
    LaterReady(s, w, d, j);
    DeliverStep(Later(s), w, d, j, 1);
    DeliverContent(Later(s), w, d, j, 1);
    var s1 := DoDeliver(Later(s), w, j, 1);
    s' := Embeds(cfg, s1, w, Task(j, d, Embed, 1), c, e);
    evs := TwoSteps(cfg, s, w, j, s1, s');
  }

  lemma TwoSteps(cfg: Config, s: State, w: WorkerId, j: JobId, s1: State, s': State) returns (evs: seq<Event>)
    requires s1 == DoDeliver(Later(s), w, j, 1) && s' == DoCompute(cfg, Later(s1), w, false)
    ensures OnlyWork(w, evs) && s' == Run(cfg, s, evs)
  {
    WorkIs(cfg, s, w, Deliver(j, 1));
    WorkIs(cfg, s1, w, Compute(false));
    RunThen(cfg, s, [Work(w, Deliver(j, 1))], s1, [Work(w, Compute(false))], s');
    evs := [Work(w, Deliver(j, 1))] + [Work(w, Compute(false))];
  }

  lemma Embeds(cfg: Config, s: State, w: WorkerId, task: Task, c: Content, e: Extension) returns (s': State)
    requires Live(s, w, task, InStage(task)) && task.stage == Embed && Usable(cfg, c, e) && Supplied(cfg, s, task.doc, c, e, Embed, false)
    ensures s' == DoCompute(cfg, Later(s), w, false) && SameStore(s, s') && s'.db == s.db
    ensures PcOf(s', w) == Storing(task, Key(cfg.hash(c), Embed), Expected(cfg, c, e, Embed), NoEffect, StageResult(None, None))
  {
    LaterLive(s, w, task, InStage(task));
    ComputeStepPlain(cfg, Later(s), w, task, false);
    ComputesExpected(cfg, Later(s), task, c, e, false);
    s' := DoCompute(cfg, Later(s), w, false);
  }

  // ----- two uploads of the same bytes -----

  /** After an upload and the stages before `target`: what is known of the state and of the events. */
  ghost predicate Reached(cfg: Config, s: State, w: WorkerId, user: UserId, c: Content, e: Extension, s': State) {
    var d := s.db.nextId;
    && s'.sources == s.sources[SourceKey(user, cfg.hash(c), e) := c] && s'.uploads == map[]
    && d in s'.db.docs && s'.db.docs == s.db.docs[d := s'.db.docs[d]] && s'.db.docs[d].user == user
    && s'.db.docs[d].contentHash == cfg.hash(c)
  }

  /** Events of one upload and of one worker only. */
  ghost predicate UploadAndWork(w: WorkerId, c: Content, e: Extension, evs: seq<Event>) {
    && NoReprocess(evs) && UploadsFrom(evs, {(c, e)})
    && forall v {:trigger NotOf(v, evs)} :: v != w ==> NotOf(v, evs)
  }

  lemma MoreWork(w: WorkerId, c: Content, e: Extension, evs: seq<Event>, more: seq<Event>)
    requires UploadAndWork(w, c, e, evs) && OnlyWork(w, more)
    ensures UploadAndWork(w, c, e, evs + more)
  {
    forall v | v != w
      ensures NotOf(v, evs + more)
    {
      assert NotOf(v, evs);
    }
  }

  lemma UploadIsPlain(w: WorkerId, user: UserId, c: Content, e: Extension, d: DocId)
    ensures UploadAndWork(w, c, e, UploadEvents(user, c, e, d))
  {
  }

  lemma UploadThenKept(cfg: Config, s: State, w: WorkerId, user: UserId, c: Content, e: Extension, s1: State, s': State)
    requires s1.db.docs == s.db.docs[s.db.nextId := NewRow(cfg, user, c, e)] && s1.uploads == map[]
    requires s1.sources == s.sources[SourceKey(user, cfg.hash(c), e) := c] && Kept(s1, s.db.nextId, s')
    ensures Reached(cfg, s, w, user, c, e, s')
  {
  }

  lemma UploadReaches(cfg: Config, s: State, w: WorkerId, user: UserId, c: Content, e: Extension, target: Stage)
    returns (evs: seq<Event>, s': State, n: JobId)
    requires Quiet(s, w) && Usable(cfg, c, e)
    requires SourceKey(user, cfg.hash(c), e) !in s.sources && !Uploaded(s.db, user, cfg.hash(c))
    ensures s' == Run(cfg, s, evs) && UploadAndWork(w, c, e, evs) && Reached(cfg, s, w, user, c, e, s')
    ensures Ready(s', w, s.db.nextId, n) && s'.db.jobs[n].stage == target && Provided(cfg, s', s.db.nextId, c, e, target, false)
  {
    var d := s.db.nextId;
    var s1 := UploadsAreReady(cfg, s, w, user, c, e);
    NewRowIsProvided(cfg, s1, d, user, c, e, e, false);
    var work;
    work, s', n := StagesReach(cfg, s1, w, d, d + 1, c, e, target);
    RunThen(cfg, s, UploadEvents(user, c, e, d), s1, work, s');
    UploadThenKept(cfg, s, w, user, c, e, s1, s');
    UploadIsPlain(w, user, c, e, d);
    MoreWork(w, c, e, UploadEvents(user, c, e, d), work);
    evs := UploadEvents(user, c, e, d) + work;
  }

  lemma FirstHolds(cfg: Config, c: Content, e: Extension) returns (evs: seq<Event>, s: State)
    requires Usable(cfg, c, e)
    ensures s == Run(cfg, INIT, evs) && Holding(cfg, s, c, e) && UploadAndWork(1, c, e, evs)
    ensures s.sources == map[SourceKey(0, cfg.hash(c), e) := c] && !Uploaded(s.db, 1, cfg.hash(c))
  {
    var first, s1, n := UploadReaches(cfg, INIT, 1, 0, c, e, Embed);
    var wait;
    wait, s := EmbedWaits(cfg, s1, 1, 0, n, c, e);
    RunThen(cfg, INIT, first, s1, wait, s);
    MoreWork(1, c, e, first, wait);
    evs := first + wait;
    OthersIdle(cfg, evs, c, e, s);
  }

  lemma OthersIdle(cfg: Config, evs: seq<Event>, c: Content, e: Extension, s: State)
    requires s == Run(cfg, INIT, evs) && UploadAndWork(1, c, e, evs)
    ensures PcOf(s, 0) == Idle && PcOf(s, 2) == Idle && Unused(s)
  {
    OthersPc(cfg, INIT, evs, 0);
    OthersPc(cfg, INIT, evs, 2);
    RunNamed(cfg, evs);
    ReachableIsUnused(s, AuxOf(cfg, evs));
  }

  /** The artifacts that the extract and clean stages look for are deleted, as with a third owner of the bytes. */
  function Drops(cfg: Config, c: Content): seq<Event> {
    [Http(DropArtifact(Key(cfg.hash(c), Extract)))] + [Http(DropArtifact(Key(cfg.hash(c), Clean)))]
  }

  lemma DropsAreRun(cfg: Config, s: State, c: Content, e: Extension) returns (s': State)
    requires Holding(cfg, s, c, e)
    ensures s' == Run(cfg, s, Drops(cfg, c)) && Holding(cfg, s', c, e) && s'.sources == s.sources && s'.db == s.db
    ensures Key(cfg.hash(c), Extract) !in s'.artifacts && Key(cfg.hash(c), Clean) !in s'.artifacts
    ensures NoReprocess(Drops(cfg, c)) && UploadsFrom(Drops(cfg, c), {})
  {
    var first, second := Http(DropArtifact(Key(cfg.hash(c), Extract))), Http(DropArtifact(Key(cfg.hash(c), Clean)));
    var s1 := OnRequest(cfg, Later(s), first.request);
    s' := OnRequest(cfg, Later(s1), second.request);
    RunOne(cfg, s, first, s1);
    RunOne(cfg, s1, second, s');
    RunThen(cfg, s, [first], s1, [second], s');
  }

  /** The index job of `d` is ready with the embedded chunks of `c` under `e2`; worker 1 still holds those under `e1`. */
  ghost predicate Poised(cfg: Config, s: State, d: DocId, n: JobId, c: Content, e1: Extension, e2: Extension) {
    && Ready(s, 0, d, n) && s.db.jobs[n].stage == Index && s.db.docs[d].contentHash == cfg.hash(c)
    && Key(cfg.hash(c), Embed) in s.artifacts && s.artifacts[Key(cfg.hash(c), Embed)] == Expected(cfg, c, e2, Embed)
    && PcOf(s, 2) == Idle
    && PcOf(s, 1).Storing? && PcOf(s, 1).key == Key(cfg.hash(c), Embed) && PcOf(s, 1).artifact == Expected(cfg, c, e1, Embed)
  }

  lemma SecondReaches(cfg: Config, before: seq<Event>, s: State, c: Content, e1: Extension, e2: Extension)
    returns (evs: seq<Event>, s': State, n: JobId)
    requires s == Run(cfg, INIT, before) && Holding(cfg, s, c, e1) && Usable(cfg, c, e2)
    requires s.sources == map[SourceKey(0, cfg.hash(c), e1) := c] && !Uploaded(s.db, 1, cfg.hash(c))
    ensures s' == Run(cfg, s, evs) && UploadAndWork(0, c, e2, evs)
    ensures Poised(cfg, s', s.db.nextId, n, c, e1, e2)
  {
    evs, s', n := UploadReaches(cfg, s, 0, 1, c, e2, Index);
    OthersPc(cfg, s, evs, 1);
    OthersPc(cfg, s, evs, 2);
    assert StageIndex(Embed) < StageIndex(Index);
  }

  // ----- two deliveries of the index job around the write -----

  /** Worker 0 has committed and is about to complete; the task can be delivered once more. */
  ghost predicate CommittedOnce(cfg: Config, s: State, d: DocId, n: JobId, c: Content, e: Extension) {
    && Live(s, 0, Task(n, d, Index, 1), Completing(Task(n, d, Index, 1), ResultOf(cfg, c, e, Index)))
    && s.db.docs[d].contentHash == cfg.hash(c) && PcOf(s, 2) == Idle
  }

  lemma FirstCommits(cfg: Config, s: State, d: DocId, n: JobId, c: Content, e1: Extension, e2: Extension)
    returns (evs: seq<Event>, s': State)
    requires Poised(cfg, s, d, n, c, e1, e2) && Usable(cfg, c, e2)
    ensures evs == UpToCommit(0, n) && s' == Run(cfg, s, evs) && CommittedOnce(cfg, s', d, n, c, e2) && PcOf(s', 1) == PcOf(s, 1)
  {
    s' := IndexWorks(cfg, s, 0, d, n, c, e2);
    evs := UpToCommit(0, n);
    OthersWait(cfg, s, 0, n, 1, s');
    OthersWait(cfg, s, 0, n, 2, s');
  }

  lemma OthersWait(cfg: Config, s: State, w: WorkerId, n: JobId, v: WorkerId, s': State)
    requires v != w && s' == Run(cfg, s, UpToCommit(w, n))
    ensures PcOf(s', v) == PcOf(s, v)
  {
    OthersPc(cfg, s, UpToCommit(w, n), v);
  }

  lemma OtherArtifact(cfg: Config, s: State, d: DocId, n: JobId, c: Content, e1: Extension, e2: Extension) returns (s': State)
    requires CommittedOnce(cfg, s, d, n, c, e2)
    requires PcOf(s, 1).Storing? && PcOf(s, 1).key == Key(cfg.hash(c), Embed) && PcOf(s, 1).artifact == Expected(cfg, c, e1, Embed)
    ensures s' == Run(cfg, s, [Work(1, Store)]) && CommittedOnce(cfg, s', d, n, c, e2)
    ensures Key(cfg.hash(c), Embed) in s'.artifacts && s'.artifacts[Key(cfg.hash(c), Embed)] == Expected(cfg, c, e1, Embed)
  {
    WorkIs(cfg, s, 1, Store);
    s' := DoStore(Later(s), 1);
  }

  lemma SecondCommits(cfg: Config, s: State, d: DocId, n: JobId, c: Content, e1: Extension, e2: Extension) returns (s': State)
    requires CommittedOnce(cfg, s, d, n, c, e2) && Usable(cfg, c, e1)
    requires Key(cfg.hash(c), Embed) in s.artifacts && s.artifacts[Key(cfg.hash(c), Embed)] == Expected(cfg, c, e1, Embed)
    ensures s' == Run(cfg, s, UpToCommit(2, n))
    ensures Live(s', 0, Task(n, d, Index, 1), Completing(Task(n, d, Index, 1), ResultOf(cfg, c, e2, Index)))
    ensures ChunkRows(s'.db, d) == PipelineRows(cfg, c, e1)
  {
    s' := IndexWorks(cfg, s, 2, d, n, c, e1);
    OthersWait(cfg, s, 2, n, 0, s');
  }

  lemma FirstCompletes(cfg: Config, s: State, d: DocId, n: JobId, c: Content, e2: Extension) returns (s': State)
    requires Live(s, 0, Task(n, d, Index, 1), Completing(Task(n, d, Index, 1), ResultOf(cfg, c, e2, Index)))
    ensures s' == Run(cfg, s, [Work(0, Complete)]) && s'.db.chunks == s.db.chunks
    ensures d in s'.db.docs && s'.db.docs[d].status == Indexed && s'.db.docs[d].chunkCount == |PipelineRows(cfg, c, e2)|
  {
    var task := Task(n, d, Index, 1);
    LaterLive(s, 0, task, Completing(task, ResultOf(cfg, c, e2, Index)));
    CompleteContent(Later(s), 0, task, ResultOf(cfg, c, e2, Index));
    WorkIs(cfg, s, 0, Complete);
    s' := DoComplete(Later(s), 0);
  }

  /** A delivery up to its commit, the write of the other artifact, a second delivery, and the end of the first. */
  function TwoDeliveries(n: JobId): seq<Event> {
    UpToCommit(0, n) + [Work(1, Store)] + UpToCommit(2, n) + [Work(0, Complete)]
  }

  lemma OnlyWorkers(n: JobId)
    ensures NoReprocess(TwoDeliveries(n)) && UploadsFrom(TwoDeliveries(n), {})
  {
  }

  /** The count is that of the first delivery, the rows are those of the second. */
  lemma CountAndRowsApart(cfg: Config, s: State, d: DocId, n: JobId, c: Content, e1: Extension, e2: Extension)
    returns (s': State)
    requires Poised(cfg, s, d, n, c, e1, e2) && Usable(cfg, c, e1) && Usable(cfg, c, e2)
    ensures s' == Run(cfg, s, TwoDeliveries(n))
    ensures d in s'.db.docs && s'.db.docs[d].status == Indexed
    ensures s'.db.docs[d].chunkCount == |PipelineRows(cfg, c, e2)| && ChunkRows(s'.db, d) == PipelineRows(cfg, c, e1)
  {
    var first, s1 := FirstCommits(cfg, s, d, n, c, e1, e2);
    var s2 := OtherArtifact(cfg, s1, d, n, c, e1, e2);
    var s3 := SecondCommits(cfg, s2, d, n, c, e1, e2);
    s' := FirstCompletes(cfg, s3, d, n, c, e2);
    ThenRuns(cfg, s, n, s1, s2, s3, s');
  }

  lemma ThenRuns(cfg: Config, s: State, n: JobId, s1: State, s2: State, s3: State, s': State)
    requires s1 == Run(cfg, s, UpToCommit(0, n)) && s2 == Run(cfg, s1, [Work(1, Store)])
    requires s3 == Run(cfg, s2, UpToCommit(2, n)) && s' == Run(cfg, s3, [Work(0, Complete)])
    ensures s' == Run(cfg, s, TwoDeliveries(n))
  {
    var a, b := UpToCommit(0, n) + [Work(1, Store)], UpToCommit(2, n);
    RunThen(cfg, s, UpToCommit(0, n), s1, [Work(1, Store)], s2);
    RunThen(cfg, s, a, s2, b, s3);
    RunThen(cfg, s, a + b, s3, [Work(0, Complete)], s');
  }

  /**
   * Two users upload the same bytes under two suffixes. An index job is delivered twice while the
   * embedded chunks of the other suffix replace the first: the document is indexed with the rows of
   * one suffix and the chunk count of the other.
   */
  lemma CountOfOtherSuffix(cfg: Config, c: Content, e1: Extension, e2: Extension) returns (evs: seq<Event>, d: DocId)
    requires Usable(cfg, c, e1) && Usable(cfg, c, e2)
    ensures NoReprocess(evs) && UploadsFrom(evs, {(c, e1), (c, e2)})
    ensures var db := Run(cfg, INIT, evs).db;
            && d in db.docs && db.docs[d].status == Indexed
            && db.docs[d].chunkCount == |PipelineRows(cfg, c, e2)| && ChunkRows(db, d) == PipelineRows(cfg, c, e1)
  {
    var a, s1 := FirstHolds(cfg, c, e1);
    var s2 := DropsAreRun(cfg, s1, c, e1);
    var before := a + Drops(cfg, c);
    RunThen(cfg, INIT, a, s1, Drops(cfg, c), s2);
    var b, s3, n := SecondReaches(cfg, before, s2, c, e1, e2);
    d := s2.db.nextId;
    var s4 := CountAndRowsApart(cfg, s3, d, n, c, e1, e2);
    RunThen(cfg, INIT, before, s2, b, s3);
    RunThen(cfg, INIT, before + b, s3, TwoDeliveries(n), s4);
    UploadsTogether(cfg, c, e1, e2, a, b, n);
    evs := before + b + TwoDeliveries(n);
  }

  lemma UploadsTogether(cfg: Config, c: Content, e1: Extension, e2: Extension, a: seq<Event>, b: seq<Event>, n: JobId)
    requires UploadAndWork(1, c, e1, a) && UploadAndWork(0, c, e2, b) && NoReprocess(Drops(cfg, c)) && UploadsFrom(Drops(cfg, c), {})
    ensures var evs := a + Drops(cfg, c) + b + TwoDeliveries(n);
            NoReprocess(evs) && UploadsFrom(evs, {(c, e1), (c, e2)})
  {
    OnlyWorkers(n);
    UploadsFromMore(a, Drops(cfg, c), {(c, e1)}, {});
    UploadsFromMore(a + Drops(cfg, c), b, {(c, e1)} + {}, {(c, e2)});
    UploadsFromMore(a + Drops(cfg, c) + b, TwoDeliveries(n), {(c, e1)} + {} + {(c, e2)}, {});
    assert {(c, e1)} + {} + {(c, e2)} + {} == {(c, e1), (c, e2)};
  }

  lemma CountsIfSizesAgree(cfg: Config, c: Content, e1: Extension, e2: Extension, evs: seq<Event>, d: DocId)
    requires NoReprocess(evs) && UploadsFrom(evs, {(c, e1), (c, e2)})
    requires Usable(cfg, c, e1) && Usable(cfg, c, e2) ==> |PipelineRows(cfg, c, e1)| == |PipelineRows(cfg, c, e2)|
    ensures CountsAt(cfg, evs, d)
  {
    var db := Run(cfg, INIT, evs).db;
    if d in db.docs && db.docs[d].status == Indexed {
      var rowsOf, countOf := GenuineOfTwo(cfg, c, e1, e2, evs, d);
    }
  }

  /**
   * For bytes that are uploaded under two suffixes: the chunk count of every indexed document is the
   * number of its rows, in every run, exactly when the pipeline gives as many rows for one suffix as
   * for the other, or the bytes are usable under at most one.
   */
  lemma CountsInEveryRunIff(cfg: Config, c: Content, e1: Extension, e2: Extension)
    ensures (forall evs, d {:trigger CountsAt(cfg, evs, d)} ::
               NoReprocess(evs) && UploadsFrom(evs, {(c, e1), (c, e2)}) ==> CountsAt(cfg, evs, d))
            <==> (Usable(cfg, c, e1) && Usable(cfg, c, e2) ==> |PipelineRows(cfg, c, e1)| == |PipelineRows(cfg, c, e2)|)
  {
    if Usable(cfg, c, e1) && Usable(cfg, c, e2) && |PipelineRows(cfg, c, e1)| != |PipelineRows(cfg, c, e2)| {
      var evs, d := CountOfOtherSuffix(cfg, c, e1, e2);
      assert !CountsAt(cfg, evs, d);
    } else {
      forall evs, d | NoReprocess(evs) && UploadsFrom(evs, {(c, e1), (c, e2)})
        ensures CountsAt(cfg, evs, d)
      {
        CountsIfSizesAgree(cfg, c, e1, e2, evs, d);
      }
    }
  }
}
