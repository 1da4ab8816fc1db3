// When an indexed document holds the rows of its own bytes under its own file suffix. Artifacts
// are keyed by content hash alone, while extraction also looks at the suffix.
module Suffixes {
  import opened Types
  import opened Database
  import opened Pipeline
  import opened Chains
  import opened Naming
  import opened Control
  import opened ContentSafety
  import opened Deliveries
  import opened HappyPath

  // ----- extraction only ever sees uploaded pairs of bytes and suffix -----

  type Pairs = set<(Content, Extension)>

  /**
   * `cfg'` differs from `cfg` only where no run looks: in what extraction gives outside the pairs,
   * and in embedding no chunks at all.
   */
  ghost predicate AgreeOn(cfg: Config, cfg': Config, pairs: Pairs) {
    && cfg' == cfg.(extract := cfg'.extract, embed := cfg'.embed)
    && (forall rows {:trigger cfg'.embed(rows)} {:trigger cfg.embed(rows)} :: rows != [] ==> cfg'.embed(rows) == cfg.embed(rows))
    && forall p {:trigger p in pairs} :: p in pairs ==> cfg'.extract(p.0, p.1) == cfg.extract(p.0, p.1)
  }

  ghost predicate SourcesFrom(s: State, pairs: Pairs) {
    forall k {:trigger s.sources[k]} :: k in s.sources ==> (s.sources[k], k.ext) in pairs
  }

  predicate EventFrom(ev: Event, pairs: Pairs) {
    match ev
    case Http(PutSource(_, c, e)) => (c, e) in pairs
    case Http(UploadNew(_, c, e)) => (c, e) in pairs
    case _ => true
  }

  predicate UploadsFrom(evs: seq<Event>, pairs: Pairs) {
    forall i :: 0 <= i < |evs| ==> EventFrom(evs[i], pairs)
  }

  lemma ComputedSame(cfg: Config, cfg': Config, pairs: Pairs, s: State, task: Task, cached: bool)
    requires AgreeOn(cfg, cfg', pairs) && SourcesFrom(s, pairs)
    ensures Computed(cfg, s, task, cached) == Computed(cfg', s, task, cached)
  {
    if task.doc in s.db.docs && task.stage == Extract && !cached {
      var doc := s.db.docs[task.doc];
      var source := SourceKey(doc.user, doc.contentHash, doc.ext);
      if source in s.sources { assert (s.sources[source], doc.ext) in pairs; }
    }
  }

  lemma WorkSame(cfg: Config, cfg': Config, pairs: Pairs, s: State, w: WorkerId, action: Action)
    requires AgreeOn(cfg, cfg', pairs) && SourcesFrom(s, pairs)
    ensures OnWork(cfg, s, w, action) == OnWork(cfg', s, w, action)
  {
    match action
    case Compute(cached) => if PcOf(s, w).InStage? { ComputedSame(cfg, cfg', pairs, s, PcOf(s, w).task, cached); }
    case Commit => CommitSame(cfg, cfg', s, w);
    case Raise(error, permanent) => RaiseSame(cfg, cfg', s, w, error, permanent);
    case _ =>
  }

  lemma CommitSame(cfg: Config, cfg': Config, s: State, w: WorkerId)
    requires cfg'.maxTries == cfg.maxTries
    ensures DoCommit(cfg, s, w) == DoCommit(cfg', s, w)
  {
  }

  lemma RaiseSame(cfg: Config, cfg': Config, s: State, w: WorkerId, error: string, permanent: bool)
    requires cfg'.maxTries == cfg.maxTries
    ensures DoRaise(cfg, s, w, error, permanent) == DoRaise(cfg', s, w, error, permanent)
  {
  }

  lemma RequestSame(cfg: Config, cfg': Config, pairs: Pairs, s: State, request: Request)
    requires AgreeOn(cfg, cfg', pairs)
    ensures OnRequest(cfg, s, request) == OnRequest(cfg', s, request)
  {
  }

  lemma RequestSources(cfg: Config, pairs: Pairs, s: State, request: Request)
    requires SourcesFrom(s, pairs) && EventFrom(Http(request), pairs)
    ensures SourcesFrom(OnRequest(cfg, s, request), pairs)
  {
  }

  lemma DispatchSame(cfg: Config, cfg': Config, pairs: Pairs, s: State, ev: Event)
    requires AgreeOn(cfg, cfg', pairs) && SourcesFrom(s, pairs) && EventFrom(ev, pairs)
    ensures Dispatch(cfg, s, ev) == Dispatch(cfg', s, ev) && SourcesFrom(Dispatch(cfg, s, ev), pairs)
  {
    match ev
    case Http(request) =>
      RequestSame(cfg, cfg', pairs, s, request);
      RequestSources(cfg, pairs, s, request);
    case Work(w, action) => WorkSame(cfg, cfg', pairs, s, w, action);
    case SweepStep(p) => SweepSources(s, p);
    case _ =>
  }

  lemma StepSame(cfg: Config, cfg': Config, pairs: Pairs, s: State, ev: Event, s1: State, s2: State)
    requires AgreeOn(cfg, cfg', pairs) && SourcesFrom(s, pairs) && EventFrom(ev, pairs)
    requires s1 == Apply(cfg, s, ev) && s2 == Apply(cfg', s, ev)
    ensures s1 == s2 && SourcesFrom(s1, pairs)
  {
    LaterSame(cfg, cfg', pairs, s, ev, Later(s), s1, s2);
  }

  lemma LaterSame(cfg: Config, cfg': Config, pairs: Pairs, s: State, ev: Event, later: State, s1: State, s2: State)
    requires AgreeOn(cfg, cfg', pairs) && later.sources == s.sources && SourcesFrom(s, pairs) && EventFrom(ev, pairs)
    requires s1 == Dispatch(cfg, later, ev) && s2 == Dispatch(cfg', later, ev)
    ensures s1 == s2 && SourcesFrom(s1, pairs)
  {
    DispatchSame(cfg, cfg', pairs, later, ev);
  }

  lemma SweepSources(s: State, p: nat)
    ensures DoSweepStep(s, p).sources == s.sources
  {
  }

  lemma {:induction false} RunSame(cfg: Config, cfg': Config, pairs: Pairs, evs: seq<Event>)
    requires AgreeOn(cfg, cfg', pairs) && UploadsFrom(evs, pairs)
    ensures Run(cfg, INIT, evs) == Run(cfg', INIT, evs) && SourcesFrom(Run(cfg, INIT, evs), pairs)
    decreases |evs|
  {
    if evs != [] {
      var prefix, ev := evs[..|evs| - 1], evs[|evs| - 1];
      assert evs == prefix + [ev];
      RunSame(cfg, cfg', pairs, prefix);
      var s := Run(cfg, INIT, prefix);
      RunSnoc(cfg, INIT, prefix, ev);
      RunSnoc(cfg', INIT, prefix, ev);
      StepSame(cfg, cfg', pairs, s, ev, Run(cfg, INIT, evs), Run(cfg', INIT, evs));
    }
  }

  /** Every document was uploaded with its bytes and suffix. */
  ghost predicate FromUpload(cfg: Config, pairs: Pairs, source: SourceKey) {
    exists p {:trigger p in pairs} :: p in pairs && cfg.hash(p.0) == source.hash && p.1 == source.ext
  }

  lemma {:induction false} DirectoryFromUploads(cfg: Config, pairs: Pairs, evs: seq<Event>, d: DocId)
    requires UploadsFrom(evs, pairs) && d in AuxOf(cfg, evs).docs
    ensures FromUpload(cfg, pairs, AuxOf(cfg, evs).docs[d])
    decreases |evs|
  {
    if evs != [] {
      var prefix, ev := evs[..|evs| - 1], evs[|evs| - 1];
      assert EventFrom(ev, pairs);
      if d in AuxOf(cfg, prefix).docs { DirectoryFromUploads(cfg, pairs, prefix, d); }
      var s := Run(cfg, INIT, prefix);
      DirectoryStep(cfg, pairs, Later(s), AuxOf(cfg, prefix), ev, d, AuxOf(cfg, evs));
    }
  }

  lemma DirectoryStep(cfg: Config, pairs: Pairs, s: State, aux: Aux, ev: Event, d: DocId, aux': Aux)
    requires aux' == NextAux(cfg, s, aux, ev) && EventFrom(ev, pairs) && d in aux'.docs
    requires d in aux.docs ==> FromUpload(cfg, pairs, aux.docs[d])
    ensures FromUpload(cfg, pairs, aux'.docs[d])
  {
    if ev.Http? && ev.request.UploadNew? {
      assert (ev.request.content, ev.request.ext) in pairs;
    }
  }

  lemma DocumentFromUpload(cfg: Config, pairs: Pairs, evs: seq<Event>, d: DocId) returns (c: Content)
    requires UploadsFrom(evs, pairs) && d in Run(cfg, INIT, evs).db.docs
    ensures var doc := Run(cfg, INIT, evs).db.docs[d]; (c, doc.ext) in pairs && cfg.hash(c) == doc.contentHash
  {
    RunNamed(cfg, evs);
    assert DocNamed(Run(cfg, INIT, evs).db, AuxOf(cfg, evs), d);
    DirectoryFromUploads(cfg, pairs, evs, d);
    var p :| p in pairs && cfg.hash(p.0) == AuxOf(cfg, evs).docs[d].hash && p.1 == AuxOf(cfg, evs).docs[d].ext;
    c := p.0;
  }

  // ----- one suffix per content -----

  /** Every upload of the run takes its bytes from `contents` and uses the suffix that belongs to them. */
  function PairsOf(contents: set<Content>, suffix: Content -> Extension): Pairs {
    set c | c in contents :: (c, suffix(c))
  }

  /** What extraction would give if it only ever saw the suffix that belongs to the bytes. */
  function Blinded(cfg: Config, suffix: Content -> Extension): Config {
    cfg.(extract := (c: Content, e: Extension) => cfg.extract(c, suffix(c)))
  }

  lemma PairsAreWithin(contents: set<Content>, pairs: Pairs, evs: seq<Event>)
    requires UploadsFrom(evs, pairs) && forall p :: p in pairs ==> p.0 in contents
    ensures Within(evs, contents)
  {
    forall i | 0 <= i < |evs|
      ensures EventWithin(evs[i], contents)
    {
      assert EventFrom(evs[i], pairs);
    }
  }

  /**
   * If no content is uploaded under two suffixes, an indexed document holds exactly the rows of
   * its own bytes under its own suffix, and its stored counts are theirs.
   */
  lemma IndexedRowsAreExact(cfg: Config, contents: set<Content>, suffix: Content -> Extension, evs: seq<Event>, d: DocId)
    requires CollisionFree(cfg, contents) && NoReprocess(evs) && UploadsFrom(evs, PairsOf(contents, suffix))
    requires d in Run(cfg, INIT, evs).db.docs && Run(cfg, INIT, evs).db.docs[d].status == Indexed
    ensures var db := Run(cfg, INIT, evs).db;
            exists c ::
              && c in contents && cfg.hash(c) == db.docs[d].contentHash && suffix(c) == db.docs[d].ext
              && ChunkRows(db, d) == PipelineRows(cfg, c, db.docs[d].ext)
              && db.docs[d].chunkCount == |ChunkRows(db, d)|
              && db.docs[d].pageCount == Some(cfg.extract(c, db.docs[d].ext).pages)
  {
    var blinded, pairs := Blinded(cfg, suffix), PairsOf(contents, suffix);
    RunSame(cfg, blinded, pairs, evs);
    PairsAreWithin(contents, pairs, evs);
    IndexedRowsAreGenuine(blinded, contents, evs, d);
    var db := Run(cfg, INIT, evs).db;
    var c, e, e', e'' :| c in contents && blinded.hash(c) == db.docs[d].contentHash
                         && ChunkRows(db, d) == PipelineRows(blinded, c, e)
                         && Indexable(blinded, ChunkRows(db, d))
                         && Indexable(blinded, PipelineRows(blinded, c, e')) && db.docs[d].chunkCount == |PipelineRows(blinded, c, e')|
                         && db.docs[d].pageCount == Some(blinded.extract(c, e'').pages);
    var c' := DocumentFromUpload(cfg, pairs, evs, d);
  }

  // ----- two suffixes for the same bytes -----

  /** A new document was added and is indexed with the rows of `c` under `e`, whatever its suffix. */
  ghost predicate AddedIndexed(cfg: Config, s: State, user: UserId, c: Content, ext: Extension, e: Extension, s': State) {
    var d := s.db.nextId;
    && d !in s.db.docs && d in s'.db.docs && s'.db.docs == s.db.docs[d := s'.db.docs[d]]
    && s'.db.docs[d].user == user && s'.db.docs[d].ext == ext && s'.db.docs[d].contentHash == cfg.hash(c)
    && s'.db.docs[d].status == Indexed && ChunkRows(s'.db, d) == PipelineRows(cfg, c, e)
    && s'.sources == s.sources[SourceKey(user, cfg.hash(c), ext) := c] && Cached(cfg, s'.artifacts, c, e, 4)
    && s'.uploads == map[] && PcOf(s', 0) == Idle
  }

  lemma IndexedIsAdded(cfg: Config, s: State, user: UserId, c: Content, ext: Extension, e: Extension, s1: State, s': State)
    requires var d := s.db.nextId;
             && d !in s.db.docs && s1.db.docs == s.db.docs[d := NewRow(cfg, user, c, ext)] && s1.uploads == map[]
             && s1.sources == s.sources[SourceKey(user, cfg.hash(c), ext) := c]
             && IndexedAs(cfg, s1, d, c, e, s') && PcOf(s', 0) == Idle && Cached(cfg, s'.artifacts, c, e, 4)
    ensures AddedIndexed(cfg, s, user, c, ext, e, s')
  {
  }

  lemma NewRowIsProvided(cfg: Config, s: State, d: DocId, user: UserId, c: Content, ext: Extension, e: Extension, cached: bool)
    requires d in s.db.docs && s.db.docs[d] == NewRow(cfg, user, c, ext)
    requires SourceKey(user, cfg.hash(c), ext) in s.sources && s.sources[SourceKey(user, cfg.hash(c), ext)] == c
    requires if cached then Cached(cfg, s.artifacts, c, e, 2) else ext == e
    ensures Provided(cfg, s, d, c, e, Extract, cached)
  {
    if cached { CacheShrinks(cfg, s.artifacts, c, e, 2, 1); }
  }

  lemma UploadThenStages(cfg: Config, s: State, user: UserId, c: Content, ext: Extension, e: Extension, cached: bool)
    returns (evs: seq<Event>, s': State)
    requires Quiet(s, 0) && Usable(cfg, c, e) && s.db.nextId !in s.db.docs
    requires SourceKey(user, cfg.hash(c), ext) !in s.sources && !Uploaded(s.db, user, cfg.hash(c))
    requires if cached then Cached(cfg, s.artifacts, c, e, 2) else ext == e
    ensures s' == Run(cfg, s, evs) && AddedIndexed(cfg, s, user, c, ext, e, s')
    ensures NoReprocess(evs) && UploadsFrom(evs, {(c, ext)})
  {
    var d := s.db.nextId;
    var s1 := UploadsAreReady(cfg, s, 0, user, c, ext);
    NewRowIsProvided(cfg, s1, d, user, c, ext, e, cached);
    var work;
    work, s' := StagesIndex(cfg, s1, 0, d, d + 1, c, e, cached);
    IndexedIsAdded(cfg, s, user, c, ext, e, s1, s');
    evs := UploadEvents(user, c, ext, d) + work;
    RunThen(cfg, s, UploadEvents(user, c, ext, d), s1, work, s');
    PlainEvents(user, c, ext, d, 0, work);
  }

  lemma PlainEvents(user: UserId, c: Content, ext: Extension, d: DocId, w: WorkerId, work: seq<Event>)
    requires OnlyWork(w, work)
    ensures NoReprocess(UploadEvents(user, c, ext, d) + work) && UploadsFrom(UploadEvents(user, c, ext, d) + work, {(c, ext)})
  {
  }

  lemma UploadAndIndex(cfg: Config, before: seq<Event>, s: State, user: UserId, c: Content, ext: Extension, e: Extension, cached: bool)
    returns (evs: seq<Event>, s': State)
    requires s == Run(cfg, INIT, before) && Quiet(s, 0) && Usable(cfg, c, e)
    requires SourceKey(user, cfg.hash(c), ext) !in s.sources && !Uploaded(s.db, user, cfg.hash(c))
    requires if cached then Cached(cfg, s.artifacts, c, e, 2) else ext == e
    ensures s' == Run(cfg, INIT, before + evs) && Quiet(s', 0) && AddedIndexed(cfg, s, user, c, ext, e, s')
    ensures NoReprocess(evs) && UploadsFrom(evs, {(c, ext)})
  {
    RunNamed(cfg, before);
    NextIsNoDocument(s, AuxOf(cfg, before));
    evs, s' := UploadThenStages(cfg, s, user, c, ext, e, cached);
    RunThen(cfg, INIT, before, s, evs, s');
    RunNamed(cfg, before + evs);
    ReachableIsUnused(s', AuxOf(cfg, before + evs));
  }

  lemma NextIsNoDocument(s: State, aux: Aux)
    requires Named(s, aux)
    ensures s.db.nextId !in s.db.docs
  {
    assert !DocNamed(s.db, aux, s.db.nextId);
  }

  /** Left alone, any usable content is indexed, with exactly its rows. */
  lemma UndisturbedUploadIsIndexed(cfg: Config, user: UserId, c: Content, ext: Extension) returns (evs: seq<Event>)
    requires Usable(cfg, c, ext)
    ensures NoReprocess(evs) && UploadsFrom(evs, {(c, ext)})
    ensures var db := Run(cfg, INIT, evs).db;
            && db.docs.Keys == {0} && db.docs[0].status == Indexed
            && ChunkRows(db, 0) == PipelineRows(cfg, c, ext)
  {
    var s';
    evs, s' := UploadAndIndex(cfg, [], INIT, user, c, ext, ext, false);
    assert [] + evs == evs;
  }

  lemma UploadsFromMore(a: seq<Event>, b: seq<Event>, p: Pairs, q: Pairs)
    requires NoReprocess(a) && NoReprocess(b) && UploadsFrom(a, p) && UploadsFrom(b, q)
    ensures NoReprocess(a + b) && UploadsFrom(a + b, p + q)
  {
    forall i | 0 <= i < |a + b|
      ensures EventFrom((a + b)[i], p + q) && !IsReprocess((a + b)[i])
    {
      if i < |a| { assert EventFrom(a[i], p); } else { assert EventFrom(b[i - |a|], q); }
    }
  }

  /** A second user's upload of the same bytes under another suffix is indexed with the first one's rows. */
  lemma SecondSuffixGetsFirstRows(cfg: Config, c: Content, e1: Extension, e2: Extension) returns (evs: seq<Event>, d: DocId)
    requires Usable(cfg, c, e1)
    ensures NoReprocess(evs) && UploadsFrom(evs, {(c, e1), (c, e2)})
    ensures var db := Run(cfg, INIT, evs).db;
            && d in db.docs && db.docs[d].status == Indexed && db.docs[d].ext == e2 && db.docs[d].contentHash == cfg.hash(c)
            && ChunkRows(db, d) == PipelineRows(cfg, c, e1)
  {
    var first, s1 := UploadAndIndex(cfg, [], INIT, 0, c, e1, e1, false);
    assert [] + first == first;
    assert s1.sources == map[SourceKey(0, cfg.hash(c), e1) := c];
    CacheShrinks(cfg, s1.artifacts, c, e1, 4, 2);
    var second, s2 := UploadAndIndex(cfg, first, s1, 1, c, e2, e1, true);
    UploadsFromMore(first, second, {(c, e1)}, {(c, e2)});
    assert {(c, e1)} + {(c, e2)} == {(c, e1), (c, e2)};
    evs, d := first + second, s1.db.nextId;
  }

  /** If the document is indexed, its rows are those of `c` under the document's own suffix. */
  ghost predicate ExactAt(cfg: Config, evs: seq<Event>, d: DocId, c: Content) {
    var db := Run(cfg, INIT, evs).db;
    d in db.docs && db.docs[d].status == Indexed ==> ChunkRows(db, d) == PipelineRows(cfg, c, db.docs[d].ext)
  }

  /** Extraction as it is for two suffixes, and as for the first of them for any other; no rows for no chunks. */
  function OfTwo(cfg: Config, e1: Extension, e2: Extension): Config {
    cfg.(extract := (c: Content, e: Extension) => cfg.extract(c, if e == e2 then e2 else e1),
         embed := (rows: seq<Row>) => if rows == [] then [] else cfg.embed(rows))
  }

  lemma RowsOfTwo(cfg: Config, c: Content, e1: Extension, e2: Extension, e: Extension)
    requires Indexable(OfTwo(cfg, e1, e2), PipelineRows(OfTwo(cfg, e1, e2), c, e))
    ensures var x := if e == e2 then e2 else e1;
            PipelineRows(OfTwo(cfg, e1, e2), c, e) == PipelineRows(cfg, c, x) && Usable(cfg, c, x)
  {
  }

  /** An indexed document of the one content has its rows under some suffix, and the count under some suffix. */
  lemma GenuineOf(cfg: Config, c: Content, evs: seq<Event>, d: DocId) returns (e: Extension, e': Extension)
    requires NoReprocess(evs) && Within(evs, {c})
    requires d in Run(cfg, INIT, evs).db.docs && Run(cfg, INIT, evs).db.docs[d].status == Indexed
    ensures var db := Run(cfg, INIT, evs).db;
            && ChunkRows(db, d) == PipelineRows(cfg, c, e) && Indexable(cfg, ChunkRows(db, d))
            && Indexable(cfg, PipelineRows(cfg, c, e')) && db.docs[d].chunkCount == |PipelineRows(cfg, c, e')|
  {
    var db := Run(cfg, INIT, evs).db;
    IndexedRowsAreGenuine(cfg, {c}, evs, d);
    var c', f, f', f'' :| c' in {c} && cfg.hash(c') == db.docs[d].contentHash
                          && ChunkRows(db, d) == PipelineRows(cfg, c', f)
                          && Indexable(cfg, ChunkRows(db, d))
                          && Indexable(cfg, PipelineRows(cfg, c', f')) && db.docs[d].chunkCount == |PipelineRows(cfg, c', f')|
                          && db.docs[d].pageCount == Some(cfg.extract(c', f'').pages);
    e, e' := f, f';
  }

  /** An indexed document has the rows of one usable suffix of the two, and the count of one. */
  lemma GenuineOfTwo(cfg: Config, c: Content, e1: Extension, e2: Extension, evs: seq<Event>, d: DocId)
    returns (rowsOf: Extension, countOf: Extension)
    requires NoReprocess(evs) && UploadsFrom(evs, {(c, e1), (c, e2)})
    requires d in Run(cfg, INIT, evs).db.docs && Run(cfg, INIT, evs).db.docs[d].status == Indexed
    ensures rowsOf in {e1, e2} && countOf in {e1, e2} && Usable(cfg, c, rowsOf) && Usable(cfg, c, countOf)
    ensures var db := Run(cfg, INIT, evs).db;
            && ChunkRows(db, d) == PipelineRows(cfg, c, rowsOf)
            && db.docs[d].chunkCount == |PipelineRows(cfg, c, countOf)|
            && db.docs[d].ext in {e1, e2}
  {
    var pairs: Pairs, two := {(c, e1), (c, e2)}, OfTwo(cfg, e1, e2);
    var db := Run(cfg, INIT, evs).db;
    RunSame(cfg, two, pairs, evs);
    PairsAreWithin({c}, pairs, evs);
    var e, e' := GenuineOf(two, c, evs, d);
    var owner := DocumentFromUpload(cfg, pairs, evs, d);
    rowsOf, countOf := if e == e2 then e2 else e1, if e' == e2 then e2 else e1;
    RowsOfTwo(cfg, c, e1, e2, e);
    RowsOfTwo(cfg, c, e1, e2, e');
  }

  /** Bytes that are usable under neither suffix are never indexed. */
  lemma RefusedIsNeverIndexed(cfg: Config, c: Content, e1: Extension, e2: Extension, evs: seq<Event>, d: DocId)
    requires NoReprocess(evs) && UploadsFrom(evs, {(c, e1), (c, e2)}) && d in Run(cfg, INIT, evs).db.docs
    requires !Usable(cfg, c, e1) && !Usable(cfg, c, e2)
    ensures Run(cfg, INIT, evs).db.docs[d].status != Indexed
  {
    if Run(cfg, INIT, evs).db.docs[d].status == Indexed {
      var rowsOf, countOf := GenuineOfTwo(cfg, c, e1, e2, evs, d);
    }
  }

  lemma ExactIfRowsAgree(cfg: Config, c: Content, e1: Extension, e2: Extension, evs: seq<Event>, d: DocId)
    requires NoReprocess(evs) && UploadsFrom(evs, {(c, e1), (c, e2)})
    requires PipelineRows(cfg, c, e1) == PipelineRows(cfg, c, e2)
    ensures ExactAt(cfg, evs, d, c)
  {
    var db := Run(cfg, INIT, evs).db;
    if d in db.docs && db.docs[d].status == Indexed {
      var rowsOf, countOf := GenuineOfTwo(cfg, c, e1, e2, evs, d);
    }
  }

  /** A run that is not exact, if the rows differ and one suffix is usable. */
  lemma InexactRun(cfg: Config, c: Content, e1: Extension, e2: Extension) returns (evs: seq<Event>, d: DocId)
    requires Usable(cfg, c, e1) || Usable(cfg, c, e2)
    requires PipelineRows(cfg, c, e1) != PipelineRows(cfg, c, e2)
    ensures NoReprocess(evs) && UploadsFrom(evs, {(c, e1), (c, e2)}) && !ExactAt(cfg, evs, d, c)
  {
    if Usable(cfg, c, e1) {
      evs, d := SecondSuffixGetsFirstRows(cfg, c, e1, e2);
    } else {
      evs, d := SecondSuffixGetsFirstRows(cfg, c, e2, e1);
      assert {(c, e2), (c, e1)} == {(c, e1), (c, e2)};
    }
  }

  /**
   * For bytes that are uploaded under two suffixes, by whomever and in whatever order: every
   * indexed document holds the rows of its own suffix exactly when the pipeline gives the same
   * rows for both, or the bytes are usable under neither.
   */
  lemma ExactInEveryRunIff(cfg: Config, c: Content, e1: Extension, e2: Extension)
    ensures (forall evs, d {:trigger ExactAt(cfg, evs, d, c)} ::
               NoReprocess(evs) && UploadsFrom(evs, {(c, e1), (c, e2)}) ==> ExactAt(cfg, evs, d, c))
            <==> (Usable(cfg, c, e1) || Usable(cfg, c, e2) ==> PipelineRows(cfg, c, e1) == PipelineRows(cfg, c, e2))
  {
    if (Usable(cfg, c, e1) || Usable(cfg, c, e2)) && PipelineRows(cfg, c, e1) != PipelineRows(cfg, c, e2) {
      var evs, d := InexactRun(cfg, c, e1, e2);
    } else {
      forall evs, d | NoReprocess(evs) && UploadsFrom(evs, {(c, e1), (c, e2)})
        ensures ExactAt(cfg, evs, d, c)
      {
        if PipelineRows(cfg, c, e1) == PipelineRows(cfg, c, e2) {
          ExactIfRowsAgree(cfg, c, e1, e2, evs, d);
        } else if d in Run(cfg, INIT, evs).db.docs {
          RefusedIsNeverIndexed(cfg, c, e1, e2, evs, d);
        }
      }
    }
  }

  ghost predicate IndexedIn(cfg: Config, evs: seq<Event>, d: DocId) {
    d in Run(cfg, INIT, evs).db.docs && Run(cfg, INIT, evs).db.docs[d].status == Indexed
  }

  lemma UploadsFromFewer(evs: seq<Event>, pairs: Pairs, more: Pairs)
    requires UploadsFrom(evs, pairs) && pairs <= more
    ensures UploadsFrom(evs, more)
  {
    forall i | 0 <= i < |evs|
      ensures EventFrom(evs[i], more)
    {
      assert EventFrom(evs[i], pairs);
    }
  }

  /** Bytes under two suffixes can be indexed at all exactly when they are usable under one of them. */
  lemma IndexedInSomeRunIff(cfg: Config, c: Content, e1: Extension, e2: Extension)
    ensures (exists evs, d {:trigger IndexedIn(cfg, evs, d)} ::
               NoReprocess(evs) && UploadsFrom(evs, {(c, e1), (c, e2)}) && IndexedIn(cfg, evs, d))
            <==> Usable(cfg, c, e1) || Usable(cfg, c, e2)
  {
    if Usable(cfg, c, e1) || Usable(cfg, c, e2) {
      var e := if Usable(cfg, c, e1) then e1 else e2;
      var evs := UndisturbedUploadIsIndexed(cfg, 0, c, e);
      UploadsFromFewer(evs, {(c, e)}, {(c, e1), (c, e2)});
      assert IndexedIn(cfg, evs, 0);
    } else {
      forall evs, d | NoReprocess(evs) && UploadsFrom(evs, {(c, e1), (c, e2)})
        ensures !IndexedIn(cfg, evs, d)
      {
        if d in Run(cfg, INIT, evs).db.docs { RefusedIsNeverIndexed(cfg, c, e1, e2, evs, d); }
      }
    }
  }
}
