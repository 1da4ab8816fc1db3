// Passage assembly: window expansion around the selected chunks, maximal runs of consecutive
// chunks, and a greedy token budget.
module Passages {
  import opened Sets
  import opened Types
  import opened Sorting

  datatype Candidate = Candidate(
    id: nat, document: DocId, index: int, text: string, page: Option<int>, section: Option<string>,
    tokenCount: Option<nat>, relevance: real)

  datatype Pos = Pos(document: DocId, index: int)

  /** Consecutive chunks of one document and the best relevance that reaches them. */
  datatype Run = Run(score: real, chunks: seq<Candidate>)

  datatype Passage = Passage(
    citationId: nat, document: DocId, chunkIds: seq<nat>, chunkRange: (int, int), pageStart: Option<int>,
    pageEnd: Option<int>, section: Option<string>, text: string, score: real, tokenCount: nat)

  function PosOf(c: Candidate): Pos {
    Pos(c.document, c.index)
  }

  /** Stored count, or an estimate from the text when it is missing or zero; never zero. */
  function Tokens(c: Candidate): (n: nat)
    ensures n >= 1
  {
    if c.tokenCount.Some? && c.tokenCount.value != 0 then c.tokenCount.value
    else if |c.text| / 4 >= 1 then |c.text| / 4 else 1
  }

  // ----- which positions are wanted -----

  /** The last chunk listed at a position. */
  function LastAt(cs: seq<Candidate>, pos: Pos): Option<Candidate>
    decreases |cs|
  {
    if cs == [] then None
    else if PosOf(cs[|cs| - 1]) == pos then Some(cs[|cs| - 1])
    else LastAt(cs[..|cs| - 1], pos)
  }

  ghost predicate Indexes(byPos: map<Pos, Candidate>, cs: seq<Candidate>) {
    forall pos {:trigger pos in byPos} {:trigger LastAt(cs, pos)} ::
      LastAt(cs, pos) == if pos in byPos then Some(byPos[pos]) else None
  }

  method IndexByPosition(byPos0: map<Pos, Candidate>, ghost before: seq<Candidate>, cs: seq<Candidate>) returns (byPos: map<Pos, Candidate>)
    requires Indexes(byPos0, before)
    ensures Indexes(byPos, before + cs)
  {
    byPos := byPos0;
    assert before + cs[..0] == before;
    for i := 0 to |cs|
      invariant Indexes(byPos, before + cs[..i])
    {
      assert before + cs[..i + 1] == (before + cs[..i]) + [cs[i]];
      byPos := byPos[PosOf(cs[i]) := cs[i]];
      forall pos
        ensures LastAt(before + cs[..i + 1], pos) == if pos in byPos then Some(byPos[pos]) else None
      {
        AppendAt(before + cs[..i], cs[i], pos);
      }
    }
    assert cs[..|cs|] == cs;
  }

  lemma AppendAt(cs: seq<Candidate>, c: Candidate, pos: Pos)
    ensures LastAt(cs + [c], pos) == if PosOf(c) == pos then Some(c) else LastAt(cs, pos)
  {
    assert (cs + [c])[..|cs|] == cs;
  }

  predicate Reaches(c: Candidate, window: int, pos: Pos) {
    c.document == pos.document && c.index - window <= pos.index <= c.index + window
  }

  /** The best relevance among the selected chunks whose window reaches the position. */
  function Best(selected: seq<Candidate>, window: int, pos: Pos): Option<real>
    decreases |selected|
  {
    if selected == [] then None
    else
      var before, c := Best(selected[..|selected| - 1], window, pos), selected[|selected| - 1];
      if !Reaches(c, window, pos) then before
      else if before.Some? && before.value >= c.relevance then before
      else Some(c.relevance)
  }

  ghost predicate ScoreAt(wanted: map<Pos, real>, byPos: map<Pos, Candidate>, selected: seq<Candidate>, window: int, pos: Pos) {
    && (pos in wanted <==> pos in byPos && Best(selected, window, pos).Some?)
    && (pos in wanted ==> Some(wanted[pos]) == Best(selected, window, pos))
  }

  /** The wanted positions are the indexed ones that some window reaches, each with its best relevance. */
  ghost predicate Scores(wanted: map<Pos, real>, byPos: map<Pos, Candidate>, selected: seq<Candidate>, window: int) {
    forall pos {:trigger ScoreAt(wanted, byPos, selected, window, pos)} {:trigger pos in wanted} ::
      ScoreAt(wanted, byPos, selected, window, pos)
  }

  ghost predicate Documents(documents: seq<DocId>, wanted: map<Pos, real>) {
    && (forall pos {:trigger pos in wanted} :: pos in wanted ==> pos.document in documents)
    && (forall i, j :: 0 <= i < j < |documents| ==> documents[i] != documents[j])
  }

  /** Part way through the window of `selected[k]`: positions before `i` have seen it. */
  ghost predicate Partial(wanted: map<Pos, real>, byPos: map<Pos, Candidate>, selected: seq<Candidate>, window: int, k: nat, i: int)
    requires k < |selected|
  {
    forall pos: Pos {:trigger pos in wanted} ::
      ScoreAt(wanted, byPos, if pos.index < i then selected[..k + 1] else selected[..k], window, pos)
  }

  lemma Unreached(selected: seq<Candidate>, window: int, k: nat, pos: Pos)
    requires k < |selected| && !Reaches(selected[k], window, pos)
    ensures Best(selected[..k + 1], window, pos) == Best(selected[..k], window, pos)
  {
    assert selected[..k + 1][..k] == selected[..k];
  }

  lemma PartialEnds(wanted: map<Pos, real>, byPos: map<Pos, Candidate>, selected: seq<Candidate>, window: int, k: nat, i: int)
    requires k < |selected|
    ensures Scores(wanted, byPos, selected[..k], window) ==> Partial(wanted, byPos, selected, window, k, selected[k].index - window)
    ensures Partial(wanted, byPos, selected, window, k, i) && i > selected[k].index + window ==>
              Scores(wanted, byPos, selected[..k + 1], window)
  {
    forall pos | !Reaches(selected[k], window, pos)
      ensures Best(selected[..k + 1], window, pos) == Best(selected[..k], window, pos)
    {
      Unreached(selected, window, k, pos);
    }
    if Scores(wanted, byPos, selected[..k], window) {
      forall pos: Pos
        ensures ScoreAt(wanted, byPos, if pos.index < selected[k].index - window then selected[..k + 1] else selected[..k], window, pos)
      {
        assert ScoreAt(wanted, byPos, selected[..k], window, pos);
      }
    }
  }

  method Widen(byPos: map<Pos, Candidate>, selected: seq<Candidate>, window: int)
    returns (documents: seq<DocId>, wanted: map<Pos, real>)
    ensures Scores(wanted, byPos, selected, window) && Documents(documents, wanted)
  {
    documents, wanted := [], map[];
    for k := 0 to |selected|
      invariant Scores(wanted, byPos, selected[..k], window) && Documents(documents, wanted)
    {
      var c := selected[k];
      var i := c.index - window;
      PartialEnds(wanted, byPos, selected, window, k, i);
      while i < c.index + window + 1
        invariant i >= c.index - window
        invariant Partial(wanted, byPos, selected, window, k, i) && Documents(documents, wanted)
      {
        var pos := Pos(c.document, i);
        if pos in byPos {
          if c.document !in documents { documents := documents + [c.document]; }
          var score := if pos in wanted && wanted[pos] >= c.relevance then wanted[pos] else c.relevance;
          PartialStep(wanted, byPos, selected, window, k, i, Some(score));
          wanted := wanted[pos := score];
        } else {
          PartialStep(wanted, byPos, selected, window, k, i, None);
        }
        i := i + 1;
      }
      PartialEnds(wanted, byPos, selected, window, k, i);
    }
    assert selected[..|selected|] == selected;
  }

  lemma PartialStep(wanted: map<Pos, real>, byPos: map<Pos, Candidate>, selected: seq<Candidate>, window: int, k: nat, i: int,
                    score: Option<real>)
    requires k < |selected| && Partial(wanted, byPos, selected, window, k, i)
    requires selected[k].index - window <= i <= selected[k].index + window
    requires var pos := Pos(selected[k].document, i);
             score == (if pos !in byPos then None
                          else if pos in wanted && wanted[pos] >= selected[k].relevance then Some(wanted[pos])
                          else Some(selected[k].relevance))
    ensures var pos := Pos(selected[k].document, i);
            Partial(if score.Some? then wanted[pos := score.value] else wanted, byPos, selected, window, k, i + 1)
  {
    assert selected[..k + 1][..k] == selected[..k];
    var at := Pos(selected[k].document, i);
    var wanted' := if score.Some? then wanted[at := score.value] else wanted;
    forall pos: Pos
      ensures ScoreAt(wanted', byPos, if pos.index < i + 1 then selected[..k + 1] else selected[..k], window, pos)
    {
      assert ScoreAt(wanted, byPos, if pos.index < i then selected[..k + 1] else selected[..k], window, pos);
    }
  }

  // ----- maximal runs -----

  predicate Least(m: int, s: set<int>) {
    m in s && forall y {:trigger y in s} :: y in s ==> m <= y
  }

  function Below(s: set<int>, x: int): set<int> {
    set y | y in s && y < x
  }

  lemma {:induction false} LeastUpTo(s: set<int>, x: int)
    requires x in s
    ensures exists m :: Least(m, s)
    decreases |Below(s, x)|
  {
    if y :| y in s && y < x {
      assert y in Below(s, x) && y !in Below(s, y);
      SizeOfSubset(Below(s, y), Below(s, x));
      LeastUpTo(s, y);
    } else {
      assert Least(x, s);
    }
  }

  lemma HasLeast(s: set<int>)
    requires s != {}
    ensures exists m :: Least(m, s)
  {
    var x := SomeElement(s);
    LeastUpTo(s, x);
  }

  function SortedSet(s: set<int>): (xs: seq<int>)
    ensures forall i, j :: 0 <= i < j < |xs| ==> xs[i] < xs[j]
    ensures forall x {:trigger x in xs} {:trigger x in s} :: x in xs <==> x in s
    decreases |s|
  {
    if s == {} then []
    else
      HasLeast(s);
      var m :| Least(m, s);
      [m] + SortedSet(s - {m})
  }

  function PositionsOf(wanted: map<Pos, real>, document: DocId): (s: set<int>)
    ensures forall i {:trigger i in s} {:trigger Pos(document, i)} :: i in s <==> Pos(document, i) in wanted
  {
    set pos | pos in wanted && pos.document == document :: pos.index
  }

  function Lo(r: Run): int
    requires r.chunks != []
  {
    r.chunks[0].index
  }

  function DocumentOf(r: Run): DocId
    requires r.chunks != []
  {
    r.chunks[0].document
  }

  predicate Covers(r: Run, pos: Pos) {
    r.chunks != [] && pos.document == DocumentOf(r) && Lo(r) <= pos.index < Lo(r) + |r.chunks|
  }

  /** Some run of the list covers the position. */
  ghost predicate Covered(runs: seq<Run>, pos: Pos) {
    exists r {:trigger Covers(r, pos)} :: r in runs && Covers(r, pos)
  }

  ghost predicate Placed(byPos: map<Pos, Candidate>, wanted: map<Pos, real>) {
    forall pos {:trigger pos in wanted} :: pos in wanted ==> pos in byPos && PosOf(byPos[pos]) == pos
  }

  /** The score is the greatest of the wanted scores inside the run. */
  ghost predicate TopScore(wanted: map<Pos, real>, r: Run) {
    && (exists pos {:trigger Covers(r, pos)} :: Covers(r, pos) && pos in wanted && wanted[pos] == r.score)
    && (forall pos {:trigger Covers(r, pos)} :: Covers(r, pos) && pos in wanted ==> wanted[pos] <= r.score)
  }

  /** A maximal block of wanted positions of one document. */
  ghost predicate IsRun(byPos: map<Pos, Candidate>, wanted: map<Pos, real>, r: Run) {
    && r.chunks != []
    && (forall pos {:trigger Covers(r, pos)} :: Covers(r, pos) ==>
          pos in wanted && pos in byPos && r.chunks[pos.index - Lo(r)] == byPos[pos])
    && Pos(DocumentOf(r), Lo(r) - 1) !in wanted
    && Pos(DocumentOf(r), Lo(r) + |r.chunks|) !in wanted
    && TopScore(wanted, r)
  }

  /** Two maximal blocks that share a position are the same block. */
  lemma RunsMeet(byPos: map<Pos, Candidate>, wanted: map<Pos, real>, a: Run, b: Run, pos: Pos)
    requires IsRun(byPos, wanted, a) && IsRun(byPos, wanted, b) && Covers(a, pos) && Covers(b, pos)
    ensures a == b
  {
    var d := pos.document;
    assert Lo(a) < Lo(b) ==> Covers(a, Pos(d, Lo(b) - 1));
    assert Lo(b) < Lo(a) ==> Covers(b, Pos(d, Lo(a) - 1));
    assert |a.chunks| < |b.chunks| && Lo(a) == Lo(b) ==> Covers(b, Pos(d, Lo(a) + |a.chunks|));
    assert |b.chunks| < |a.chunks| && Lo(a) == Lo(b) ==> Covers(a, Pos(d, Lo(b) + |b.chunks|));
    forall k | 0 <= k < |a.chunks|
      ensures a.chunks[k] == b.chunks[k]
    {
      assert Covers(a, Pos(d, Lo(a) + k)) && Covers(b, Pos(d, Lo(b) + k));
    }
    assert a.chunks == b.chunks;
    var top :| Covers(a, top) && top in wanted && wanted[top] == a.score;
    var peak :| Covers(b, peak) && peak in wanted && wanted[peak] == b.score;
    assert Covers(b, top) && Covers(a, peak);
  }

  /** `run` lists consecutive wanted positions, and the position before them is not wanted. */
  ghost predicate Open(wanted: map<Pos, real>, document: DocId, run: seq<int>) {
    && (forall k {:trigger run[k]} :: 0 <= k < |run| ==> run[k] == run[0] + k && Pos(document, run[k]) in wanted)
    && (run != [] ==> Pos(document, run[0] - 1) !in wanted)
  }

  function MaxOver(wanted: map<Pos, real>, document: DocId, run: seq<int>): (m: real)
    requires run != [] && forall k {:trigger run[k]} :: 0 <= k < |run| ==> Pos(document, run[k]) in wanted
    ensures exists k {:trigger run[k]} :: 0 <= k < |run| && wanted[Pos(document, run[k])] == m
    ensures forall k {:trigger run[k]} :: 0 <= k < |run| ==> wanted[Pos(document, run[k])] <= m
    decreases |run|
  {
    var n := |run| - 1;
    var x := wanted[Pos(document, run[n])];
    if n == 0 then x
    else
      assert forall k {:trigger run[k]} :: 0 <= k < n ==> run[..n][k] == run[k];
      var m := MaxOver(wanted, document, run[..n]);
      if m >= x then m else x
  }

  /** `r` holds the chunks at the listed positions and their greatest wanted score. */
  ghost predicate Built(byPos: map<Pos, Candidate>, wanted: map<Pos, real>, document: DocId, run: seq<int>, r: Run)
    requires run != []
  {
    && |r.chunks| == |run| && DocumentOf(r) == document && Lo(r) == run[0]
    && (forall k {:trigger run[k]} :: 0 <= k < |run| ==>
          var pos := Pos(document, run[k]);
          pos in wanted && pos in byPos && r.chunks[k] == byPos[pos] && wanted[pos] <= r.score)
    && (exists k {:trigger run[k]} :: 0 <= k < |run| && wanted[Pos(document, run[k])] == r.score)
  }

  function RunOf(byPos: map<Pos, Candidate>, wanted: map<Pos, real>, document: DocId, run: seq<int>): (r: Run)
    requires run != [] && Placed(byPos, wanted)
    requires forall k {:trigger run[k]} :: 0 <= k < |run| ==> Pos(document, run[k]) in wanted
    ensures Built(byPos, wanted, document, run, r)
  {
    Run(MaxOver(wanted, document, run),
        seq(|run|, k requires 0 <= k < |run| && Pos(document, run[k]) in byPos => byPos[Pos(document, run[k])]))
  }

  lemma InsideRun(byPos: map<Pos, Candidate>, wanted: map<Pos, real>, document: DocId, run: seq<int>, r: Run, pos: Pos)
    requires run != [] && Open(wanted, document, run) && Built(byPos, wanted, document, run, r) && Covers(r, pos)
    ensures pos in wanted && pos in byPos && r.chunks[pos.index - Lo(r)] == byPos[pos] && wanted[pos] <= r.score
  {
    var k := pos.index - run[0];
    assert run[k] == pos.index;
  }

  lemma ClosedRun(byPos: map<Pos, Candidate>, wanted: map<Pos, real>, document: DocId, run: seq<int>, r: Run)
    requires run != [] && Open(wanted, document, run) && Built(byPos, wanted, document, run, r)
    requires Pos(document, run[0] + |run|) !in wanted
    ensures IsRun(byPos, wanted, r)
  {
    forall pos | Covers(r, pos)
      ensures pos in wanted && pos in byPos && r.chunks[pos.index - Lo(r)] == byPos[pos] && wanted[pos] <= r.score
    {
      InsideRun(byPos, wanted, document, run, r, pos);
    }
    var k :| 0 <= k < |run| && wanted[Pos(document, run[k])] == r.score;
    assert Covers(r, Pos(document, run[k]));
  }

  /** Every position before `bound` of the document is covered, apart from those in `run`. */
  ghost predicate Grouped(byPos: map<Pos, Candidate>, wanted: map<Pos, real>, document: DocId, runs: seq<Run>, bound: int) {
    && (forall i {:trigger runs[i]} :: 0 <= i < |runs| ==> IsRun(byPos, wanted, runs[i]) && DocumentOf(runs[i]) == document)
    && (forall i {:trigger runs[i]} :: 0 <= i < |runs| ==> Lo(runs[i]) + |runs[i].chunks| <= bound)
    && (forall i, j {:trigger runs[i], runs[j]} :: 0 <= i < j < |runs| ==> Lo(runs[i]) < Lo(runs[j]))
    && (forall pos: Pos {:trigger Covered(runs, pos)} :: pos in wanted && pos.document == document && pos.index < bound ==>
          Covered(runs, pos))
  }

  /** One more run covers what the runs before it left. */
  lemma CoveredNext(runs: seq<Run>, r: Run, pos: Pos)
    requires Covered(runs, pos) || Covers(r, pos)
    ensures Covered(runs + [r], pos)
  {
    if Covered(runs, pos) {
      var r' :| r' in runs && Covers(r', pos);
      assert r' in runs + [r];
    } else {
      assert r in runs + [r];
    }
  }

  lemma CloseGroup(byPos: map<Pos, Candidate>, wanted: map<Pos, real>, document: DocId, runs: seq<Run>, run: seq<int>, r: Run)
    requires run != [] && Open(wanted, document, run) && Built(byPos, wanted, document, run, r)
    requires Grouped(byPos, wanted, document, runs, run[0])
    requires Pos(document, run[0] + |run|) !in wanted
    ensures Grouped(byPos, wanted, document, runs + [r], run[0] + |run|)
  {
    ClosedRun(byPos, wanted, document, run, r);
    var runs', bound := runs + [r], run[0] + |run|;
    forall pos: Pos | pos in wanted && pos.document == document && pos.index < bound
      ensures Covered(runs', pos)
    {
      assert pos.index < run[0] ==> Covered(runs, pos);
      CoveredNext(runs, r, pos);
    }
  }

  ghost predicate Lists(xs: seq<int>, wanted: map<Pos, real>, document: DocId) {
    && (forall i, j {:trigger xs[i], xs[j]} :: 0 <= i < j < |xs| ==> xs[i] < xs[j])
    && (forall x {:trigger x in xs} {:trigger Pos(document, x)} :: x in xs <==> Pos(document, x) in wanted)
  }

  function SortedPositions(wanted: map<Pos, real>, document: DocId): (xs: seq<int>)
    ensures Lists(xs, wanted, document)
  {
    SortedSet(PositionsOf(wanted, document))
  }

  /** Nothing is wanted between two neighbours of the ascending listing. */
  lemma NoneBetween(xs: seq<int>, wanted: map<Pos, real>, document: DocId, i: nat, x: int)
    requires Lists(xs, wanted, document) && i <= |xs|
    requires (i == 0 || xs[i - 1] < x) && (i == |xs| || x < xs[i])
    ensures Pos(document, x) !in wanted
  {
    forall k | 0 <= k < |xs|
      ensures xs[k] != x
    {
      if k < i { assert k == i - 1 || xs[k] < xs[i - 1]; } else { assert k == i || xs[i] < xs[k]; }
    }
  }

  lemma RaiseBound(byPos: map<Pos, Candidate>, wanted: map<Pos, real>, document: DocId, runs: seq<Run>, bound: int,
                   xs: seq<int>, i: nat)
    requires Lists(xs, wanted, document) && i < |xs| && Grouped(byPos, wanted, document, runs, bound)
    requires bound <= xs[i] && (i == 0 || xs[i - 1] < bound)
    ensures Grouped(byPos, wanted, document, runs, xs[i])
  {
    forall pos: Pos | pos in wanted && pos.document == document && pos.index < xs[i]
      ensures pos.index < bound
    {
      if pos.index >= bound { NoneBetween(xs, wanted, document, i, pos.index); }
    }
  }

  /** The group that has just been opened by `xs[i]`, and the runs closed before it. */
  ghost predicate Grouping(byPos: map<Pos, Candidate>, wanted: map<Pos, real>, document: DocId, xs: seq<int>, i: nat,
                           runs: seq<Run>, run: seq<int>) {
    && i <= |xs|
    && (i == 0 ==> runs == [] && run == [])
    && (i > 0 ==> run != [] && Open(wanted, document, run) && run[0] + |run| == xs[i - 1] + 1
                  && Grouped(byPos, wanted, document, runs, run[0]))
  }

  /** `xs[i]` is about to be added: to a new group, or to one that it continues. */
  ghost predicate Ready(byPos: map<Pos, Candidate>, wanted: map<Pos, real>, document: DocId, xs: seq<int>, i: nat,
                        runs: seq<Run>, run: seq<int>) {
    && i < |xs|
    && if run == [] then Grouped(byPos, wanted, document, runs, xs[i]) && Pos(document, xs[i] - 1) !in wanted
       else Open(wanted, document, run) && run[0] + |run| == xs[i] && Grouped(byPos, wanted, document, runs, run[0])
  }

  lemma Append(byPos: map<Pos, Candidate>, wanted: map<Pos, real>, document: DocId, xs: seq<int>, i: nat,
               runs: seq<Run>, run: seq<int>)
    requires Lists(xs, wanted, document) && Ready(byPos, wanted, document, xs, i, runs, run)
    ensures Grouping(byPos, wanted, document, xs, i + 1, runs, run + [xs[i]])
  {
    assert xs[i] in xs;
    OpenAppend(wanted, document, run, xs[i]);
    assert (run + [xs[i]])[0] == if run == [] then xs[i] else run[0];
  }

  lemma OpenAppend(wanted: map<Pos, real>, document: DocId, run: seq<int>, x: int)
    requires Open(wanted, document, run) && Pos(document, x) in wanted
    requires if run == [] then Pos(document, x - 1) !in wanted else run[0] + |run| == x
    ensures Open(wanted, document, run + [x])
  {
    forall k | 0 <= k < |run| + 1
      ensures (run + [x])[k] == (run + [x])[0] + k && Pos(document, (run + [x])[k]) in wanted
    {
      if k < |run| { assert (run + [x])[k] == run[k]; }
    }
  }

  /** A gap before `xs[n]` closes the open group. */
  lemma Flush(byPos: map<Pos, Candidate>, wanted: map<Pos, real>, document: DocId, xs: seq<int>, n: nat,
              runs: seq<Run>, run: seq<int>, r: Run)
    requires Lists(xs, wanted, document) && Grouping(byPos, wanted, document, xs, n, runs, run)
    requires 0 < n < |xs| && run[0] + |run| != xs[n] && Built(byPos, wanted, document, run, r)
    ensures Ready(byPos, wanted, document, xs, n, runs + [r], [])
  {
    assert xs[n - 1] < xs[n];
    NoneBetween(xs, wanted, document, n, run[0] + |run|);
    NoneBetween(xs, wanted, document, n, xs[n] - 1);
    CloseGroup(byPos, wanted, document, runs, run, r);
    RaiseBound(byPos, wanted, document, runs + [r], run[0] + |run|, xs, n);
  }

  lemma FirstGroup(byPos: map<Pos, Candidate>, wanted: map<Pos, real>, document: DocId, xs: seq<int>)
    requires Lists(xs, wanted, document) && xs != []
    ensures Ready(byPos, wanted, document, xs, 0, [], [])
  {
    NoneBetween(xs, wanted, document, 0, xs[0] - 1);
    forall pos: Pos | pos in wanted && pos.document == document
      ensures pos.index >= xs[0]
    {
      if pos.index < xs[0] { NoneBetween(xs, wanted, document, 0, pos.index); }
    }
  }

  /** The closed groups of one document are its maximal blocks in ascending order. */
  ghost predicate Blocks(byPos: map<Pos, Candidate>, wanted: map<Pos, real>, document: DocId, runs: seq<Run>) {
    && (forall i {:trigger runs[i]} :: 0 <= i < |runs| ==> IsRun(byPos, wanted, runs[i]) && DocumentOf(runs[i]) == document)
    && (forall i, j {:trigger runs[i], runs[j]} :: 0 <= i < j < |runs| ==> Lo(runs[i]) < Lo(runs[j]))
    && (forall pos: Pos {:trigger Covered(runs, pos)} :: pos in wanted && pos.document == document ==>
          Covered(runs, pos))
  }

  lemma LastGroup(byPos: map<Pos, Candidate>, wanted: map<Pos, real>, document: DocId, xs: seq<int>,
                  runs: seq<Run>, run: seq<int>, r: Run)
    requires Lists(xs, wanted, document) && Grouping(byPos, wanted, document, xs, |xs|, runs, run) && xs != []
    requires Built(byPos, wanted, document, run, r)
    ensures Blocks(byPos, wanted, document, runs + [r])
  {
    var bound := run[0] + |run|;
    NoneBetween(xs, wanted, document, |xs|, bound);
    CloseGroup(byPos, wanted, document, runs, run, r);
    NoneAfter(xs, wanted, document, bound);
    GroupedIsBlocks(byPos, wanted, document, runs + [r], bound);
  }

  lemma NoneAfter(xs: seq<int>, wanted: map<Pos, real>, document: DocId, bound: int)
    requires Lists(xs, wanted, document) && xs != [] && xs[|xs| - 1] < bound
    ensures forall pos: Pos {:trigger pos in wanted} :: pos in wanted && pos.document == document ==> pos.index < bound
  {
    forall pos: Pos | pos in wanted && pos.document == document
      ensures pos.index < bound
    {
      if pos.index >= bound { NoneBetween(xs, wanted, document, |xs|, pos.index); }
    }
  }

  lemma GroupedIsBlocks(byPos: map<Pos, Candidate>, wanted: map<Pos, real>, document: DocId, runs: seq<Run>, bound: int)
    requires Grouped(byPos, wanted, document, runs, bound)
    requires forall pos: Pos {:trigger pos in wanted} :: pos in wanted && pos.document == document ==> pos.index < bound
    ensures Blocks(byPos, wanted, document, runs)
  {
  }

  method GroupDocument(byPos: map<Pos, Candidate>, wanted: map<Pos, real>, document: DocId) returns (runs: seq<Run>)
    requires Placed(byPos, wanted)
    ensures Blocks(byPos, wanted, document, runs)
  {
    runs := [];
    var run: seq<int> := [];
    var xs := SortedPositions(wanted, document);
    for n := 0 to |xs|
      invariant Grouping(byPos, wanted, document, xs, n, runs, run)
    {
      var i := xs[n];
      if n == 0 { FirstGroup(byPos, wanted, document, xs); }
      if run != [] && i != run[|run| - 1] + 1 {
        var r := RunOf(byPos, wanted, document, run);
        Flush(byPos, wanted, document, xs, n, runs, run, r);
        runs := runs + [r];
        run := [];
      }
      Append(byPos, wanted, document, xs, n, runs, run);
      run := run + [i];
    }
    if run != [] {
      var r := RunOf(byPos, wanted, document, run);
      LastGroup(byPos, wanted, document, xs, runs, run, r);
      runs := runs + [r];
    }
  }

  /** The list holds every maximal block, each once, and the blocks cover the wanted positions. */
  ghost predicate AllRuns(byPos: map<Pos, Candidate>, wanted: map<Pos, real>, runs: seq<Run>) {
    && (forall r {:trigger r in runs} {:trigger IsRun(byPos, wanted, r)} :: r in runs <==> IsRun(byPos, wanted, r))
    && (forall pos {:trigger Covered(runs, pos)} :: pos in wanted ==> Covered(runs, pos))
    && (forall r {:trigger multiset(runs)[r]} :: multiset(runs)[r] <= 1)
  }

  /** The runs of the first `m` documents. */
  ghost predicate RunsUpTo(byPos: map<Pos, Candidate>, wanted: map<Pos, real>, documents: seq<DocId>, m: nat, runs: seq<Run>)
    requires m <= |documents|
  {
    && (forall r {:trigger r in runs} :: r in runs ==> IsRun(byPos, wanted, r) && DocumentOf(r) in documents[..m])
    && (forall r {:trigger multiset(runs)[r]} :: multiset(runs)[r] <= 1)
    && (forall pos: Pos {:trigger Covered(runs, pos)} :: pos in wanted && pos.document in documents[..m] ==>
          Covered(runs, pos))
  }

  lemma {:induction false} BlocksOnce(byPos: map<Pos, Candidate>, wanted: map<Pos, real>, document: DocId, runs: seq<Run>, r: Run)
    requires forall i {:trigger runs[i]} :: 0 <= i < |runs| ==> runs[i].chunks != []
    requires forall i, j {:trigger runs[i], runs[j]} :: 0 <= i < j < |runs| ==> Lo(runs[i]) < Lo(runs[j])
    ensures multiset(runs)[r] <= 1
    decreases |runs|
  {
    if runs != [] {
      var n := |runs| - 1;
      assert runs == runs[..n] + [runs[n]];
      BlocksOnce(byPos, wanted, document, runs[..n], r);
      assert r == runs[n] ==> r !in runs[..n];
    }
  }

  lemma AddDocument(byPos: map<Pos, Candidate>, wanted: map<Pos, real>, documents: seq<DocId>, m: nat, runs: seq<Run>, more: seq<Run>)
    requires m < |documents| && (forall i, j :: 0 <= i < j < |documents| ==> documents[i] != documents[j])
    requires RunsUpTo(byPos, wanted, documents, m, runs) && Blocks(byPos, wanted, documents[m], more)
    ensures RunsUpTo(byPos, wanted, documents, m + 1, runs + more)
  {
    assert documents[..m + 1] == documents[..m] + [documents[m]];
    forall r
      ensures multiset(runs + more)[r] <= 1
    {
      BlocksOnce(byPos, wanted, documents[m], more, r);
      OtherDocument(byPos, wanted, documents, m, runs, more, r);
      assert multiset(runs + more)[r] == multiset(runs)[r] + multiset(more)[r];
    }
    CoverBoth(wanted, documents, m, runs, more);
  }

  lemma OtherDocument(byPos: map<Pos, Candidate>, wanted: map<Pos, real>, documents: seq<DocId>, m: nat, runs: seq<Run>,
                      more: seq<Run>, r: Run)
    requires m < |documents| && (forall i, j :: 0 <= i < j < |documents| ==> documents[i] != documents[j])
    requires RunsUpTo(byPos, wanted, documents, m, runs) && Blocks(byPos, wanted, documents[m], more)
    ensures r in runs ==> r !in more
    ensures r in runs + more ==> IsRun(byPos, wanted, r) && DocumentOf(r) in documents[..m] + [documents[m]]
  {
    assert documents[m] !in documents[..m];
  }

  lemma CoverBoth(wanted: map<Pos, real>, documents: seq<DocId>, m: nat, runs: seq<Run>, more: seq<Run>)
    requires m < |documents|
    requires forall pos: Pos {:trigger Covered(runs, pos)} :: pos in wanted && pos.document in documents[..m] ==>
               Covered(runs, pos)
    requires forall pos: Pos {:trigger Covered(more, pos)} :: pos in wanted && pos.document == documents[m] ==>
               Covered(more, pos)
    ensures forall pos: Pos {:trigger Covered(runs + more, pos)} :: pos in wanted && pos.document in documents[..m + 1] ==>
              Covered(runs + more, pos)
  {
    assert documents[..m + 1] == documents[..m] + [documents[m]];
    forall pos: Pos | pos in wanted && pos.document in documents[..m + 1]
      ensures Covered(runs + more, pos)
    {
      if pos.document in documents[..m] {
        assert Covered(runs, pos);
        var r :| r in runs && Covers(r, pos);
        assert r in runs + more;
      } else {
        assert Covered(more, pos);
        var r :| r in more && Covers(r, pos);
        assert r in runs + more;
      }
    }
  }

  lemma AllCovered(byPos: map<Pos, Candidate>, wanted: map<Pos, real>, documents: seq<DocId>, runs: seq<Run>)
    requires RunsUpTo(byPos, wanted, documents, |documents|, runs) && Documents(documents, wanted)
    ensures AllRuns(byPos, wanted, runs)
  {
    assert documents[..|documents|] == documents;
    forall r | IsRun(byPos, wanted, r)
      ensures r in runs
    {
      var pos := Pos(DocumentOf(r), Lo(r));
      assert Covers(r, pos);
      assert Covered(runs, pos);
      var r' :| r' in runs && Covers(r', pos);
      RunsMeet(byPos, wanted, r, r', pos);
    }
  }

  method GroupRuns(byPos: map<Pos, Candidate>, documents: seq<DocId>, wanted: map<Pos, real>) returns (runs: seq<Run>)
    requires Placed(byPos, wanted) && Documents(documents, wanted)
    ensures AllRuns(byPos, wanted, runs)
  {
    runs := [];
    for m := 0 to |documents|
      invariant RunsUpTo(byPos, wanted, documents, m, runs)
    {
      var more := GroupDocument(byPos, wanted, documents[m]);
      AddDocument(byPos, wanted, documents, m, runs, more);
      runs := runs + more;
    }
    AllCovered(byPos, wanted, documents, runs);
  }

  // ----- the token budget -----

  function Cost(chunks: seq<Candidate>): (n: nat)
    ensures n >= |chunks|
    decreases |chunks|
  {
    if chunks == [] then 0 else Cost(chunks[..|chunks| - 1]) + Tokens(chunks[|chunks| - 1])
  }

  /** What the i-th run contributes: all of it if it fits, one chunk if it is the first, else nothing. */
  function Granted(runs: seq<Run>, maxTokens: int, i: nat): seq<Candidate>
    requires i < |runs|
    decreases i, 1
  {
    if Used(runs, maxTokens, i) + Cost(runs[i].chunks) <= maxTokens then runs[i].chunks
    else if i == 0 && runs[i].chunks != [] then runs[i].chunks[..1]
    else []
  }

  function Used(runs: seq<Run>, maxTokens: int, i: nat): nat
    requires i <= |runs|
    decreases i, 0
  {
    if i == 0 then 0 else Used(runs, maxTokens, i - 1) + Cost(Granted(runs, maxTokens, i - 1))
  }

  function Ids(chunks: seq<Candidate>): seq<nat> {
    seq(|chunks|, i requires 0 <= i < |chunks| => chunks[i].id)
  }

  function PageOf(chunks: seq<Candidate>, better: (int, int) -> bool): Option<int>
    decreases |chunks|
  {
    if chunks == [] then None
    else
      var before, page := PageOf(chunks[..|chunks| - 1], better), chunks[|chunks| - 1].page;
      if page.Some? && (before.None? || better(page.value, before.value)) then page else before
  }

  /** The first section that is set and not empty. */
  function SectionOf(chunks: seq<Candidate>): Option<string> {
    if chunks == [] then None
    else if chunks[0].section.Some? && chunks[0].section.value != "" then chunks[0].section
    else SectionOf(chunks[1..])
  }

  function Joined(chunks: seq<Candidate>): string {
    if chunks == [] then "" else if |chunks| == 1 then chunks[0].text else chunks[0].text + "\n" + Joined(chunks[1..])
  }

  function PassageOf(id: nat, score: real, chunks: seq<Candidate>): Passage
    requires chunks != []
  {
    Passage(id, chunks[0].document, Ids(chunks), (chunks[0].index, chunks[|chunks| - 1].index),
            PageOf(chunks, (x, y) => x < y), PageOf(chunks, (x, y) => x > y),
            SectionOf(chunks), Joined(chunks), score, Cost(chunks))
  }

  /** One passage per run that was granted something, numbered from 1. */
  function Filled(runs: seq<Run>, maxTokens: int, i: nat): seq<Passage>
    requires i <= |runs|
    decreases i
  {
    if i == 0 then []
    else
      var before, chunks := Filled(runs, maxTokens, i - 1), Granted(runs, maxTokens, i - 1);
      if chunks == [] then before else before + [PassageOf(|before| + 1, runs[i - 1].score, chunks)]
  }

  method Fill(runs: seq<Run>, maxTokens: int) returns (passages: seq<Passage>)
    requires forall i :: 0 <= i < |runs| ==> runs[i].chunks != []
    ensures passages == Filled(runs, maxTokens, |runs|)
  {
    passages := [];
    var used := 0;
    for i := 0 to |runs|
      invariant passages == Filled(runs, maxTokens, i) && used == Used(runs, maxTokens, i)
      invariant i > 0 ==> passages != []
    {
      var chunks := runs[i].chunks;
      var cost := Cost(chunks);
      if used + cost > maxTokens {
        if passages != [] { continue; }
        chunks := chunks[..1];
        cost := Cost(chunks);
      }
      passages := passages + [PassageOf(|passages| + 1, runs[i].score, chunks)];
      used := used + cost;
    }
  }

  // ----- ordering the runs -----

  function Keyed(runs: seq<Run>): seq<(real, Run)> {
    seq(|runs|, i requires 0 <= i < |runs| => (runs[i].score, runs[i]))
  }

  ghost predicate Ranked(runs: seq<Run>) {
    forall i, j :: 0 <= i < j < |runs| ==> runs[i].score >= runs[j].score
  }

  lemma {:induction false} KeyedPayloads(runs: seq<Run>)
    ensures Payloads(Keyed(runs)) == runs
  {
    if runs != [] {
      KeyedPayloads(runs[1..]);
      assert Keyed(runs)[1..] == Keyed(runs[1..]);
    }
  }

  method SortRuns(runs0: seq<Run>) returns (runs: seq<Run>)
    ensures Keyed(runs) == SortDesc(Keyed(runs0))
    ensures Ranked(runs) && multiset(runs) == multiset(runs0)
  {
    var rows := SortDesc(Keyed(runs0));
    SortDescIsStable(Keyed(runs0), 0.0);
    SortPayloads(Keyed(runs0));
    KeyedPayloads(runs0);
    forall row | row in rows
      ensures row.0 == row.1.score
    {
      assert row in multiset(Keyed(runs0));
    }
    runs := Payloads(rows);
    PayloadsKeyed(rows);
  }

  lemma {:induction false} PayloadsKeyed(rows: seq<(real, Run)>)
    requires forall row :: row in rows ==> row.0 == row.1.score
    ensures Keyed(Payloads(rows)) == rows
    ensures Descending(rows) ==> Ranked(Payloads(rows))
  {
    forall i | 0 <= i < |rows|
      ensures |Payloads(rows)| == |rows| && Payloads(rows)[i] == rows[i].1 && rows[i].0 == rows[i].1.score
    {
      PayloadAt(rows, i);
      assert rows[i] in rows;
    }
  }

  lemma SameRuns(byPos: map<Pos, Candidate>, wanted: map<Pos, real>, a: seq<Run>, b: seq<Run>)
    requires multiset(a) == multiset(b) && AllRuns(byPos, wanted, a)
    ensures AllRuns(byPos, wanted, b)
  {
    forall r
      ensures r in b <==> r in a
    {
      assert r in b <==> r in multiset(b);
    }
    forall pos | pos in wanted
      ensures Covered(b, pos)
    {
      assert Covered(a, pos);
      var r :| r in a && Covers(r, pos);
    }
  }

  lemma {:induction false} LastAtIsAt(cs: seq<Candidate>, pos: Pos)
    ensures LastAt(cs, pos).Some? ==> LastAt(cs, pos).value in cs && PosOf(LastAt(cs, pos).value) == pos
    ensures LastAt(cs, pos).None? ==> forall c :: c in cs ==> PosOf(c) != pos
    decreases |cs|
  {
    if cs != [] {
      assert cs == cs[..|cs| - 1] + [cs[|cs| - 1]];
      LastAtIsAt(cs[..|cs| - 1], pos);
    }
  }

  lemma WantedArePlaced(byPos: map<Pos, Candidate>, cs: seq<Candidate>, wanted: map<Pos, real>, selected: seq<Candidate>, window: int)
    requires Indexes(byPos, cs) && Scores(wanted, byPos, selected, window)
    ensures Placed(byPos, wanted)
  {
    forall pos | pos in wanted
      ensures pos in byPos && PosOf(byPos[pos]) == pos
    {
      assert ScoreAt(wanted, byPos, selected, window, pos);
      LastAtIsAt(cs, pos);
    }
  }

  // ----- properties of the runs -----

  lemma {:induction false} BestIsMax(selected: seq<Candidate>, window: int, pos: Pos)
    ensures Best(selected, window, pos).Some? <==> exists c :: c in selected && Reaches(c, window, pos)
    ensures Best(selected, window, pos).Some? ==>
              && (exists c :: c in selected && Reaches(c, window, pos) && c.relevance == Best(selected, window, pos).value)
              && (forall c :: c in selected && Reaches(c, window, pos) ==> c.relevance <= Best(selected, window, pos).value)
    decreases |selected|
  {
    if selected != [] {
      var n := |selected| - 1;
      assert selected == selected[..n] + [selected[n]];
      BestIsMax(selected[..n], window, pos);
      assert selected[n] in selected;
    }
  }

  ghost predicate Assembled(selected: seq<Candidate>, neighbors: seq<Candidate>, window: int,
                            byPos: map<Pos, Candidate>, wanted: map<Pos, real>, runs: seq<Run>) {
    && Indexes(byPos, neighbors + selected) && Scores(wanted, byPos, selected, window)
    && AllRuns(byPos, wanted, runs)
  }

  /** A run's score is the best relevance among the selected chunks whose window reaches into it. */
  lemma RunScoreIsBestRelevance(selected: seq<Candidate>, neighbors: seq<Candidate>, window: int,
                                byPos: map<Pos, Candidate>, wanted: map<Pos, real>, runs: seq<Run>, r: Run)
    requires Assembled(selected, neighbors, window, byPos, wanted, runs) && r in runs
    ensures exists c, pos :: c in selected && Covers(r, pos) && Reaches(c, window, pos) && c.relevance == r.score
    ensures forall c, pos :: c in selected && Covers(r, pos) && Reaches(c, window, pos) ==> c.relevance <= r.score
  {
    assert IsRun(byPos, wanted, r);
    var top :| Covers(r, top) && top in wanted && wanted[top] == r.score;
    assert ScoreAt(wanted, byPos, selected, window, top);
    BestIsMax(selected, window, top);
    forall c, pos | c in selected && Covers(r, pos) && Reaches(c, window, pos)
      ensures c.relevance <= r.score
    {
      assert ScoreAt(wanted, byPos, selected, window, pos);
      BestIsMax(selected, window, pos);
    }
  }

  /** A selected chunk's own position is wanted as soon as the window is not negative. */
  lemma SelectedIsWanted(selected: seq<Candidate>, neighbors: seq<Candidate>, window: int,
                         byPos: map<Pos, Candidate>, wanted: map<Pos, real>, runs: seq<Run>, c: Candidate)
    requires Assembled(selected, neighbors, window, byPos, wanted, runs) && c in selected && window >= 0
    ensures PosOf(c) in wanted && Covered(runs, PosOf(c))
  {
    assert c in neighbors + selected;
    LastAtIsAt(neighbors + selected, PosOf(c));
    assert PosOf(c) in byPos;
    BestIsMax(selected, window, PosOf(c));
    assert Reaches(c, window, PosOf(c)) && ScoreAt(wanted, byPos, selected, window, PosOf(c));
  }

  lemma SomeWindowReaches(selected: seq<Candidate>, neighbors: seq<Candidate>, window: int,
                          byPos: map<Pos, Candidate>, wanted: map<Pos, real>, runs: seq<Run>, r: Run)
    returns (c: Candidate, inside: Pos)
    requires Assembled(selected, neighbors, window, byPos, wanted, runs) && r in runs
    ensures c in selected && Covers(r, inside) && Reaches(c, window, inside)
  {
    assert IsRun(byPos, wanted, r);
    inside :| Covers(r, inside) && inside in wanted && wanted[inside] == r.score;
    assert ScoreAt(wanted, byPos, selected, window, inside);
    BestIsMax(selected, window, inside);
    c :| c in selected && Reaches(c, window, inside);
  }

  /** With a window of at most one, every run contains a selected chunk. */
  lemma NarrowRunsHoldSelected(selected: seq<Candidate>, neighbors: seq<Candidate>, window: int,
                               byPos: map<Pos, Candidate>, wanted: map<Pos, real>, runs: seq<Run>, r: Run)
    requires Assembled(selected, neighbors, window, byPos, wanted, runs) && r in runs && window <= 1
    ensures exists c :: c in selected && Covers(r, PosOf(c))
  {
    var c, inside := SomeWindowReaches(selected, neighbors, window, byPos, wanted, runs, r);
    SelectedIsWanted(selected, neighbors, window, byPos, wanted, runs, c);
    NextToRun(byPos, wanted, r, inside, PosOf(c));
  }

  /** A wanted position next to a run belongs to it. */
  lemma NextToRun(byPos: map<Pos, Candidate>, wanted: map<Pos, real>, r: Run, inside: Pos, pos: Pos)
    requires IsRun(byPos, wanted, r) && Covers(r, inside) && pos in wanted
    requires pos.document == inside.document && inside.index - 1 <= pos.index <= inside.index + 1
    ensures Covers(r, pos)
  {
    assert pos == Pos(DocumentOf(r), pos.index);
  }

  /** A wanted chunk with a gap on both sides is a run of its own. */
  lemma LoneRun(byPos: map<Pos, Candidate>, wanted: map<Pos, real>, c: Candidate)
    requires PosOf(c) in byPos && byPos[PosOf(c)] == c && PosOf(c) in wanted
    requires Pos(c.document, c.index - 1) !in wanted && Pos(c.document, c.index + 1) !in wanted
    ensures IsRun(byPos, wanted, Run(wanted[PosOf(c)], [c]))
  {
    var r := Run(wanted[PosOf(c)], [c]);
    assert Covers(r, PosOf(c));
    assert forall pos: Pos :: Covers(r, pos) ==> pos == PosOf(c);
  }

  /** Two chunks that are the only wanted ones, with a gap between them, are the two runs. */
  lemma TwoRuns(byPos: map<Pos, Candidate>, wanted: map<Pos, real>, a: Candidate, b: Candidate)
    requires a.document == b.document && a.index + 1 < b.index
    requires byPos == map[PosOf(a) := a, PosOf(b) := b] && wanted.Keys == {PosOf(a), PosOf(b)}
    ensures AllRuns(byPos, wanted, [Run(wanted[PosOf(a)], [a]), Run(wanted[PosOf(b)], [b])])
  {
    var first, second := Run(wanted[PosOf(a)], [a]), Run(wanted[PosOf(b)], [b]);
    var runs := [first, second];
    LoneRun(byPos, wanted, a);
    LoneRun(byPos, wanted, b);
    assert Covers(first, PosOf(a)) && Covers(second, PosOf(b)) && first in runs && second in runs;
    forall r | IsRun(byPos, wanted, r)
      ensures r in runs
    {
      var pos := Pos(DocumentOf(r), Lo(r));
      assert Covers(r, pos);
      if pos == PosOf(a) { RunsMeet(byPos, wanted, r, first, pos); } else { RunsMeet(byPos, wanted, r, second, pos); }
    }
  }

  /** A stray neighbour two or more positions before the only selected chunk, within its window. */
  lemma StrayIsAssembled(window: int, near: Candidate, far: Candidate)
    requires window >= 2 && PosOf(near) == Pos(0, 0) && PosOf(far) == Pos(0, window) && far.relevance == 0.0
    ensures Assembled([far], [near], window, map[PosOf(near) := near, PosOf(far) := far],
                      map[PosOf(near) := 0.0, PosOf(far) := 0.0], [Run(0.0, [near]), Run(0.0, [far])])
  {
    var byPos, wanted := map[PosOf(near) := near, PosOf(far) := far], map[PosOf(near) := 0.0, PosOf(far) := 0.0];
    forall pos
      ensures LastAt([near] + [far], pos) == if pos in byPos then Some(byPos[pos]) else None
    {
      AppendAt([near], far, pos);
      AppendAt([], near, pos);
      assert [] + [near] == [near];
    }
    forall pos
      ensures ScoreAt(wanted, byPos, [far], window, pos)
    {
      assert [far][..0] == [] && Best([], window, pos) == None;
      assert Best([far], window, pos) == if Reaches(far, window, pos) then Some(0.0) else None;
    }
    TwoRuns(byPos, wanted, near, far);
  }

  /** For every wider window an input with a run that holds none of the selected chunks. */
  lemma WideRunsMayHoldNone(window: int)
    returns (selected: seq<Candidate>, neighbors: seq<Candidate>, byPos: map<Pos, Candidate>, wanted: map<Pos, real>,
             runs: seq<Run>, r: Run)
    requires window >= 2
    ensures Assembled(selected, neighbors, window, byPos, wanted, runs) && r in runs
    ensures forall c :: c in selected ==> !Covers(r, PosOf(c))
  {
    var near, far := Candidate(0, 0, 0, "", None, None, None, 0.0), Candidate(1, 0, window, "", None, None, None, 0.0);
    StrayIsAssembled(window, near, far);
    selected, neighbors := [far], [near];
    byPos, wanted := map[PosOf(near) := near, PosOf(far) := far], map[PosOf(near) := 0.0, PosOf(far) := 0.0];
    r := Run(0.0, [near]);
    runs := [r, Run(0.0, [far])];
  }

  /** Every run of every input contains a selected chunk exactly when the window is at most one. */
  lemma RunsHoldSelectedIff(window: int)
    ensures (forall selected, neighbors, byPos, wanted, runs, r
               {:trigger Assembled(selected, neighbors, window, byPos, wanted, runs), r in runs} ::
               Assembled(selected, neighbors, window, byPos, wanted, runs) && r in runs ==>
               exists c :: c in selected && Covers(r, PosOf(c)))
            <==> window <= 1
  {
    if window <= 1 {
      forall selected, neighbors, byPos, wanted, runs, r
        {:trigger Assembled(selected, neighbors, window, byPos, wanted, runs), r in runs}
        | Assembled(selected, neighbors, window, byPos, wanted, runs) && r in runs
        ensures exists c :: c in selected && Covers(r, PosOf(c))
      {
        NarrowRunsHoldSelected(selected, neighbors, window, byPos, wanted, runs, r);
      }
    } else {
      var selected, neighbors, byPos, wanted, runs, r := WideRunsMayHoldNone(window);
    }
  }

  // ----- properties of the budget -----

  function Total(passages: seq<Passage>): nat
    decreases |passages|
  {
    if passages == [] then 0 else Total(passages[..|passages| - 1]) + passages[|passages| - 1].tokenCount
  }

  lemma {:induction false} TotalIsUsed(runs: seq<Run>, maxTokens: int, i: nat)
    requires i <= |runs|
    ensures Total(Filled(runs, maxTokens, i)) == Used(runs, maxTokens, i)
  {
    if i > 0 {
      TotalIsUsed(runs, maxTokens, i - 1);
      var after := Filled(runs, maxTokens, i);
      if Granted(runs, maxTokens, i - 1) != [] { assert after[..|after| - 1] == Filled(runs, maxTokens, i - 1); }
    }
  }

  lemma {:induction false} UsedWithin(runs: seq<Run>, maxTokens: int, i: nat)
    requires 0 < i <= |runs| && forall k :: 0 <= k < |runs| ==> runs[k].chunks != []
    ensures Filled(runs, maxTokens, i) != []
    ensures Used(runs, maxTokens, i) <= maxTokens
            || (|Filled(runs, maxTokens, i)| == 1 && |Filled(runs, maxTokens, i)[0].chunkIds| == 1)
  {
    if i > 1 {
      UsedWithin(runs, maxTokens, i - 1);
    } else {
      assert Used(runs, maxTokens, 1) == Cost(Granted(runs, maxTokens, 0));
    }
  }

  /** The passages fit the budget, or there is exactly one and it holds exactly one chunk. */
  lemma BudgetHolds(runs: seq<Run>, maxTokens: int)
    requires forall k :: 0 <= k < |runs| ==> runs[k].chunks != []
    ensures var passages := Filled(runs, maxTokens, |runs|);
            && (passages == [] <==> runs == [])
            && (passages != [] ==> Total(passages) <= maxTokens || (|passages| == 1 && |passages[0].chunkIds| == 1))
  {
    TotalIsUsed(runs, maxTokens, |runs|);
    if runs != [] { UsedWithin(runs, maxTokens, |runs|); }
  }

  lemma {:induction false} UsedGrows(runs: seq<Run>, maxTokens: int, i: nat, j: nat)
    requires i <= j <= |runs|
    ensures Used(runs, maxTokens, i) <= Used(runs, maxTokens, j)
  {
    if i < j { UsedGrows(runs, maxTokens, i, j - 1); }
  }

  /** A run that was left out altogether would not fit after the last passage either. */
  lemma OmittedRunsDoNotFit(runs: seq<Run>, maxTokens: int, i: nat)
    requires i < |runs| && runs[i].chunks != [] && Granted(runs, maxTokens, i) == []
    ensures Total(Filled(runs, maxTokens, |runs|)) + Cost(runs[i].chunks) > maxTokens
  {
    TotalIsUsed(runs, maxTokens, |runs|);
    UsedGrows(runs, maxTokens, i, |runs|);
  }

  /** Numbered from 1 in order of descending score, none below `floor`. */
  ghost predicate Numbered(passages: seq<Passage>, floor: real) {
    && (forall j {:trigger passages[j]} :: 0 <= j < |passages| ==> passages[j].citationId == j + 1 && passages[j].score >= floor)
    && (forall j, k {:trigger passages[j], passages[k]} :: 0 <= j < k < |passages| ==> passages[j].score >= passages[k].score)
  }

  /** Citations are numbered from 1, and passages come in the order of their runs' scores. */
  lemma {:induction false} PassagesAreNumbered(runs: seq<Run>, maxTokens: int, i: nat, floor: real)
    requires i <= |runs| && Ranked(runs) && forall k :: 0 <= k < i ==> runs[k].score >= floor
    ensures Numbered(Filled(runs, maxTokens, i), floor)
  {
    if i > 0 {
      PassagesAreNumbered(runs, maxTokens, i - 1, runs[i - 1].score);
      var before, chunks := Filled(runs, maxTokens, i - 1), Granted(runs, maxTokens, i - 1);
      if chunks != [] { NumberedNext(before, PassageOf(|before| + 1, runs[i - 1].score, chunks), floor); }
    }
  }

  lemma NumberedNext(before: seq<Passage>, p: Passage, floor: real)
    requires Numbered(before, p.score) && p.citationId == |before| + 1 && p.score >= floor
    ensures Numbered(before + [p], floor)
  {
  }

  // ----- what a passage says of its chunks -----

  predicate Stored(c: Candidate) {
    c.tokenCount.Some? && c.tokenCount.value > 0
  }

  /** A positive stored count is the cost; otherwise it is a quarter of the text's length, rounded down, and at least 1. */
  lemma CostOfOne(c: Candidate)
    ensures Stored(c) ==> Tokens(c) == c.tokenCount.value
    ensures !Stored(c) && |c.text| < 8 ==> Tokens(c) == 1
    ensures !Stored(c) && |c.text| >= 8 ==> 4 * Tokens(c) <= |c.text| < 4 * Tokens(c) + 4
  {
  }

  /** The sum of the stored counts. */
  function StoredSum(chunks: seq<Candidate>): nat
    requires forall i :: 0 <= i < |chunks| ==> Stored(chunks[i])
  {
    if chunks == [] then 0
    else
      assert Stored(chunks[0]);
      chunks[0].tokenCount.value + StoredSum(chunks[1..])
  }

  /** What one chunk costs, counted from the front: its stored count, or the estimate from its text. */
  function CostSum(chunks: seq<Candidate>): nat {
    if chunks == [] then 0
    else
      var c := chunks[0];
      (if Stored(c) then c.tokenCount.value else if |c.text| < 8 then 1 else |c.text| / 4) + CostSum(chunks[1..])
  }

  lemma {:induction false} CostSplits(chunks: seq<Candidate>)
    requires chunks != []
    ensures Cost(chunks) == Tokens(chunks[0]) + Cost(chunks[1..])
    decreases |chunks|
  {
    var n := |chunks| - 1;
    if n == 0 {
      assert chunks[..0] == [] && chunks[1..] == [];
    } else {
      CostSplits(chunks[..n]);
      assert chunks[..n][1..] == chunks[1..][..n - 1] && chunks[1..][n - 1] == chunks[n] && chunks[..n][0] == chunks[0];
    }
  }

  lemma {:induction false} CostIsSum(chunks: seq<Candidate>)
    ensures Cost(chunks) == CostSum(chunks)
  {
    if chunks != [] {
      CostSplits(chunks);
      CostOfOne(chunks[0]);
      CostIsSum(chunks[1..]);
    }
  }

  lemma {:induction false} CostOfStored(chunks: seq<Candidate>)
    requires forall i :: 0 <= i < |chunks| ==> Stored(chunks[i])
    ensures CostSum(chunks) == StoredSum(chunks)
  {
    if chunks != [] { CostOfStored(chunks[1..]); }
  }

  /** The chunks' texts, one after the other, each but the last followed by a newline. */
  function Lines(chunks: seq<Candidate>): string
    requires chunks != []
    decreases |chunks|
  {
    var n := |chunks| - 1;
    if n == 0 then chunks[0].text else Lines(chunks[..n]) + "\n" + chunks[n].text
  }

  lemma {:induction false} JoinedIsLines(chunks: seq<Candidate>)
    requires chunks != []
    ensures Joined(chunks) == Lines(chunks)
    decreases |chunks|
  {
    if |chunks| > 1 { JoinedSplits(chunks, |chunks| - 1); JoinedIsLines(chunks[..|chunks| - 1]); }
  }

  lemma {:induction false} JoinedSplits(chunks: seq<Candidate>, n: nat)
    requires n == |chunks| - 1 && n > 0
    ensures Joined(chunks) == Joined(chunks[..n]) + "\n" + chunks[n].text
    decreases n
  {
    if n == 1 {
      assert chunks[1..] == [chunks[1]] && chunks[..1] == [chunks[0]];
    } else {
      JoinedSplits(chunks[1..], n - 1);
      assert chunks[1..][..n - 1] == chunks[..n][1..];
      assert chunks[0].text + "\n" + (Joined(chunks[..n][1..]) + "\n" + chunks[n].text)
             == chunks[0].text + "\n" + Joined(chunks[..n][1..]) + "\n" + chunks[n].text;
    }
  }

  /** `page` is the least page of the chunks, or the greatest if `upper`; none if no chunk has a page. */
  ghost predicate Extreme(chunks: seq<Candidate>, page: Option<int>, upper: bool) {
    if page.None? then forall i {:trigger chunks[i]} :: 0 <= i < |chunks| ==> chunks[i].page.None?
    else
      && (exists i {:trigger chunks[i]} :: 0 <= i < |chunks| && chunks[i].page == page)
      && forall i {:trigger chunks[i]} :: 0 <= i < |chunks| && chunks[i].page.Some? ==>
           if upper then chunks[i].page.value <= page.value else page.value <= chunks[i].page.value
  }

  lemma {:induction false} PageIsExtreme(chunks: seq<Candidate>, upper: bool)
    ensures Extreme(chunks, PageOf(chunks, if upper then (x, y) => x > y else (x, y) => x < y), upper)
    decreases |chunks|
  {
    if chunks != [] {
      var n := |chunks| - 1;
      PageIsExtreme(chunks[..n], upper);
      assert forall i {:trigger chunks[i]} :: 0 <= i < n ==> chunks[i] == chunks[..n][i];
      assert forall i {:trigger chunks[..n][i]} :: 0 <= i < n ==> chunks[i] == chunks[..n][i];
    }
  }

  predicate Headed(c: Candidate) {
    c.section.Some? && c.section.value != ""
  }

  /** The section of the first chunk that has one. */
  ghost predicate FirstSection(chunks: seq<Candidate>, section: Option<string>) {
    if section.None? then forall i {:trigger chunks[i]} :: 0 <= i < |chunks| ==> !Headed(chunks[i])
    else exists i {:trigger chunks[i]} :: 0 <= i < |chunks| && Headed(chunks[i]) && chunks[i].section == section
           && forall k {:trigger chunks[k]} :: 0 <= k < i ==> !Headed(chunks[k])
  }

  lemma {:induction false} SectionIsFirst(chunks: seq<Candidate>)
    ensures FirstSection(chunks, SectionOf(chunks))
  {
    if chunks != [] && !Headed(chunks[0]) {
      var rest := chunks[1..];
      SectionIsFirst(rest);
      if SectionOf(rest).Some? {
        var i :| 0 <= i < |rest| && Headed(rest[i]) && rest[i].section == SectionOf(rest)
                 && forall k {:trigger rest[k]} :: 0 <= k < i ==> !Headed(rest[k]);
        assert chunks[i + 1] == rest[i];
        assert forall k {:trigger chunks[k]} :: 0 < k < i + 1 ==> chunks[k] == rest[k - 1];
      } else {
        assert forall k {:trigger chunks[k]} :: 0 < k < |chunks| ==> chunks[k] == rest[k - 1];
      }
    }
  }

  /** Everything a passage says of the chunks it stands for. */
  ghost predicate Describes(p: Passage, chunks: seq<Candidate>) {
    && chunks != [] && |p.chunkIds| == |chunks| && (forall i :: 0 <= i < |chunks| ==> p.chunkIds[i] == chunks[i].id)
    && p.document == chunks[0].document && p.chunkRange == (chunks[0].index, chunks[|chunks| - 1].index)
    && Extreme(chunks, p.pageStart, false) && Extreme(chunks, p.pageEnd, true)
    && FirstSection(chunks, p.section) && p.text == Lines(chunks) && p.tokenCount == CostSum(chunks)
    && ((forall i :: 0 <= i < |chunks| ==> Stored(chunks[i])) ==> p.tokenCount == StoredSum(chunks))
  }

  lemma PassageDescribes(id: nat, score: real, chunks: seq<Candidate>)
    requires chunks != []
    ensures Describes(PassageOf(id, score, chunks), chunks)
  {
    JoinedIsLines(chunks);
    PageIsExtreme(chunks, false);
    PageIsExtreme(chunks, true);
    SectionIsFirst(chunks);
    CostIsSum(chunks);
    if forall i :: 0 <= i < |chunks| ==> Stored(chunks[i]) { CostOfStored(chunks); }
  }

  /** The chunks of a run that a passage stands for: all, or only the first if even the best run does not fit. */
  predicate TakenFrom(chunks: seq<Candidate>, r: Run, first: bool, maxTokens: int) {
    if first && CostSum(r.chunks) > maxTokens then r.chunks != [] && chunks == r.chunks[..1] else chunks == r.chunks
  }

  /** The k-th passage stands for the chunks `sources[k]`, taken from the run number `from[k]`. */
  ghost predicate StandsAt(passages: seq<Passage>, sources: seq<seq<Candidate>>, from: seq<nat>, runs: seq<Run>, maxTokens: int, k: nat)
    requires k < |passages| == |sources| == |from|
  {
    && from[k] < |runs| && passages[k].score == runs[from[k]].score
    && TakenFrom(sources[k], runs[from[k]], from[k] == 0, maxTokens) && Describes(passages[k], sources[k])
  }

  /** Each passage stands for chunks of a run, in the order of the runs. */
  ghost predicate StandsFor(passages: seq<Passage>, sources: seq<seq<Candidate>>, from: seq<nat>, runs: seq<Run>, maxTokens: int) {
    && |sources| == |passages| == |from|
    && (forall k, l {:trigger from[k], from[l]} :: 0 <= k < l < |from| ==> from[k] < from[l])
    && forall k {:trigger StandsAt(passages, sources, from, runs, maxTokens, k)} :: 0 <= k < |passages| ==>
         StandsAt(passages, sources, from, runs, maxTokens, k)
  }

  /** Every run is in some passage, or would not fit after the last one. */
  ghost predicate LeavesOutOnlyTooBig(passages: seq<Passage>, from: seq<nat>, runs: seq<Run>, maxTokens: int) {
    forall i {:trigger runs[i]} :: 0 <= i < |runs| ==> i in from || Total(passages) + CostSum(runs[i].chunks) > maxTokens
  }

  /** The passages stand for chunks of the first `i` runs, and those left out were granted nothing. */
  ghost predicate Accounted(passages: seq<Passage>, sources: seq<seq<Candidate>>, from: seq<nat>, runs: seq<Run>, maxTokens: int, i: nat)
    requires i <= |runs|
  {
    && StandsFor(passages, sources, from, runs, maxTokens)
    && (forall k {:trigger from[k]} :: 0 <= k < |from| ==> from[k] < i)
    && (forall k {:trigger k in from} :: 0 <= k < i ==> k in from || Granted(runs, maxTokens, k) == [])
  }

  lemma {:induction false} PassagesStandFor(runs: seq<Run>, maxTokens: int, i: nat, passages: seq<Passage>)
    returns (sources: seq<seq<Candidate>>, from: seq<nat>)
    requires i <= |runs| && passages == Filled(runs, maxTokens, i)
    ensures Accounted(passages, sources, from, runs, maxTokens, i)
  {
    if i == 0 {
      sources, from := [], [];
    } else {
      var before := Filled(runs, maxTokens, i - 1);
      var sources0, from0 := PassagesStandFor(runs, maxTokens, i - 1, before);
      sources, from := RunAccounted(before, sources0, from0, runs, maxTokens, i - 1, Granted(runs, maxTokens, i - 1), passages);
    }
  }

  lemma RunAccounted(before: seq<Passage>, sources0: seq<seq<Candidate>>, from0: seq<nat>, runs: seq<Run>, maxTokens: int,
                     i: nat, chunks: seq<Candidate>, passages: seq<Passage>)
    returns (sources: seq<seq<Candidate>>, from: seq<nat>)
    requires i < |runs| && Accounted(before, sources0, from0, runs, maxTokens, i) && chunks == Granted(runs, maxTokens, i)
    requires passages == if chunks == [] then before else before + [PassageOf(|before| + 1, runs[i].score, chunks)]
    ensures Accounted(passages, sources, from, runs, maxTokens, i + 1)
  {
    if chunks == [] {
      sources, from := sources0, from0;
      NoMorePassage(before, sources, from, runs, maxTokens, i);
    } else {
      sources, from := sources0 + [chunks], from0 + [i];
      var p := PassageOf(|before| + 1, runs[i].score, chunks);
      PassageDescribes(|before| + 1, runs[i].score, chunks);
      OneMorePassage(before, sources0, from0, runs, maxTokens, i, p, chunks);
    }
  }

  lemma NoMorePassage(before: seq<Passage>, sources: seq<seq<Candidate>>, from: seq<nat>, runs: seq<Run>, maxTokens: int, i: nat)
    requires i < |runs| && Accounted(before, sources, from, runs, maxTokens, i) && Granted(runs, maxTokens, i) == []
    ensures Accounted(before, sources, from, runs, maxTokens, i + 1)
  {
  }

  lemma OneMorePassage(before: seq<Passage>, sources: seq<seq<Candidate>>, from: seq<nat>, runs: seq<Run>, maxTokens: int,
                       i: nat, p: Passage, chunks: seq<Candidate>)
    requires i < |runs| && Accounted(before, sources, from, runs, maxTokens, i) && chunks == Granted(runs, maxTokens, i) != []
    requires p.score == runs[i].score && Describes(p, chunks)
    ensures Accounted(before + [p], sources + [chunks], from + [i], runs, maxTokens, i + 1)
  {
    GrantedIsTaken(runs, maxTokens, i);
    MoreStandsFor(before, sources, from, runs, maxTokens, i, p, chunks);
    var more := from + [i];
    forall k | 0 <= k < i + 1
      ensures k in more || Granted(runs, maxTokens, k) == []
    {
      assert more[|from|] == i && (k in from ==> k in more);
    }
  }

  lemma MoreStandsFor(before: seq<Passage>, sources: seq<seq<Candidate>>, from: seq<nat>, runs: seq<Run>, maxTokens: int,
                      i: nat, p: Passage, chunks: seq<Candidate>)
    requires StandsFor(before, sources, from, runs, maxTokens) && i < |runs| && forall k {:trigger from[k]} :: 0 <= k < |from| ==> from[k] < i
    requires p.score == runs[i].score && TakenFrom(chunks, runs[i], i == 0, maxTokens) && Describes(p, chunks)
    ensures StandsFor(before + [p], sources + [chunks], from + [i], runs, maxTokens)
  {
    forall k | 0 <= k < |before| + 1
      ensures StandsAt(before + [p], sources + [chunks], from + [i], runs, maxTokens, k)
    {
      if k < |before| { assert StandsAt(before, sources, from, runs, maxTokens, k); }
    }
  }

  lemma GrantedIsTaken(runs: seq<Run>, maxTokens: int, i: nat)
    requires i < |runs| && Granted(runs, maxTokens, i) != []
    ensures TakenFrom(Granted(runs, maxTokens, i), runs[i], i == 0, maxTokens)
  {
    CostIsSum(runs[i].chunks);
  }

  lemma OnlyTooBigLeftOut(runs: seq<Run>, maxTokens: int, from: seq<nat>)
    requires forall k :: 0 <= k < |runs| ==> runs[k].chunks != []
    requires forall k {:trigger k in from} :: 0 <= k < |runs| ==> k in from || Granted(runs, maxTokens, k) == []
    ensures LeavesOutOnlyTooBig(Filled(runs, maxTokens, |runs|), from, runs, maxTokens)
  {
    forall i | 0 <= i < |runs| && i !in from
      ensures Total(Filled(runs, maxTokens, |runs|)) + CostSum(runs[i].chunks) > maxTokens
    {
      OmittedRunsDoNotFit(runs, maxTokens, i);
      CostIsSum(runs[i].chunks);
    }
  }

  /** The stored counts of all the chunks that the passages name. */
  function StoredTotal(sources: seq<seq<Candidate>>): nat
    requires forall k, i :: 0 <= k < |sources| && 0 <= i < |sources[k]| ==> Stored(sources[k][i])
    decreases |sources|
  {
    if sources == [] then 0 else StoredTotal(sources[..|sources| - 1]) + StoredSum(sources[|sources| - 1])
  }

  lemma {:induction false} TotalIsStored(passages: seq<Passage>, sources: seq<seq<Candidate>>, from: seq<nat>, runs: seq<Run>, maxTokens: int)
    requires StandsFor(passages, sources, from, runs, maxTokens)
    requires forall k, i :: 0 <= k < |sources| && 0 <= i < |sources[k]| ==> Stored(sources[k][i])
    ensures Total(passages) == StoredTotal(sources)
    decreases |passages|
  {
    if passages != [] {
      var n := |passages| - 1;
      FewerStandFor(passages, sources, from, runs, maxTokens, n);
      TotalIsStored(passages[..n], sources[..n], from[..n], runs, maxTokens);
      assert StandsAt(passages, sources, from, runs, maxTokens, n);
    }
  }

  lemma FewerStandFor(passages: seq<Passage>, sources: seq<seq<Candidate>>, from: seq<nat>, runs: seq<Run>, maxTokens: int, n: nat)
    requires StandsFor(passages, sources, from, runs, maxTokens) && n <= |passages|
    ensures StandsFor(passages[..n], sources[..n], from[..n], runs, maxTokens)
  {
    forall k | 0 <= k < n
      ensures StandsAt(passages[..n], sources[..n], from[..n], runs, maxTokens, k)
    {
      assert StandsAt(passages, sources, from, runs, maxTokens, k);
    }
  }

  /** Every chunk of a run is one of the candidates given. */
  lemma RunsAreGiven(selected: seq<Candidate>, neighbors: seq<Candidate>, window: int, byPos: map<Pos, Candidate>,
                     wanted: map<Pos, real>, runs: seq<Run>, r: Run, k: nat)
    requires Assembled(selected, neighbors, window, byPos, wanted, runs) && r in runs && k < |r.chunks|
    ensures r.chunks[k] in neighbors + selected
  {
    assert IsRun(byPos, wanted, r);
    var pos := Pos(DocumentOf(r), Lo(r) + k);
    assert Covers(r, pos);
    assert LastAt(neighbors + selected, pos) == if pos in byPos then Some(byPos[pos]) else None;
    LastAtIsGiven(neighbors + selected, pos);
  }

  lemma {:induction false} LastAtIsGiven(cs: seq<Candidate>, pos: Pos)
    ensures LastAt(cs, pos).Some? ==> LastAt(cs, pos).value in cs
    decreases |cs|
  {
    if cs != [] { LastAtIsGiven(cs[..|cs| - 1], pos); }
  }

  lemma SourcesAreGiven(selected: seq<Candidate>, neighbors: seq<Candidate>, window: int, byPos: map<Pos, Candidate>,
                        wanted: map<Pos, real>, runs: seq<Run>, passages: seq<Passage>, sources: seq<seq<Candidate>>,
                        from: seq<nat>, maxTokens: int, k: nat, i: nat)
    requires Assembled(selected, neighbors, window, byPos, wanted, runs) && StandsFor(passages, sources, from, runs, maxTokens)
    requires k < |sources| && i < |sources[k]|
    ensures sources[k][i] in neighbors + selected
  {
    assert StandsAt(passages, sources, from, runs, maxTokens, k);
    RunsAreGiven(selected, neighbors, window, byPos, wanted, runs, runs[from[k]], i);
  }

  /** If every candidate has a positive stored count, those of the chunks named stay within the budget. */
  ghost predicate WithinStored(passages: seq<Passage>, sources: seq<seq<Candidate>>, maxTokens: int) {
    && (forall k, i :: 0 <= k < |sources| && 0 <= i < |sources[k]| ==> Stored(sources[k][i]))
    && (StoredTotal(sources) <= maxTokens || passages == [] || (|passages| == 1 && |passages[0].chunkIds| == 1))
  }

  lemma BudgetOfStored(selected: seq<Candidate>, neighbors: seq<Candidate>, window: int, maxTokens: int, byPos: map<Pos, Candidate>,
                       wanted: map<Pos, real>, runs: seq<Run>, passages: seq<Passage>, sources: seq<seq<Candidate>>, from: seq<nat>)
    requires Assembled(selected, neighbors, window, byPos, wanted, runs) && StandsFor(passages, sources, from, runs, maxTokens)
    requires Total(passages) <= maxTokens || passages == [] || (|passages| == 1 && |passages[0].chunkIds| == 1)
    requires forall c :: c in neighbors + selected ==> Stored(c)
    ensures WithinStored(passages, sources, maxTokens)
  {
    forall k, i | 0 <= k < |sources| && 0 <= i < |sources[k]|
      ensures Stored(sources[k][i])
    {
      SourcesAreGiven(selected, neighbors, window, byPos, wanted, runs, passages, sources, from, maxTokens, k, i);
    }
    TotalIsStored(passages, sources, from, runs, maxTokens);
  }

  // ----- the whole assembly -----

  method BuildPassages(selected: seq<Candidate>, neighbors: seq<Candidate>, window: int, maxTokens: int)
    returns (passages: seq<Passage>, ghost byPos: map<Pos, Candidate>, ghost wanted: map<Pos, real>, ghost runs: seq<Run>,
             ghost sources: seq<seq<Candidate>>, ghost from: seq<nat>)
    ensures Assembled(selected, neighbors, window, byPos, wanted, runs) && Ranked(runs)
    ensures passages == Filled(runs, maxTokens, |runs|)
    ensures selected != [] && window >= 0 ==> passages != []
    ensures Total(passages) <= maxTokens || passages == [] || (|passages| == 1 && |passages[0].chunkIds| == 1)
    // Field by field, each passage says what its chunks say; no run is left out that would fit.
    ensures StandsFor(passages, sources, from, runs, maxTokens) && LeavesOutOnlyTooBig(passages, from, runs, maxTokens)
    // The stored counts of the chunks keep the budget.
    ensures (forall c :: c in neighbors + selected ==> Stored(c)) ==> WithinStored(passages, sources, maxTokens)
  {
    var index := IndexByPosition(map[], [], neighbors);
    assert [] + neighbors == neighbors;
    index := IndexByPosition(index, neighbors, selected);
    var documents, scores := Widen(index, selected, window);
    WantedArePlaced(index, neighbors + selected, scores, selected, window);
    var grouped := GroupRuns(index, documents, scores);
    var sorted := SortRuns(grouped);
    SameRuns(index, scores, grouped, sorted);
    byPos, wanted, runs := index, scores, sorted;
    assert forall i :: 0 <= i < |runs| ==> runs[i] in runs;
    passages := Fill(sorted, maxTokens);
    BudgetHolds(runs, maxTokens);
    sources, from := PassagesStandFor(runs, maxTokens, |runs|, passages);
    OnlyTooBigLeftOut(runs, maxTokens, from);
    if forall c :: c in neighbors + selected ==> Stored(c) {
      BudgetOfStored(selected, neighbors, window, maxTokens, byPos, wanted, runs, passages, sources, from);
    }
    if selected != [] && window >= 0 {
      SelectedIsWanted(selected, neighbors, window, byPos, wanted, runs, selected[0]);
    }
  }

  // ----- what truncation keeps -----

  /** The passage covers the position of a selected chunk. */
  ghost predicate HoldsSelected(p: Passage, selected: seq<Candidate>) {
    exists c {:trigger c in selected} :: c in selected && p.document == c.document && p.chunkRange.0 <= c.index <= p.chunkRange.1
  }

  /** The chunk is in the run and no wanted chunk stands directly before it. */
  predicate Leads(wanted: map<Pos, real>, r: Run, c: Candidate) {
    Covers(r, PosOf(c)) && Pos(c.document, c.index - 1) !in wanted
  }

  /** A chunk that leads its run is the first one, and only that is. */
  lemma LeaderIsFirst(byPos: map<Pos, Candidate>, wanted: map<Pos, real>, r: Run, c: Candidate)
    requires IsRun(byPos, wanted, r)
    ensures Leads(wanted, r, c) <==> PosOf(c) == Pos(DocumentOf(r), Lo(r))
  {
    assert Covers(r, PosOf(c)) && c.index > Lo(r) ==> Covers(r, Pos(c.document, c.index - 1));
  }

  /** Filling starts with what is granted to the first run. */
  lemma {:induction false} FirstFilled(runs: seq<Run>, maxTokens: int, i: nat)
    requires 0 < i <= |runs| && runs[0].chunks != []
    ensures Granted(runs, maxTokens, 0) != []
    ensures Filled(runs, maxTokens, i) != []
    ensures Filled(runs, maxTokens, i)[0] == PassageOf(1, runs[0].score, Granted(runs, maxTokens, 0))
  {
    if i > 1 { FirstFilled(runs, maxTokens, i - 1); }
  }

  /** In a run the chunks stand at consecutive positions. */
  lemma RunPositions(selected: seq<Candidate>, neighbors: seq<Candidate>, window: int, byPos: map<Pos, Candidate>,
                     wanted: map<Pos, real>, runs: seq<Run>, r: Run, k: nat)
    requires Assembled(selected, neighbors, window, byPos, wanted, runs) && r in runs && k < |r.chunks|
    ensures PosOf(r.chunks[k]) == Pos(DocumentOf(r), Lo(r) + k)
  {
    WantedArePlaced(byPos, neighbors + selected, wanted, selected, window);
    assert IsRun(byPos, wanted, r);
    assert Covers(r, Pos(DocumentOf(r), Lo(r) + k));
  }

  /**
   * The first passage holds a selected chunk exactly when the best run has one and fits the budget,
   * or, when the run is cut to one chunk, when a selected chunk leads it.
   */
  lemma FirstPassageHoldsSelectedIff(selected: seq<Candidate>, neighbors: seq<Candidate>, window: int, maxTokens: int,
                                     byPos: map<Pos, Candidate>, wanted: map<Pos, real>, runs: seq<Run>)
    requires Assembled(selected, neighbors, window, byPos, wanted, runs) && runs != []
    ensures var passages := Filled(runs, maxTokens, |runs|);
            && passages != []
            && (HoldsSelected(passages[0], selected) <==>
                  exists c {:trigger c in selected} :: c in selected
                    && if Cost(runs[0].chunks) <= maxTokens then Covers(runs[0], PosOf(c)) else Leads(wanted, runs[0], c))
  {
    var r := runs[0];
    assert r in runs && IsRun(byPos, wanted, r);
    FirstFilled(runs, maxTokens, |runs|);
    RunPositions(selected, neighbors, window, byPos, wanted, runs, r, |r.chunks| - 1);
    assert Used(runs, maxTokens, 0) == 0;
    var p := Filled(runs, maxTokens, |runs|)[0];
    forall c: Candidate
      ensures (p.document == c.document && p.chunkRange.0 <= c.index <= p.chunkRange.1) <==>
                if Cost(r.chunks) <= maxTokens then Covers(r, PosOf(c)) else Leads(wanted, r, c)
    {
      LeaderIsFirst(byPos, wanted, r, c);
    }
  }

  /** A selected chunk leads its run exactly when no candidate was given for the position before it. */
  lemma LeadsIffNothingBefore(selected: seq<Candidate>, neighbors: seq<Candidate>, window: int,
                              byPos: map<Pos, Candidate>, wanted: map<Pos, real>, runs: seq<Run>, r: Run, c: Candidate)
    requires Assembled(selected, neighbors, window, byPos, wanted, runs) && window >= 1
    requires c in selected && r in runs && Covers(r, PosOf(c))
    ensures Leads(wanted, r, c) <==> forall n :: n in neighbors + selected ==> PosOf(n) != Pos(c.document, c.index - 1)
  {
    var before := Pos(c.document, c.index - 1);
    LastAtIsAt(neighbors + selected, before);
    assert LastAt(neighbors + selected, before) == if before in byPos then Some(byPos[before]) else None;
    assert Reaches(c, window, before) && ScoreAt(wanted, byPos, selected, window, before);
    BestIsMax(selected, window, before);
  }

  /** One neighbour directly before the only selected chunk: both are one run. */
  lemma PairIsTheRun(near: Candidate, best: Candidate, window: int, byPos: map<Pos, Candidate>, wanted: map<Pos, real>, runs: seq<Run>)
    requires window >= 1 && near.document == best.document && near.index + 1 == best.index
    requires Assembled([best], [near], window, byPos, wanted, runs)
    ensures runs == [Run(best.relevance, [near, best])]
  {
    var cs := [near] + [best];
    forall pos
      ensures pos in byPos <==> pos == PosOf(near) || pos == PosOf(best)
      ensures pos == PosOf(near) ==> pos in byPos && byPos[pos] == near
      ensures pos == PosOf(best) ==> pos in byPos && byPos[pos] == best
    {
      AppendAt([near], best, pos);
      AppendAt([], near, pos);
      assert [] + [near] == [near];
      assert LastAt(cs, pos) == if pos in byPos then Some(byPos[pos]) else None;
    }
    forall pos
      ensures pos in wanted <==> pos in byPos
      ensures pos in wanted ==> wanted[pos] == best.relevance
    {
      assert ScoreAt(wanted, byPos, [best], window, pos);
      assert [best][..0] == [] && Best([], window, pos) == None;
      assert Best([best], window, pos) == if Reaches(best, window, pos) then Some(best.relevance) else None;
    }
    PairIsRun(near, best, byPos, wanted);
    OnlyRun(byPos, wanted, runs, Run(best.relevance, [near, best]));
  }

  lemma PairIsRun(near: Candidate, best: Candidate, byPos: map<Pos, Candidate>, wanted: map<Pos, real>)
    requires near.document == best.document && near.index + 1 == best.index
    requires PosOf(near) in byPos && byPos[PosOf(near)] == near && PosOf(best) in byPos && byPos[PosOf(best)] == best
    requires forall pos :: pos in wanted <==> pos == PosOf(near) || pos == PosOf(best)
    requires forall pos :: pos in wanted ==> wanted[pos] == best.relevance
    ensures IsRun(byPos, wanted, Run(best.relevance, [near, best]))
    ensures forall pos :: pos in wanted ==> Covers(Run(best.relevance, [near, best]), pos)
  {
    var r := Run(best.relevance, [near, best]);
    assert Covers(r, PosOf(near)) && Covers(r, PosOf(best));
    assert forall pos: Pos :: Covers(r, pos) ==> pos == PosOf(near) || pos == PosOf(best);
  }

  lemma OnlyRun(byPos: map<Pos, Candidate>, wanted: map<Pos, real>, runs: seq<Run>, only: Run)
    requires AllRuns(byPos, wanted, runs) && IsRun(byPos, wanted, only)
    requires forall pos :: pos in wanted ==> Covers(only, pos)
    ensures runs == [only]
  {
    forall i | 0 <= i < |runs|
      ensures runs[i] == only
    {
      assert runs[i] in runs && IsRun(byPos, wanted, runs[i]);
      var pos := Pos(DocumentOf(runs[i]), Lo(runs[i]));
      assert Covers(runs[i], pos);
      RunsMeet(byPos, wanted, runs[i], only, pos);
    }
    assert only in runs;
    AllAlike(runs, only);
  }

  lemma {:induction false} AllAlike(runs: seq<Run>, only: Run)
    requires forall i :: 0 <= i < |runs| ==> runs[i] == only
    ensures multiset(runs)[only] == |runs|
  {
    if runs != [] {
      AllAlike(runs[1..], only);
      assert runs == [only] + runs[1..];
    }
  }

  /**
   * For every budget too small for the two together: the only selected chunk is dropped and the
   * neighbour before it is the whole answer.
   */
  lemma TruncationMayKeepANeighbour(near: Candidate, best: Candidate, window: int, maxTokens: int,
                                    byPos: map<Pos, Candidate>, wanted: map<Pos, real>, runs: seq<Run>)
    requires window >= 1 && near.document == best.document && near.index + 1 == best.index
    requires maxTokens < Tokens(near) + Tokens(best)
    requires Assembled([best], [near], window, byPos, wanted, runs)
    ensures var passages := Filled(runs, maxTokens, |runs|);
            |passages| == 1 && passages[0].chunkIds == [near.id] && !HoldsSelected(passages[0], [best])
  {
    PairIsTheRun(near, best, window, byPos, wanted, runs);
    var chunks := [near, best];
    assert Cost(chunks) == Cost(chunks[..1]) + Tokens(best);
    assert chunks[..1] == [near] && [near][..0] == [];
    assert Granted(runs, maxTokens, 0) == [near];
    assert Filled(runs, maxTokens, 1) == [PassageOf(1, best.relevance, [near])];
  }
}
