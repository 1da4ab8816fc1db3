// Maximal marginal relevance with an incrementally maintained similarity cache.
module Mmr {
  import opened Types
  import opened Numbers

  /** `V` stands for embedding vectors; `cosine` for the dot product of the normalised vectors. */
  datatype Candidate<V> = Candidate(id: nat, relevance: real, embedding: Option<V>)

  /** Normalised relevances of the pool, the similarity matrix and the trade-off. */
  datatype Problem = Problem(rel: seq<real>, sim: seq<seq<real>>, lam: real)

  predicate Square(p: Problem) {
    |p.sim| == |p.rel| && forall i :: 0 <= i < |p.sim| ==> |p.sim[i]| == |p.rel|
  }

  function Max(x: real, y: real): real {
    if x >= y then x else y
  }

  // ----- the objective, from scratch -----

  /** max(0, largest similarity of `i` to a selected item) */
  function MaxSim(p: Problem, selected: seq<nat>, i: nat): real
    requires Square(p) && i < |p.rel| && forall j :: 0 <= j < |selected| ==> selected[j] < |p.rel|
    decreases |selected|
  {
    if selected == [] then 0.0
    else Max(MaxSim(p, selected[..|selected| - 1], i), p.sim[selected[|selected| - 1]][i])
  }

  function Objective(p: Problem, selected: seq<nat>, i: nat): real
    requires Square(p) && i < |p.rel| && forall j :: 0 <= j < |selected| ==> selected[j] < |p.rel|
  {
    p.lam * p.rel[i] - (1.0 - p.lam) * MaxSim(p, selected, i)
  }

  predicate Within(p: Problem, selected: seq<nat>) {
    forall j :: 0 <= j < |selected| ==> selected[j] < |p.rel|
  }

  /** `best` is the lowest-indexed maximiser of the objective among the items not selected yet. */
  ghost predicate BestNext(p: Problem, selected: seq<nat>, best: nat)
    requires Square(p) && Within(p, selected)
  {
    && best < |p.rel| && best !in selected
    && forall i {:trigger Objective(p, selected, i)} :: 0 <= i < |p.rel| && i !in selected ==>
         Objective(p, selected, i) < Objective(p, selected, best)
         || (Objective(p, selected, i) == Objective(p, selected, best) && best <= i)
  }

  ghost predicate Greedy(p: Problem, selected: seq<nat>)
    requires Square(p)
    decreases |selected|
  {
    && Within(p, selected)
    && (selected == [] ||
        var before := selected[..|selected| - 1];
        Greedy(p, before) && BestNext(p, before, selected[|selected| - 1]))
  }

  // ----- the loop -----

  ghost predicate Ascending(s: seq<nat>) {
    forall i, j :: 0 <= i < j < |s| ==> s[i] < s[j]
  }

  ghost predicate Cached(p: Problem, selected: seq<nat>, maxSim: seq<real>)
    requires Square(p) && Within(p, selected)
  {
    |maxSim| == |p.rel| && forall i {:trigger maxSim[i]} :: 0 <= i < |p.rel| ==> maxSim[i] == MaxSim(p, selected, i)
  }

  /** `remaining` lists, in ascending order, exactly the items not selected. */
  ghost predicate Complement(n: nat, selected: seq<nat>, remaining: seq<nat>) {
    && Ascending(remaining)
    && forall i {:trigger i in remaining} {:trigger i in selected} :: i in remaining <==> 0 <= i < n && i !in selected
  }

  /** The score the loop computes from the cache. */
  function CachedScore(p: Problem, maxSim: seq<real>, i: nat): real
    requires i < |p.rel| && i < |maxSim|
  {
    p.lam * p.rel[i] - (1.0 - p.lam) * maxSim[i]
  }

  lemma CacheIsObjective(p: Problem, selected: seq<nat>, maxSim: seq<real>, i: nat)
    requires Square(p) && Within(p, selected) && Cached(p, selected, maxSim) && i < |p.rel|
    ensures CachedScore(p, maxSim, i) == Objective(p, selected, i)
  {
  }

  /** Position of the first maximum of the scores of the remaining items. */
  method ArgMax(p: Problem, ghost selected: seq<nat>, remaining: seq<nat>, maxSim: seq<real>) returns (at: nat)
    requires Square(p) && Within(p, selected) && Cached(p, selected, maxSim)
    requires Complement(|p.rel|, selected, remaining) && remaining != []
    ensures at < |remaining| && BestNext(p, selected, remaining[at])
  {
    assert forall i :: 0 <= i < |remaining| ==> remaining[i] in remaining;
    at := 0;
    for i := 1 to |remaining|
      invariant at < |remaining| && at < i
      invariant forall j {:trigger remaining[j]} :: 0 <= j < i ==>
                  Objective(p, selected, remaining[j]) < Objective(p, selected, remaining[at])
                  || (Objective(p, selected, remaining[j]) == Objective(p, selected, remaining[at]) && at <= j)
    {
      CacheIsObjective(p, selected, maxSim, remaining[i]);
      CacheIsObjective(p, selected, maxSim, remaining[at]);
      if CachedScore(p, maxSim, remaining[i]) > CachedScore(p, maxSim, remaining[at]) { at := i; }
    }
  }

  method SelectLoop(p: Problem, k: nat) returns (selected: seq<nat>)
    requires Square(p)
    ensures Greedy(p, selected) && |selected| == Min(k, |p.rel|)
  {
    selected := [];
    var remaining: seq<nat> := seq(|p.rel|, i requires 0 <= i => i as nat);
    AllRemain(|p.rel|);
    var maxSim := seq(|p.rel|, i => 0.0);
    while remaining != [] && |selected| < k
      invariant Greedy(p, selected) && Cached(p, selected, maxSim)
      invariant Complement(|p.rel|, selected, remaining)
      invariant |selected| <= k && |selected| + |remaining| == |p.rel|
      decreases |remaining|
    {
      var at := ArgMax(p, selected, remaining, maxSim);
      var best := remaining[at];
      Removed(|p.rel|, selected, remaining, at);
      CacheStep(p, selected, maxSim, best);
      selected := selected + [best];
      remaining := remaining[..at] + remaining[at + 1..];
      maxSim := seq(|p.rel|, i requires 0 <= i < |p.rel| => Max(maxSim[i], p.sim[best][i]));
    }
  }

  lemma AllRemain(n: nat)
    ensures Complement(n, [], seq(n, i requires 0 <= i => i as nat))
  {
    var all: seq<nat> := seq(n, i requires 0 <= i => i as nat);
    forall i | 0 <= i < n
      ensures i in all
    {
      assert all[i] == i;
    }
  }

  lemma Removed(n: nat, selected: seq<nat>, remaining: seq<nat>, at: nat)
    requires Complement(n, selected, remaining) && at < |remaining|
    ensures Complement(n, selected + [remaining[at]], remaining[..at] + remaining[at + 1..])
  {
    var rest := remaining[..at] + remaining[at + 1..];
    forall i
      ensures i in rest <==> i in remaining && i != remaining[at]
    {
      if i in remaining && i != remaining[at] {
        var j :| 0 <= j < |remaining| && remaining[j] == i;
        assert rest[if j < at then j else j - 1] == i;
      }
    }
  }

  lemma CacheStep(p: Problem, selected: seq<nat>, maxSim: seq<real>, best: nat)
    requires Square(p) && Greedy(p, selected) && Cached(p, selected, maxSim) && BestNext(p, selected, best)
    ensures Greedy(p, selected + [best])
    ensures Cached(p, selected + [best], seq(|p.rel|, i requires 0 <= i < |p.rel| => Max(maxSim[i], p.sim[best][i])))
  {
    assert (selected + [best])[..|selected|] == selected;
  }

  // ----- the whole selection -----

  function Pool<V>(cs: seq<Candidate<V>>): seq<Candidate<V>>
    ensures forall i :: 0 <= i < |Pool(cs)| ==> Pool(cs)[i].embedding.Some?
  {
    if cs == [] then [] else (if cs[0].embedding.Some? then [cs[0]] else []) + Pool(cs[1..])
  }

  function NoEmbedding<V>(cs: seq<Candidate<V>>): seq<Candidate<V>> {
    if cs == [] then [] else (if cs[0].embedding.None? then [cs[0]] else []) + NoEmbedding(cs[1..])
  }

  function Lowest<V>(cs: seq<Candidate<V>>): real
    requires cs != []
  {
    if |cs| == 1 then cs[0].relevance
    else if cs[0].relevance <= Lowest(cs[1..]) then cs[0].relevance else Lowest(cs[1..])
  }

  function Highest<V>(cs: seq<Candidate<V>>): real
    requires cs != []
  {
    if |cs| == 1 then cs[0].relevance else Max(cs[0].relevance, Highest(cs[1..]))
  }

  /** Min-max normalisation; a constant relevance becomes 1. */
  function Normalised<V>(pool: seq<Candidate<V>>, r: real): real
    requires pool != []
  {
    var span := Highest(pool) - Lowest(pool);
    if span > 0.0 then (r - Lowest(pool)) / span else 1.0
  }

  function ProblemOf<V>(pool: seq<Candidate<V>>, lam: real, cosine: (V, V) -> real): (p: Problem)
    requires pool != [] && forall i :: 0 <= i < |pool| ==> pool[i].embedding.Some?
    ensures Square(p) && |p.rel| == |pool| && p.lam == lam
    ensures forall i :: 0 <= i < |pool| ==> p.rel[i] == Normalised(pool, pool[i].relevance)
  {
    Problem(seq(|pool|, i requires 0 <= i < |pool| => Normalised(pool, pool[i].relevance)),
            seq(|pool|, i requires 0 <= i < |pool| && pool[i].embedding.Some? =>
              seq(|pool|, j requires 0 <= j < |pool| && pool[i].embedding.Some? && pool[j].embedding.Some? =>
                cosine(pool[i].embedding.value, pool[j].embedding.value))),
            lam)
  }

  function Pick<T>(pool: seq<T>, selected: seq<nat>): (picked: seq<T>)
    requires forall j :: 0 <= j < |selected| ==> selected[j] < |pool|
    ensures |picked| == |selected|
  {
    seq(|selected|, j requires 0 <= j < |selected| && selected[j] < |pool| => pool[selected[j]])
  }

  function Take<T>(s: seq<T>, k: nat): seq<T> {
    s[..Min(k, |s|)]
  }

  predicate Shortcut<V>(cs: seq<Candidate<V>>, k: nat, lam: real) {
    |cs| <= k || lam >= 1.0 || Pool(cs) == []
  }

  /** What the selection is: the relevance order on the shortcut, else the greedy picks and then the rest. */
  ghost predicate IsSelection<V(!new)>(cs: seq<Candidate<V>>, k: nat, lam: real, cosine: (V, V) -> real,
                                       result: seq<Candidate<V>>) {
    if Shortcut(cs, k, lam) then result == Take(cs, k)
    else
      exists selected {:trigger Greedy(ProblemOf(Pool(cs), lam, cosine), selected)} ::
        && Greedy(ProblemOf(Pool(cs), lam, cosine), selected)
        && |selected| == Min(k, |Pool(cs)|)
        && result == Take(Pick(Pool(cs), selected) + NoEmbedding(cs), k)
  }

  method MmrSelect<V(!new)>(candidates: seq<Candidate<V>>, k: nat, lam: real, cosine: (V, V) -> real)
    returns (result: seq<Candidate<V>>)
    ensures IsSelection(candidates, k, lam, cosine, result)
  {
    if |candidates| <= k || lam >= 1.0 {
      return Take(candidates, k);
    }
    var pool, rest := Pool(candidates), NoEmbedding(candidates);
    if pool == [] {
      return Take(candidates, k);
    }
    var p := ProblemOf(pool, lam, cosine);
    var selected := SelectLoop(p, k);
    result := Take(Pick(pool, selected) + rest, k);
  }

  // ----- properties of every selection -----

  lemma {:induction false} GreedyPrefix(p: Problem, selected: seq<nat>, n: nat)
    requires Square(p) && Greedy(p, selected) && n <= |selected|
    ensures Greedy(p, selected[..n])
    decreases |selected|
  {
    if n < |selected| {
      var before := selected[..|selected| - 1];
      GreedyPrefix(p, before, n);
      assert before[..n] == selected[..n];
    } else {
      assert selected[..n] == selected;
    }
  }

  /** Ties are broken by position, so the greedy picks are fixed by how many there are. */
  lemma {:induction false} GreedyIsUnique(p: Problem, a: seq<nat>, b: seq<nat>)
    requires Square(p) && Greedy(p, a) && Greedy(p, b) && |a| == |b|
    ensures a == b
    decreases |a|
  {
    if a != [] {
      var n := |a| - 1;
      GreedyIsUnique(p, a[..n], b[..n]);
      assert Objective(p, a[..n], a[n]) == Objective(p, a[..n], b[n]);
      assert a == a[..n] + [a[n]] && b == b[..n] + [b[n]];
    }
  }

  /** While the loop runs for both, asking for one more keeps every earlier pick. */
  lemma SelectionGrowsByOne<V(!new)>(cs: seq<Candidate<V>>, k: nat, lam: real, cosine: (V, V) -> real,
                               small: seq<Candidate<V>>, large: seq<Candidate<V>>)
    requires IsSelection(cs, k, lam, cosine, small) && IsSelection(cs, k + 1, lam, cosine, large)
    requires !Shortcut(cs, k, lam) && !Shortcut(cs, k + 1, lam)
    ensures |small| == k && |large| == k + 1 && small == large[..k]
  {
    var pool, rest := Pool(cs), NoEmbedding(cs);
    var p := ProblemOf(pool, lam, cosine);
    var a :| Greedy(p, a) && |a| == Min(k, |pool|) && small == Take(Pick(pool, a) + rest, k);
    var b :| Greedy(p, b) && |b| == Min(k + 1, |pool|) && large == Take(Pick(pool, b) + rest, k + 1);
    GreedyPrefix(p, b, |a|);
    GreedyIsUnique(p, a, b[..|a|]);
    Partition(cs);
    PrefixOfPicks(pool, rest, a, b, k);
  }

  lemma PrefixOfPicks<T>(pool: seq<T>, rest: seq<T>, a: seq<nat>, b: seq<nat>, k: nat)
    requires forall j :: 0 <= j < |b| ==> b[j] < |pool|
    requires |a| == Min(k, |pool|) && |b| == Min(k + 1, |pool|) && a == b[..|a|] && k + 1 <= |pool| + |rest|
    ensures |Take(Pick(pool, a) + rest, k)| == k && |Take(Pick(pool, b) + rest, k + 1)| == k + 1
    ensures Take(Pick(pool, a) + rest, k) == Take(Pick(pool, b) + rest, k + 1)[..k]
  {
    assert Pick(pool, b)[..|a|] == Pick(pool, a);
  }

  lemma {:induction false} Partition<V>(cs: seq<Candidate<V>>)
    ensures multiset(Pool(cs)) + multiset(NoEmbedding(cs)) == multiset(cs)
    ensures |Pool(cs)| + |NoEmbedding(cs)| == |cs|
  {
    if cs != [] {
      Partition(cs[1..]);
      assert cs == [cs[0]] + cs[1..];
    }
  }

  predicate Distinct(s: seq<nat>) {
    forall i, j :: 0 <= i < j < |s| ==> s[i] != s[j]
  }

  lemma {:induction false} GreedyIsDistinct(p: Problem, selected: seq<nat>)
    requires Square(p) && Greedy(p, selected)
    ensures Distinct(selected)
    decreases |selected|
  {
    if selected != [] { GreedyIsDistinct(p, selected[..|selected| - 1]); }
  }

  /** Items picked at distinct positions are a sub-bag of the pool. */
  lemma {:induction false} PickIsSubBag<T>(pool: seq<T>, selected: seq<nat>)
    requires Distinct(selected) && forall j :: 0 <= j < |selected| ==> selected[j] < |pool|
    ensures multiset(Pick(pool, selected)) <= multiset(pool)
    decreases |pool|
  {
    if pool != [] {
      var n := |pool| - 1;
      assert pool == pool[..n] + [pool[n]];
      if at :| 0 <= at < |selected| && selected[at] == n {
        var others := selected[..at] + selected[at + 1..];
        PickIsSubBag(pool[..n], others);
        assert Pick(pool, selected) == Pick(pool[..n], others)[..at] + [pool[n]] + Pick(pool[..n], others)[at..];
        assert Pick(pool[..n], others) == Pick(pool[..n], others)[..at] + Pick(pool[..n], others)[at..];
      } else {
        PickIsSubBag(pool[..n], selected);
        assert Pick(pool, selected) == Pick(pool[..n], selected);
      }
    }
  }

  lemma TakeIsSubBag<T>(s: seq<T>, k: nat)
    ensures multiset(Take(s, k)) <= multiset(s)
  {
    assert s == Take(s, k) + s[Min(k, |s|)..];
  }

  /** min(k, n) candidates come out, none twice. */
  lemma SelectionIsSubBag<V(!new)>(cs: seq<Candidate<V>>, k: nat, lam: real, cosine: (V, V) -> real, out: seq<Candidate<V>>)
    requires IsSelection(cs, k, lam, cosine, out)
    ensures |out| == Min(k, |cs|) && multiset(out) <= multiset(cs)
  {
    if Shortcut(cs, k, lam) {
      TakeIsSubBag(cs, k);
    } else {
      var pool, rest := Pool(cs), NoEmbedding(cs);
      var p := ProblemOf(pool, lam, cosine);
      var selected :| Greedy(p, selected) && |selected| == Min(k, |pool|) && out == Take(Pick(pool, selected) + rest, k);
      GreedyIsDistinct(p, selected);
      PickIsSubBag(pool, selected);
      TakeIsSubBag(Pick(pool, selected) + rest, k);
      Partition(cs);
    }
  }

  // ----- what each pick maximises -----

  /** `m` is the largest cosine of the candidate to the earlier ones, or 0 if none is positive. */
  ghost predicate IsNearest<V(!new)>(earlier: seq<Candidate<V>>, c: Candidate<V>, cosine: (V, V) -> real, m: real) {
    && c.embedding.Some? && m >= 0.0
    && (forall j :: 0 <= j < |earlier| && earlier[j].embedding.Some? ==> cosine(earlier[j].embedding.value, c.embedding.value) <= m)
    && (m == 0.0 || exists j :: 0 <= j < |earlier| && earlier[j].embedding.Some?
                                && cosine(earlier[j].embedding.value, c.embedding.value) == m)
  }

  /** `lo` and `hi` are the least and the greatest relevance of the candidates. */
  ghost predicate Spans<V>(cs: seq<Candidate<V>>, lo: real, hi: real) {
    && (forall i :: 0 <= i < |cs| ==> lo <= cs[i].relevance <= hi)
    && (exists i :: 0 <= i < |cs| && cs[i].relevance == lo) && (exists i :: 0 <= i < |cs| && cs[i].relevance == hi)
  }

  lemma {:induction false} ExtremesAreSpan<V>(cs: seq<Candidate<V>>)
    requires cs != []
    ensures Spans(cs, Lowest(cs), Highest(cs))
  {
    if |cs| > 1 {
      ExtremesAreSpan(cs[1..]);
      var rest := cs[1..];
      var a :| 0 <= a < |rest| && rest[a].relevance == Lowest(rest);
      var b :| 0 <= b < |rest| && rest[b].relevance == Highest(rest);
      assert cs[a + 1] == rest[a] && cs[b + 1] == rest[b];
      forall i | 0 <= i < |cs|
        ensures Lowest(cs) <= cs[i].relevance <= Highest(cs)
      {
        assert i > 0 ==> cs[i] == rest[i - 1];
      }
    }
  }

  lemma {:induction false} MaxSimIsLargest(p: Problem, selected: seq<nat>, i: nat)
    requires Square(p) && i < |p.rel| && Within(p, selected)
    ensures MaxSim(p, selected, i) >= 0.0
    ensures forall j {:trigger selected[j]} :: 0 <= j < |selected| ==> p.sim[selected[j]][i] <= MaxSim(p, selected, i)
    ensures MaxSim(p, selected, i) == 0.0
            || exists j {:trigger selected[j]} :: 0 <= j < |selected| && p.sim[selected[j]][i] == MaxSim(p, selected, i)
    decreases |selected|
  {
    if selected != [] {
      var before := selected[..|selected| - 1];
      MaxSimIsLargest(p, before, i);
      if MaxSim(p, before, i) != 0.0 {
        var j :| 0 <= j < |before| && p.sim[before[j]][i] == MaxSim(p, before, i);
        assert selected[j] == before[j];
      }
    }
  }

  /** The similarity matrix of the pool. */
  ghost predicate SimilarityOf<V(!new)>(p: Problem, pool: seq<Candidate<V>>, cosine: (V, V) -> real) {
    && Square(p) && |p.rel| == |pool|
    && (forall i :: 0 <= i < |pool| ==> pool[i].embedding.Some?)
    && forall i, j {:trigger p.sim[i][j]} :: 0 <= i < |pool| && 0 <= j < |pool| ==>
         p.sim[i][j] == cosine(pool[i].embedding.value, pool[j].embedding.value)
  }

  lemma NearestIsMaxSim<V(!new)>(p: Problem, pool: seq<Candidate<V>>, cosine: (V, V) -> real, selected: seq<nat>, i: nat, m: real)
    requires SimilarityOf(p, pool, cosine) && i < |pool| && Within(p, selected)
    requires IsNearest(Pick(pool, selected), pool[i], cosine, m)
    ensures MaxSim(p, selected, i) == m
  {
    var earlier := Pick(pool, selected);
    MaxSimIsLargest(p, selected, i);
    assert forall j {:trigger selected[j]} :: 0 <= j < |selected| ==>
      p.sim[selected[j]][i] == cosine(earlier[j].embedding.value, pool[i].embedding.value);
  }

  /** Relevance on the scale from 0 at `lo` to 1 at `hi`. */
  function Scaled(r: real, lo: real, hi: real): real {
    if lo < hi then (r - lo) / (hi - lo) else 1.0
  }

  lemma ScaledIsNormalised<V>(pool: seq<Candidate<V>>, r: real, lo: real, hi: real, a: real)
    requires pool != [] && Spans(pool, lo, hi) && a == Scaled(r, lo, hi)
    ensures a == Normalised(pool, r)
  {
    ExtremesAreSpan(pool);
  }

  /** The objective of the best item against that of another one not picked yet. */
  lemma BestIsBest(p: Problem, before: seq<nat>, next: nat, i: nat, lam: real, a: real, b: real, m: real, n: real)
    requires Square(p) && Within(p, before) && BestNext(p, before, next) && i < |p.rel| && i !in before && p.lam == lam
    requires p.rel[next] == a && p.rel[i] == b && MaxSim(p, before, next) == m && MaxSim(p, before, i) == n
    ensures lam * b - (1.0 - lam) * n <= lam * a - (1.0 - lam) * m
  {
    assert Objective(p, before, i) <= Objective(p, before, next);
  }

  /** The first `n` answers off the shortcut are the first `n` greedy picks, and the next is the next one. */
  lemma PicksOf<V(!new)>(cs: seq<Candidate<V>>, k: nat, lam: real, cosine: (V, V) -> real, out: seq<Candidate<V>>, n: nat)
    returns (before: seq<nat>, next: nat)
    requires IsSelection(cs, k, lam, cosine, out) && k < |cs| && lam < 1.0 && n < k && n < |Pool(cs)|
    ensures var p := ProblemOf(Pool(cs), lam, cosine);
            Within(p, before) && BestNext(p, before, next) && n < |out| && out[..n] == Pick(Pool(cs), before) && out[n] == Pool(cs)[next]
  {
    var pool := Pool(cs);
    var p := ProblemOf(pool, lam, cosine);
    var selected :| Greedy(p, selected) && |selected| == Min(k, |pool|) && out == Take(Pick(pool, selected) + NoEmbedding(cs), k);
    before, next := selected[..n], selected[n];
    GreedyPrefix(p, selected, n + 1);
    assert selected[..n + 1][..n] == before;
    assert out[..n] == Pick(pool, before);
  }

  /** Some position of the candidate, which is none of the picks. */
  lemma PositionOf<V>(pool: seq<Candidate<V>>, before: seq<nat>, c: Candidate<V>) returns (i: nat)
    requires forall j :: 0 <= j < |before| ==> before[j] < |pool|
    requires c in pool && c !in Pick(pool, before)
    ensures i < |pool| && pool[i] == c && i !in before
  {
    i :| 0 <= i < |pool| && pool[i] == c;
    assert forall j :: 0 <= j < |before| ==> Pick(pool, before)[j] == pool[before[j]];
  }

  /**
   * Off the shortcut, answer `n` is a candidate with an embedding while there are such candidates left,
   * and no other one that is not listed before it does better: lambda times the relevance, scaled to
   * [0, 1] over the candidates with an embedding, minus (1 - lambda) times the largest similarity to
   * those before, where a negative similarity counts as 0.
   */
  lemma EachPickIsBest<V(!new)>(cs: seq<Candidate<V>>, k: nat, lam: real, cosine: (V, V) -> real, out: seq<Candidate<V>>,
                                n: nat, c: Candidate<V>, lo: real, hi: real, a: real, b: real, own: real, other: real)
    requires IsSelection(cs, k, lam, cosine, out) && k < |cs| && lam < 1.0
    requires n < k && n < |Pool(cs)| && n < |out| && c in Pool(cs) && c !in out[..n]
    requires Spans(Pool(cs), lo, hi) && a == Scaled(out[n].relevance, lo, hi) && b == Scaled(c.relevance, lo, hi)
    requires IsNearest(out[..n], out[n], cosine, own) && IsNearest(out[..n], c, cosine, other)
    ensures out[n] in Pool(cs)
    ensures lam * b - (1.0 - lam) * other <= lam * a - (1.0 - lam) * own
  {
    var before, next := PicksOf(cs, k, lam, cosine, out, n);
    var i := PositionOf(Pool(cs), before, c);
    ScaledIsNormalised(Pool(cs), out[n].relevance, lo, hi, a);
    ScaledIsNormalised(Pool(cs), c.relevance, lo, hi, b);
    PickBeats(ProblemOf(Pool(cs), lam, cosine), Pool(cs), cosine, before, next, i, lam, a, b, own, other);
  }

  lemma PickBeats<V(!new)>(p: Problem, pool: seq<Candidate<V>>, cosine: (V, V) -> real, before: seq<nat>, next: nat, i: nat,
                           lam: real, a: real, b: real, own: real, other: real)
    requires SimilarityOf(p, pool, cosine) && Within(p, before) && BestNext(p, before, next) && p.lam == lam
    requires i < |pool| && i !in before && p.rel[next] == a && p.rel[i] == b
    requires IsNearest(Pick(pool, before), pool[next], cosine, own) && IsNearest(Pick(pool, before), pool[i], cosine, other)
    ensures lam * b - (1.0 - lam) * other <= lam * a - (1.0 - lam) * own
  {
    NearestIsMaxSim(p, pool, cosine, before, i, other);
    NearestIsMaxSim(p, pool, cosine, before, next, own);
    BestIsBest(p, before, next, i, lam, a, b, own, other);
  }

  lemma {:induction false} PoolAppends<V>(a: seq<Candidate<V>>, b: seq<Candidate<V>>)
    ensures Pool(a + b) == Pool(a) + Pool(b)
  {
    if a == [] {
      assert a + b == b;
    } else {
      PoolAppends(a[1..], b);
      assert (a + b)[1..] == a[1..] + b;
    }
  }

  lemma {:induction false} OthersAppend<V>(a: seq<Candidate<V>>, b: seq<Candidate<V>>)
    ensures NoEmbedding(a + b) == NoEmbedding(a) + NoEmbedding(b)
  {
    if a == [] {
      assert a + b == b;
    } else {
      OthersAppend(a[1..], b);
      assert (a + b)[1..] == a[1..] + b;
    }
  }

  /** Dividing the candidates keeps both parts in the order given. */
  lemma DividingKeepsOrder<V>(a: seq<Candidate<V>>, c: Candidate<V>)
    ensures Pool(a + [c]) == if c.embedding.Some? then Pool(a) + [c] else Pool(a)
    ensures NoEmbedding(a + [c]) == if c.embedding.Some? then NoEmbedding(a) else NoEmbedding(a) + [c]
  {
    PoolAppends(a, [c]);
    OthersAppend(a, [c]);
  }

  /** Once every candidate with an embedding is listed, the others follow in the order given. */
  lemma OthersFollow<V(!new)>(cs: seq<Candidate<V>>, k: nat, lam: real, cosine: (V, V) -> real, out: seq<Candidate<V>>)
    requires IsSelection(cs, k, lam, cosine, out) && |Pool(cs)| <= k < |cs| && lam < 1.0 && Pool(cs) != []
    ensures |out| == k && k - |Pool(cs)| <= |NoEmbedding(cs)| && out[|Pool(cs)|..] == NoEmbedding(cs)[..k - |Pool(cs)|]
  {
    Partition(cs);
  }

  // ----- the shortcut at lambda >= 1 -----

  predicate SortedByRelevance<V>(cs: seq<Candidate<V>>) {
    forall i, j :: 0 <= i < j < |cs| ==> cs[i].relevance >= cs[j].relevance
  }

  predicate FullyEmbedded<V>(cs: seq<Candidate<V>>) {
    forall i :: 0 <= i < |cs| ==> cs[i].embedding.Some?
  }

  lemma {:induction false} PoolIsAll<V>(cs: seq<Candidate<V>>)
    requires FullyEmbedded(cs)
    ensures Pool(cs) == cs && NoEmbedding(cs) == []
  {
    if cs != [] { PoolIsAll(cs[1..]); }
  }

  lemma NormalisedIsMonotone<V>(pool: seq<Candidate<V>>, r: real, t: real)
    requires pool != [] && r >= t
    ensures Normalised(pool, r) >= Normalised(pool, t)
  {
    var span := Highest(pool) - Lowest(pool);
    if span > 0.0 { assert (r - Lowest(pool)) / span - (t - Lowest(pool)) / span == (r - t) / span; }
  }

  function Upto(n: nat): (s: seq<nat>)
    ensures |s| == n && forall i :: 0 <= i < n ==> s[i] == i
  {
    seq(n, i requires 0 <= i => i as nat)
  }

  lemma {:induction false} GreedyByRelevance(p: Problem, n: nat)
    requires Square(p) && p.lam == 1.0 && n <= |p.rel|
    requires forall i, j :: 0 <= i < j < |p.rel| ==> p.rel[i] >= p.rel[j]
    ensures Greedy(p, Upto(n))
  {
    if n > 0 {
      GreedyByRelevance(p, n - 1);
      var before := Upto(n - 1);
      assert Upto(n)[..n - 1] == before;
      forall i | 0 <= i < |p.rel|
        ensures Objective(p, before, i) == p.rel[i] && (i in before <==> i < n - 1)
      {
        assert i < n - 1 ==> before[i] == i;
      }
    }
  }

  /** On relevance-sorted, fully embedded candidates the loop at lambda = 1 is the shortcut's prefix. */
  lemma ShortcutAgreesWithLoop<V>(cs: seq<Candidate<V>>, k: nat, cosine: (V, V) -> real, selected: seq<nat>)
    requires cs != [] && SortedByRelevance(cs) && FullyEmbedded(cs)
    requires Greedy(ProblemOf(Pool(cs), 1.0, cosine), selected) && |selected| == Min(k, |Pool(cs)|)
    ensures Take(Pick(Pool(cs), selected) + NoEmbedding(cs), k) == Take(cs, k)
  {
    PoolIsAll(cs);
    var p := ProblemOf(cs, 1.0, cosine);
    forall i, j | 0 <= i < j < |p.rel|
      ensures p.rel[i] >= p.rel[j]
    {
      NormalisedIsMonotone(cs, cs[i].relevance, cs[j].relevance);
    }
    GreedyByRelevance(p, |selected|);
    GreedyIsUnique(p, selected, Upto(|selected|));
    FirstPicks(cs, selected, k);
  }

  lemma FirstPicks<T>(s: seq<T>, selected: seq<nat>, k: nat)
    requires |selected| == Min(k, |s|) && selected == Upto(|selected|)
    ensures Take(Pick(s, selected) + [], k) == Take(s, k)
  {
  }

  // ----- where the shortcut cuts in -----

  const THREE: seq<Candidate<nat>> :=
    [Candidate(0, 2.0, Some(0)), Candidate(1, 1.0, Some(1)), Candidate(2, 0.0, Some(2))]

  /** Items 0 and 1 are duplicates of each other, all others are orthogonal. */
  function Twins(a: nat, b: nat): real {
    if a == b || (a <= 1 && b <= 1) then 1.0 else 0.0
  }

  lemma PoolOfThree()
    ensures Pool(THREE) == THREE && NoEmbedding(THREE) == []
    ensures ProblemOf(THREE, 0.5, Twins).rel == [1.0, 0.5, 0.0]
    ensures ProblemOf(THREE, 0.5, Twins).sim[0][1] == 1.0 && ProblemOf(THREE, 0.5, Twins).sim[0][2] == 0.0
  {
    PoolIsAll(THREE);
    RelOfThree();
    SimOf(THREE, 0.5, Twins, 0, 1);
    SimOf(THREE, 0.5, Twins, 0, 2);
  }

  lemma RelOfThree()
    ensures ProblemOf(THREE, 0.5, Twins).rel == [1.0, 0.5, 0.0]
  {
    RangeOfThree();
    assert Normalised(THREE, 2.0) == 1.0 && Normalised(THREE, 1.0) == 0.5 && Normalised(THREE, 0.0) == 0.0;
  }

  lemma RangeOfThree()
    ensures Lowest(THREE) == 0.0 && Highest(THREE) == 2.0
  {
    assert Lowest(THREE[2..]) == 0.0 && Lowest(THREE[1..]) == 0.0;
    assert Highest(THREE[2..]) == 0.0 && Highest(THREE[1..]) == 1.0;
  }

  lemma GreedyOfThree()
    ensures Square(ProblemOf(THREE, 0.5, Twins)) && Greedy(ProblemOf(THREE, 0.5, Twins), [0, 2])
  {
    PoolOfThree();
    var p := ProblemOf(THREE, 0.5, Twins);
    assert Objective(p, [], 0) == 0.5 && Objective(p, [], 1) == 0.25 && Objective(p, [], 2) == 0.0;
    assert MaxSim(p, [0], 1) == Max(MaxSim(p, [0][..0], 1), p.sim[0][1]);
    assert MaxSim(p, [0], 2) == Max(MaxSim(p, [0][..0], 2), p.sim[0][2]);
    assert Objective(p, [0], 1) == -0.25 && Objective(p, [0], 2) == 0.0;
    assert [] + [0] == [0] && [0] + [2] == [0, 2];
    AppendPick(p, [], 0);
    AppendPick(p, [0], 2);
  }

  /** Asking for one more can drop an earlier pick, when the larger request takes every candidate. */
  lemma ShortcutBreaksThePrefix(small: seq<Candidate<nat>>, large: seq<Candidate<nat>>)
    requires IsSelection(THREE, 2, 0.5, Twins, small) && IsSelection(THREE, 3, 0.5, Twins, large)
    ensures |small| == 2 && large == THREE && small != large[..2]
  {
    PoolOfThree();
    GreedyOfThree();
    var p := ProblemOf(THREE, 0.5, Twins);
    var a :| Greedy(p, a) && |a| == 2 && small == Take(Pick(THREE, a) + [], 2);
    GreedyIsUnique(p, a, [0, 2]);
    PicksOfThree(small);
  }

  lemma PicksOfThree(small: seq<Candidate<nat>>)
    requires small == Take(Pick(THREE, [0, 2]) + [], 2)
    ensures |small| == 2 && small != Take(THREE, 3)[..2] && Take(THREE, 3) == THREE
  {
    assert small[1] == THREE[2];
  }

  // ----- exactly when a request for one more keeps the earlier picks -----

  ghost predicate Grows<V(!new)>(cs: seq<Candidate<V>>, k: nat, lam: real, cosine: (V, V) -> real) {
    forall small, large {:trigger IsSelection(cs, k, lam, cosine, small), IsSelection(cs, k + 1, lam, cosine, large)} ::
      IsSelection(cs, k, lam, cosine, small) && IsSelection(cs, k + 1, lam, cosine, large) ==> small <= large
  }

  /** The prefix is kept unless the larger request takes every candidate and the smaller one does not. */
  lemma GrowsUnlessOneShort<V(!new)>(cs: seq<Candidate<V>>, k: nat, lam: real, cosine: (V, V) -> real)
    requires |cs| != k + 1 || lam >= 1.0 || Pool(cs) == [] || k == 0
    ensures Grows(cs, k, lam, cosine)
  {
    forall small, large {:trigger IsSelection(cs, k, lam, cosine, small), IsSelection(cs, k + 1, lam, cosine, large)}
      | IsSelection(cs, k, lam, cosine, small) && IsSelection(cs, k + 1, lam, cosine, large)
      ensures small <= large
    {
      SelectionIsSubBag(cs, k, lam, cosine, small);
      if !Shortcut(cs, k, lam) && !Shortcut(cs, k + 1, lam) {
        SelectionGrowsByOne(cs, k, lam, cosine, small, large);
      }
    }
  }

  /** Different items are orthogonal. */
  function Unalike(a: nat, b: nat): real {
    if a == b then 1.0 else 0.0
  }

  /** A first candidate of relevance 1, and `k` embedded ones whose relevance is `rest`. */
  function Ahead(k: nat, first: Option<nat>, rest: real): (cs: seq<Candidate<nat>>)
    ensures |cs| == k + 1 && cs[0] == Candidate(0, 1.0, first)
    ensures forall i :: 1 <= i <= k ==> cs[i] == Candidate(i, rest, Some(i))
  {
    [Candidate(0, 1.0, first)] + seq(k, i requires 0 <= i => Candidate(i + 1, rest, Some(i + 1)))
  }

  function UptoFrom(from: nat, n: nat): (s: seq<nat>)
    ensures |s| == n && forall i :: 0 <= i < n ==> s[i] == from + i
  {
    seq(n, i requires 0 <= i => from + i)
  }

  lemma AppendPick(p: Problem, before: seq<nat>, best: nat)
    requires Square(p) && Greedy(p, before) && BestNext(p, before, best)
    ensures Greedy(p, before + [best])
  {
    assert (before + [best])[..|before|] == before;
  }

  /** No item resembles another one. */
  ghost predicate Dissimilar(p: Problem)
    requires Square(p)
  {
    forall i, j :: 0 <= i < |p.rel| && 0 <= j < |p.rel| && i != j ==> p.sim[i][j] == 0.0
  }

  lemma {:induction false} NoSimilarity(p: Problem, selected: seq<nat>, i: nat)
    requires Square(p) && i < |p.rel| && Within(p, selected) && Dissimilar(p) && i !in selected
    ensures MaxSim(p, selected, i) == 0.0
    decreases |selected|
  {
    if selected != [] { NoSimilarity(p, selected[..|selected| - 1], i); }
  }

  /** What a normalised relevance of 0 or 1 contributes. */
  function Worth(p: Problem, i: nat): real
    requires i < |p.rel|
  {
    if p.rel[i] == 1.0 then p.lam else 0.0
  }

  /** Items from `from` on are worth `level` and those before it less. */
  ghost predicate EvenFrom(p: Problem, from: nat, level: real) {
    forall i :: 0 <= i < |p.rel| ==>
      (p.rel[i] == 0.0 || p.rel[i] == 1.0) && if i < from then Worth(p, i) < level else Worth(p, i) == level
  }

  lemma PlainObjective(p: Problem, selected: seq<nat>, i: nat)
    requires Square(p) && i < |p.rel| && Within(p, selected) && Dissimilar(p) && (p.rel[i] == 0.0 || p.rel[i] == 1.0)
    requires i !in selected
    ensures Objective(p, selected, i) == Worth(p, i)
  {
    NoSimilarity(p, selected, i);
  }

  /** Items from `from` on are worth the same and more than those before: they are picked in order. */
  lemma {:induction false} EvenPicks(p: Problem, from: nat, level: real, n: nat)
    requires Square(p) && Dissimilar(p) && from + n <= |p.rel|
    requires EvenFrom(p, from, level)
    ensures Greedy(p, UptoFrom(from, n))
  {
    if n == 0 {
      assert UptoFrom(from, 0) == [];
    } else {
      EvenPicks(p, from, level, n - 1);
      NextEvenPick(p, from, level, n - 1);
      AppendPick(p, UptoFrom(from, n - 1), from + n - 1);
      UptoFromNext(from, n - 1);
    }
  }

  lemma UptoFromNext(from: nat, n: nat)
    ensures UptoFrom(from, n) + [from + n] == UptoFrom(from, n + 1)
  {
  }

  lemma NextEvenPick(p: Problem, from: nat, level: real, n: nat)
    requires Square(p) && Dissimilar(p) && from + n < |p.rel|
    requires EvenFrom(p, from, level)
    ensures Within(p, UptoFrom(from, n)) && BestNext(p, UptoFrom(from, n), from + n)
  {
    var before := UptoFrom(from, n);
    forall i | 0 <= i < |p.rel|
      ensures i in before <==> from <= i < from + n
      ensures i !in before ==> if i < from then Objective(p, before, i) < level else Objective(p, before, i) == level
    {
      assert from <= i < from + n ==> before[i - from] == i;
      if i !in before { PlainObjective(p, before, i); }
    }
  }

  /** Equal relevance is normalised to 1. */
  lemma {:induction false} FlatRange<V>(cs: seq<Candidate<V>>, level: real)
    requires cs != [] && forall i :: 0 <= i < |cs| ==> cs[i].relevance == level
    ensures Lowest(cs) == level && Highest(cs) == level
  {
    if |cs| > 1 { FlatRange(cs[1..], level); }
  }

  lemma FlatProblem(pool: seq<Candidate<nat>>, lam: real)
    requires pool != [] && FullyEmbedded(pool) && forall i :: 0 <= i < |pool| ==> pool[i].relevance == 0.0
    requires forall i, j :: 0 <= i < |pool| && 0 <= j < |pool| && i != j ==> pool[i].embedding != pool[j].embedding
    ensures var p := ProblemOf(pool, lam, Unalike);
            Dissimilar(p) && forall i :: 0 <= i < |p.rel| ==> p.rel[i] == 1.0
  {
    FlatRange(pool, 0.0);
    forall i, j | 0 <= i < |pool| && 0 <= j < |pool| && i != j
      ensures ProblemOf(pool, lam, Unalike).sim[i][j] == 0.0
    {
      SimOf(pool, lam, Unalike, i, j);
    }
  }

  lemma SimOf(pool: seq<Candidate<nat>>, lam: real, cosine: (nat, nat) -> real, i: nat, j: nat)
    requires FullyEmbedded(pool) && i < |pool| && j < |pool|
    ensures ProblemOf(pool, lam, cosine).sim[i][j] == cosine(pool[i].embedding.value, pool[j].embedding.value)
  {
  }

  /** A candidate without an embedding is skipped by the smaller request and comes first in the larger one. */
  lemma UnembeddedBreaksThePrefix(k: nat, lam: real)
    requires k >= 1 && lam < 1.0
    ensures !Grows(Ahead(k, None, 0.0), k, lam, Unalike)
  {
    var cs := Ahead(k, None, 0.0);
    var pool := cs[1..];
    PoolIsAll(pool);
    assert Pool(cs) == pool;
    FlatProblem(pool, lam);
    EvenPicks(ProblemOf(pool, lam, Unalike), 0, lam, k);
    BreaksByPick(cs, k, lam, Unalike, UptoFrom(0, k), 0);
  }

  /** These greedy picks and the shortcut of the larger request differ at place `at`. */
  lemma BreaksByPick(cs: seq<Candidate<nat>>, k: nat, lam: real, cosine: (nat, nat) -> real, selected: seq<nat>, at: nat)
    requires |cs| == k + 1 && lam < 1.0 && Pool(cs) != []
    requires var pool := Pool(cs);
             && Greedy(ProblemOf(pool, lam, cosine), selected) && |selected| == Min(k, |pool|) && at < |selected| && at < k
             && selected[at] < |pool| && pool[selected[at]] != cs[at]
    ensures !Grows(cs, k, lam, cosine)
  {
    var pool := Pool(cs);
    var small := Take(Pick(pool, selected) + NoEmbedding(cs), k);
    Partition(cs);
    assert IsSelection(cs, k, lam, cosine, small);
    assert IsSelection(cs, k + 1, lam, cosine, Take(cs, k + 1));
    assert small[at] == Pick(pool, selected)[at] == pool[selected[at]];
    assert Take(cs, k + 1)[at] == cs[at];
  }

  /** For every request and trade-off: the numbers of candidates for which the earlier picks are safe. */
  lemma GrowsForAllIff(n: nat, k: nat, lam: real)
    ensures (forall cs: seq<Candidate<nat>>, cosine: (nat, nat) -> real {:trigger Grows(cs, k, lam, cosine)} ::
               |cs| == n ==> Grows(cs, k, lam, cosine))
            <==> n != k + 1 || lam >= 1.0 || k == 0
  {
    if n != k + 1 || lam >= 1.0 || k == 0 {
      forall cs: seq<Candidate<nat>>, cosine: (nat, nat) -> real {:trigger Grows(cs, k, lam, cosine)} | |cs| == n
        ensures Grows(cs, k, lam, cosine)
      {
        GrowsUnlessOneShort(cs, k, lam, cosine);
      }
    } else {
      UnembeddedBreaksThePrefix(k, lam);
      assert |Ahead(k, None, 0.0)| == n;
    }
  }

  // ----- the same on the input the callers pass: sorted by relevance, every embedding present -----

  /** One candidate ahead of the others is normalised to 1, the others to 0. */
  lemma AheadRange(k: nat)
    requires k >= 1
    ensures Highest(Ahead(k, Some(0), 0.0)) == 1.0 && Lowest(Ahead(k, Some(0), 0.0)) == 0.0
  {
    var cs := Ahead(k, Some(0), 0.0);
    FlatRange(cs[1..], 0.0);
  }

  lemma AheadProblem(k: nat, lam: real, cosine: (nat, nat) -> real)
    requires k >= 1
    ensures var cs := Ahead(k, Some(0), 0.0);
            && FullyEmbedded(cs) && SortedByRelevance(cs) && Pool(cs) == cs
            && var p := ProblemOf(cs, lam, cosine);
               && |p.rel| == k + 1 && (forall i :: 0 <= i <= k ==> p.rel[i] == if i == 0 then 1.0 else 0.0)
               && forall i, j :: 0 <= i <= k && 0 <= j <= k ==> p.sim[i][j] == cosine(i, j)
  {
    PoolIsAll(Ahead(k, Some(0), 0.0));
    AheadRel(k, lam, cosine);
    AheadSim(k, lam, cosine);
  }

  lemma AheadRel(k: nat, lam: real, cosine: (nat, nat) -> real)
    requires k >= 1
    ensures var cs := Ahead(k, Some(0), 0.0);
            && FullyEmbedded(cs) && SortedByRelevance(cs)
            && var p := ProblemOf(cs, lam, cosine);
               |p.rel| == k + 1 && (forall i :: 0 <= i <= k ==> p.rel[i] == if i == 0 then 1.0 else 0.0)
  {
    AheadRange(k);
  }

  lemma AheadSim(k: nat, lam: real, cosine: (nat, nat) -> real)
    requires FullyEmbedded(Ahead(k, Some(0), 0.0))
    ensures var p := ProblemOf(Ahead(k, Some(0), 0.0), lam, cosine);
            |p.rel| == k + 1 && forall i, j :: 0 <= i <= k && 0 <= j <= k ==> p.sim[i][j] == cosine(i, j)
  {
    var cs := Ahead(k, Some(0), 0.0);
    forall i, j | 0 <= i <= k && 0 <= j <= k
      ensures ProblemOf(cs, lam, cosine).sim[i][j] == cosine(i, j)
    {
      SimOf(cs, lam, cosine, i, j);
    }
  }

  /** Items 0 and 1 are alike and nothing else is; item 0 is ahead. */
  ghost predicate TwinProblem(p: Problem) {
    && Square(p) && |p.rel| >= 2 && 0.0 <= p.lam < 1.0
    && (forall i :: 0 <= i < |p.rel| ==> p.rel[i] == if i == 0 then 1.0 else 0.0)
    && forall i, j :: 0 <= i < |p.rel| && 0 <= j < |p.rel| ==> p.sim[i][j] == Twins(i, j)
  }

  lemma {:induction false} TwinScores(p: Problem, m: nat, i: nat)
    requires TwinProblem(p) && m + 2 <= |p.rel| && 1 <= i < |p.rel| && (i == 1 || i >= m + 2)
    ensures Within(p, [0] + UptoFrom(2, m))
    ensures Objective(p, [0] + UptoFrom(2, m), i) == if i == 1 then p.lam - 1.0 else 0.0
  {
    var picks := [0] + UptoFrom(2, m);
    if m > 0 {
      TwinScores(p, m - 1, i);
      assert picks[..|picks| - 1] == [0] + UptoFrom(2, m - 1);
      assert picks[|picks| - 1] == m + 1;
    } else {
      assert picks == [0] && [0][..0] == [];
      assert MaxSim(p, [0], i) == Max(MaxSim(p, [], i), p.sim[0][i]);
    }
  }

  lemma {:induction false} TwinPicks(p: Problem, m: nat)
    requires TwinProblem(p) && m + 2 <= |p.rel|
    ensures Greedy(p, [0] + UptoFrom(2, m))
  {
    if m == 0 {
      AppendPick(p, [], 0);
      assert [] + [0] == [0] + UptoFrom(2, 0);
    } else {
      TwinPicks(p, m - 1);
      NextTwinPick(p, m - 1);
      AppendPick(p, [0] + UptoFrom(2, m - 1), m + 1);
      assert [0] + UptoFrom(2, m - 1) + [m + 1] == [0] + UptoFrom(2, m);
    }
  }

  lemma NextTwinPick(p: Problem, m: nat)
    requires TwinProblem(p) && m + 3 <= |p.rel|
    ensures Within(p, [0] + UptoFrom(2, m)) && BestNext(p, [0] + UptoFrom(2, m), m + 2)
  {
    var before := [0] + UptoFrom(2, m);
    TwinScores(p, m, 1);
    forall i | 0 <= i < |p.rel|
      ensures i in before <==> i == 0 || 2 <= i <= m + 1
      ensures i !in before ==> Objective(p, before, i) == if i == 1 then p.lam - 1.0 else 0.0
    {
      assert before[0] == 0 && (2 <= i <= m + 1 ==> before[i - 1] == i);
      if i == 1 || i > m + 1 { TwinScores(p, m, i); }
    }
  }

  lemma SortedBreaks(k: nat, lam: real)
    requires lam < 1.0 && k >= 1 && (lam < 0.0 || k >= 2)
    ensures !Grows(Ahead(k, Some(0), 0.0), k, lam, if lam < 0.0 then Unalike else Twins)
  {
    var cs := Ahead(k, Some(0), 0.0);
    if lam < 0.0 {
      AheadProblem(k, lam, Unalike);
      assert EvenFrom(ProblemOf(cs, lam, Unalike), 1, 0.0);
      EvenPicks(ProblemOf(cs, lam, Unalike), 1, 0.0, k);
      BreaksByPick(cs, k, lam, Unalike, UptoFrom(1, k), 0);
    } else {
      AheadProblem(k, lam, Twins);
      TwinPicks(ProblemOf(cs, lam, Twins), k - 1);
      BreaksByPick(cs, k, lam, Twins, [0] + UptoFrom(2, k - 1), 1);
    }
  }

  /** A single pick from sorted candidates is the first one, unless the trade-off is negative. */
  lemma SinglePickIsFirst<V(!new)>(cs: seq<Candidate<V>>, lam: real, cosine: (V, V) -> real)
    requires |cs| == 2 && SortedByRelevance(cs) && FullyEmbedded(cs) && 0.0 <= lam < 1.0
    ensures Grows(cs, 1, lam, cosine)
  {
    PoolIsAll(cs);
    var p := ProblemOf(cs, lam, cosine);
    FirstOfTwo(cs, p);
    forall small, large {:trigger IsSelection(cs, 1, lam, cosine, small), IsSelection(cs, 2, lam, cosine, large)}
      | IsSelection(cs, 1, lam, cosine, small) && IsSelection(cs, 2, lam, cosine, large)
      ensures small <= large
    {
      var a :| Greedy(p, a) && |a| == 1 && small == Take(Pick(cs, a) + NoEmbedding(cs), 1);
      GreedyIsUnique(p, a, [0]);
      FirstOfTwoIsKept(cs, small, large);
    }
  }

  lemma FirstOfTwo<V(!new)>(cs: seq<Candidate<V>>, p: Problem)
    requires |cs| == 2 && SortedByRelevance(cs) && Square(p) && |p.rel| == 2 && p.lam >= 0.0
    requires p.rel[0] == Normalised(cs, cs[0].relevance) && p.rel[1] == Normalised(cs, cs[1].relevance)
    ensures Greedy(p, [0])
  {
    NormalisedIsMonotone(cs, cs[0].relevance, cs[1].relevance);
    assert p.lam * p.rel[0] >= p.lam * p.rel[1];
    AppendPick(p, [], 0);
    assert [] + [0] == [0];
  }

  lemma FirstOfTwoIsKept<V>(cs: seq<Candidate<V>>, small: seq<Candidate<V>>, large: seq<Candidate<V>>)
    requires |cs| == 2 && small == Take(Pick(cs, [0]) + [], 1) && large == Take(cs, 2)
    ensures small <= large
  {
    assert small == [cs[0]] && large == cs;
  }

  /** On sorted, fully embedded candidates a single pick is safe too, and nothing else is. */
  lemma SortedGrowsForAllIff(n: nat, k: nat, lam: real)
    ensures (forall cs: seq<Candidate<nat>>, cosine: (nat, nat) -> real {:trigger Grows(cs, k, lam, cosine)} ::
               |cs| == n && SortedByRelevance(cs) && FullyEmbedded(cs) ==> Grows(cs, k, lam, cosine))
            <==> n != k + 1 || lam >= 1.0 || k == 0 || (k == 1 && lam >= 0.0)
  {
    if n != k + 1 || lam >= 1.0 || k == 0 || (k == 1 && lam >= 0.0) {
      forall cs: seq<Candidate<nat>>, cosine: (nat, nat) -> real {:trigger Grows(cs, k, lam, cosine)}
        | |cs| == n && SortedByRelevance(cs) && FullyEmbedded(cs)
        ensures Grows(cs, k, lam, cosine)
      {
        if n != k + 1 || lam >= 1.0 || k == 0 {
          GrowsUnlessOneShort(cs, k, lam, cosine);
        } else {
          SinglePickIsFirst(cs, lam, cosine);
        }
      }
    } else {
      SortedBreaks(k, lam);
      AheadProblem(k, lam, Twins);
      assert |Ahead(k, Some(0), 0.0)| == n;
    }
  }
}
