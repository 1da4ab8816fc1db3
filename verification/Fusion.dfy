// Reciprocal rank fusion of a vector and a keyword result list. Candidates are objects that the
// fusion updates in place; `merged` is an insertion-ordered dictionary.
module Fusion {
  import opened Types
  import opened Sorting

  type ChunkId = nat

  class Candidate {
    const id: ChunkId
    const vectorRank: Option<int>
    var keywordRank: Option<int>
    var keywordScore: Option<real>
    var fusedScore: real

    constructor (id: ChunkId, vectorRank: Option<int>, keywordRank: Option<int>, keywordScore: Option<real>)
      ensures this.id == id && this.vectorRank == vectorRank
      ensures this.keywordRank == keywordRank && this.keywordScore == keywordScore && fusedScore == 0.0
    {
      this.id, this.vectorRank := id, vectorRank;
      this.keywordRank, this.keywordScore, fusedScore := keywordRank, keywordScore, 0.0;
    }
  }

  /** What the fusion reads of one list entry. */
  datatype Hit = Hit(id: ChunkId, rank: Option<int>, score: Option<real>)

  datatype Params = Params(k: int, vectorWeight: real, keywordWeight: real)

  function VectorHits(cs: seq<Candidate>): (hits: seq<Hit>)
    ensures |hits| == |cs|
  {
    seq(|cs|, i requires 0 <= i < |cs| => Hit(cs[i].id, cs[i].vectorRank, None))
  }

  ghost function KeywordHits(cs: seq<Candidate>): (hits: seq<Hit>)
    reads cs
    ensures |hits| == |cs|
  {
    seq(|cs|, i requires 0 <= i < |cs| reads cs => Hit(cs[i].id, cs[i].keywordRank, cs[i].keywordScore))
  }

  // ----- the specification -----

  predicate Ranks(h: Hit, id: ChunkId) {
    h.id == id && h.rank.Some?
  }

  /** No rank makes a denominator zero. */
  predicate Defined(hits: seq<Hit>, k: int) {
    forall i :: 0 <= i < |hits| && hits[i].rank.Some? ==> k + hits[i].rank.value != 0
  }

  function Share(weight: real, k: int, rank: int): real
    requires k + rank != 0
  {
    weight / (k + rank) as real
  }

  function LastRanked(hits: seq<Hit>, id: ChunkId): (i: int)
    ensures -1 <= i < |hits|
    ensures i >= 0 ==> Ranks(hits[i], id)
    decreases |hits|
  {
    if hits == [] then -1
    else if Ranks(hits[|hits| - 1], id) then |hits| - 1
    else LastRanked(hits[..|hits| - 1], id)
  }

  function FirstRanked(hits: seq<Hit>, id: ChunkId): (i: nat)
    ensures i <= |hits|
    ensures i < |hits| ==> Ranks(hits[i], id)
  {
    if hits == [] || Ranks(hits[0], id) then 0 else 1 + FirstRanked(hits[1..], id)
  }

  function VectorTerm(hits: seq<Hit>, p: Params, id: ChunkId): real
    requires Defined(hits, p.k)
  {
    var i := LastRanked(hits, id);
    if i >= 0 then Share(p.vectorWeight, p.k, hits[i].rank.value) else 0.0
  }

  function KeywordTerm(hits: seq<Hit>, p: Params, id: ChunkId): real
    requires Defined(hits, p.k)
    decreases |hits|
  {
    if hits == [] then 0.0
    else
      var h := hits[|hits| - 1];
      KeywordTerm(hits[..|hits| - 1], p, id) + if Ranks(h, id) then Share(p.keywordWeight, p.k, h.rank.value) else 0.0
  }

  function Score(vector: seq<Hit>, keyword: seq<Hit>, p: Params, id: ChunkId): real
    requires Defined(vector, p.k) && Defined(keyword, p.k)
  {
    VectorTerm(vector, p, id) + KeywordTerm(keyword, p, id)
  }

  /** Ranked identifiers in the order of their first occurrence. */
  function Order(hits: seq<Hit>): seq<ChunkId>
    decreases |hits|
  {
    if hits == [] then []
    else
      var before, h := Order(hits[..|hits| - 1]), hits[|hits| - 1];
      if h.rank.Some? && h.id !in before then before + [h.id] else before
  }

  function Scored(vector: seq<Hit>, keyword: seq<Hit>, p: Params): (rows: seq<(real, ChunkId)>)
    requires Defined(vector, p.k) && Defined(keyword, p.k)
    ensures |rows| == |Order(vector + keyword)|
  {
    var order := Order(vector + keyword);
    seq(|order|, i requires 0 <= i < |order| => (Score(vector, keyword, p, order[i]), order[i]))
  }

  /**
   * A keyword entry that repeats an identifier is an object the fusion has not rewritten before.
   * Always true when the keyword list has unique identifiers, or when no object is listed twice.
   */
  predicate Independent(vector: seq<Candidate>, keyword: seq<Candidate>) {
    forall i, j :: 0 <= i < j < |keyword| && keyword[i].id == keyword[j].id ==>
                     keyword[i] != keyword[j] && keyword[j] !in vector
  }

  // ----- the algorithm -----

  /** The last ranked vector entry for `id`, else the first ranked keyword entry. */
  ghost predicate IsKept(vector: seq<Candidate>, keyword: seq<Candidate>, front: seq<Hit>, back: seq<Hit>,
                         e: Candidate, id: ChunkId)
    requires |front| <= |vector| && |back| <= |keyword|
  {
    var v, f, l := LastRanked(front, id), FirstRanked(back, id), LastRanked(back, id);
    && (v >= 0 || l >= 0)
    && (v >= 0 ==> e == vector[v])
    && (v < 0 ==> f < |back| && e == keyword[f])
    && e.id == id
  }

  /**
   * `e` is the candidate kept for `id` after the hits `front` and `back`, with the closed-form
   * score and the rank and score of the last ranked keyword entry. `was` holds the keyword fields
   * the vector list came with.
   */
  ghost predicate Entry(vector: seq<Candidate>, keyword: seq<Candidate>, front: seq<Hit>, back: seq<Hit>,
                        was: seq<Hit>, p: Params, e: Candidate, id: ChunkId)
    requires |front| <= |vector| == |was| && |back| <= |keyword|
    requires Defined(front, p.k) && Defined(back, p.k)
    reads e
  {
    var v, l := LastRanked(front, id), LastRanked(back, id);
    && IsKept(vector, keyword, front, back, e, id)
    && e.fusedScore == Score(front, back, p, id)
    && e.keywordRank == (if l >= 0 then back[l].rank else was[v].rank)
    && e.keywordScore == (if l >= 0 then back[l].score else was[v].score)
  }

  lemma Peel(hits: seq<Hit>, p: Params, h: Hit, id: ChunkId)
    requires Defined(hits + [h], p.k)
    ensures Defined(hits, p.k)
    ensures LastRanked(hits + [h], id) == if Ranks(h, id) then |hits| else LastRanked(hits, id)
    ensures VectorTerm(hits + [h], p, id) == if Ranks(h, id) then Share(p.vectorWeight, p.k, h.rank.value) else VectorTerm(hits, p, id)
    ensures KeywordTerm(hits + [h], p, id)
            == KeywordTerm(hits, p, id) + if Ranks(h, id) then Share(p.keywordWeight, p.k, h.rank.value) else 0.0
  {
    assert (hits + [h])[..|hits|] == hits;
    forall i | 0 <= i < |hits| && hits[i].rank.Some?
      ensures p.k + hits[i].rank.value != 0
    {
      assert (hits + [h])[i] == hits[i];
    }
    assert (hits + [h])[|hits|] == h;
  }

  lemma {:induction false} PeelFirst(hits: seq<Hit>, h: Hit, id: ChunkId)
    ensures FirstRanked(hits + [h], id) ==
            if FirstRanked(hits, id) < |hits| then FirstRanked(hits, id) else if Ranks(h, id) then |hits| else |hits| + 1
  {
    if hits != [] {
      assert (hits + [h])[0] == hits[0] && (hits + [h])[1..] == hits[1..] + [h];
      PeelFirst(hits[1..], h, id);
    } else {
      assert ([h])[1..] == [] && hits + [h] == [h];
    }
  }

  lemma OrderPeel(hits: seq<Hit>, h: Hit)
    ensures Order(hits + [h]) == if h.rank.Some? && h.id !in Order(hits) then Order(hits) + [h.id] else Order(hits)
  {
    assert (hits + [h])[..|hits|] == hits;
  }

  /** An entry is not affected by a hit for another identifier. */
  lemma EntryOther(vector: seq<Candidate>, keyword: seq<Candidate>, front: seq<Hit>, back: seq<Hit>,
                   was: seq<Hit>, p: Params, e: Candidate, id: ChunkId, h: Hit)
    requires |front| <= |vector| == |was| && |back| <= |keyword| && !Ranks(h, id)
    requires Defined(front, p.k) && Defined(back, p.k) && Defined([h], p.k)
    requires Entry(vector, keyword, front, back, was, p, e, id)
    ensures Defined(front + [h], p.k) && Defined(back + [h], p.k)
    ensures |front| < |vector| ==> Entry(vector, keyword, front + [h], back, was, p, e, id)
    ensures |back| < |keyword| ==> Entry(vector, keyword, front, back + [h], was, p, e, id)
  {
    assert [h][0] == h;
    Peel(front, p, h, id);
    Peel(back, p, h, id);
    PeelFirst(back, h, id);
  }

  lemma {:induction false} OrderMember(front: seq<Hit>, back: seq<Hit>, id: ChunkId)
    ensures id in Order(front + back) <==> LastRanked(front, id) >= 0 || LastRanked(back, id) >= 0
    decreases |front| + |back|
  {
    if back != [] {
      var b, h := back[..|back| - 1], back[|back| - 1];
      assert back == b + [h] && front + back == (front + b) + [h];
      OrderPeel(front + b, h);
      OrderMember(front, b, id);
    } else if front != [] {
      var b, h := front[..|front| - 1], front[|front| - 1];
      assert front == b + [h] && front + back == b + [h] && b + [] == b;
      OrderPeel(b, h);
      OrderMember(b, [], id);
    }
  }

  lemma {:induction false} NoTerm(hits: seq<Hit>, p: Params, id: ChunkId)
    requires Defined(hits, p.k) && LastRanked(hits, id) < 0
    ensures KeywordTerm(hits, p, id) == 0.0 && FirstRanked(hits, id) == |hits|
    decreases |hits|
  {
    if hits != [] {
      var before, h := hits[..|hits| - 1], hits[|hits| - 1];
      NoTerm(before, p, id);
      assert hits == before + [h];
      PeelFirst(before, h, id);
    }
  }

  lemma OthersKeep(vector: seq<Candidate>, keyword: seq<Candidate>, front: seq<Hit>, back: seq<Hit>, was: seq<Hit>,
                   p: Params, merged: map<ChunkId, Candidate>, h: Hit)
    requires |front| <= |vector| == |was| && |back| <= |keyword|
    requires Defined(front, p.k) && Defined(back, p.k) && Defined([h], p.k)
    requires OthersHold(vector, keyword, front, back, was, p, merged, h)
    ensures Defined(front + [h], p.k) && Defined(back + [h], p.k)
    ensures |front| < |vector| ==> OthersHold(vector, keyword, front + [h], back, was, p, merged, h)
    ensures |back| < |keyword| ==> OthersHold(vector, keyword, front, back + [h], was, p, merged, h)
  {
    forall id | id in merged && !Ranks(h, id)
      ensures |front| < |vector| ==> Entry(vector, keyword, front + [h], back, was, p, merged[id], id)
      ensures |back| < |keyword| ==> Entry(vector, keyword, front, back + [h], was, p, merged[id], id)
    {
      EntryOther(vector, keyword, front, back, was, p, merged[id], id, h);
    }
  }

  /** The first ranked hit of an identifier: `c` is a new entry. */
  lemma EntryNew(vector: seq<Candidate>, keyword: seq<Candidate>, front: seq<Hit>, back: seq<Hit>,
                 was: seq<Hit>, p: Params, c: Candidate, h: Hit)
    requires |front| <= |vector| == |was| && |back| < |keyword| && c == keyword[|back|] && Ranks(h, c.id)
    requires Defined(front, p.k) && Defined(back + [h], p.k) && p.k + h.rank.value != 0
    requires LastRanked(front, c.id) < 0 && LastRanked(back, c.id) < 0
    requires c.fusedScore == Share(p.keywordWeight, p.k, h.rank.value) && c.keywordRank == h.rank && c.keywordScore == h.score
    ensures Entry(vector, keyword, front, back + [h], was, p, c, c.id)
  {
    Peel(back, p, h, c.id);
    PeelFirst(back, h, c.id);
    NoTerm(back, p, c.id);
  }

  /** A further ranked hit of an identifier: its entry takes over the rank and adds the share. */
  lemma EntryAgain(vector: seq<Candidate>, keyword: seq<Candidate>, front: seq<Hit>, back: seq<Hit>,
                   was: seq<Hit>, p: Params, e: Candidate, h: Hit)
    requires |front| <= |vector| == |was| && |back| < |keyword| && Ranks(h, e.id)
    requires Defined(front, p.k) && Defined(back, p.k) && Defined(back + [h], p.k) && p.k + h.rank.value != 0
    requires IsKept(vector, keyword, front, back, e, e.id)
    requires e.fusedScore == Score(front, back, p, e.id) + Share(p.keywordWeight, p.k, h.rank.value)
    requires e.keywordRank == h.rank && e.keywordScore == h.score
    ensures Entry(vector, keyword, front, back + [h], was, p, e, e.id)
  {
    Peel(back, p, h, e.id);
    PeelFirst(back, h, e.id);
  }

  /** A keyword entry still to come was not rewritten by the entries before it. */
  ghost predicate Untouched(keyword: seq<Candidate>, hits: seq<Hit>, i: nat)
    requires |hits| == |keyword|
    reads keyword
  {
    forall j :: i <= j < |keyword| ==> keyword[j].keywordRank == hits[j].rank && keyword[j].keywordScore == hits[j].score
  }

  /** A repeated identifier never leads to an object that is still to come. */
  lemma KeptIsPast(vector: seq<Candidate>, keyword: seq<Candidate>, front: seq<Hit>, back: seq<Hit>, e: Candidate)
    requires |front| <= |vector| && |back| < |keyword| && Independent(vector, keyword)
    requires IsKept(vector, keyword, front, back, e, keyword[|back|].id)
    ensures forall j :: |back| < j < |keyword| ==> keyword[j] != e
  {
  }

  /** `order` and `merged` are the dictionary after the hits `front` and `back`. */
  ghost predicate Merged(vector: seq<Candidate>, keyword: seq<Candidate>, front: seq<Hit>, back: seq<Hit>, was: seq<Hit>,
                         p: Params, order: seq<ChunkId>, merged: map<ChunkId, Candidate>)
    requires |front| <= |vector| == |was| && |back| <= |keyword|
    requires Defined(front, p.k) && Defined(back, p.k)
    reads merged.Values
  {
    && order == Order(front + back)
    && (forall id {:trigger id in order} :: id in merged <==> id in order)
    && (forall id {:trigger merged[id]} :: id in merged ==> Entry(vector, keyword, front, back, was, p, merged[id], id))
  }

  /** The entries of all identifiers but the one the hit `h` ranks. */
  ghost predicate OthersHold(vector: seq<Candidate>, keyword: seq<Candidate>, front: seq<Hit>, back: seq<Hit>, was: seq<Hit>,
                             p: Params, merged: map<ChunkId, Candidate>, h: Hit)
    requires |front| <= |vector| == |was| && |back| <= |keyword|
    requires Defined(front, p.k) && Defined(back, p.k)
    reads merged.Values
  {
    forall id {:trigger merged[id]} :: id in merged && !Ranks(h, id) ==>
      Entry(vector, keyword, front, back, was, p, merged[id], id)
  }

  /** A ranked vector hit: its candidate is the entry, with its own keyword data. */
  lemma EntryFirst(vector: seq<Candidate>, keyword: seq<Candidate>, front: seq<Hit>, was: seq<Hit>, p: Params, e: Candidate, h: Hit)
    requires |front| < |vector| == |was| && vector[|front|] == e && Ranks(h, e.id) && h.rank.value + p.k != 0
    requires Defined(front, p.k) && Defined(front + [h], p.k)
    requires e.fusedScore == Share(p.vectorWeight, p.k, h.rank.value)
    requires e.keywordRank == was[|front|].rank && e.keywordScore == was[|front|].score
    ensures Entry(vector, keyword, front + [h], [], was, p, e, e.id)
  {
    Peel(front, p, h, e.id);
  }

  /** The dictionary after one more vector hit, given the entry of that hit and the untouched others. */
  lemma MergedFirst(vector: seq<Candidate>, keyword: seq<Candidate>, front: seq<Hit>, was: seq<Hit>, p: Params,
                    h: Hit, order0: seq<ChunkId>, order: seq<ChunkId>, merged: map<ChunkId, Candidate>)
    requires |front| < |vector| == |was| && vector[|front|].id == h.id
    requires Defined(front, p.k) && Defined([h], p.k) && Defined(front + [h], p.k)
    requires order0 == Order(front)
    requires order == if h.rank.Some? && h.id !in order0 then order0 + [h.id] else order0
    requires forall id {:trigger id in order} :: id in merged <==> id in order
    requires OthersHold(vector, keyword, front, [], was, p, merged, h)
    requires h.rank.Some? ==> h.id in merged && h.rank.value + p.k != 0 && var e := merged[h.id];
               e == vector[|front|] && e.fusedScore == Share(p.vectorWeight, p.k, h.rank.value)
               && e.keywordRank == was[|front|].rank && e.keywordScore == was[|front|].score
    ensures Merged(vector, keyword, front + [h], [], was, p, order, merged)
  {
    assert front + [] == front && front + [h] + [] == front + [h];
    OrderPeel(front, h);
    if h.rank.Some? { EntryFirst(vector, keyword, front, was, p, merged[h.id], h); }
    OthersKeep(vector, keyword, front, [], was, p, merged, h);
  }

  method TakeVector(vector: seq<Candidate>, keyword: seq<Candidate>, p: Params, i: nat, order0: seq<ChunkId>,
                    merged0: map<ChunkId, Candidate>, ghost was: seq<Hit>)
    returns (order: seq<ChunkId>, merged: map<ChunkId, Candidate>)
    requires i < |vector| && |was| == |vector| && Defined(VectorHits(vector), p.k)
    requires vector[i].keywordRank == was[i].rank && vector[i].keywordScore == was[i].score
    requires Merged(vector, keyword, VectorHits(vector)[..i], [], was, p, order0, merged0)
    modifies {vector[i]}`fusedScore
    ensures Merged(vector, keyword, VectorHits(vector)[..i + 1], [], was, p, order, merged)
  {
    order, merged := order0, merged0;
    var c := vector[i];
    ghost var front := VectorHits(vector)[..i];
    ghost var h := Hit(c.id, c.vectorRank, None);
    assert VectorHits(vector)[..i + 1] == front + [h] && VectorHits(vector)[i] == h && front + [] == front;
    assert [h][0] == h;
    if c.vectorRank.Some? {
      if c.id !in merged { order := order + [c.id]; }
      merged := merged[c.id := c];
      c.fusedScore := p.vectorWeight / (p.k + c.vectorRank.value) as real;
    }
    MergedFirst(vector, keyword, front, was, p, h, order0, order, merged);
  }

  /** A candidate seen for the first time gets the share of its own rank, whatever score it came with. */
  method FirstShare(vector: seq<Candidate>, keyword: seq<Candidate>, p: Params, i: nat, ghost hits: seq<Hit>, ghost was: seq<Hit>,
                    ghost merged: map<ChunkId, Candidate>)
    requires i < |keyword| == |hits| && |was| == |vector|
    requires Defined(VectorHits(vector), p.k) && Defined(hits, p.k) && Defined(hits[..i] + [hits[i]], p.k)
    requires Untouched(keyword, hits, i) && Ranks(hits[i], keyword[i].id)
    requires LastRanked(VectorHits(vector), keyword[i].id) < 0 && LastRanked(hits[..i], keyword[i].id) < 0
    requires OthersHold(vector, keyword, VectorHits(vector), hits[..i], was, p, merged, hits[i])
    modifies {keyword[i]}`fusedScore
    ensures OthersHold(vector, keyword, VectorHits(vector), hits[..i], was, p, merged, hits[i])
    ensures Untouched(keyword, hits, i + 1)
    ensures Entry(vector, keyword, VectorHits(vector), hits[..i] + [hits[i]], was, p, keyword[i], keyword[i].id)
  {
    var c := keyword[i];
    c.fusedScore := p.keywordWeight / (p.k + c.keywordRank.value) as real;
    EntryNew(vector, keyword, VectorHits(vector), hits[..i], was, p, c, hits[i]);
  }

  /** `existing` takes over rank and score of the keyword entry and adds its share. */
  method AddShare(vector: seq<Candidate>, keyword: seq<Candidate>, p: Params, i: nat, existing: Candidate,
                  ghost hits: seq<Hit>, ghost was: seq<Hit>, ghost merged: map<ChunkId, Candidate>)
    requires i < |keyword| == |hits| && |was| == |vector| && Independent(vector, keyword)
    requires Defined(VectorHits(vector), p.k) && Defined(hits, p.k) && Defined(hits[..i] + [hits[i]], p.k)
    requires Untouched(keyword, hits, i) && Ranks(hits[i], keyword[i].id)
    requires Entry(vector, keyword, VectorHits(vector), hits[..i], was, p, existing, keyword[i].id)
    requires OthersHold(vector, keyword, VectorHits(vector), hits[..i], was, p, merged, hits[i])
    modifies existing
    ensures OthersHold(vector, keyword, VectorHits(vector), hits[..i], was, p, merged, hits[i])
    ensures Untouched(keyword, hits, i + 1)
    ensures Entry(vector, keyword, VectorHits(vector), hits[..i] + [hits[i]], was, p, existing, keyword[i].id)
  {
    var c := keyword[i];
    KeptIsPast(vector, keyword, VectorHits(vector), hits[..i], existing);
    existing.keywordRank, existing.keywordScore := c.keywordRank, c.keywordScore;
    existing.fusedScore := existing.fusedScore + p.keywordWeight / (p.k + c.keywordRank.value) as real;
    EntryAgain(vector, keyword, VectorHits(vector), hits[..i], was, p, existing, hits[i]);
  }

  /** The dictionary after one more keyword hit, given the entry of that hit and the untouched others. */
  lemma MergedNext(vector: seq<Candidate>, keyword: seq<Candidate>, front: seq<Hit>, back: seq<Hit>, was: seq<Hit>, p: Params,
                   h: Hit, order0: seq<ChunkId>, order: seq<ChunkId>, merged: map<ChunkId, Candidate>)
    requires |front| <= |vector| == |was| && |back| < |keyword|
    requires Defined(front, p.k) && Defined(back, p.k) && Defined([h], p.k) && Defined(back + [h], p.k)
    requires order0 == Order(front + back)
    requires order == if h.rank.Some? && h.id !in order0 then order0 + [h.id] else order0
    requires forall id {:trigger id in order} :: id in merged <==> id in order
    requires OthersHold(vector, keyword, front, back, was, p, merged, h)
    requires h.rank.Some? ==> h.id in merged && Entry(vector, keyword, front, back + [h], was, p, merged[h.id], h.id)
    ensures Merged(vector, keyword, front, back + [h], was, p, order, merged)
  {
    assert front + (back + [h]) == (front + back) + [h];
    OrderPeel(front + back, h);
    OthersKeep(vector, keyword, front, back, was, p, merged, h);
  }

  /** The dictionary with a placeholder for a candidate it does not know yet. */
  lemma NewOthers(vector: seq<Candidate>, keyword: seq<Candidate>, front: seq<Hit>, back: seq<Hit>, was: seq<Hit>,
                  p: Params, h: Hit, order0: seq<ChunkId>, merged0: map<ChunkId, Candidate>, c: Candidate)
    requires |front| <= |vector| == |was| && |back| <= |keyword| && Defined(front, p.k) && Defined(back, p.k)
    requires Merged(vector, keyword, front, back, was, p, order0, merged0) && Ranks(h, c.id) && c.id !in merged0
    ensures OthersHold(vector, keyword, front, back, was, p, merged0[c.id := c], h)
    ensures LastRanked(front, c.id) < 0 && LastRanked(back, c.id) < 0
    ensures order0 == Order(front + back) && c.id !in order0
    ensures forall id {:trigger id in order0 + [c.id]} :: id in merged0[c.id := c] <==> id in order0 + [c.id]
  {
    OrderMember(front, back, c.id);
  }

  /** A ranked keyword candidate the dictionary does not know yet becomes its own entry. */
  method AddEntry(vector: seq<Candidate>, keyword: seq<Candidate>, p: Params, i: nat, order0: seq<ChunkId>,
                  merged0: map<ChunkId, Candidate>, ghost hits: seq<Hit>, ghost was: seq<Hit>)
    returns (order: seq<ChunkId>, merged: map<ChunkId, Candidate>)
    requires i < |keyword| == |hits| && |was| == |vector|
    requires Defined(VectorHits(vector), p.k) && Defined(hits[..i], p.k) && Defined([hits[i]], p.k)
    requires Defined(hits[..i] + [hits[i]], p.k) && Defined(hits, p.k)
    requires Untouched(keyword, hits, i) && Ranks(hits[i], keyword[i].id) && keyword[i].id !in merged0
    requires Merged(vector, keyword, VectorHits(vector), hits[..i], was, p, order0, merged0)
    modifies {keyword[i]}`fusedScore
    ensures Untouched(keyword, hits, i + 1)
    ensures Merged(vector, keyword, VectorHits(vector), hits[..i] + [hits[i]], was, p, order, merged)
  {
    var c := keyword[i];
    NewOthers(vector, keyword, VectorHits(vector), hits[..i], was, p, hits[i], order0, merged0, c);
    order, merged := order0 + [c.id], merged0[c.id := c];
    FirstShare(vector, keyword, p, i, hits, was, merged);
    MergedNext(vector, keyword, VectorHits(vector), hits[..i], was, p, hits[i], order0, order, merged);
  }

  method TakeKeyword(vector: seq<Candidate>, keyword: seq<Candidate>, p: Params, i: nat, order0: seq<ChunkId>,
                     merged0: map<ChunkId, Candidate>, ghost hits: seq<Hit>, ghost was: seq<Hit>)
    returns (order: seq<ChunkId>, merged: map<ChunkId, Candidate>)
    requires i < |keyword| == |hits| && |was| == |vector| && Independent(vector, keyword)
    requires Defined(VectorHits(vector), p.k) && Defined(hits, p.k)
    requires Untouched(keyword, hits, i) && hits[i].id == keyword[i].id
    requires Merged(vector, keyword, VectorHits(vector), hits[..i], was, p, order0, merged0)
    modifies vector, keyword
    ensures Untouched(keyword, hits, i + 1)
    ensures Merged(vector, keyword, VectorHits(vector), hits[..i + 1], was, p, order, merged)
  {
    order, merged := order0, merged0;
    var c := keyword[i];
    assert hits[..i + 1] == hits[..i] + [hits[i]] && [hits[i]][0] == hits[i];
    if c.keywordRank.Some? && c.id !in merged {
      order, merged := AddEntry(vector, keyword, p, i, order0, merged0, hits, was);
    } else {
      if c.keywordRank.Some? {
        AddShare(vector, keyword, p, i, merged[c.id], hits, was, merged);
      }
      MergedNext(vector, keyword, VectorHits(vector), hits[..i], was, p, hits[i], order0, order, merged);
    }
  }

  ghost function Keyed(cs: seq<Candidate>): (rows: seq<(real, ChunkId)>)
    reads cs
  {
    seq(|cs|, i requires 0 <= i < |cs| reads cs => (cs[i].fusedScore, cs[i].id))
  }

  lemma NoneMerged(vector: seq<Candidate>, keyword: seq<Candidate>, front: seq<Hit>, was: seq<Hit>, p: Params)
    requires |vector| == |was| && front == []
    ensures Merged(vector, keyword, front, [], was, p, [], map[])
  {
  }

  method VectorPass(vector: seq<Candidate>, keyword: seq<Candidate>, p: Params)
    returns (order: seq<ChunkId>, merged: map<ChunkId, Candidate>)
    requires Defined(VectorHits(vector), p.k)
    modifies vector
    ensures Merged(vector, keyword, VectorHits(vector), [], KeywordHits(vector), p, order, merged)
    ensures KeywordHits(vector) == old(KeywordHits(vector)) && KeywordHits(keyword) == old(KeywordHits(keyword))
  {
    order, merged := [], map[];
    ghost var was, kwas := KeywordHits(vector), KeywordHits(keyword);
    NoneMerged(vector, keyword, VectorHits(vector)[..0], was, p);
    for i := 0 to |vector|
      invariant Merged(vector, keyword, VectorHits(vector)[..i], [], was, p, order, merged)
      invariant KeywordHits(vector) == was && KeywordHits(keyword) == kwas
    {
      assert was[i] == Hit(vector[i].id, vector[i].keywordRank, vector[i].keywordScore);
      order, merged := TakeVector(vector, keyword, p, i, order, merged, was);
    }
    assert VectorHits(vector)[..|vector|] == VectorHits(vector);
  }

  method KeywordPass(vector: seq<Candidate>, keyword: seq<Candidate>, p: Params, order0: seq<ChunkId>,
                     merged0: map<ChunkId, Candidate>)
    returns (order: seq<ChunkId>, merged: map<ChunkId, Candidate>)
    requires Defined(VectorHits(vector), p.k) && Defined(KeywordHits(keyword), p.k) && Independent(vector, keyword)
    requires Merged(vector, keyword, VectorHits(vector), [], KeywordHits(vector), p, order0, merged0)
    modifies vector, keyword
    ensures Merged(vector, keyword, VectorHits(vector), old(KeywordHits(keyword)), old(KeywordHits(vector)), p, order, merged)
  {
    order, merged := order0, merged0;
    ghost var hits, was := KeywordHits(keyword), KeywordHits(vector);
    for i := 0 to |keyword|
      invariant Merged(vector, keyword, VectorHits(vector), hits[..i], was, p, order, merged)
      invariant Untouched(keyword, hits, i)
    {
      order, merged := TakeKeyword(vector, keyword, p, i, order, merged, hits, was);
    }
    assert hits[..|keyword|] == hits;
  }

  function Rows(order: seq<ChunkId>, merged: map<ChunkId, Candidate>): seq<(real, ChunkId)>
    requires forall i {:trigger order[i]} :: 0 <= i < |order| ==> order[i] in merged
    reads merged.Values
  {
    seq(|order|, i requires 0 <= i < |order| && order[i] in merged reads merged.Values =>
                   (merged[order[i]].fusedScore, order[i]))
  }

  /** The values of the dictionary, by descending fused score. */
  method SortedValues(order: seq<ChunkId>, merged: map<ChunkId, Candidate>) returns (fused: seq<Candidate>)
    requires forall i {:trigger order[i]} :: 0 <= i < |order| ==> order[i] in merged
    requires forall id {:trigger merged[id]} :: id in merged ==> merged[id].id == id
    ensures Keyed(fused) == SortDesc(Rows(order, merged))
    ensures forall c {:trigger c in fused} :: c in fused ==> c.id in merged && c == merged[c.id]
  {
    var rows := Rows(order, merged);
    SortDescIsStable(rows, 0.0);
    forall row | row in SortDesc(rows)
      ensures row.1 in merged && row.0 == merged[row.1].fusedScore
    {
      assert row in multiset(rows);
    }
    fused := Values(SortDesc(rows), merged);
  }

  method Values(rows: seq<(real, ChunkId)>, merged: map<ChunkId, Candidate>) returns (values: seq<Candidate>)
    requires forall row {:trigger row in rows} :: row in rows ==> row.1 in merged && row.0 == merged[row.1].fusedScore
    requires forall id {:trigger merged[id]} :: id in merged ==> merged[id].id == id
    ensures Keyed(values) == rows
    ensures forall c {:trigger c in values} :: c in values ==> c.id in merged && c == merged[c.id]
  {
    values := [];
    for i := 0 to |rows|
      invariant Keyed(values) == rows[..i]
      invariant forall c {:trigger c in values} :: c in values ==> c.id in merged && c == merged[c.id]
    {
      assert rows[i] in rows;
      values := values + [merged[rows[i].1]];
    }
  }

  /** The rows of a complete dictionary are the closed-form scores. */
  lemma RowsAreScored(vector: seq<Candidate>, keyword: seq<Candidate>, front: seq<Hit>, back: seq<Hit>, was: seq<Hit>,
                      p: Params, order: seq<ChunkId>, merged: map<ChunkId, Candidate>)
    requires |front| <= |vector| == |was| && |back| <= |keyword| && Defined(front, p.k) && Defined(back, p.k)
    requires Merged(vector, keyword, front, back, was, p, order, merged)
    ensures forall i {:trigger order[i]} :: 0 <= i < |order| ==> order[i] in merged
    ensures Rows(order, merged) == Scored(front, back, p)
  {
    forall i | 0 <= i < |order|
      ensures order[i] in merged && merged[order[i]].fusedScore == Score(front, back, p, order[i])
    {
      assert order[i] in order;
    }
  }

  /**
   * The fused list is the stable descending sort of the closed-form scores of all ranked
   * identifiers, whatever fused scores the candidates came with.
   */
  method ReciprocalRankFusion(vector: seq<Candidate>, keyword: seq<Candidate>, p: Params) returns (fused: seq<Candidate>)
    requires Defined(VectorHits(vector), p.k) && Defined(KeywordHits(keyword), p.k) && Independent(vector, keyword)
    modifies vector, keyword
    ensures Keyed(fused) == SortDesc(Scored(VectorHits(vector), old(KeywordHits(keyword)), p))
    ensures forall c {:trigger c in fused} :: c in fused ==>
              Entry(vector, keyword, VectorHits(vector), old(KeywordHits(keyword)), old(KeywordHits(vector)), p, c, c.id)
  {
    ghost var front, back := VectorHits(vector), KeywordHits(keyword);
    var order, merged := VectorPass(vector, keyword, p);
    order, merged := KeywordPass(vector, keyword, p, order, merged);
    RowsAreScored(vector, keyword, front, back, old(KeywordHits(vector)), p, order, merged);
    fused := SortedValues(order, merged);
  }

  // ----- what the scores mean -----

  predicate UniqueIds(hits: seq<Hit>) {
    forall i, j :: 0 <= i < j < |hits| ==> hits[i].id != hits[j].id
  }

  /** The rank a list gives to an identifier, if any. */
  function RankOf(hits: seq<Hit>, id: ChunkId): Option<int> {
    var i := LastRanked(hits, id);
    if i >= 0 then hits[i].rank else None
  }

  function TermOf(weight: real, k: int, rank: Option<int>): real
    requires rank.Some? ==> k + rank.value != 0
  {
    if rank.Some? then Share(weight, k, rank.value) else 0.0
  }

  /** With unique identifiers the score is w / (k + rank), summed over the lists that rank it. */
  lemma {:induction false} ScoreIsSumOfShares(vector: seq<Hit>, keyword: seq<Hit>, p: Params, id: ChunkId)
    requires Defined(vector, p.k) && Defined(keyword, p.k) && UniqueIds(keyword)
    ensures Score(vector, keyword, p, id)
            == TermOf(p.vectorWeight, p.k, RankOf(vector, id)) + TermOf(p.keywordWeight, p.k, RankOf(keyword, id))
    decreases |keyword|
  {
    if keyword != [] {
      var before, h := keyword[..|keyword| - 1], keyword[|keyword| - 1];
      assert keyword == before + [h];
      Peel(before, p, h, id);
      if Ranks(h, id) {
        NotRankedBefore(before, h, id);
        NoTerm(before, p, id);
      } else {
        ScoreIsSumOfShares(vector, before, p, id);
      }
    }
  }

  lemma NotRankedBefore(before: seq<Hit>, h: Hit, id: ChunkId)
    requires UniqueIds(before + [h]) && h.id == id
    ensures LastRanked(before, id) < 0
  {
    forall i | 0 <= i < |before|
      ensures before[i].id != id
    {
      assert (before + [h])[i] == before[i] && (before + [h])[|before|] == h;
    }
  }

  /** The list gives the identifier this rank; None stands for no entry, or one without a rank. */
  ghost predicate RankedAs(hits: seq<Hit>, id: ChunkId, rank: Option<int>) {
    if rank.Some? then exists i :: 0 <= i < |hits| && hits[i].id == id && hits[i].rank == rank
    else forall i :: 0 <= i < |hits| && hits[i].id == id ==> hits[i].rank.None?
  }

  lemma {:induction false} RankOfUnique(hits: seq<Hit>, id: ChunkId, rank: Option<int>)
    requires UniqueIds(hits) && RankedAs(hits, id, rank)
    ensures RankOf(hits, id) == rank
    decreases |hits|
  {
    if hits != [] {
      var before, h := hits[..|hits| - 1], hits[|hits| - 1];
      assert hits == before + [h];
      if Ranks(h, id) {
        NotRankedBefore(before, h, id);
      } else {
        RankOfUnique(before, id, rank);
      }
    }
  }

  /** The reciprocal rank formula: each list that ranks the identifier adds its weight over k plus the rank. */
  lemma ScoreIsReciprocalRank(vector: seq<Hit>, keyword: seq<Hit>, p: Params, id: ChunkId, a: Option<int>, b: Option<int>)
    requires Defined(vector, p.k) && Defined(keyword, p.k) && UniqueIds(vector) && UniqueIds(keyword)
    requires RankedAs(vector, id, a) && RankedAs(keyword, id, b)
    ensures a.Some? && b.Some? ==>
              Score(vector, keyword, p, id) == p.vectorWeight / (p.k + a.value) as real + p.keywordWeight / (p.k + b.value) as real
    ensures a.Some? && b.None? ==> Score(vector, keyword, p, id) == p.vectorWeight / (p.k + a.value) as real
    ensures a.None? && b.Some? ==> Score(vector, keyword, p, id) == p.keywordWeight / (p.k + b.value) as real
    ensures a.None? && b.None? ==> Score(vector, keyword, p, id) == 0.0
  {
    ScoreIsSumOfShares(vector, keyword, p, id);
    RankOfUnique(vector, id, a);
    RankOfUnique(keyword, id, b);
  }

  /** Exactly the identifiers that either list ranks come out, each once. */
  lemma FusedIdsAreTheUnion(vector: seq<Hit>, keyword: seq<Hit>, id: ChunkId)
    ensures id in Order(vector + keyword) <==> RankOf(vector, id).Some? || RankOf(keyword, id).Some?
    ensures multiset(Order(vector + keyword))[id] <= 1
  {
    OrderMember(vector, keyword, id);
    OrderOnce(vector + keyword, id);
  }

  lemma {:induction false} OrderOnce(hits: seq<Hit>, id: ChunkId)
    ensures multiset(Order(hits))[id] <= 1
    decreases |hits|
  {
    if hits != [] { OrderOnce(hits[..|hits| - 1], id); }
  }

  /** Rank 1 is best; no rank at all is worst. */
  predicate NoWorse(a: Option<int>, b: Option<int>) {
    b.Some? ==> a.Some? && a.value <= b.value
  }

  lemma ShareDecreases(weight: real, k: int, a: int, b: int)
    requires weight > 0.0 && k + a > 0 && a <= b
    ensures Share(weight, k, a) >= Share(weight, k, b) > 0.0
    ensures a < b ==> Share(weight, k, a) > Share(weight, k, b)
  {
    var x, y := (k + a) as real, (k + b) as real;
    assert weight / x - weight / y == weight * (y - x) / (x * y);
  }

  lemma TermDecreases(weight: real, k: int, a: Option<int>, b: Option<int>)
    requires weight > 0.0 && NoWorse(a, b)
    requires a.Some? ==> k + a.value > 0
    requires b.Some? ==> k + b.value > 0
    ensures TermOf(weight, k, a) >= TermOf(weight, k, b)
    ensures a != b ==> TermOf(weight, k, a) > TermOf(weight, k, b)
  {
    if a.Some? { ShareDecreases(weight, k, a.value, if b.Some? then b.value else a.value); }
  }

  /** Positive ranks: the smallest rank is 1, or at least more than -k. */
  predicate Positive(hits: seq<Hit>, k: int) {
    forall i :: 0 <= i < |hits| && hits[i].rank.Some? ==> k + hits[i].rank.value > 0
  }

  /** Dominance: no worse in both lists and better in one means a strictly higher score. */
  lemma DominanceWins(vector: seq<Hit>, keyword: seq<Hit>, p: Params, a: ChunkId, b: ChunkId)
    requires Positive(vector, p.k) && Positive(keyword, p.k) && UniqueIds(keyword)
    requires p.vectorWeight > 0.0 && p.keywordWeight > 0.0
    requires NoWorse(RankOf(vector, a), RankOf(vector, b)) && NoWorse(RankOf(keyword, a), RankOf(keyword, b))
    requires RankOf(vector, a) != RankOf(vector, b) || RankOf(keyword, a) != RankOf(keyword, b)
    ensures Score(vector, keyword, p, a) > Score(vector, keyword, p, b)
  {
    ScoreIsSumOfShares(vector, keyword, p, a);
    ScoreIsSumOfShares(vector, keyword, p, b);
    TermDecreases(p.vectorWeight, p.k, RankOf(vector, a), RankOf(vector, b));
    TermDecreases(p.keywordWeight, p.k, RankOf(keyword, a), RankOf(keyword, b));
  }

  /** Each sorted row holds its identifier's score. */
  lemma RowScore(vector: seq<Hit>, keyword: seq<Hit>, p: Params, i: nat)
    requires Defined(vector, p.k) && Defined(keyword, p.k) && i < |SortDesc(Scored(vector, keyword, p))|
    ensures var row := SortDesc(Scored(vector, keyword, p))[i]; row.0 == Score(vector, keyword, p, row.1)
  {
    var scored := Scored(vector, keyword, p);
    var rows := SortDesc(scored);
    SortDescIsStable(scored, 0.0);
    assert rows[i] in multiset(rows) && rows[i] in scored;
    var n :| 0 <= n < |scored| && scored[n] == rows[i];
  }

  /** The sorted rows are descending, and each holds its identifier's score. */
  lemma RowsDescend(vector: seq<Hit>, keyword: seq<Hit>, p: Params, i: nat, j: nat)
    requires Defined(vector, p.k) && Defined(keyword, p.k)
    requires j <= i < |SortDesc(Scored(vector, keyword, p))|
    ensures var rows := SortDesc(Scored(vector, keyword, p));
            && rows[i].0 == Score(vector, keyword, p, rows[i].1) && rows[j].0 == Score(vector, keyword, p, rows[j].1)
            && rows[j].0 >= rows[i].0
  {
    RowScore(vector, keyword, p, i);
    RowScore(vector, keyword, p, j);
    SortDescIsStable(Scored(vector, keyword, p), 0.0);
  }

  /** So the dominating candidate is listed first. */
  lemma DominatingComesFirst(vector: seq<Hit>, keyword: seq<Hit>, p: Params, i: nat, j: nat)
    requires Positive(vector, p.k) && Positive(keyword, p.k) && UniqueIds(keyword)
    requires p.vectorWeight > 0.0 && p.keywordWeight > 0.0
    requires var rows := SortDesc(Scored(vector, keyword, p));
             i < |rows| && j < |rows|
             && NoWorse(RankOf(vector, rows[i].1), RankOf(vector, rows[j].1))
             && NoWorse(RankOf(keyword, rows[i].1), RankOf(keyword, rows[j].1))
             && (RankOf(vector, rows[i].1) != RankOf(vector, rows[j].1)
                 || RankOf(keyword, rows[i].1) != RankOf(keyword, rows[j].1))
    ensures i < j
  {
    var rows := SortDesc(Scored(vector, keyword, p));
    DominanceWins(vector, keyword, p, rows[i].1, rows[j].1);
    if j <= i { RowsDescend(vector, keyword, p, i, j); }
  }
}
