// Ranking metrics. The logarithmic discount of nDCG is any positive strictly decreasing function.
module Metrics {
  import opened Numbers
  import opened Sets

  type Id = string

  function Top(retrieved: seq<Id>, k: nat): seq<Id> {
    retrieved[..Min(k, |retrieved|)]
  }

  function Hits(top: seq<Id>, gold: set<Id>): nat {
    if top == [] then 0 else Hits(top[..|top| - 1], gold) + if top[|top| - 1] in gold then 1 else 0
  }

  function ToSet(s: seq<Id>): set<Id> {
    set x | x in s
  }

  function PrecisionAtK(retrieved: seq<Id>, gold: set<Id>, k: nat): real {
    if gold == {} || k == 0 then 0.0 else Hits(Top(retrieved, k), gold) as real / k as real
  }

  function RecallAtK(retrieved: seq<Id>, gold: set<Id>, k: nat): real {
    if gold == {} then 0.0 else |ToSet(Top(retrieved, k)) * gold| as real / |gold| as real
  }

  function HitAtK(retrieved: seq<Id>, gold: set<Id>, k: nat): real {
    if gold != {} && exists i :: 0 <= i < |Top(retrieved, k)| && Top(retrieved, k)[i] in gold then 1.0 else 0.0
  }

  function FirstHit(top: seq<Id>, gold: set<Id>): nat {
    if top == [] || top[0] in gold then 0 else 1 + FirstHit(top[1..], gold)
  }

  function MrrAtK(retrieved: seq<Id>, gold: set<Id>, k: nat): real {
    var top := Top(retrieved, k);
    if gold == {} || FirstHit(top, gold) == |top| then 0.0 else 1.0 / (FirstHit(top, gold) + 1) as real
  }

  function Dcg(top: seq<Id>, gold: set<Id>, discount: nat -> real): real {
    if top == [] then 0.0
    else
      var n := |top| - 1;
      Dcg(top[..n], gold, discount) + if top[n] in gold then discount(n) else 0.0
  }

  function Ideal(hits: nat, discount: nat -> real): real {
    if hits == 0 then 0.0 else Ideal(hits - 1, discount) + discount(hits - 1)
  }

  function NdcgAtK(retrieved: seq<Id>, gold: set<Id>, k: nat, discount: nat -> real): real {
    if gold == {} then 0.0
    else
      var idcg := Ideal(Min(|gold|, k), discount);
      if idcg > 0.0 then Dcg(Top(retrieved, k), gold, discount) / idcg else 0.0
  }

  // ----- counting -----

  predicate NoDuplicates(s: seq<Id>) {
    forall i, j :: 0 <= i < j < |s| ==> s[i] != s[j]
  }

  lemma {:induction false} HitsAreIntersection(top: seq<Id>, gold: set<Id>)
    requires NoDuplicates(top)
    ensures |ToSet(top) * gold| == Hits(top, gold) <= |gold|
    ensures Hits(top, gold) <= |top|
  {
    if top != [] {
      var rest, x := top[..|top| - 1], top[|top| - 1];
      HitsAreIntersection(rest, gold);
      OneMoreResult(rest, x, gold);
      assert top == rest + [x];
    }
    assert |ToSet(top) * gold| <= |gold| by {
      SizeOfSubset(ToSet(top) * gold, gold);
    }
  }

  lemma OneMoreResult(rest: seq<Id>, x: Id, gold: set<Id>)
    requires x !in rest
    ensures |ToSet(rest + [x]) * gold| == |ToSet(rest) * gold| + if x in gold then 1 else 0
  {
    var before, after := ToSet(rest) * gold, ToSet(rest + [x]) * gold;
    assert forall y :: y in ToSet(rest + [x]) <==> y == x || y in ToSet(rest);
    if x in gold {
      assert after == before + {x};
    } else {
      assert after == before;
    }
  }

  lemma RecallTimesGold(retrieved: seq<Id>, gold: set<Id>, k: nat)
    ensures RecallAtK(retrieved, gold, k) * |gold| as real == |ToSet(Top(retrieved, k)) * gold| as real
  {
    if gold != {} {
      DivideBack(|ToSet(Top(retrieved, k)) * gold|, |gold|);
    } else {
      assert ToSet(Top(retrieved, k)) * gold == {};
    }
  }

  lemma PrecisionTimesK(retrieved: seq<Id>, gold: set<Id>, k: nat)
    requires gold != {}
    ensures PrecisionAtK(retrieved, gold, k) * k as real == Hits(Top(retrieved, k), gold) as real
  {
    if k > 0 { DivideBack(Hits(Top(retrieved, k), gold), k); }
  }

  /** Recall and precision share their numerator on duplicate-free rankings. */
  lemma RecallAndPrecisionAgree(retrieved: seq<Id>, gold: set<Id>, k: nat)
    requires NoDuplicates(retrieved)
    ensures RecallAtK(retrieved, gold, k) * |gold| as real == PrecisionAtK(retrieved, gold, k) * k as real
  {
    if gold != {} {
      HitsAreIntersection(Top(retrieved, k), gold);
      RecallTimesGold(retrieved, gold, k);
      PrecisionTimesK(retrieved, gold, k);
    }
  }

  lemma DivideBack(a: nat, b: nat)
    requires b > 0
    ensures a as real / b as real * b as real == a as real
  {
  }

  lemma Ratio(x: real, y: real)
    requires 0.0 <= x <= y && y > 0.0
    ensures 0.0 <= x / y <= 1.0
    ensures x / y == 1.0 <==> x == y
  {
  }

  /** Looking further down the ranking never lowers the recall. */
  lemma RecallIsMonotone(retrieved: seq<Id>, gold: set<Id>, k: nat, l: nat)
    requires k <= l
    ensures RecallAtK(retrieved, gold, k) <= RecallAtK(retrieved, gold, l) <= 1.0
  {
    FoundGrows(retrieved, gold, k, l);
    if gold != {} {
      Fractions(|ToSet(Top(retrieved, k)) * gold|, |ToSet(Top(retrieved, l)) * gold|, |gold|);
    }
  }

  lemma FoundGrows(retrieved: seq<Id>, gold: set<Id>, k: nat, l: nat)
    requires k <= l
    ensures |ToSet(Top(retrieved, k)) * gold| <= |ToSet(Top(retrieved, l)) * gold| <= |gold|
  {
    assert forall x :: x in Top(retrieved, k) ==> x in Top(retrieved, l);
    SizeOfSubset(ToSet(Top(retrieved, k)) * gold, ToSet(Top(retrieved, l)) * gold);
    SizeOfSubset(ToSet(Top(retrieved, l)) * gold, gold);
  }

  lemma Fractions(a: nat, b: nat, c: nat)
    requires a <= b <= c && c > 0
    ensures a as real / c as real <= b as real / c as real <= 1.0
  {
    Ratio(b as real, c as real);
  }

  lemma {:induction false} FirstHitIsFirst(top: seq<Id>, gold: set<Id>)
    ensures FirstHit(top, gold) <= |top|
    ensures forall i :: 0 <= i < FirstHit(top, gold) ==> top[i] !in gold
    ensures FirstHit(top, gold) < |top| ==> top[FirstHit(top, gold)] in gold
  {
    if top != [] && top[0] !in gold { FirstHitIsFirst(top[1..], gold); }
  }

  /** The reciprocal rank is positive exactly when there is a hit, and 1 exactly when it comes first. */
  lemma MrrMeetsHit(retrieved: seq<Id>, gold: set<Id>, k: nat)
    ensures MrrAtK(retrieved, gold, k) > 0.0 <==> HitAtK(retrieved, gold, k) == 1.0
    ensures MrrAtK(retrieved, gold, k) == 1.0 <==> k > 0 && retrieved != [] && retrieved[0] in gold
    ensures 0.0 <= MrrAtK(retrieved, gold, k) <= HitAtK(retrieved, gold, k) <= 1.0
    ensures forall i :: 0 <= i < Min(k, |retrieved|) && retrieved[i] in gold && (forall j :: 0 <= j < i ==> retrieved[j] !in gold) ==>
              MrrAtK(retrieved, gold, k) == 1.0 / (i + 1) as real
  {
    FirstHitIsFirst(Top(retrieved, k), gold);
    forall i | 0 <= i < Min(k, |retrieved|) && retrieved[i] in gold && (forall j :: 0 <= j < i ==> retrieved[j] !in gold)
      ensures MrrAtK(retrieved, gold, k) == 1.0 / (i + 1) as real
    {
      assert Top(retrieved, k)[i] in gold;
    }
  }

  // ----- nDCG -----

  ghost predicate Discounts(discount: nat -> real) {
    && (forall i {:trigger discount(i)} :: discount(i) > 0.0)
    && (forall i, j {:trigger discount(i), discount(j)} :: i < j ==> discount(i) > discount(j))
  }

  predicate AllGold(top: seq<Id>, gold: set<Id>, n: nat) {
    n <= |top| && forall i :: 0 <= i < n ==> top[i] in gold
  }

  /** Hits further down gain less: the gain is at most the ideal one, and equal only at the front. */
  lemma {:induction false} GainIsAtMostIdeal(top: seq<Id>, gold: set<Id>, discount: nat -> real)
    requires Discounts(discount)
    ensures Hits(top, gold) <= |top|
    ensures 0.0 <= Dcg(top, gold, discount) <= Ideal(Hits(top, gold), discount)
    ensures Dcg(top, gold, discount) == Ideal(Hits(top, gold), discount) <==> AllGold(top, gold, Hits(top, gold))
  {
    if top != [] {
      var n := |top| - 1;
      GainIsAtMostIdeal(top[..n], gold, discount);
      AllGoldSoFar(top, gold, n);
      if top[n] in gold && Hits(top[..n], gold) < n { assert discount(Hits(top[..n], gold)) > discount(n); }
    }
  }

  /** The hits stay at the front exactly when they were there and the last result adds none behind a miss. */
  lemma AllGoldSoFar(top: seq<Id>, gold: set<Id>, n: nat)
    requires n == |top| - 1 && Hits(top[..n], gold) <= n
    ensures AllGold(top, gold, Hits(top, gold))
            <==> AllGold(top[..n], gold, Hits(top[..n], gold)) && (top[n] in gold ==> Hits(top[..n], gold) == n)
  {
    var h := Hits(top[..n], gold);
    assert AllGold(top[..n], gold, h) <==> AllGold(top, gold, h);
    if top[n] in gold && AllGold(top, gold, h + 1) && h < n { OneMoreHit(top[..n], gold, h + 1); }
  }

  lemma {:induction false} OneMoreHit(top: seq<Id>, gold: set<Id>, n: nat)
    requires AllGold(top, gold, n)
    ensures Hits(top, gold) >= n
    ensures n < |top| && top[n] in gold ==> Hits(top, gold) >= n + 1
    decreases |top|
  {
    if |top| > n {
      var m := |top| - 1;
      OneMoreHit(top[..m], gold, n);
    } else if n > 0 {
      OneMoreHit(top[..n - 1], gold, n - 1);
    }
  }

  lemma {:induction false} IdealGrows(a: nat, b: nat, discount: nat -> real)
    requires Discounts(discount) && a <= b
    ensures Ideal(a, discount) <= Ideal(b, discount)
    ensures a < b ==> Ideal(a, discount) < Ideal(b, discount)
    decreases b
  {
    if a < b { IdealGrows(a, b - 1, discount); }
  }

  lemma AllGoldAtTheTop(retrieved: seq<Id>, gold: set<Id>, k: nat, m: nat)
    requires m <= k
    ensures AllGold(Top(retrieved, k), gold, m) <==> AllGold(retrieved, gold, m)
  {
  }

  /** With at most `m` hits the gain is at most the ideal one of `m`, and equal only if the first `m` are gold. */
  lemma GainAgainstIdeal(top: seq<Id>, gold: set<Id>, m: nat, discount: nat -> real)
    requires Discounts(discount) && Hits(top, gold) <= m
    ensures 0.0 <= Dcg(top, gold, discount) <= Ideal(m, discount)
    ensures Dcg(top, gold, discount) == Ideal(m, discount) <==> AllGold(top, gold, m)
  {
    GainIsAtMostIdeal(top, gold, discount);
    IdealGrows(Hits(top, gold), m, discount);
    if AllGold(top, gold, m) { OneMoreHit(top, gold, m); }
  }

  /**
   * On duplicate-free rankings nDCG lies in [0, 1], and it is 1 exactly when the first
   * min(|gold|, k) results exist and are all gold.
   */
  lemma NdcgIsNormalised(retrieved: seq<Id>, gold: set<Id>, k: nat, discount: nat -> real)
    requires Discounts(discount) && NoDuplicates(retrieved) && gold != {} && k > 0
    ensures 0.0 <= NdcgAtK(retrieved, gold, k, discount) <= 1.0
    ensures NdcgAtK(retrieved, gold, k, discount) == 1.0 <==> AllGold(retrieved, gold, Min(|gold|, k))
  {
    var top, m := Top(retrieved, k), Min(|gold|, k);
    HitsAreIntersection(top, gold);
    GainAgainstIdeal(top, gold, m, discount);
    AllGoldAtTheTop(retrieved, gold, k, m);
    IdealGrows(0, m, discount);
    Ratio(Dcg(top, gold, discount), Ideal(m, discount));
  }

  // ----- rankings that list a gold result twice -----

  /** The weight of the hits after the first `m` places. */
  function LateGain(top: seq<Id>, gold: set<Id>, m: nat, discount: nat -> real): real {
    if |top| <= m then 0.0
    else
      var n := |top| - 1;
      LateGain(top[..n], gold, m, discount) + if top[n] in gold then discount(n) else 0.0
  }

  /** The weight of the first `m` places that hold no hit. */
  function Missed(top: seq<Id>, gold: set<Id>, m: nat, discount: nat -> real): real {
    if m == 0 then 0.0
    else Missed(top, gold, m - 1, discount) + if m - 1 < |top| && top[m - 1] in gold then 0.0 else discount(m - 1)
  }

  lemma {:induction false} MissedOfPrefix(top: seq<Id>, gold: set<Id>, n: nat, m: nat, discount: nat -> real)
    requires m <= n <= |top|
    ensures Missed(top[..n], gold, m, discount) == Missed(top, gold, m, discount)
    decreases m
  {
    if m > 0 { MissedOfPrefix(top, gold, n, m - 1, discount); }
  }

  /** What a ranking gains over the ideal one after its first `m` places, it must not lose before. */
  lemma {:induction false} GainIsExchanged(top: seq<Id>, gold: set<Id>, m: nat, discount: nat -> real)
    ensures Dcg(top, gold, discount) - Ideal(m, discount) == LateGain(top, gold, m, discount) - Missed(top, gold, m, discount)
    decreases |top| + m
  {
    if |top| > m {
      GainIsExchanged(top[..|top| - 1], gold, m, discount);
      MissedOfPrefix(top, gold, |top| - 1, m, discount);
    } else if |top| < m {
      GainIsExchanged(top, gold, m - 1, discount);
    } else if m > 0 {
      GainIsExchanged(top[..m - 1], gold, m - 1, discount);
      MissedOfPrefix(top, gold, m - 1, m - 1, discount);
    }
  }

  /**
   * At a given discount: nDCG is above 1 exactly when the hits after the ideal places weigh more
   * than the misses among them, and 1 exactly when they weigh the same.
   */
  lemma NdcgExceedsOneAtIff(retrieved: seq<Id>, gold: set<Id>, k: nat, discount: nat -> real)
    requires Discounts(discount) && gold != {} && k > 0
    ensures var top, m, ndcg := Top(retrieved, k), Min(|gold|, k), NdcgAtK(retrieved, gold, k, discount);
            && (ndcg > 1.0 <==> LateGain(top, gold, m, discount) > Missed(top, gold, m, discount))
            && (ndcg == 1.0 <==> LateGain(top, gold, m, discount) == Missed(top, gold, m, discount))
  {
    var top, m := Top(retrieved, k), Min(|gold|, k);
    GainIsExchanged(top, gold, m, discount);
    IdealGrows(0, m, discount);
    RatioToOne(Dcg(top, gold, discount), Ideal(m, discount));
  }

  lemma RatioToOne(x: real, y: real)
    requires y > 0.0
    ensures (x / y > 1.0 <==> x > y) && (x / y == 1.0 <==> x == y)
  {
    assert x == (x / y) * y;
  }

  /** The discount is nearly 1 for the first `n` places and nearly 0 after them. */
  ghost predicate Nearly(discount: nat -> real, n: nat, eps: real) {
    Discounts(discount) && forall i {:trigger discount(i)} :: Ones(i, n) < discount(i) <= Ones(i, n) + eps
  }

  function Ones(i: nat, n: nat): real {
    if i < n then 1.0 else 0.0
  }

  /** Such discounts exist for every error. */
  function Step(n: nat, c: nat): nat -> real
    requires c > 0
  {
    (i: nat) => Ones(i, n) + Inverse(c + i)
  }

  function Inverse(a: nat): (x: real)
    requires a > 0
    ensures x > 0.0 && x * a as real == 1.0
  {
    1.0 / a as real
  }

  lemma InverseDrops(a: nat, b: nat)
    requires 0 < a < b
    ensures Inverse(a) > Inverse(b)
  {
    var x, y := Inverse(a), Inverse(b);
    if x <= y { Products(x, y, a as real, b as real); }
  }

  lemma Products(x: real, y: real, a: real, b: real)
    requires 0.0 < x <= y && 0.0 < a < b
    ensures x * a < y * b
  {
    assert x * a <= y * a;
    assert y * a < y * b;
  }

  lemma StepIsNearly(n: nat, c: nat)
    requires c > 0
    ensures Nearly(Step(n, c), n, Inverse(c))
  {
    var discount := Step(n, c);
    forall i: nat {:trigger discount(i)}
      ensures Ones(i, n) < discount(i) <= Ones(i, n) + Inverse(c)
    {
      if i > 0 { InverseDrops(c, c + i); }
    }
    forall i: nat, j: nat {:trigger discount(i), discount(j)} | i < j
      ensures discount(i) > discount(j)
    {
      InverseDrops(c + i, c + j);
    }
  }

  /** n * eps, as a sum. */
  function Sum(n: nat, eps: real): real {
    if n == 0 then 0.0 else Sum(n - 1, eps) + eps
  }

  lemma {:induction false} SumIs(n: nat, eps: real)
    ensures Sum(n, eps) == n as real * eps
  {
    if n > 0 {
      SumIs(n - 1, eps);
      assert n as real * eps == (n - 1) as real * eps + eps;
    }
  }

  /** As many errors as the inverse counts add up to at most 1. */
  lemma SumOfInverses(n: nat, c: nat)
    requires n <= c && c > 0
    ensures Sum(n, Inverse(c)) <= 1.0
  {
    SumIs(n, Inverse(c));
    var x := Inverse(c);
    assert n as real * x <= c as real * x;
  }

  /** Nearly flat: the gain counts the hits among the first `n` places, up to an error for each place. */
  lemma {:induction false} FlatGain(top: seq<Id>, gold: set<Id>, n: nat, eps: real, discount: nat -> real)
    requires Nearly(discount, n, eps)
    ensures var hits := Hits(top[..Min(n, |top|)], gold);
            && hits as real <= Dcg(top, gold, discount) <= hits as real + Sum(|top|, eps)
            && (hits > 0 ==> hits as real < Dcg(top, gold, discount))
    decreases |top|
  {
    if top != [] {
      var m := |top| - 1;
      FlatGain(top[..m], gold, n, eps, discount);
      assert discount(m) > 0.0;
      if m < n {
        assert top[..Min(n, |top|)] == top && top[..m][..Min(n, m)] == top[..m];
      } else {
        assert top[..m][..n] == top[..n];
      }
    }
  }

  lemma {:induction false} FlatIdeal(m: nat, n: nat, eps: real, discount: nat -> real)
    requires Nearly(discount, n, eps)
    ensures Min(m, n) as real <= Ideal(m, discount) <= Min(m, n) as real + Sum(m, eps)
  {
    if m > 0 {
      FlatIdeal(m - 1, n, eps, discount);
      assert discount(m - 1) > 0.0;
    }
  }

  /**
   * nDCG stays within 1 under every discount exactly when the first k results hit no more often
   * than there are gold results; a ranking without duplicates always does.
   */
  lemma NdcgIsAtMostOneIff(retrieved: seq<Id>, gold: set<Id>, k: nat)
    requires gold != {} && k > 0
    ensures (forall discount {:trigger Discounts(discount)} :: Discounts(discount) ==> NdcgAtK(retrieved, gold, k, discount) <= 1.0)
            <==> Hits(Top(retrieved, k), gold) <= |gold|
  {
    var top, m := Top(retrieved, k), Min(|gold|, k);
    var hits := Hits(top, gold);
    forall discount | Discounts(discount) && hits <= |gold|
      ensures NdcgAtK(retrieved, gold, k, discount) <= 1.0
    {
      GainIsAtMostIdeal(top, gold, discount);
      IdealGrows(hits, m, discount);
      IdealGrows(0, m, discount);
      Ratio(Dcg(top, gold, discount), Ideal(m, discount));
    }
    if hits > |gold| {
      var discount := Step(k, |gold|);
      MoreHitsThanGold(top, gold, k, discount);
      AboveOne(Dcg(top, gold, discount), Ideal(m, discount));
    }
  }

  lemma MoreHitsThanGold(top: seq<Id>, gold: set<Id>, k: nat, discount: nat -> real)
    requires gold != {} && |top| <= k && Hits(top, gold) > |gold| && discount == Step(k, |gold|)
    ensures Discounts(discount) && |gold| <= k
    ensures Dcg(top, gold, discount) > Ideal(|gold|, discount) > 0.0
  {
    var m := |gold|;
    StepIsNearly(k, m);
    GainIsAtMostIdeal(top, gold, discount);
    assert top[..|top|] == top;
    FlatGain(top, gold, k, Inverse(m), discount);
    FlatIdeal(m, k, Inverse(m), discount);
    SumOfInverses(m, m);
  }

  /**
   * It is above 1 under every discount exactly when all the ideal places are taken by gold results
   * and yet another hit follows.
   */
  lemma NdcgExceedsOneIff(retrieved: seq<Id>, gold: set<Id>, k: nat)
    requires gold != {} && k > 0
    ensures (forall discount {:trigger Discounts(discount)} :: Discounts(discount) ==> NdcgAtK(retrieved, gold, k, discount) > 1.0)
            <==> AllGold(Top(retrieved, k), gold, Min(|gold|, k)) && Hits(Top(retrieved, k), gold) > |gold|
  {
    var top, m := Top(retrieved, k), Min(|gold|, k);
    var hits := Hits(top, gold);
    if AllGold(top, gold, m) && hits > |gold| {
      forall discount | Discounts(discount)
        ensures NdcgAtK(retrieved, gold, k, discount) > 1.0
      {
        IdealGrows(0, m, discount);
        ExtraHit(top, gold, m, discount);
        AboveOne(Dcg(top, gold, discount), Ideal(m, discount));
      }
    } else if hits <= |gold| {
      NdcgIsAtMostOneIff(retrieved, gold, k);
      StepIsNearly(0, 1);
      assert NdcgAtK(retrieved, gold, k, Step(0, 1)) <= 1.0;
    } else {
      HitsWithin(top, gold);
      var miss :| 0 <= miss < m && top[miss] !in gold;
      var discount := Step(miss + 1, |top|);
      MissedPlace(top, gold, m, miss, discount);
      Ratio(Dcg(top, gold, discount), Ideal(m, discount));
    }
  }

  lemma {:induction false} HitsWithin(top: seq<Id>, gold: set<Id>)
    ensures Hits(top, gold) <= |top|
  {
    if top != [] { HitsWithin(top[..|top| - 1], gold); }
  }

  lemma MissedPlace(top: seq<Id>, gold: set<Id>, m: nat, miss: nat, discount: nat -> real)
    requires miss < m && miss < |top| && top[miss] !in gold && discount == Step(miss + 1, |top|)
    ensures Discounts(discount) && 0.0 <= Dcg(top, gold, discount) <= Ideal(m, discount) && Ideal(m, discount) > 0.0
  {
    var front, eps := top[..miss + 1], Inverse(|top|);
    StepIsNearly(miss + 1, |top|);
    FlatGain(top, gold, miss + 1, eps, discount);
    FlatIdeal(m, miss + 1, eps, discount);
    SumOfInverses(|top|, |top|);
    assert front[..|front| - 1] == top[..miss];
    HitsWithin(top[..miss], gold);
  }

  /** All of the first `n` places hit and there is a further hit: more than the ideal gain of `n`. */
  lemma {:induction false} ExtraHit(top: seq<Id>, gold: set<Id>, n: nat, discount: nat -> real)
    requires Discounts(discount) && AllGold(top, gold, n)
    ensures Dcg(top, gold, discount) >= Ideal(n, discount) && Hits(top, gold) >= n
    ensures Hits(top, gold) > n ==> Dcg(top, gold, discount) > Ideal(n, discount)
    decreases |top|
  {
    if |top| > n {
      ExtraHit(top[..|top| - 1], gold, n, discount);
    } else if n > 0 {
      ExtraHit(top[..n - 1], gold, n - 1, discount);
      assert top[n - 1] in gold;
      GainIsAtMostIdeal(top, gold, discount);
    }
  }

  /** A ranking that repeats a gold result scores above 1, under every discount. */
  lemma RepeatedGoldScoresAboveOne(discount: nat -> real)
    requires Discounts(discount)
    ensures NdcgAtK(["a", "a"], {"a"}, 2, discount) > 1.0
  {
    var top := ["a", "a"];
    assert top[..1] == ["a"] && top[..1][..0] == [] && Top(top, 2) == top;
    assert Dcg(top, {"a"}, discount) == Dcg(top[..1], {"a"}, discount) + discount(1) == discount(0) + discount(1);
    assert Ideal(1, discount) == discount(0) > 0.0 && discount(1) > 0.0;
    AboveOne(discount(0) + discount(1), discount(0));
  }

  lemma AboveOne(x: real, y: real)
    requires x > y > 0.0
    ensures x / y > 1.0
  {
  }
}
