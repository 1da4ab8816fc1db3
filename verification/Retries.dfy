// Delays between the attempts of one stage, in seconds, and the budget they add up to.
module Retries {
  import opened Types
  import opened Pipeline

  const MAX_DELAY := 300
  const EMBED_TIMEOUT := 1800

  function Pow2(n: nat): (p: nat)
    ensures p >= 1
  {
    if n == 0 then 1 else 2 * Pow2(n - 1)
  }

  function Backoff(jobTry: nat): nat {
    if 5 * Pow2(jobTry) <= MAX_DELAY then 5 * Pow2(jobTry) else MAX_DELAY
  }

  lemma {:induction false} Pow2Grows(a: nat, b: nat)
    requires a <= b
    ensures Pow2(a) <= Pow2(b)
    decreases b
  {
    if a < b { Pow2Grows(a, b - 1); }
  }

  /** Later attempts never wait less, none waits more than five minutes, and from the sixth on all wait that long. */
  lemma BackoffGrowsToTheCap(a: nat, b: nat)
    requires a <= b
    ensures Backoff(a) <= Backoff(b) <= MAX_DELAY
    ensures Backoff(b) == MAX_DELAY <==> b >= 6
    ensures Backoff(1) == 10 && Backoff(2) == 20 && Backoff(3) == 40 && Backoff(4) == 80 && Backoff(5) == 160 && MAX_DELAY == 300
  {
    Pow2Grows(a, b);
    assert Pow2(1) == 2 && Pow2(2) == 4 && Pow2(3) == 8 && Pow2(4) == 16 && Pow2(5) == 32 && Pow2(6) == 64;
    if b >= 6 { Pow2Grows(6, b); } else { Pow2Grows(b, 5); }
  }

  /** All delays of a stage that uses up its attempts: one after each attempt but the last. */
  function TotalDelay(maxTries: nat): nat {
    if maxTries <= 1 then 0 else TotalDelay(maxTries - 1) + Backoff(maxTries - 1)
  }

  lemma {:induction false} TotalDelayIsBounded(maxTries: nat)
    requires maxTries >= 1
    ensures TotalDelay(maxTries) <= MAX_DELAY * (maxTries - 1)
  {
    if maxTries > 1 { TotalDelayIsBounded(maxTries - 1); }
  }

  lemma {:induction false} TotalDelayGrows(a: nat, b: nat)
    requires a <= b
    ensures TotalDelay(a) <= TotalDelay(b)
    decreases b
  {
    if a < b { TotalDelayGrows(a, b - 1); }
  }

  /** The sweeper's three hours exceed the slowest stage's whole budget exactly up to five attempts. */
  lemma SlowestStageFitsIff(maxTries: nat)
    ensures (EMBED_TIMEOUT * maxTries + TotalDelay(maxTries)) * SECOND < STUCK_RUNNING_AFTER <==> maxTries <= 5
    ensures EMBED_TIMEOUT == 1800 && STUCK_RUNNING_AFTER == 10_800 * SECOND
  {
    assert Pow2(1) == 2 && Pow2(2) == 4 && Pow2(3) == 8 && Pow2(4) == 16 && Pow2(5) == 32;
    assert TotalDelay(2) == 10 && TotalDelay(3) == 30 && TotalDelay(4) == 70 && TotalDelay(5) == 150;
    if maxTries <= 5 { TotalDelayGrows(maxTries, 5); } else { TotalDelayGrows(5, maxTries); }
  }
}
