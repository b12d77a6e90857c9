/**
 * The deadline of a Collection against the work it has to cover: rounds of a work queue over
 * maxParallel samplers (internal/pgo/record.go:235-246; internal/pgo/rounds.go:130-170, 312-368).
 * A sampler that is free takes the next target; merging takes no time. Times are nanoseconds.
 */
module Deadline {
  import opened Policy

  const PGO_SAMPLE_OVERHEAD := 30 * SECOND
  const PGO_DEADLINE_SLACK := MINUTE

  /** The longest one sample may take: the profile, the allowance, and the wait for admission. */
  function SampleBound(p: Policy): int {
    p.duration + PGO_SAMPLE_OVERHEAD + (p.duration + p.roundInterval)
  }

  // What one sample took: the wait for admission, the profile, and everything around it.
  datatype Took = Took(wait: nat, profile: nat, rest: nat)

  function Time(t: Took): nat {
    t.wait + t.profile + t.rest
  }

  function Times(round: seq<Took>): seq<nat> {
    seq(|round|, i requires 0 <= i < |round| => Time(round[i]))
  }

  // No part of a sample takes longer than it may.
  predicate InTime(p: Policy, t: Took) {
    t.wait <= p.duration + p.roundInterval && t.profile <= p.duration && t.rest <= 30 * SECOND
  }

  // Every part of it takes as long as it may.
  predicate Slowest(p: Policy, t: Took) {
    t.wait == p.duration + p.roundInterval && t.profile == p.duration && t.rest == 30 * SECOND
  }

  function Batches(n: nat, m: nat): nat
    requires m > 0
  {
    (n + m - 1) / m
  }

  function DeadlineAfter(p: Policy, lim: Limits): int
    requires p.maxParallel > 0 && Resolve(p.replicas, lim.maxTargetsPerRound) >= 0
  {
    p.rounds * Batches(Resolve(p.replicas, lim.maxTargetsPerRound), p.maxParallel) * SampleBound(p)
    + (p.rounds - 1) * p.roundInterval + PGO_DEADLINE_SLACK
  }

  // ---- One round ----

  // The samplers that are free no later than a moment.
  function Early(free: seq<nat>, at: nat): set<nat> {
    set i: nat | i < |free| && free[i] <= at
  }

  // After whole + part targets, m at a time: nobody is past the next batch, and no more than part past this one.
  ghost predicate OnTime(free: seq<nat>, batch: nat, part: nat, bound: nat) {
    && part < |free|
    && (forall i | 0 <= i < |free| :: free[i] <= (batch + if part > 0 then 1 else 0) * bound)
    && |Early(free, batch * bound)| >= |free| - part
  }

  // When every sample takes the whole bound, the batches are exact.
  ghost predicate InStep(free: seq<nat>, batch: nat, part: nat, bound: nat) {
    && (forall i | 0 <= i < |free| :: free[i] == batch * bound || free[i] == (batch + 1) * bound)
    && (bound > 0 ==> |Early(free, batch * bound)| == |free| - part)
  }

  predicate FirstFree(free: seq<nat>, i: nat) {
    i < |free| && forall j | 0 <= j < |free| :: free[i] <= free[j]
  }

  lemma {:induction false} AllEarly(free: seq<nat>, at: nat)
    requires forall i | 0 <= i < |free| :: free[i] <= at
    ensures |Early(free, at)| == |free|
  {
    if free != [] {
      var n := |free| - 1;
      AllEarly(free[..n], at);
      assert Early(free, at) == Early(free[..n], at) + {n};
    }
  }

  lemma OneLessEarly(free: seq<nat>, at: nat, i: nat, t: nat)
    requires i < |free| && free[i] <= at
    ensures var after := Early(free[i := free[i] + t], at);
            |after| == |Early(free, at)| - if free[i] + t <= at then 0 else 1
  {
    var before, after := Early(free, at), Early(free[i := free[i] + t], at);
    if free[i] + t <= at {
      assert after == before;
    } else {
      assert after == before - {i};
    }
  }

  // Someone is free in time while a batch is incomplete.
  lemma SomeoneEarly(free: seq<nat>, batch: nat, part: nat, bound: nat, i: nat)
    requires OnTime(free, batch, part, bound) && FirstFree(free, i)
    ensures free[i] <= batch * bound
  {
    assert Early(free, batch * bound) != {};
    var j :| j in Early(free, batch * bound);
  }

  function NextBatch(batch: nat, part: nat, m: nat): (nat, nat) {
    if part + 1 == m then (batch + 1, 0) else (batch, part + 1)
  }

  lemma Assigned(free: seq<nat>, batch: nat, part: nat, bound: nat, i: nat, t: nat)
    requires OnTime(free, batch, part, bound) && FirstFree(free, i) && t <= bound
    ensures var next := NextBatch(batch, part, |free|); OnTime(free[i := free[i] + t], next.0, next.1, bound)
  {
    SomeoneEarly(free, batch, part, bound, i);
    var after := free[i := free[i] + t];
    assert forall j | 0 <= j < |after| :: after[j] <= (batch + 1) * bound;
    OneLessEarly(free, batch * bound, i, t);
    if part + 1 == |free| { AllEarly(after, (batch + 1) * bound); }
  }

  lemma AssignedInStep(free: seq<nat>, batch: nat, part: nat, bound: nat, i: nat)
    requires OnTime(free, batch, part, bound) && InStep(free, batch, part, bound) && FirstFree(free, i)
    ensures var next := NextBatch(batch, part, |free|); InStep(free[i := free[i] + bound], next.0, next.1, bound)
  {
    SomeoneEarly(free, batch, part, bound, i);
    var after := free[i := free[i] + bound];
    OneLessEarly(free, batch * bound, i, bound);
    assert (batch + 1) * bound == batch * bound + bound;
    if part + 1 == |free| {
      AllEarly(after, (batch + 1) * bound);
      if bound > 0 {
        assert Early(after, batch * bound) == {};
        forall j | 0 <= j < |after| ensures after[j] == (batch + 1) * bound {
          assert j !in Early(after, batch * bound);
        }
      }
    }
  }

  lemma BatchesCount(batch: nat, part: nat, m: nat)
    requires part < m
    ensures Batches(batch * m + part, m) == batch + if part > 0 then 1 else 0
  {
    var n := batch * m + part;
    if part > 0 {
      assert n + m - 1 == (batch + 1) * m + (part - 1);
      DividesAs(n + m - 1, batch + 1, part - 1, m);
    } else {
      DividesAs(n + m - 1, batch, m - 1, m);
    }
  }

  lemma DividesAs(x: nat, q: nat, r: nat, m: nat)
    requires m > 0 && r < m && x == q * m + r
    ensures x / m == q
  {
    assert x == (x / m) * m + x % m;
    if x / m > q {
      TimesOrdered(q + 1, x / m, m);
    } else if x / m < q {
      TimesOrdered(x / m + 1, q, m);
    }
  }

  lemma TimesOrdered(a: nat, b: nat, m: nat)
    requires a <= b
    ensures a * m <= b * m
  {
  }

  lemma {:induction false} SomeoneIsFirst(free: seq<nat>)
    requires free != []
    ensures exists i: nat :: FirstFree(free, i)
  {
    if |free| == 1 {
      assert FirstFree(free, 0);
    } else {
      var rest := free[..|free| - 1];
      SomeoneIsFirst(rest);
      var i: nat :| FirstFree(rest, i);
      assert FirstFree(free, if free[|free| - 1] < free[i] then |free| - 1 else i) by {
        assert forall j | 0 <= j < |rest| :: rest[j] == free[j];
      }
    }
  }

  lemma Idle(m: nat, bound: nat)
    requires m > 0
    ensures OnTime(seq(m, _ => 0), 0, 0, bound) && InStep(seq(m, _ => 0), 0, 0, bound)
  {
    AllEarly(seq(m, _ => 0), 0);
  }

  lemma PartOf(free: seq<nat>, batch: nat, part: nat, bound: nat)
    requires OnTime(free, batch, part, bound)
    ensures part < |free|
    ensures var next := NextBatch(batch, part, |free|); next.0 * |free| + next.1 == batch * |free| + part + 1
  {
    if part + 1 == |free| { assert (batch + 1) * |free| == batch * |free| + |free|; }
  }

  method LastFree(free: seq<nat>) returns (end: nat)
    requires free != []
    ensures end in free && forall i | 0 <= i < |free| :: free[i] <= end
  {
    end := free[0];
    for i := 1 to |free|
      invariant end in free && forall j | 0 <= j < i :: free[j] <= end
    {
      if free[i] > end {
        end := free[i];
      }
    }
  }

  lemma RoundEnds(free: seq<nat>, batch: nat, part: nat, bound: nat, end: nat)
    requires OnTime(free, batch, part, bound)
    requires end in free && forall i | 0 <= i < |free| :: free[i] <= end
    ensures end <= (batch + if part > 0 then 1 else 0) * bound
    ensures InStep(free, batch, part, bound) ==> end == (batch + if part > 0 then 1 else 0) * bound
  {
    if InStep(free, batch, part, bound) && bound > 0 && part > 0 {
      if forall i | 0 <= i < |free| :: free[i] <= batch * bound {
        AllEarly(free, batch * bound);
        assert false;
      }
    }
  }

  lemma SameBatches(n: nat, maxParallel: nat)
    requires n > 0 && maxParallel > 0
    ensures Batches(n, if n < maxParallel then n else maxParallel) == Batches(n, maxParallel)
  {
    if n < maxParallel {
      DividesAs(n + n - 1, 1, n - 1, n);
      DividesAs(n + maxParallel - 1, 1, n - 1, maxParallel);
    }
  }

  /** One round over a queue of samples: it ends within one bound per batch, whichever free sampler
      takes which target, and takes exactly that long when every sample takes its whole bound. */
  method RunRound(times: seq<nat>, maxParallel: nat, ghost bound: nat) returns (end: nat)
    requires maxParallel > 0 && times != []
    requires forall t <- times :: t <= bound
    ensures end <= Batches(|times|, maxParallel) * bound
    ensures (forall t <- times :: t == bound) ==> end == Batches(|times|, maxParallel) * bound
  {
    hide OnTime, InStep, Batches;
    var m := Min(maxParallel, |times|);
    var free: seq<nat> := seq(m, _ => 0);
    ghost var batch: nat, part: nat := 0, 0;
    Idle(m, bound);
    for k := 0 to |times|
      invariant |free| == m && k == batch * m + part
      invariant OnTime(free, batch, part, bound)
      invariant (forall t <- times :: t == bound) ==> InStep(free, batch, part, bound)
    {
      PartOf(free, batch, part, bound);
      SomeoneIsFirst(free);
      assert times[k] in times;
      var i :| 0 <= i < |free| && FirstFree(free, i);
      Assigned(free, batch, part, bound, i, times[k]);
      if forall t <- times :: t == bound { AssignedInStep(free, batch, part, bound, i); }
      free := free[i := free[i] + times[k]];
      batch, part := NextBatch(batch, part, m).0, NextBatch(batch, part, m).1;
    }
    end := LastFree(free);
    PartOf(free, batch, part, bound);
    RoundEnds(free, batch, part, bound, end);
    BatchesCount(batch, part, m);
    SameBatches(|times|, maxParallel);
  }

  // ---- A whole Collection ----

  lemma BatchesGrow(n: nat, want: nat, m: nat)
    requires n <= want && m > 0
    ensures Batches(n, m) <= Batches(want, m)
  {
    var x, y := n + m - 1, want + m - 1;
    assert x == (x / m) * m + x % m && y == (y / m) * m + y % m;
    if x / m > y / m { TimesOrdered(y / m + 1, x / m, m); }
  }

  // What the first rounds and the pauses after them may take.
  function Budget(rounds: nat, batches: nat, bound: nat, pauses: nat, interval: nat): nat {
    rounds * batches * bound + pauses * interval
  }

  lemma BudgetSteps(rounds: nat, batches: nat, bound: nat, pauses: nat, interval: nat)
    ensures var now := Budget(rounds, batches, bound, pauses, interval);
            && Budget(rounds + 1, batches, bound, pauses, interval) == now + batches * bound
            && Budget(rounds, batches, bound, pauses + 1, interval) == now + interval
  {
    assert (rounds + 1) * batches * bound == rounds * batches * bound + batches * bound by {
      assert (rounds + 1) * batches == rounds * batches + batches;
      Distributes(rounds * batches, batches, bound);
    }
  }

  lemma Distributes(a: nat, b: nat, c: nat)
    ensures (a + b) * c == a * c + b * c
  {
  }

  lemma BudgetGrows(rounds: nat, most: nat, batches: nat, bound: nat, pauses: nat, mostPauses: nat, interval: nat)
    requires rounds <= most && pauses <= mostPauses
    ensures Budget(rounds, batches, bound, pauses, interval) <= Budget(most, batches, bound, mostPauses, interval)
  {
    TimesOrdered(rounds, most, batches);
    TimesOrdered(rounds * batches, most * batches, bound);
    TimesOrdered(pauses, mostPauses, interval);
  }

  datatype Ending = AllRounds | DeadlineExceeded

  // There is no pause after the last round.
  function Pauses(round: nat, rounds: nat): nat
    requires rounds > 0
  {
    if round < rounds then round else rounds - 1
  }

  // As many samples as the policy asks for, each taking its whole bound.
  ghost predicate WorstCase(samples: seq<seq<Took>>, p: Policy, lim: Limits) {
    forall round <- samples ::
      |round| == Resolve(p.replicas, lim.maxTargetsPerRound) && forall t <- round :: Slowest(p, t)
  }

  lemma TimesBounded(p: Policy, round: seq<Took>)
    requires forall t <- round :: InTime(p, t)
    ensures forall t <- Times(round) :: t <= SampleBound(p)
    ensures (forall t <- round :: Slowest(p, t)) ==> forall t <- Times(round) :: t == SampleBound(p)
  {
    forall t <- Times(round)
      ensures t <= SampleBound(p) && ((forall t <- round :: Slowest(p, t)) ==> t == SampleBound(p))
    {
      var i :| 0 <= i < |round| && Times(round)[i] == t;
      assert round[i] in round;
    }
  }

  /** Every round of a Collection, sampling at most what its policy asks for: all of them end before the
      deadline with the slack to spare, so no round is ever refused for want of time, and no shorter
      deadline would do. */
  method RunRounds(samples: seq<seq<Took>>, p: Policy, lim: Limits) returns (now: nat, ending: Ending)
    requires Configured(lim) && Valid(p, lim) && |samples| == p.rounds
    requires forall round <- samples :: 1 <= |round| <= Resolve(p.replicas, lim.maxTargetsPerRound)
    requires forall round <- samples, t <- round :: InTime(p, t)
    ensures ending.AllRounds? && now + MINUTE <= DeadlineAfter(p, lim)
    ensures WorstCase(samples, p, lim) ==> now + MINUTE == DeadlineAfter(p, lim)
  {
    SamplesBounded(p, lim);
    var deadline := DeadlineAfter(p, lim);
    ghost var bound := SampleBound(p);
    ghost var batches := Batches(Resolve(p.replicas, lim.maxTargetsPerRound), p.maxParallel);
    now := 0;
    Whole(p, lim);
    hide Batches, Budget, Valid, Configured, DeadlineAfter;
    Nothing(batches, bound, p.roundInterval);
    for round := 0 to p.rounds
      invariant now <= Budget(round, batches, bound, Pauses(round, p.rounds), p.roundInterval)
      invariant WorstCase(samples, p, lim) ==>
                  now == Budget(round, batches, bound, Pauses(round, p.rounds), p.roundInterval)
    {
      BudgetGrows(round, p.rounds, batches, bound, round, p.rounds - 1, p.roundInterval);
      if now >= deadline {
        return now, DeadlineExceeded;
      }
      assert samples[round] in samples;
      TimesBounded(p, samples[round]);
      var took := RunRound(Times(samples[round]), p.maxParallel, bound);
      BatchesGrow(|samples[round]|, Resolve(p.replicas, lim.maxTargetsPerRound), p.maxParallel);
      TimesOrdered(Batches(|samples[round]|, p.maxParallel), batches, bound);
      BudgetSteps(round, batches, bound, round, p.roundInterval);
      BudgetSteps(round + 1, batches, bound, round, p.roundInterval);
      now := now + took;
      if round < p.rounds - 1 {
        now := now + p.roundInterval;
      }
    }
    return now, AllRounds;
  }

  lemma Nothing(batches: nat, bound: nat, interval: nat)
    ensures Budget(0, batches, bound, 0, interval) == 0
  {
  }

  lemma Whole(p: Policy, lim: Limits)
    requires p.maxParallel > 0 && Resolve(p.replicas, lim.maxTargetsPerRound) >= 0 && p.rounds >= 1
    requires SampleBound(p) >= 0 && p.roundInterval >= 0
    ensures DeadlineAfter(p, lim)
         == Budget(p.rounds, Batches(Resolve(p.replicas, lim.maxTargetsPerRound), p.maxParallel), SampleBound(p),
                   p.rounds - 1, p.roundInterval) + PGO_DEADLINE_SLACK
  {
  }

  // ---- The formula in 64 bits ----

  /** No product or sum of the formula leaves a signed 64-bit integer, for any policy the ceilings admit. */
  lemma DeadlineFits(p: Policy, lim: Limits)
    requires Configured(lim) && Valid(p, lim)
    ensures p.maxParallel > 0 && Resolve(p.replicas, lim.maxTargetsPerRound) >= 0
    ensures var targets := Resolve(p.replicas, lim.maxTargetsPerRound);
            && 0 < targets + p.maxParallel - 1 <= MAX_INT64
            && 0 < p.rounds * Batches(targets, p.maxParallel) <= MAX_SAMPLES_PER_COLLECTION
            && 0 < SampleBound(p) <= MAX_INT64
            && 0 < p.rounds * Batches(targets, p.maxParallel) * SampleBound(p) <= MAX_INT64
            && 0 <= (p.rounds - 1) * p.roundInterval <= MAX_INT64
            && 0 < DeadlineAfter(p, lim) <= MAX_INT64
  {
    SamplesBounded(p, lim);
    RangesOf(p, lim);
    hide Valid, Configured, Batches, SampleBound, Resolve;
    var targets := Resolve(p.replicas, lim.maxTargetsPerRound);
    BatchesAtMost(targets, p.maxParallel);
    FormulaFits(p.rounds, Batches(targets, p.maxParallel), targets, SampleBound(p), p.roundInterval);
  }

  lemma FormulaFits(rounds: nat, batches: nat, targets: nat, bound: nat, interval: nat)
    requires 1 <= rounds <= 20 && 1 <= batches <= targets && rounds * targets <= MAX_SAMPLES_PER_COLLECTION
    requires 0 < bound <= 200_000 * SECOND && interval <= 600 * SECOND
    ensures 0 < rounds * batches <= MAX_SAMPLES_PER_COLLECTION
    ensures 0 < rounds * batches * bound <= MAX_INT64 && 0 <= (rounds - 1) * interval <= MAX_INT64
    ensures 0 < rounds * batches * bound + (rounds - 1) * interval + PGO_DEADLINE_SLACK <= MAX_INT64
  {
    ProductFits(rounds, batches, targets, bound);
    TimesOrdered(rounds - 1, 20, interval);
  }

  lemma RangesOf(p: Policy, lim: Limits)
    requires Configured(lim) && Valid(p, lim)
    ensures 1 <= p.rounds <= 20 && 1 <= p.maxParallel <= 64 && lim.maxTargetsPerRound <= 256
    ensures 0 <= p.roundInterval <= 600 * SECOND && 0 < SampleBound(p) <= 200_000 * SECOND
  {
  }

  lemma ProductFits(rounds: nat, batches: nat, targets: nat, bound: nat)
    requires 1 <= rounds && 1 <= batches <= targets && rounds * targets <= MAX_SAMPLES_PER_COLLECTION
    requires 0 < bound <= 200_000 * SECOND
    ensures 0 < rounds * batches <= MAX_SAMPLES_PER_COLLECTION
    ensures 0 < rounds * batches * bound <= 256 * (200_000 * SECOND)
  {
    TimesOrdered(batches, targets, rounds);
    TimesOrdered(1, batches, rounds);
    var n := rounds * batches;
    TimesOrdered(n, 256, bound);
    TimesOrdered(1, n, bound);
  }

  lemma BatchesAtMost(n: nat, m: nat)
    requires n > 0 && m > 0
    ensures 1 <= Batches(n, m) <= n
  {
    var x := n + m - 1;
    var q := x / m;
    assert x == q * m + x % m;
    TimesOrdered(1, m, n - 1);
    assert n * m == (n - 1) * m + m by { Distributes(n - 1, 1, m); }
    assert x <= n * m;
    Distributes(n, 1, m);
    if q > n { TimesOrdered(n + 1, q, m); }
  }
}
