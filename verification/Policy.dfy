/**
 * Collection policies and the ceilings they are measured against (internal/pgo/policy.go:94-112,
 * 340-408; internal/config/config.go:356-369, 1208-1242).
 */
module Policy {

  const SECOND := 1_000_000_000
  const MINUTE := 60 * SECOND
  const MAX_INT64 := 0x7fff_ffff_ffff_ffff

  datatype Replicas = All | Count(n: int)

  // Durations are nanoseconds.
  datatype Policy = Policy(
    every: int, jitter: int, duration: int, rounds: int, roundInterval: int,
    replicas: Replicas, maxParallel: int, retention: int)

  datatype Limits = Limits(
    maxDuration: int, maxRounds: int, maxParallel: int, minEvery: int, maxEvery: int, maxRetention: int,
    maxSampleBytes: int, maxMergedBytes: int, maxTargetsPerRound: int, maxActiveCollections: int)

  const MAX_ROUND_INTERVAL := 10 * MINUTE
  const MIN_SAMPLING_DURATION := SECOND
  const MIN_RETENTION := MINUTE
  const MAX_SAMPLES_PER_COLLECTION := 256
  const MAX_CPU_SECONDS := 86400

  /** The ranges a loaded configuration holds its ceilings to, with collection on. */
  predicate Configured(lim: Limits) {
    && SECOND <= lim.maxDuration <= MAX_CPU_SECONDS * SECOND
    && 1 <= lim.maxRounds <= 20
    && 1 <= lim.maxParallel <= 64
    && MINUTE <= lim.minEvery <= lim.maxEvery
    && 0x10_0000 <= lim.maxSampleBytes <= 0x1000_0000
    && lim.maxSampleBytes <= lim.maxMergedBytes <= 0x4000_0000
    && 1 <= lim.maxTargetsPerRound <= 256
    && lim.maxRounds * lim.maxTargetsPerRound <= MAX_SAMPLES_PER_COLLECTION
    && 1 <= lim.maxActiveCollections <= MAX_INT64
  }

  function Min(a: int, b: int): int {
    if a < b then a else b
  }

  /** How many Pods one round samples. */
  function Resolve(r: Replicas, maxTargets: int): int {
    match r
    case All => maxTargets
    case Count(n) => Min(n, maxTargets)
  }

  datatype Field = Every | Jitter | Duration | Rounds | RoundInterval | ReplicaCount | MaxParallel | Retention

  datatype Code = AboveMaximum | BelowMinimum | OutOfRange | RetentionUnderInterval

  datatype Violation = Violation(field: Field, code: Code)

  // Division by two as the source has it: toward zero.
  function Half(d: int): int {
    if d >= 0 then d / 2 else -(-d / 2)
  }

  function Value(p: Policy, f: Field): int {
    match f
    case Every => p.every
    case Jitter => p.jitter
    case Duration => p.duration
    case Rounds => p.rounds
    case RoundInterval => p.roundInterval
    case ReplicaCount => if p.replicas.Count? then p.replicas.n else 1
    case MaxParallel => p.maxParallel
    case Retention => p.retention
  }

  function Floor(p: Policy, lim: Limits, f: Field): int {
    match f
    case Every => lim.minEvery
    case Duration => MIN_SAMPLING_DURATION
    case Jitter | RoundInterval => 0
    case Rounds | ReplicaCount | MaxParallel => 1
    case Retention => if p.every > MIN_RETENTION then p.every else MIN_RETENTION
  }

  function Ceiling(p: Policy, lim: Limits, f: Field): int {
    match f
    case Every => lim.maxEvery
    case Jitter => Half(p.every)
    case Duration => lim.maxDuration
    case Rounds => lim.maxRounds
    case RoundInterval => MAX_ROUND_INTERVAL
    case ReplicaCount => if p.replicas.Count? then lim.maxTargetsPerRound else 1
    case MaxParallel => lim.maxParallel
    case Retention => lim.maxRetention
  }

  /** What each field may be. */
  predicate Within(p: Policy, lim: Limits, f: Field) {
    Floor(p, lim, f) <= Value(p, f) <= Ceiling(p, lim, f)
  }

  // Exactly the code a field out of its range is reported under.
  predicate Deserves(p: Policy, lim: Limits, v: Violation) {
    && !Within(p, lim, v.field)
    && match v.code
       case OutOfRange => v.field.Jitter? || v.field.RoundInterval?
       case AboveMaximum =>
         !v.field.Jitter? && !v.field.RoundInterval? && Value(p, v.field) > Ceiling(p, lim, v.field)
       case BelowMinimum =>
         && !v.field.Jitter? && !v.field.RoundInterval? && Value(p, v.field) <= Ceiling(p, lim, v.field)
         && Value(p, v.field) < (if v.field.Retention? then MIN_RETENTION else Floor(p, lim, v.field))
       case RetentionUnderInterval => v.field.Retention? && MIN_RETENTION <= p.retention < p.every
  }

  predicate Valid(p: Policy, lim: Limits) {
    && Within(p, lim, Every) && Within(p, lim, Jitter) && Within(p, lim, Duration) && Within(p, lim, Rounds)
    && Within(p, lim, RoundInterval) && Within(p, lim, ReplicaCount) && Within(p, lim, MaxParallel)
    && Within(p, lim, Retention)
  }

  predicate Names(out: seq<Violation>, f: Field) {
    exists v <- out :: v.field == f
  }

  // The order in which a policy declares its fields.
  function Rank(f: Field): nat {
    match f
    case Every => 0
    case Jitter => 1
    case Duration => 2
    case Rounds => 3
    case RoundInterval => 4
    case ReplicaCount => 5
    case MaxParallel => 6
    case Retention => 7
  }

  // What a list of violations says after the fields before f have been judged.
  ghost predicate Judged(out: seq<Violation>, p: Policy, lim: Limits, fields: set<Field>) {
    (forall v <- out :: v.field in fields && Deserves(p, lim, v))
    && (forall f <- fields :: Within(p, lim, f) || Names(out, f))
    && forall i, j | 0 <= i < j < |out| :: Rank(out[i].field) < Rank(out[j].field)
  }

  method Add(out: seq<Violation>, f: Field, code: Code, ghost p: Policy, ghost lim: Limits, ghost fields: set<Field>)
    returns (longer: seq<Violation>)
    requires Judged(out, p, lim, fields) && Deserves(p, lim, Violation(f, code))
    requires forall g <- fields :: Rank(g) < Rank(f)
    ensures longer == out + [Violation(f, code)] && Judged(longer, p, lim, fields + {f})
  {
    longer := out + [Violation(f, code)];
    assert longer[|out|].field == f && longer[|out|] in longer;
    forall g <- fields ensures Within(p, lim, g) || Names(longer, g) {
      if !Within(p, lim, g) {
        var v :| v in out && v.field == g;
        assert v in longer;
      }
    }
  }

  lemma Passes(out: seq<Violation>, p: Policy, lim: Limits, fields: set<Field>, f: Field)
    requires Judged(out, p, lim, fields) && Within(p, lim, f)
    ensures Judged(out, p, lim, fields + {f})
  {
  }

  /** Exactly the fields out of range are reported, each once, in the order the policy declares them. */
  method Validate(p: Policy, lim: Limits) returns (out: seq<Violation>)
    ensures forall f: Field :: Names(out, f) <==> !Within(p, lim, f)
    ensures forall v <- out :: Deserves(p, lim, v)
    ensures forall i, j | 0 <= i < j < |out| :: Rank(out[i].field) < Rank(out[j].field)
    ensures out == [] <==> Valid(p, lim)
  {
    hide Judged;
    out := [];
    Nothing(p, lim);
    if p.every > lim.maxEvery {
      out := Add(out, Every, AboveMaximum, p, lim, {});
    } else if p.every < lim.minEvery {
      out := Add(out, Every, BelowMinimum, p, lim, {});
    } else { Passes(out, p, lim, {}, Every); }
    assert {} + {Every} == {Every};
    out := ValidateSampling(out, p, lim);
    if p.retention > lim.maxRetention {
      out := Add(out, Retention, AboveMaximum, p, lim, AllButRetention());
    } else if p.retention < MIN_RETENTION {
      out := Add(out, Retention, BelowMinimum, p, lim, AllButRetention());
    } else if p.retention < p.every {
      out := Add(out, Retention, RetentionUnderInterval, p, lim, AllButRetention());
    } else { Passes(out, p, lim, AllButRetention(), Retention); }
    AllJudged(out, p, lim);
  }

  ghost function AllButRetention(): set<Field> {
    {Every, Jitter, Duration, Rounds, RoundInterval, ReplicaCount, MaxParallel}
  }

  lemma Nothing(p: Policy, lim: Limits)
    ensures Judged([], p, lim, {})
  {
  }

  lemma AllJudged(out: seq<Violation>, p: Policy, lim: Limits)
    requires Judged(out, p, lim, AllButRetention() + {Retention})
    ensures forall f: Field :: Names(out, f) <==> !Within(p, lim, f)
    ensures forall v <- out :: Deserves(p, lim, v)
    ensures forall i, j | 0 <= i < j < |out| :: Rank(out[i].field) < Rank(out[j].field)
    ensures out == [] <==> Valid(p, lim)
  {
    forall f: Field ensures Names(out, f) <==> !Within(p, lim, f) {
      match f { case Every => case Jitter => case Duration => case Rounds => case RoundInterval =>
        case ReplicaCount => case MaxParallel => case Retention => }
      assert f in AllButRetention() + {Retention};
    }
    if out != [] { assert !Within(p, lim, out[0].field); }
  }

  method ValidateSampling(before: seq<Violation>, p: Policy, lim: Limits) returns (out: seq<Violation>)
    requires Judged(before, p, lim, {Every})
    ensures Judged(out, p, lim, AllButRetention())
  {
    hide Judged;
    out := ValidateTiming(before, p, lim);
    out := ValidateInterval(out, p, lim);
    ghost var done := {Every, Jitter, Duration, Rounds, RoundInterval};
    if p.replicas.Count? && p.replicas.n > lim.maxTargetsPerRound {
      out := Add(out, ReplicaCount, AboveMaximum, p, lim, done);
    } else if p.replicas.Count? && p.replicas.n < 1 {
      out := Add(out, ReplicaCount, BelowMinimum, p, lim, done);
    } else { Passes(out, p, lim, done, ReplicaCount); }
    done := done + {ReplicaCount};
    if p.maxParallel > lim.maxParallel {
      out := Add(out, MaxParallel, AboveMaximum, p, lim, done);
    } else if p.maxParallel < 1 {
      out := Add(out, MaxParallel, BelowMinimum, p, lim, done);
    } else { Passes(out, p, lim, done, MaxParallel); }
    assert done + {MaxParallel} == AllButRetention();
  }

  method ValidateInterval(before: seq<Violation>, p: Policy, lim: Limits) returns (out: seq<Violation>)
    requires Judged(before, p, lim, {Every, Jitter, Duration, Rounds})
    ensures Judged(out, p, lim, {Every, Jitter, Duration, Rounds, RoundInterval})
  {
    hide Judged;
    out := before;
    ghost var done := {Every, Jitter, Duration, Rounds};
    if p.roundInterval < 0 || p.roundInterval > MAX_ROUND_INTERVAL {
      out := Add(out, RoundInterval, OutOfRange, p, lim, done);
    } else { Passes(out, p, lim, done, RoundInterval); }
    assert done + {RoundInterval} == {Every, Jitter, Duration, Rounds, RoundInterval};
  }

  method ValidateTiming(before: seq<Violation>, p: Policy, lim: Limits) returns (out: seq<Violation>)
    requires Judged(before, p, lim, {Every})
    ensures Judged(out, p, lim, {Every, Jitter, Duration, Rounds})
  {
    hide Judged;
    out := before;
    ghost var done := {Every};
    if p.jitter < 0 || p.jitter > Half(p.every) {
      out := Add(out, Jitter, OutOfRange, p, lim, done);
    } else { Passes(out, p, lim, done, Jitter); }
    done := done + {Jitter};
    if p.duration > lim.maxDuration {
      out := Add(out, Duration, AboveMaximum, p, lim, done);
    } else if p.duration < MIN_SAMPLING_DURATION {
      out := Add(out, Duration, BelowMinimum, p, lim, done);
    } else { Passes(out, p, lim, done, Duration); }
    done := done + {Duration};
    if p.rounds > lim.maxRounds {
      out := Add(out, Rounds, AboveMaximum, p, lim, done);
    } else if p.rounds < 1 {
      out := Add(out, Rounds, BelowMinimum, p, lim, done);
    } else { Passes(out, p, lim, done, Rounds); }
    assert done + {Rounds} == {Every, Jitter, Duration, Rounds};
  }

  /** A policy the ceilings admit never samples more than a record can carry. */
  lemma SamplesBounded(p: Policy, lim: Limits)
    requires Configured(lim) && Valid(p, lim)
    ensures 1 <= Resolve(p.replicas, lim.maxTargetsPerRound) <= lim.maxTargetsPerRound
    ensures p.rounds * Resolve(p.replicas, lim.maxTargetsPerRound) <= MAX_SAMPLES_PER_COLLECTION
  {
    ProductBounded(p.rounds, Resolve(p.replicas, lim.maxTargetsPerRound), lim.maxRounds, lim.maxTargetsPerRound);
  }

  lemma ProductBounded(rounds: nat, targets: nat, maxRounds: nat, maxTargets: nat)
    requires rounds <= maxRounds && targets <= maxTargets && maxRounds * maxTargets <= MAX_SAMPLES_PER_COLLECTION
    ensures rounds * targets <= MAX_SAMPLES_PER_COLLECTION
  {
    assert rounds * targets <= maxRounds * targets;
    assert maxRounds * targets <= maxRounds * maxTargets;
  }
}
