/**
 * The container memory figure and the check that keeps it a byte count
 * (internal/config/config.go:520-590, 1255-1286).
 */
module Sizing {
  import opened Policy

  const TWO_63 := MAX_INT64 + 1

  const PGO_DECODE_RETAIN_FACTOR := 12
  const PGO_MERGE_RETAIN_FACTOR := 16
  const PGO_GATEWAY_BASE_MEMORY := 512 * 0x10_0000

  /** What a signed 64-bit register holds of an integer. */
  function Wrap(x: int): int {
    (x + TWO_63) % (2 * TWO_63) - TWO_63
  }

  // 64-bit products and sums, and division toward zero of what is never negative here.
  function Mul(a: int, b: int): int { Wrap(a * b) }

  function Plus(a: int, b: int): int { Wrap(a + b) }

  /** The check, step by step in 64-bit arithmetic: true when the limits are refused. The cost of one
      Collection is never zero inside the ranges, so the source divides by it unguarded. */
  predicate Refused(lim: Limits)
    requires lim.maxSampleBytes > 0 && lim.maxMergedBytes > 0
  {
    var samples := Mul(lim.maxParallel, 2 + PGO_DECODE_RETAIN_FACTOR);
    var sampleTerm := Mul(samples, lim.maxSampleBytes);
    var mergedTerm := Mul(1 + PGO_MERGE_RETAIN_FACTOR, lim.maxMergedBytes);
    var perCollection := Plus(sampleTerm, mergedTerm);
    || samples > MAX_INT64 / lim.maxSampleBytes
    || 1 + PGO_MERGE_RETAIN_FACTOR > MAX_INT64 / lim.maxMergedBytes
    || sampleTerm > MAX_INT64 - mergedTerm
    || (perCollection != 0 && lim.maxActiveCollections > MAX_INT64 / perCollection)
    || Mul(lim.maxActiveCollections, perCollection) > MAX_INT64 - PGO_GATEWAY_BASE_MEMORY
  }

  function PGOMemoryBytes(lim: Limits): int {
    Mul(lim.maxActiveCollections,
        Plus(Mul(Mul(lim.maxParallel, 2 + PGO_DECODE_RETAIN_FACTOR), lim.maxSampleBytes),
             Mul(1 + PGO_MERGE_RETAIN_FACTOR, lim.maxMergedBytes)))
  }

  function GatewayMemoryBytes(lim: Limits, enabled: bool): int {
    if !enabled then PGO_GATEWAY_BASE_MEMORY else Plus(PGO_GATEWAY_BASE_MEMORY, PGOMemoryBytes(lim))
  }

  /** The figures in unbounded arithmetic. */
  ghost function PerCollection(lim: Limits): int {
    lim.maxParallel * 14 * lim.maxSampleBytes + 17 * lim.maxMergedBytes
  }

  ghost function Figure(lim: Limits): int {
    512 * 0x10_0000 + lim.maxActiveCollections * PerCollection(lim)
  }

  lemma Fits(x: int)
    requires -TWO_63 <= x < TWO_63
    ensures Wrap(x) == x
  {
  }

  lemma AtMostQuotient(a: nat, b: nat)
    requires b > 0
    ensures a > MAX_INT64 / b <==> a * b > MAX_INT64
  {
    var q := MAX_INT64 / b;
    assert MAX_INT64 == q * b + MAX_INT64 % b;
    if a > q { assert a * b >= (q + 1) * b; } else { assert a * b <= q * b; }
  }

  lemma AtLeastOne(a: nat, b: nat)
    requires a > 0
    ensures a * b >= b
  {
  }

  // Inside the ranges no term of one Collection's cost can leave 64 bits.
  lemma TermsFit(lim: Limits)
    requires Configured(lim)
    ensures Mul(lim.maxParallel, 14) == lim.maxParallel * 14 <= 896
    ensures Mul(Mul(lim.maxParallel, 14), lim.maxSampleBytes) == lim.maxParallel * 14 * lim.maxSampleBytes
    ensures 0 < lim.maxParallel * 14 * lim.maxSampleBytes <= 896 * 0x1000_0000
    ensures Mul(17, lim.maxMergedBytes) == 17 * lim.maxMergedBytes
    ensures PerCollection(lim) > 0
    ensures Plus(lim.maxParallel * 14 * lim.maxSampleBytes, 17 * lim.maxMergedBytes) == PerCollection(lim)
  {
    hide Wrap;
    var samples, mergedTerm := lim.maxParallel * 14, 17 * lim.maxMergedBytes;
    var sampleTerm := samples * lim.maxSampleBytes;
    ProductBetween(samples, 896, lim.maxSampleBytes);
    Fits(samples);
    Fits(sampleTerm);
    Fits(mergedTerm);
    Fits(sampleTerm + mergedTerm);
  }

  lemma ProductBetween(a: int, b: int, c: int)
    requires 0 < a <= b && 0 < c
    ensures 0 < a * c <= b * c
  {
  }

  /** The check refuses exactly the limits whose figure no signed 64-bit integer holds. */
  lemma RefusedExactly(lim: Limits)
    requires Configured(lim)
    ensures Refused(lim) <==> Figure(lim) > MAX_INT64
  {
    TermsFit(lim);
    hide Wrap;
    var each := PerCollection(lim);
    AtMostQuotient(lim.maxParallel * 14, lim.maxSampleBytes);
    AtMostQuotient(17, lim.maxMergedBytes);
    AtMostQuotient(lim.maxActiveCollections, each);
    assert lim.maxActiveCollections * each >= 0;
    if lim.maxActiveCollections * each <= MAX_INT64 { Fits(lim.maxActiveCollections * each); }
  }

  /** What loads is sized by the figure itself, which is a positive byte count. */
  lemma AcceptedNeverWraps(lim: Limits, enabled: bool)
    requires Configured(lim) && !Refused(lim)
    ensures PGOMemoryBytes(lim) == lim.maxActiveCollections * PerCollection(lim) > 0
    ensures GatewayMemoryBytes(lim, true) == Figure(lim)
    ensures 0 < GatewayMemoryBytes(lim, enabled) <= MAX_INT64
  {
    RefusedExactly(lim);
    TermsFit(lim);
    AtLeastOne(lim.maxActiveCollections, PerCollection(lim));
    Fits(lim.maxActiveCollections * PerCollection(lim));
    Fits(Figure(lim));
    hide Wrap, PerCollection;
  }

  /** The check is needed: ranges alone admit limits it refuses. */
  lemma RangesAdmitRefused() returns (lim: Limits)
    ensures Configured(lim) && Refused(lim)
  {
    lim := Limits(SECOND, 1, 1, MINUTE, MINUTE, MINUTE, 0x10_0000, 0x10_0000, 1, MAX_INT64);
    assert Figure(lim) > MAX_INT64;
    RefusedExactly(lim);
  }
}
