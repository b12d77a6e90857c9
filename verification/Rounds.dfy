/**
 * What one attempt samples, merges and records (internal/pgo/rounds.go; internal/pgo/runtime.go:578-592;
 * internal/pgo/record.go:207-233). A profile is a number; merging, and measuring an encoding,
 * are parameters that may fail.
 */
module Rounds {
  import opened Wrappers
  import opened Policy

  type Profile = nat
  type Version = nat  // 0 is no version

  datatype Target = Target(uid: nat, version: Version)

  datatype Reason =
    | NoTargets | NoSamples | VersionMissing | VersionConflict | IncompatibleProfile
    | MergedTooLarge | SerializeFailed | SampleFailed

  datatype Result = Good | Bad(reason: Reason)

  datatype Sample = Sample(round: nat, uid: nat, result: Result, bytes: nat)

  // One Pod's contribution: a profile exactly when its sample succeeded.
  datatype Outcome = Outcome(sample: Sample, profile: Option<Profile>)

  predicate WellFormed(o: Outcome) {
    o.profile.Some? <==> o.sample.result.Good?
  }

  datatype Tools = Tools(
    merge: (Profile, Profile) -> Option<Profile>,
    size: Profile -> Option<nat>,
    maxMergedBytes: int)

  // What the encoding of a merged profile can be wrong in.
  predicate Unmeasurable(tools: Tools, merged: Option<Profile>) {
    merged.Some? && tools.size(merged.value).None?
  }

  predicate Oversized(tools: Tools, merged: Option<Profile>) {
    merged.Some? && tools.size(merged.value).Some? && tools.size(merged.value).value > tools.maxMergedBytes
  }

  // ---- What the accounts must come to ----

  function CountGood(samples: seq<Sample>): nat {
    if samples == [] then 0
    else CountGood(samples[..|samples| - 1]) + if samples[|samples| - 1].result.Good? then 1 else 0
  }

  /** The profiles of the samples recorded as good, in order. */
  ghost function Merged(absorbed: seq<Outcome>, samples: seq<Sample>): seq<Profile>
    requires |absorbed| == |samples|
  {
    if absorbed == [] then []
    else
      var n := |absorbed| - 1;
      var before := Merged(absorbed[..n], samples[..n]);
      if samples[n].result.Good? && absorbed[n].profile.Some? then before + [absorbed[n].profile.value] else before
  }

  /** The fold of merge over some profiles, where every merge succeeds. */
  ghost function Folded(ps: seq<Profile>, merge: (Profile, Profile) -> Option<Profile>): Option<Profile> {
    if ps == [] then None
    else
      var before := Folded(ps[..|ps| - 1], merge);
      if |ps| == 1 then Some(ps[0]) else if before.None? then None else merge(before.value, ps[|ps| - 1])
  }

  /** A sample is recorded as it came, but for one the running profile could not take. */
  ghost predicate Recorded(absorbed: seq<Outcome>, samples: seq<Sample>, merge: (Profile, Profile) -> Option<Profile>) {
    |absorbed| == |samples| &&
    forall i | 0 <= i < |samples| ::
      || samples[i] == absorbed[i].sample
      || (&& samples[i] == absorbed[i].sample.(result := Bad(IncompatibleProfile), bytes := 0)
          && absorbed[i].profile.Some?
          && var before := Folded(Merged(absorbed[..i], samples[..i]), merge);
             before.Some? && merge(before.value, absorbed[i].profile.value).None?)
  }

  class RunState {
    var merged: Option<Profile>
    var samplesOK: nat
    var samplesFailed: nat
    var samples: seq<Sample>
    var truncated: bool
    var resolved: Version
    ghost var absorbed: seq<Outcome>

    ghost predicate Valid(merge: (Profile, Profile) -> Option<Profile>)
      reads this
    {
      && |absorbed| == |samples| && Recorded(absorbed, samples, merge)
      && (forall o <- absorbed :: WellFormed(o))
      && samplesOK == CountGood(samples) && samplesOK + samplesFailed == |samples|
      && merged == Folded(Merged(absorbed, samples), merge) && |Merged(absorbed, samples)| == samplesOK
      && (merged.Some? <==> samplesOK > 0)
    }

    constructor (merge: (Profile, Profile) -> Option<Profile>)
      ensures Valid(merge) && samples == [] && !truncated && resolved == 0 && absorbed == [] && samplesOK == 0
    {
      merged, samplesOK, samplesFailed, samples, truncated, resolved, absorbed := None, 0, 0, [], false, 0, [];
    }

    /** One sample folded in and recorded, whatever came of it. */
    method Absorb(out: Outcome, tools: Tools) returns (failure: Option<Reason>, good: bool)
      requires Valid(tools.merge) && WellFormed(out)
      modifies this`merged, this`samplesOK, this`samplesFailed, this`samples, this`absorbed
      ensures Valid(tools.merge) && absorbed == old(absorbed) + [out] && samples[..|old(samples)|] == old(samples)
      ensures samplesOK == old(samplesOK) + if good then 1 else 0
      ensures |samples| == |old(samples)| + 1 && (samples[|old(samples)|].result.Good? <==> good)
      ensures failure.Some? ==> good
      ensures failure == Some(SerializeFailed) <==> good && Unmeasurable(tools, merged)
      ensures failure == Some(MergedTooLarge) <==> good && Oversized(tools, merged)
      ensures !good ==> merged == old(merged)
      ensures failure.Some? ==> failure == Some(SerializeFailed) || failure == Some(MergedTooLarge)
    {
      hide Recorded, Merged, Folded, CountGood;
      var s := out.sample;
      if out.profile.Some? {
        if merged.None? {
          merged := out.profile;
        } else {
          var next := tools.merge(merged.value, out.profile.value);
          if next.None? {
            s := s.(result := Bad(IncompatibleProfile), bytes := 0);
          } else {
            merged := next;
          }
        }
      }
      if s.result.Good? {
        samplesOK := samplesOK + 1;
      } else {
        samplesFailed := samplesFailed + 1;
      }
      good := s.result.Good?;
      Accounts(absorbed, samples, out, s, tools.merge);
      if good { FoldsMore(Merged(absorbed, samples), out.profile.value, tools.merge); }
      samples := samples + [s];
      absorbed := absorbed + [out];
      failure := None;
      if s.result.Good? && merged.Some? {
        var size := tools.size(merged.value);
        if size.None? {
          return Some(SerializeFailed), good;
        }
        if size.value > tools.maxMergedBytes {
          return Some(MergedTooLarge), good;
        }
      }
    }
  }

  lemma FoldsMore(ps: seq<Profile>, p: Profile, merge: (Profile, Profile) -> Option<Profile>)
    ensures var before := Folded(ps, merge);
            var after := if ps == [] then Some(p) else if before.None? then None else merge(before.value, p);
            Folded(ps + [p], merge) == after
  {
    assert (ps + [p])[..|ps|] == ps;
  }

  // What one more entry does to each account.
  lemma Accounts(absorbed: seq<Outcome>, samples: seq<Sample>, out: Outcome, s: Sample,
                 merge: (Profile, Profile) -> Option<Profile>)
    requires Recorded(absorbed, samples, merge) && WellFormed(out)
    requires var before := Folded(Merged(absorbed, samples), merge);
             || s == out.sample
             || (&& s == out.sample.(result := Bad(IncompatibleProfile), bytes := 0) && out.profile.Some?
                 && before.Some? && merge(before.value, out.profile.value).None?)
    ensures Recorded(absorbed + [out], samples + [s], merge)
    ensures CountGood(samples + [s]) == CountGood(samples) + if s.result.Good? then 1 else 0
    ensures var before := Merged(absorbed, samples);
            Merged(absorbed + [out], samples + [s]) == if s.result.Good? then before + [out.profile.value] else before
  {
    var a, ss, n := absorbed + [out], samples + [s], |absorbed|;
    assert a[..n] == absorbed && ss[..n] == samples;
    forall i | 0 <= i < |ss| ensures
      || ss[i] == a[i].sample
      || (&& ss[i] == a[i].sample.(result := Bad(IncompatibleProfile), bytes := 0)
          && a[i].profile.Some?
          && var before := Folded(Merged(a[..i], ss[..i]), merge);
             before.Some? && merge(before.value, a[i].profile.value).None?)
    {
      assert i < n ==> a[..i] == absorbed[..i] && ss[..i] == samples[..i];
    }
  }

  // ---- The Pods of one round ----

  function Kept(targets: seq<Target>, keep: Target -> bool): seq<Target> {
    if targets == [] then []
    else
      var n := |targets| - 1;
      Kept(targets[..n], keep) + if keep(targets[n]) then [targets[n]] else []
  }

  method FilterTargets(targets: seq<Target>, keep: Target -> bool) returns (out: seq<Target>)
    ensures out == Kept(targets, keep)
    ensures forall t :: t in out <==> t in targets && keep(t)
    ensures |out| <= |targets|
  {
    out := [];
    for i := 0 to |targets|
      invariant out == Kept(targets[..i], keep)
      invariant |out| <= i && forall t :: t in out <==> t in targets[..i] && keep(t)
    {
      assert targets[..i + 1] == targets[..i] + [targets[i]];
      assert targets[..i + 1][..i] == targets[..i];
      if keep(targets[i]) {
        out := out + [targets[i]];
      }
    }
    assert targets[..|targets|] == targets;
  }

  // The versions in the order they first appear.
  function FirstVersions(targets: seq<Target>): seq<Version> {
    if targets == [] then []
    else
      var n := |targets| - 1;
      FirstVersions(targets[..n])
      + if exists j | 0 <= j < n :: targets[j].version == targets[n].version then [] else [targets[n].version]
  }

  method DistinctVersions(targets: seq<Target>) returns (out: seq<Version>)
    ensures out == FirstVersions(targets)
    ensures forall v :: v in out <==> exists t <- targets :: t.version == v
    ensures forall i, j | 0 <= i < j < |out| :: out[i] != out[j]
  {
    out := [];
    for i := 0 to |targets|
      invariant out == FirstVersions(targets[..i])
      invariant forall v :: v in out <==> exists j | 0 <= j < i :: targets[j].version == v
      invariant forall i, j | 0 <= i < j < |out| :: out[i] != out[j]
    {
      assert targets[..i + 1][..i] == targets[..i];
      if targets[i].version !in out {
        out := out + [targets[i].version];
      }
    }
    assert targets[..|targets|] == targets;
    forall v ensures v in out <==> exists t <- targets :: t.version == v {
      if j: nat :| j < |targets| && targets[j].version == v { assert targets[j] in targets; }
    }
  }

  predicate Eligible(t: Target, pin: Version) {
    t.version != 0 && (pin != 0 ==> t.version == pin)
  }

  ghost predicate NoVersion(targets: seq<Target>, pin: Version) {
    forall t <- targets :: !Eligible(t, pin)
  }

  ghost predicate TwoVersions(targets: seq<Target>, pin: Version) {
    exists t <- targets, u <- targets :: Eligible(t, pin) && Eligible(u, pin) && t.version != u.version
  }

  /** The one version every Pod that has the wanted one runs, or why there is none. */
  method ResolveVersion(targets: seq<Target>, pin: Version) returns (version: Version, reason: Option<Reason>)
    ensures reason == Some(VersionMissing) <==> NoVersion(targets, pin)
    ensures reason == Some(VersionConflict) <==> TwoVersions(targets, pin)
    ensures reason.None? ==> forall u <- targets :: Eligible(u, pin) ==> u.version == version
    ensures reason.None? ==> exists t <- targets :: Eligible(t, pin) && t.version == version
    ensures reason.Some? ==> reason.value.VersionMissing? || reason.value.VersionConflict?
    ensures reason.None? ==> version != 0 && (pin != 0 ==> version == pin)
  {
    var eligible := FilterTargets(targets, (t: Target) => t.version != 0);
    if pin != 0 {
      eligible := FilterTargets(eligible, (t: Target) => t.version == pin);
    }
    assert forall t :: t in eligible <==> t in targets && Eligible(t, pin);
    var versions := DistinctVersions(eligible);
    if |versions| == 0 {
      forall t <- targets ensures !Eligible(t, pin) { assert t in eligible ==> t.version in versions; }
      return 0, Some(VersionMissing);
    } else if |versions| == 1 {
      assert versions[0] in versions;
      var t :| t in eligible && t.version == versions[0];
      forall u <- targets ensures Eligible(u, pin) ==> u.version == versions[0] {
        assert u in eligible ==> u.version in versions;
      }
      return versions[0], None;
    } else {
      assert versions[0] in versions && versions[1] in versions;
      return 0, Some(VersionConflict);
    }
  }

  predicate IsFirst(targets: seq<Target>, i: nat)
    requires i < |targets|
  {
    forall j | 0 <= j < i :: targets[j].uid != targets[i].uid
  }

  predicate HasFirsts(targets: seq<Target>, out: seq<Target>) {
    forall i: nat | i < |targets| && IsFirst(targets, i) :: targets[i] in out
  }

  function Firsts(targets: seq<Target>): seq<Target> {
    if targets == [] then []
    else
      var n := |targets| - 1;
      Firsts(targets[..n]) + if IsFirst(targets, n) then [targets[n]] else []
  }

  lemma {:induction false} FirstsAre(targets: seq<Target>)
    ensures forall t <- Firsts(targets) :: t in targets
    ensures HasFirsts(targets, Firsts(targets)) && Spread(Firsts(targets))
  {
    if targets != [] {
      var n := |targets| - 1;
      var front := targets[..n];
      FirstsAre(front);
      assert targets == front + [targets[n]];
      forall i: nat | i < n && IsFirst(targets, i) ensures targets[i] in Firsts(front) { assert IsFirst(front, i); }
      if IsFirst(targets, n) {
        forall t <- Firsts(front) ensures t.uid != targets[n].uid { var j :| 0 <= j < n && front[j] == t; }
      }
    }
  }

  /** One entry per Pod: the first, in the order they came. */
  method DedupeByUID(targets: seq<Target>) returns (out: seq<Target>)
    ensures out == Firsts(targets)
    ensures Spread(out) && HasFirsts(targets, out) && forall t <- out :: t in targets
  {
    out := [];
    var seen: set<nat> := {};
    for i := 0 to |targets|
      invariant out == Firsts(targets[..i])
      invariant seen == set k | 0 <= k < i :: targets[k].uid
    {
      assert targets[..i + 1][..i] == targets[..i];
      if targets[i].uid !in seen {
        seen := seen + {targets[i].uid};
        out := out + [targets[i]];
      }
    }
    assert targets[..|targets|] == targets;
    FirstsAre(targets);
  }

  predicate Spread(targets: seq<Target>) {
    forall i, j | 0 <= i < j < |targets| :: targets[i].uid != targets[j].uid
  }

  method Shuffle(targets: seq<Target>, swaps: seq<(nat, nat)>) returns (out: seq<Target>)
    requires Spread(targets)
    ensures Spread(out) && |out| == |targets| && forall t :: t in out <==> t in targets
  {
    out := targets;
    for k := 0 to |swaps|
      invariant Spread(out) && |out| == |targets| && forall t :: t in out <==> t in targets
    {
      var (i, j) := swaps[k];
      if i < |out| && j < |out| {
        ghost var was := out;
        out := out[i := out[j]][j := out[i]];
        forall t ensures t in out <==> t in was {
          if t in was {
            var at :| 0 <= at < |was| && was[at] == t;
            assert out[if at == i then j else if at == j then i else at] == t;
          }
        }
      }
    }
  }

  /** Exactly when a round has no Pods, and why: a first round whose Pods run no version that is wanted, or two of
      them; discovery failing; or a later round every Pod of which has rolled. */
  ghost predicate Why(reason: Option<Reason>, round: nat, discovered: Option<seq<Target>>, pin: Version,
                      resolved: Version) {
    && (reason == Some(VersionMissing) <==> round == 0 && discovered.Some? && NoVersion(discovered.value, pin))
    && (reason == Some(VersionConflict) <==> round == 0 && discovered.Some? && TwoVersions(discovered.value, pin))
    && (reason == Some(NoTargets) <==>
          discovered.None? || (round > 0 && forall t <- discovered.value :: t.version != resolved))
    && (reason.Some? ==> reason.value in {NoTargets, VersionMissing, VersionConflict})
  }

  /** The Pods of one round: distinct, of the resolved version, no more than asked for, and every such
      Pod unless the round was cut short. */
  method TargetsFor(state: RunState, round: nat, discovered: Option<seq<Target>>, pin: Version,
                    want: nat, swaps: seq<(nat, nat)>)
    returns (targets: seq<Target>, reason: Option<Reason>)
    requires want > 0
    modifies state`resolved, state`truncated
    ensures Why(reason, round, discovered, pin, state.resolved)
    ensures reason.None? ==>
              && discovered.Some? && 0 < |targets| <= want && Spread(targets)
              && (forall t <- targets :: t in discovered.value && t.version == state.resolved)
    ensures reason.None? && round == 0 ==>
              exists t <- discovered.value :: Eligible(t, pin) && t.version == state.resolved
    ensures reason.None? ==>
              && |targets| == Min(want, |PodsOf(discovered.value, state.resolved)|)
              && (state.truncated <==> old(state.truncated) || |PodsOf(discovered.value, state.resolved)| > want)
    ensures reason.Some? ==> state.truncated == old(state.truncated)
    ensures round > 0 ==> state.resolved == old(state.resolved)
    ensures old(state.truncated) ==> state.truncated
    ensures reason.None? && !state.truncated ==>
              forall t <- discovered.value :: t.version == state.resolved ==> exists u <- targets :: u.uid == t.uid
  {
    hide PodsOf, HasFirsts, Firsts, Kept, NoVersion, TwoVersions;
    if discovered.None? {
      return [], Some(NoTargets);
    }
    if round == 0 {
      var resolved, why := ResolveVersion(discovered.value, pin);
      if why.Some? {
        return [], why;
      }
      state.resolved := resolved;
    }
    var resolved := state.resolved;
    var ofVersion := FilterTargets(discovered.value, (t: Target) => t.version == resolved);
    targets := DedupeByUID(ofVersion);
    if |targets| == 0 {
      NonePicked(discovered.value, resolved, ofVersion, targets);
      return [], Some(NoTargets);
    }
    PickedAre(discovered.value, resolved, ofVersion, targets);
    targets := Shuffle(targets, swaps);
    if |targets| > want {
      targets := targets[..want];
      state.truncated := true;
    }
    assert targets[0] in targets;
    reason := None;
  }

  // What is picked of the targets of one version: every Pod of it, once.
  lemma PickedAre(all: seq<Target>, version: Version, ofVersion: seq<Target>, out: seq<Target>)
    requires forall t :: t in ofVersion <==> t in all && t.version == version
    requires Spread(out) && HasFirsts(ofVersion, out) && forall t <- out :: t in ofVersion
    ensures forall t <- out :: t in all && t.version == version
    ensures forall t <- all :: t.version == version ==> exists u <- out :: u.uid == t.uid
    ensures |PodsOf(all, version)| == |out|
  {
    EveryUID(ofVersion, out);
    CountedOnce(out);
    hide HasFirsts, Spread;
    assert PodsOf(all, version) == set t <- out :: t.uid;
  }

  lemma NonePicked(all: seq<Target>, version: Version, ofVersion: seq<Target>, out: seq<Target>)
    requires forall t :: t in ofVersion <==> t in all && t.version == version
    requires HasFirsts(ofVersion, out) && out == []
    ensures forall t <- all :: t.version != version
  {
    if ofVersion != [] { assert IsFirst(ofVersion, 0); }
    forall t <- all ensures t.version != version { assert t !in ofVersion; }
  }

  // The Pods of one version among some targets.
  function PodsOf(targets: seq<Target>, version: Version): set<nat> {
    set t <- targets | t.version == version :: t.uid
  }

  lemma {:induction false} CountedOnce(targets: seq<Target>)
    requires Spread(targets)
    ensures |(set t <- targets :: t.uid)| == |targets|
  {
    if targets != [] {
      var n := |targets| - 1;
      CountedOnce(targets[..n]);
      assert targets == targets[..n] + [targets[n]];
      assert (set t <- targets :: t.uid) == (set t <- targets[..n] :: t.uid) + {targets[n].uid};
    }
  }

  // The first entry of each Pod stands for all of them.
  lemma EveryUID(targets: seq<Target>, out: seq<Target>)
    requires HasFirsts(targets, out)
    ensures forall t <- targets :: exists u <- out :: u.uid == t.uid
  {
    forall i | 0 <= i < |targets| ensures exists u <- out :: u.uid == targets[i].uid { FirstOf(targets, out, i); }
  }

  lemma {:induction false} FirstOf(targets: seq<Target>, out: seq<Target>, i: nat)
    requires i < |targets|
    requires HasFirsts(targets, out)
    ensures exists u <- out :: u.uid == targets[i].uid
    decreases i
  {
    if j: nat :| j < i && targets[j].uid == targets[i].uid {
      FirstOf(targets, out, j);
    } else {
      assert IsFirst(targets, i);
      assert targets[i] in out;
    }
  }

  // ---- One round ----

  ghost predicate NoneGood(samples: seq<Sample>, from: nat) {
    forall i | from <= i < |samples| :: !samples[i].result.Good?
  }

  lemma AllBefore(samples: seq<Sample>)
    ensures NoneGood(samples, |samples|)
  {
  }

  lemma OneMoreGood(samples: seq<Sample>, now: seq<Sample>, from: nat)
    requires |now| == |samples| + 1 && now[..|samples|] == samples && from <= |samples|
    ensures NoneGood(now, from) <==> NoneGood(samples, from) && !now[|samples|].result.Good?
  {
    assert forall i | 0 <= i < |samples| :: now[i] == now[..|samples|][i];
  }

  /** Folds in a round's samples as they arrive, and none after one that ends the attempt. */
  method RunRound(state: RunState, outs: seq<Outcome>, tools: Tools) returns (failure: Option<Reason>)
    requires state.Valid(tools.merge) && forall o <- outs :: WellFormed(o)
    requires !Unmeasurable(tools, state.merged) && !Oversized(tools, state.merged)
    modifies state`merged, state`samplesOK, state`samplesFailed, state`samples, state`absorbed
    ensures state.Valid(tools.merge)
    ensures old(state.absorbed) <= state.absorbed <= old(state.absorbed) + outs
    ensures failure.None? || failure == Some(NoSamples) ==> state.absorbed == old(state.absorbed) + outs
    ensures state.samplesOK >= old(state.samplesOK)
    ensures failure == Some(NoSamples) <==> state.samplesOK == old(state.samplesOK)
    ensures failure == Some(SerializeFailed) <==> Unmeasurable(tools, state.merged)
    ensures failure == Some(MergedTooLarge) <==> Oversized(tools, state.merged)
    ensures failure.Some? ==> failure.value in {NoSamples, SerializeFailed, MergedTooLarge}
    ensures old(state.samples) <= state.samples
    ensures state.samplesOK == old(state.samplesOK) <==> NoneGood(state.samples, |old(state.samples)|)
  {
    hide RunState.Valid, Unmeasurable, Oversized, NoneGood;
    AllBefore(state.samples);
    var good := 0;
    failure := None;
    ghost var taken: nat := 0;
    assert old(state.absorbed) == old(state.absorbed) + outs[..0];
    for i := 0 to |outs|
      invariant state.Valid(tools.merge)
      invariant taken <= i && state.absorbed == old(state.absorbed) + outs[..taken] && (failure.None? ==> taken == i)
      invariant failure.Some? ==> failure == Some(SerializeFailed) || failure == Some(MergedTooLarge)
      invariant failure == Some(SerializeFailed) <==> Unmeasurable(tools, state.merged)
      invariant failure == Some(MergedTooLarge) <==> Oversized(tools, state.merged)
      invariant state.samplesOK == old(state.samplesOK) + good && (failure.Some? ==> good > 0)
      invariant old(state.samples) <= state.samples
      invariant good == 0 <==> NoneGood(state.samples, |old(state.samples)|)
    {
      if failure.Some? {
        continue;
      }
      assert outs[..i + 1] == outs[..i] + [outs[i]];
      var ok;
      ghost var samples := state.samples;
      failure, ok := state.Absorb(outs[i], tools);
      OneMoreGood(samples, state.samples, |old(state.samples)|);
      taken := i + 1;
      if ok {
        good := good + 1;
      }
    }
    if failure.Some? {
      return;
    }
    assert outs[..|outs|] == outs;
    if good == 0 {
      return Some(NoSamples);
    }
  }

  // ---- A whole attempt ----

  // What sampling a round can send back: at most one well-formed outcome for each of its Pods.
  ghost predicate Arrives(round: nat, targets: seq<Target>, outs: seq<Outcome>) {
    && |outs| <= |targets|
    && (forall o <- outs :: WellFormed(o) && o.sample.round == round && exists t <- targets :: t.uid == o.sample.uid)
    && (forall i, j | 0 <= i < j < |outs| :: outs[i].sample.uid != outs[j].sample.uid)
  }

  type Fleet = seq<Option<seq<Target>>>  // what discovery answers, round by round

  /** What the samples of an attempt come from: each round distinct Pods, all of one version. */
  ghost predicate Sampled(samples: seq<Sample>, fleet: Fleet, version: Version, rounds: nat) {
    && (forall s <- samples :: s.round < rounds && s.round < |fleet| && fleet[s.round].Some?
          && exists t <- fleet[s.round].value :: t.uid == s.uid && t.version == version)
    && (forall i, j | 0 <= i < j < |samples| && samples[i].round == samples[j].round ::
          samples[i].uid != samples[j].uid)
  }

  lemma RoundSampled(before: seq<Outcome>, samples: seq<Sample>, outs: seq<Outcome>,
                     absorbed: seq<Outcome>, now: seq<Sample>, merge: (Profile, Profile) -> Option<Profile>,
                     round: nat, targets: seq<Target>, fleet: Fleet, version: Version)
    requires Recorded(before, samples, merge) && Recorded(absorbed, now, merge)
    requires before <= absorbed <= before + outs && Arrives(round, targets, outs)
    requires Sampled(samples, fleet, version, round) && round < |fleet| && fleet[round].Some?
    requires forall t <- targets :: t in fleet[round].value && t.version == version
    ensures Sampled(now, fleet, version, round + 1) && |now| <= |samples| + |targets|
    ensures |samples| <= |now| && forall i | |samples| <= i < |now| :: now[i].round == round
  {
    SameRoundAndUID(before, samples, merge);
    SameRoundAndUID(absorbed, now, merge);
    var n := |before|;
    forall i | 0 <= i < |now|
      ensures i < n ==> now[i].round == samples[i].round && now[i].uid == samples[i].uid
      ensures i >= n ==> now[i].round == round && now[i].uid == outs[i - n].sample.uid
    {
      assert absorbed[i] == (before + outs)[i];
      if i >= n { assert outs[i - n] in outs; } else { assert before[i] == absorbed[i]; }
    }
    hide Recorded;
    forall s <- now ensures s.round < round + 1 && fleet[s.round].Some?
      && exists t <- fleet[s.round].value :: t.uid == s.uid && t.version == version
    {
      var i :| 0 <= i < |now| && now[i] == s;
      if i < n {
        assert samples[i] in samples;
      } else {
        assert outs[i - n] in outs;
        var t :| t in targets && t.uid == outs[i - n].sample.uid;
      }
    }
    forall i, j | 0 <= i < j < |now| && now[i].round == now[j].round ensures now[i].uid != now[j].uid {
      if j < n {
        assert samples[i].uid != samples[j].uid;
      } else if i >= n {
        assert outs[i - n].sample.uid != outs[j - n].sample.uid;
      }
    }
  }

  lemma SameRoundAndUID(absorbed: seq<Outcome>, samples: seq<Sample>, merge: (Profile, Profile) -> Option<Profile>)
    requires Recorded(absorbed, samples, merge)
    ensures forall i | 0 <= i < |samples| ::
              samples[i].round == absorbed[i].sample.round && samples[i].uid == absorbed[i].sample.uid
  {
  }

  /** What an attempt stands on after some rounds. */
  ghost predicate SoFar(rounds: nat, samples: seq<Sample>, merged: Option<Profile>,
                        fleet: Fleet, pin: Version, tools: Tools) {
    && !Unmeasurable(tools, merged) && !Oversized(tools, merged)
    && (forall r | 0 <= r < rounds :: Sampling(samples, r))
    && (rounds > 0 && fleet != [] ==>
          fleet[0].Some? && !NoVersion(fleet[0].value, pin) && !TwoVersions(fleet[0].value, pin))
  }

  /** How an attempt ended: every round brought a good sample, or every one before the last did and the last
      ended it for the reason given, each reason exactly where it applies. */
  ghost predicate Explained(failure: Option<Reason>, last: nat, samples: seq<Sample>, merged: Option<Profile>,
                            resolved: Version, fleet: Fleet, pin: Version, tools: Tools) {
    && fleet != []
    && (failure.None? ==> merged.Some? && forall r | 0 <= r < |fleet| :: Sampling(samples, r))
    && (failure.Some? ==> last < |fleet| && forall r | 0 <= r < last :: Sampling(samples, r))
    && (failure == Some(VersionMissing) <==> fleet[0].Some? && NoVersion(fleet[0].value, pin))
    && (failure == Some(VersionConflict) <==> fleet[0].Some? && TwoVersions(fleet[0].value, pin))
    && (failure == Some(NoTargets) <==>
          failure.Some?
          && (fleet[last].None? || (last > 0 && forall t <- fleet[last].value :: t.version != resolved)))
    && (failure == Some(SerializeFailed) <==> Unmeasurable(tools, merged))
    && (failure == Some(MergedTooLarge) <==> Oversized(tools, merged))
    && (failure == Some(NoSamples) ==> !Sampling(samples, last))
    && (failure.Some? ==> failure.value !in {IncompatibleProfile, SampleFailed})
  }

  /** A whole attempt: the accounts stay exact however it ends, each round samples distinct Pods of one
      version, and a policy the ceilings admit never makes more samples than a record can carry. */
  method Run(p: Policy, lim: Limits, pin: Version, tools: Tools, fleet: Fleet, swaps: seq<seq<(nat, nat)>>,
             sampling: (nat, seq<Target>) -> seq<Outcome>)
    returns (state: RunState, failure: Option<Reason>, ghost last: nat)
    requires Configured(lim) && Valid(p, lim) && |fleet| == |swaps| == p.rounds
    requires forall round, targets :: Arrives(round, targets, sampling(round, targets))
    ensures state.Valid(tools.merge)
    ensures Sampled(state.samples, fleet, state.resolved, p.rounds)
    ensures |state.samples| <= MAX_SAMPLES_PER_COLLECTION
    ensures Explained(failure, last, state.samples, state.merged, state.resolved, fleet, pin, tools)
  {
    hide Recorded, Merged, Folded, CountGood, Sampled, Why, SoFar, Explained, NoneGood, Unmeasurable, Oversized;
    SamplesBounded(p, lim);
    assert p.rounds >= 1;
    hide Valid, Configured, Within, Spread, PodsOf, Sampling;
    var want := Resolve(p.replicas, lim.maxTargetsPerRound);
    state := new RunState(tools.merge);
    NothingYet(state.samples, state.merged, fleet, pin, tools);
    NothingSampled(fleet, state.resolved);
    failure := None;
    last := 0;
    for round := 0 to p.rounds
      invariant state.Valid(tools.merge) && fresh(state) && state.samplesOK >= round && failure.None?
      invariant SoFar(round, state.samples, state.merged, fleet, pin, tools)
      invariant Sampled(state.samples, fleet, state.resolved, round) && |state.samples| <= round * want
      invariant round == 0 ==> state.samples == []
    {
      last := round;
      Products(round, p.rounds, want);
      var targets, reason := TargetsFor(state, round, fleet[round], pin, want, swaps[round]);
      if round == 0 { NothingSampled(fleet, state.resolved); }
      if reason.Some? {
        TargetsEnd(reason, round, state.samples, state.merged, state.resolved, fleet, pin, tools);
        StillSampled(state.samples, fleet, state.resolved, round, p.rounds);
        return state, reason, round;
      }
      var outs := sampling(round, targets);
      assert Arrives(round, targets, sampling(round, targets));
      ghost var before, samples, merged := state.absorbed, state.samples, state.merged;
      SoFarFits(round, samples, state.merged, fleet, pin, tools);
      failure := RunRound(state, outs, tools);
      RoundSampled(before, samples, outs, state.absorbed, state.samples, tools.merge,
                   round, targets, fleet, state.resolved);
      NewSampling(samples, state.samples, round, fleet, state.resolved);
      RoundEnds(failure, round, samples, state.samples, merged, state.merged, state.resolved, fleet, pin, tools);
      if failure.Some? {
        StillSampled(state.samples, fleet, state.resolved, round + 1, p.rounds);
        return;
      }
    }
    AllRounds(last, state.samples, state.merged, state.resolved, fleet, pin, tools);
  }

  lemma NothingYet(samples: seq<Sample>, merged: Option<Profile>, fleet: Fleet, pin: Version, tools: Tools)
    requires merged.None?
    ensures SoFar(0, samples, merged, fleet, pin, tools)
  {
  }

  lemma SoFarFits(round: nat, samples: seq<Sample>, merged: Option<Profile>, fleet: Fleet, pin: Version, tools: Tools)
    requires SoFar(round, samples, merged, fleet, pin, tools)
    ensures !Unmeasurable(tools, merged) && !Oversized(tools, merged)
  {
  }

  lemma TargetsEnd(reason: Option<Reason>, round: nat, samples: seq<Sample>, merged: Option<Profile>,
                   resolved: Version, fleet: Fleet, pin: Version, tools: Tools)
    requires SoFar(round, samples, merged, fleet, pin, tools) && round < |fleet|
    requires reason.Some? && Why(reason, round, fleet[round], pin, resolved)
    ensures Explained(reason, round, samples, merged, resolved, fleet, pin, tools)
  {
    hide Sampling, NoVersion, TwoVersions, Unmeasurable, Oversized;
  }

  lemma RoundEnds(failure: Option<Reason>, round: nat, samples: seq<Sample>, now: seq<Sample>,
                  before: Option<Profile>, merged: Option<Profile>, resolved: Version,
                  fleet: Fleet, pin: Version, tools: Tools)
    requires SoFar(round, samples, before, fleet, pin, tools) && round < |fleet|
    requires Why(None, round, fleet[round], pin, resolved)
    requires forall r | 0 <= r < round :: Sampling(samples, r) ==> Sampling(now, r)
    requires Sampling(now, round) <==> !NoneGood(now, |samples|)
    requires failure == Some(NoSamples) <==> NoneGood(now, |samples|)
    requires failure == Some(SerializeFailed) <==> Unmeasurable(tools, merged)
    requires failure == Some(MergedTooLarge) <==> Oversized(tools, merged)
    requires failure.Some? ==> failure.value in {NoSamples, SerializeFailed, MergedTooLarge}
    ensures if failure.Some? then Explained(failure, round, now, merged, resolved, fleet, pin, tools)
            else SoFar(round + 1, now, merged, fleet, pin, tools)
  {
    hide Sampling, NoneGood, NoVersion, TwoVersions, Unmeasurable, Oversized;
  }

  lemma AllRounds(last: nat, samples: seq<Sample>, merged: Option<Profile>, resolved: Version,
                  fleet: Fleet, pin: Version, tools: Tools)
    requires fleet != [] && merged.Some? && SoFar(|fleet|, samples, merged, fleet, pin, tools)
    ensures Explained(None, last, samples, merged, resolved, fleet, pin, tools)
  {
  }

  // A round of the attempt brought a sample that succeeded.
  ghost predicate Sampling(samples: seq<Sample>, round: nat) {
    exists s <- samples :: s.round == round && s.result.Good?
  }

  // What one more round adds to the samples is of that round alone.
  lemma NewSampling(samples: seq<Sample>, now: seq<Sample>, round: nat, fleet: Fleet, version: Version)
    requires samples <= now && Sampled(samples, fleet, version, round)
    requires forall i | |samples| <= i < |now| :: now[i].round == round
    ensures forall r | 0 <= r < round :: Sampling(samples, r) ==> Sampling(now, r)
    ensures Sampling(now, round) <==> !NoneGood(now, |samples|)
  {
    forall s <- samples ensures s in now && s.round < round {
      var i :| 0 <= i < |samples| && samples[i] == s;
      assert now[i] == s;
    }
    assert forall k | 0 <= k < |samples| :: samples[k] in samples && now[k].round < round;
    if Sampling(now, round) {
      var s :| s in now && s.round == round && s.result.Good?;
      var i :| 0 <= i < |now| && now[i] == s;
    }
    if i: nat :| |samples| <= i < |now| && now[i].result.Good? { assert now[i] in now; }
  }

  lemma NothingSampled(fleet: Fleet, version: Version)
    ensures Sampled([], fleet, version, 0)
  {
  }

  lemma StillSampled(samples: seq<Sample>, fleet: Fleet, version: Version, rounds: nat, more: nat)
    requires Sampled(samples, fleet, version, rounds) && rounds <= more
    ensures Sampled(samples, fleet, version, more)
  {
  }

  lemma Products(round: nat, rounds: nat, want: nat)
    requires round < rounds
    ensures (round + 1) * want == round * want + want <= rounds * want
  {
    assert rounds * want == (round + 1) * want + (rounds - round - 1) * want;
  }

  // ---- The terminal form of a record too large to write ----

  datatype Phase = Unfinished | Completed | FailedTooLarge

  datatype Record = Record(
    phase: Phase, finishedAt: Option<nat>, expiresAt: Option<nat>, artifact: Option<nat>,
    samplesOK: nat, samplesFailed: nat, manifest: Option<seq<Sample>>)

  /** The samples go and no artifact is named, but what they counted stays. */
  method TerminalTooLarge(r: Record, finishedAt: nat) returns (out: Record)
    ensures out.phase.FailedTooLarge? && out.finishedAt == Some(finishedAt) && out.expiresAt.None? && out.artifact.None?
    ensures r.manifest.None? ==>
              out.manifest.None? && out.samplesOK == r.samplesOK && out.samplesFailed == r.samplesFailed
    ensures r.manifest.Some? ==>
              && out.manifest == Some([]) && out.samplesOK == CountGood(r.manifest.value)
              && out.samplesOK + out.samplesFailed == |r.manifest.value|
  {
    out := r.(phase := FailedTooLarge, finishedAt := Some(finishedAt), expiresAt := None, artifact := None);
    if r.manifest.Some? {
      var samples := r.manifest.value;
      var good: nat, bad: nat := 0, 0;
      for i := 0 to |samples|
        invariant good == CountGood(samples[..i]) && good + bad == i
      {
        assert samples[..i + 1][..i] == samples[..i];
        if samples[i].result.Good? {
          good := good + 1;
        } else {
          bad := bad + 1;
        }
      }
      assert samples[..|samples|] == samples;
      out := out.(samplesOK := good, samplesFailed := bad, manifest := Some([]));
    }
  }

  /** The recount agrees with the progress an attempt kept, so dropping the samples loses no count. */
  method RecountAgrees(state: RunState, merge: (Profile, Profile) -> Option<Profile>, finishedAt: nat)
    returns (out: Record)
    requires state.Valid(merge)
    ensures out.samplesOK == state.samplesOK && out.samplesFailed == state.samplesFailed
    ensures out.manifest == Some([]) && out.artifact.None?
  {
    out := TerminalTooLarge(Record(Unfinished, None, None, None, 0, 0, Some(state.samples)), finishedAt);
  }
}
