/**
 * Why each selected Pod is not a target, and that every Pod is accounted for once
 * (internal/k8s/eligibility.go:43-79, 211-244; internal/httpapi/server.go:685-763).
 */
module Explanation {
  import opened Wrappers
  import opened Eligibility

  datatype Reason =
    | PodTerminating | PodNotRunning | PodNotReady
    | EndpointMissing | EndpointNotReady | EndpointAddressMismatch | EndpointAddressConflict
    | PortNameNotDeclared | VersionMismatch | PodNameMismatch

  const REASONS: seq<Reason> := [
    PodTerminating, PodNotRunning, PodNotReady,
    EndpointMissing, EndpointNotReady, EndpointAddressMismatch, EndpointAddressConflict,
    PortNameNotDeclared, VersionMismatch, PodNameMismatch]

  datatype Exclusion = Exclusion(reason: Reason, count: nat)

  type Counts = map<Reason, nat>

  // ---- Counting ----

  function Get(m: Counts, r: Reason): nat {
    if r in m then m[r] else 0
  }

  function Sum(m: Counts, rs: seq<Reason>): nat {
    if rs == [] then 0 else Get(m, rs[0]) + Sum(m, rs[1..])
  }

  function Total(xs: seq<Exclusion>): nat {
    if xs == [] then 0 else Total(xs[..|xs| - 1]) + xs[|xs| - 1].count
  }

  lemma {:induction false} Untouched(m: Counts, n: Counts, rs: seq<Reason>)
    requires forall r <- rs :: Get(m, r) == Get(n, r)
    ensures Sum(m, rs) == Sum(n, rs)
  {
    if rs != [] { Untouched(m, n, rs[1..]); }
  }

  lemma {:induction false} SumAdds(m: Counts, rs: seq<Reason>, r: Reason, k: nat)
    requires r in rs && forall i, j | 0 <= i < j < |rs| :: rs[i] != rs[j]
    ensures Sum(m[r := Get(m, r) + k], rs) == Sum(m, rs) + k
  {
    if rs[0] == r {
      Untouched(m, m[r := Get(m, r) + k], rs[1..]);
    } else {
      SumAdds(m, rs[1..], r, k);
    }
  }

  function Rank(r: Reason): nat {
    match r
    case PodTerminating => 0
    case PodNotRunning => 1
    case PodNotReady => 2
    case EndpointMissing => 3
    case EndpointNotReady => 4
    case EndpointAddressMismatch => 5
    case EndpointAddressConflict => 6
    case PortNameNotDeclared => 7
    case VersionMismatch => 8
    case PodNameMismatch => 9
  }

  // Every reason, in its place.
  ghost predicate Vocabulary(rs: seq<Reason>) {
    (forall i | 0 <= i < |rs| :: Rank(rs[i]) == i) && forall r: Reason :: Rank(r) < |rs| && rs[Rank(r)] == r
  }

  lemma AllReasons()
    ensures Vocabulary(REASONS)
  {
    forall r: Reason ensures Rank(r) < |REASONS| && REASONS[Rank(r)] == r {}
  }

  lemma ReasonAdds(m: Counts, rs: seq<Reason>, r: Reason, k: nat)
    requires Vocabulary(rs)
    ensures Sum(m[r := Get(m, r) + k], rs) == Sum(m, rs) + k
  {
    assert rs[Rank(r)] == r;
    SumAdds(m, rs, r, k);
  }

  // What is reported once the reasons before a rank have been looked at.
  ghost predicate Reported(xs: seq<Exclusion>, m: Counts, before: nat) {
    && (forall x :: x in xs <==> x.count > 0 && Rank(x.reason) < before && x.count == Get(m, x.reason))
    && (forall i, j | 0 <= i < j < |xs| :: Rank(xs[i].reason) < Rank(xs[j].reason))
  }

  lemma ReportMore(xs: seq<Exclusion>, m: Counts, r: Reason)
    requires Reported(xs, m, Rank(r)) && forall q: Reason :: Rank(q) == Rank(r) ==> q == r
    ensures Reported(if Get(m, r) > 0 then xs + [Exclusion(r, Get(m, r))] else xs, m, Rank(r) + 1)
  {
    hide Rank;
    if Get(m, r) > 0 {
      assert forall k | 0 <= k < |xs| :: xs[k] in xs;
    }
  }

  /** The reasons that were counted, in the order of the vocabulary. */
  method Report(m: Counts, reasons: seq<Reason>) returns (xs: seq<Exclusion>)
    requires Vocabulary(reasons)
    ensures Total(xs) == Sum(m, reasons)
    ensures forall x :: x in xs <==> x.count > 0 && x.count == Get(m, x.reason)
    ensures forall i, j | 0 <= i < j < |xs| :: Rank(xs[i].reason) < Rank(xs[j].reason)
  {
    hide Rank, Reported;
    xs := [];
    NothingReported(m);
    for i := 0 to |reasons|
      invariant Total(xs) + Sum(m, reasons[i..]) == Sum(m, reasons)
      invariant Reported(xs, m, i)
    {
      assert reasons[i..][1..] == reasons[i + 1..];
      var n := Get(m, reasons[i]);
      ReportMore(xs, m, reasons[i]);
      if n > 0 {
        ghost var was := xs;
        xs := xs + [Exclusion(reasons[i], n)];
        assert xs[..|xs| - 1] == was;
      }
    }
    ReportedAll(xs, m, reasons);
  }

  lemma NothingReported(m: Counts)
    ensures Reported([], m, 0)
  {
  }

  lemma ReportedAll(xs: seq<Exclusion>, m: Counts, reasons: seq<Reason>)
    requires Vocabulary(reasons) && Reported(xs, m, |reasons|)
    ensures forall x :: x in xs <==> x.count > 0 && x.count == Get(m, x.reason)
    ensures forall i, j | 0 <= i < j < |xs| :: Rank(xs[i].reason) < Rank(xs[j].reason)
  {
    hide Rank;
    forall x: Exclusion ensures Rank(x.reason) < |reasons| {}
  }

  // ---- Why a Pod is not a target ----

  ghost predicate IsPort(pod: Pod, sel: Selection) {
    exists port :: HasPort(pod, sel, port)
  }

  ghost predicate Addressed(eps: set<Endpoint>, pod: Pod) {
    exists a :: HasAddress(eps, pod, a)
  }

  /** The table, read off the snapshot; None for a target. */
  ghost function WhyNot(eps: set<Endpoint>, pod: Pod, sel: Selection): Option<Reason> {
    if Addressed(eps, pod) && IsPort(pod, sel) && !Conflicted(eps, pod) then None
    else if pod.deleting then Some(PodTerminating)
    else if !pod.running then Some(PodNotRunning)
    else if !pod.ready then Some(PodNotReady)
    else if !Named(eps, pod) then Some(EndpointMissing)
    else if Addressed(eps, pod) && IsPort(pod, sel) then Some(EndpointAddressConflict)
    else if NotReady(eps, pod) then Some(EndpointNotReady)
    else if Mismatched(eps, pod) then Some(EndpointAddressMismatch)
    else if Conflicted(eps, pod) then Some(EndpointAddressConflict)
    else Some(PortNameNotDeclared)
  }

  lemma TargetOrReason(eps: set<Endpoint>, pod: Pod, sel: Selection)
    ensures WhyNot(eps, pod, sel).None? <==> exists t :: IsTarget(eps, pod, sel, t)
  {
    if WhyNot(eps, pod, sel).None? {
      var a :| HasAddress(eps, pod, a);
      var port :| HasPort(pod, sel, port);
      assert IsTarget(eps, pod, sel, TargetAt(pod, a, port));
    }
  }

  /** The default case of the table means what it says: the Pod has a live, matching endpoint and no such port. */
  lemma PortReasonMeansNoPort(eps: set<Endpoint>, pod: Pod, sel: Selection)
    requires WhyNot(eps, pod, sel) == Some(PortNameNotDeclared)
    ensures !IsPort(pod, sel) && Addressed(eps, pod) && !Conflicted(eps, pod) && Live(pod)
  {
    var ep :| ep in eps && Vouches(ep, pod);
    assert !SaysNotReady(ep, pod) && !Mismatches(ep, pod);
    assert Holds(ep, pod, ep.addresses[0]);
    assert HasAddress(eps, pod, ep.addresses[0]);
  }

  // A conflict needs endpoints that reach the Pod, so its own state never explains it.
  lemma ConflictIsLive(eps: set<Endpoint>, pod: Pod)
    requires Conflicted(eps, pod)
    ensures Live(pod) && Named(eps, pod) && Addressed(eps, pod)
  {
    var a, b :| HasAddress(eps, pod, a) && HasAddress(eps, pod, b) && a != b;
    var ep :| ep in eps && Holds(ep, pod, a);
  }

  /** A Pod that is no target carries the conflict exactly when the operator is warned of one. */
  lemma ConflictReasonIffWarned(f: Facts, eps: set<Endpoint>, pod: Pod, sel: Selection)
    requires Describes(f, eps, pod, sel)
    ensures WhyNot(eps, pod, sel) == Some(EndpointAddressConflict) <==> FactsConflicted(f)
  {
    if Conflicted(eps, pod) { ConflictIsLive(eps, pod); }
  }

  /** What each reason of a Pod itself, or of its endpoints, says by itself. */
  ghost predicate Applies(eps: set<Endpoint>, pod: Pod, r: Reason) {
    match r
    case PodTerminating => pod.deleting
    case PodNotRunning => !pod.running
    case PodNotReady => !pod.ready
    case EndpointMissing => !Named(eps, pod)
    case EndpointNotReady => NotReady(eps, pod)
    case EndpointAddressMismatch => Mismatched(eps, pod)
    case EndpointAddressConflict => Conflicted(eps, pod)
    case PortNameNotDeclared => true
    case _ => false
  }

  /** A Pod some eligible endpoint would make a target carries the conflict; any other carries the first reason
      of the vocabulary that applies to it. */
  lemma FirstReasonThatApplies(eps: set<Endpoint>, pod: Pod, sel: Selection, r: Reason)
    requires WhyNot(eps, pod, sel).Some?
    ensures WhyNot(eps, pod, sel) == Some(r) <==>
              if Addressed(eps, pod) && IsPort(pod, sel) then r == EndpointAddressConflict
              else Applies(eps, pod, r) && forall q: Reason | Applies(eps, pod, q) :: Rank(r) <= Rank(q)
  {
    if Addressed(eps, pod) {
      var a :| HasAddress(eps, pod, a);
      var ep :| ep in eps && Holds(ep, pod, a);
    }
    hide Conflicted, Named, NotReady, Mismatched, Addressed, IsPort;
    assert Applies(eps, pod, PortNameNotDeclared);
    var why := WhyNot(eps, pod, sel).value;
    if !(Addressed(eps, pod) && IsPort(pod, sel)) {
      assert Applies(eps, pod, why);
      forall q: Reason | Applies(eps, pod, q) ensures Rank(why) <= Rank(q) {}
    }
    if r != why { assert Rank(r) != Rank(why) by { AllReasons(); } }
  }

  method Attribute(pod: Pod, facts: Option<Facts>, ghost eps: set<Endpoint>, ghost sel: Selection) returns (r: Reason)
    requires WhyNot(eps, pod, sel).Some?
    requires facts.Some? <==> Named(eps, pod)
    requires facts.Some? ==> Describes(facts.value, eps, pod, sel)
    ensures WhyNot(eps, pod, sel) == Some(r)
  {
    if pod.deleting {
      return PodTerminating;
    }
    if !pod.running {
      return PodNotRunning;
    }
    if !pod.ready {
      return PodNotReady;
    }
    if facts.None? {
      return EndpointMissing;
    }
    if facts.value.target.Some? {
      return EndpointAddressConflict;
    }
    if facts.value.notReady {
      return EndpointNotReady;
    }
    if facts.value.addressMismatch {
      return EndpointAddressMismatch;
    }
    if facts.value.conflict {
      return EndpointAddressConflict;
    }
    return PortNameNotDeclared;
  }

  // ---- The explained targets ----

  /** The Pods a Service selects, each once. */
  ghost predicate Selects(listed: seq<Pod>, pods: Pods) {
    && (forall p :: p in listed <==> p.name in pods && pods[p.name] == p && p.selected)
    && (forall i, j | 0 <= i < j < |listed| :: listed[i] != listed[j])
  }

  method ByName(listed: seq<Pod>, ghost pods: Pods) returns (byName: Pods)
    requires Snapshot(pods) && Selects(listed, pods)
    ensures Snapshot(byName) && forall n :: n in byName <==> n in pods && pods[n].selected
    ensures forall n <- byName :: byName[n] == pods[n]
  {
    byName := map[];
    for i := 0 to |listed|
      invariant forall n :: n in byName <==> n in pods && pods[n] in listed[..i]
      invariant forall n <- byName :: byName[n] == pods[n]
    {
      assert listed[i] in listed;
      assert listed[..i + 1] == listed[..i] + [listed[i]];
      byName := byName[listed[i].name := listed[i]];
    }
    assert listed[..|listed|] == listed;
  }

  // Reading only the selected Pods gives the same targets: no endpoint vouches for another.
  lemma SelectedSuffice(pods: Pods, byName: Pods, eps: set<Endpoint>, sel: Selection, t: Target)
    requires forall n :: n in byName <==> n in pods && pods[n].selected
    requires forall n <- byName :: byName[n] == pods[n]
    ensures Wanted(byName, eps, sel, t) <==> Wanted(pods, eps, sel, t)
  {
    if n :| n in pods && IsTarget(eps, pods[n], sel, t) {
      var ep :| ep in eps && Holds(ep, pods[n], t.ip);
      assert n in byName;
    }
  }

  // The Pods among some that carry a reason.
  ghost function Carrying(among: seq<Pod>, eps: set<Endpoint>, sel: Selection, r: Option<Reason>): set<Pod> {
    set p <- among | WhyNot(eps, p, sel) == r
  }

  lemma NoneCarrying(eps: set<Endpoint>, sel: Selection, r: Option<Reason>)
    ensures Carrying([], eps, sel, r) == {}
  {
  }

  lemma CarryingMore(among: seq<Pod>, p: Pod, eps: set<Endpoint>, sel: Selection, r: Option<Reason>)
    requires p !in among
    ensures |Carrying(among + [p], eps, sel, r)|
         == |Carrying(among, eps, sel, r)| + if WhyNot(eps, p, sel) == r then 1 else 0
  {
    if WhyNot(eps, p, sel) == r {
      assert Carrying(among + [p], eps, sel, r) == Carrying(among, eps, sel, r) + {p};
    } else {
      assert Carrying(among + [p], eps, sel, r) == Carrying(among, eps, sel, r);
    }
  }

  /** Counts every Pod that is no target under its reason, and no Pod twice. */
  method CountReasons(listed: seq<Pod>, seen: map<UID, Facts>,
                      ghost eps: set<Endpoint>, ghost pods: Pods, ghost sel: Selection)
    returns (counts: Counts)
    requires Snapshot(pods) && Seen(seen, eps, pods, sel)
    requires forall p <- listed :: p.name in pods && pods[p.name] == p
    requires forall i, j | 0 <= i < j < |listed| :: listed[i] != listed[j]
    ensures forall r: Reason :: Get(counts, r) == |Carrying(listed, eps, sel, Some(r))|
    ensures Sum(counts, REASONS) + |Carrying(listed, eps, sel, None)| == |listed|
  {
    hide WhyNot, Describes, Named, Sum, Vocabulary, Carrying;
    counts := map[];
    NoReasons();
    forall r: Option<Reason> { NoneCarrying(eps, sel, r); }
    for i := 0 to |listed|
      invariant forall r: Reason :: Get(counts, r) == |Carrying(listed[..i], eps, sel, Some(r))|
      invariant Sum(counts, REASONS) + |Carrying(listed[..i], eps, sel, None)| == i
    {
      var pod := listed[i];
      assert pod in listed;
      assert listed[..i + 1] == listed[..i] + [pod] && pod !in listed[..i];
      forall r: Option<Reason> { CarryingMore(listed[..i], pod, eps, sel, r); }
      var facts := if pod.uid in seen then Some(seen[pod.uid]) else None;
      IsTargetByFacts(facts, eps, pod, sel);
      if facts.Some? && FactsTarget(facts.value) {
        continue;
      }
      var r := Attribute(pod, facts, eps, sel);
      AllReasons();
      ReasonAdds(counts, REASONS, r, 1);
      counts := counts[r := Get(counts, r) + 1];
    }
    assert listed[..|listed|] == listed;
  }

  lemma NoReasons()
    ensures Sum(map[], REASONS) == 0
  {
    Zero(REASONS);
  }

  lemma {:induction false} Zero(rs: seq<Reason>)
    ensures Sum(map[], rs) == 0
  {
    if rs != [] { Zero(rs[1..]); }
  }

  lemma IsTargetByFacts(facts: Option<Facts>, eps: set<Endpoint>, pod: Pod, sel: Selection)
    requires facts.Some? <==> Named(eps, pod)
    requires facts.Some? ==> Describes(facts.value, eps, pod, sel)
    ensures facts.Some? && FactsTarget(facts.value) <==> WhyNot(eps, pod, sel).None?
  {
    if Addressed(eps, pod) {
      var a :| HasAddress(eps, pod, a);
      var ep :| ep in eps && Holds(ep, pod, a);
    }
  }

  datatype Explained = Explained(targets: seq<Target>, selectorMatched: nat, excluded: seq<Exclusion>)

  ghost predicate AreTargets(targets: seq<Target>, pods: Pods, slices: seq<Slice>, sel: Selection) {
    && (forall t :: t in targets <==> Wanted(pods, EndpointsRead(slices), sel, t))
    && (forall i, j | 0 <= i < j < |targets| :: targets[i].uid != targets[j].uid)
    && (forall t :: t in targets <==> AtPort(pods, sel, t) && OfPod(pods, EndpointsRead(slices), t))
  }

  method Targets(pods: Pods, slices: seq<Slice>, sel: Selection) returns (targets: seq<Target>)
    requires Snapshot(pods)
    ensures AreTargets(targets, pods, slices, sel)
  {
    var seen;
    targets, seen := Resolve(pods, slices, sel);
  }

  /** The targets Targets returns, and every other selected Pod counted once under its reason. */
  method Explain(ghost pods: Pods, listed: seq<Pod>, slices: seq<Slice>, sel: Selection) returns (e: Explained)
    requires Snapshot(pods) && Selects(listed, pods)
    ensures AreTargets(e.targets, pods, slices, sel)
    ensures e.selectorMatched == |listed| == |e.targets| + Total(e.excluded)
    ensures forall x :: x in e.excluded <==>
              x.count > 0 && x.count == |Carrying(listed, EndpointsRead(slices), sel, Some(x.reason))|
    ensures forall i, j | 0 <= i < j < |e.excluded| :: Rank(e.excluded[i].reason) < Rank(e.excluded[j].reason)
  {
    hide WhyNot, Wanted, EndpointsRead, Seen, Sum, Total, Vocabulary, Carrying;
    ghost var eps := EndpointsRead(slices);
    var byName := ByName(listed, pods);
    var targets, seen := Resolve(byName, slices, sel);
    forall t ensures Wanted(byName, eps, sel, t) <==> Wanted(pods, eps, sel, t) {
      SelectedSuffice(pods, byName, eps, sel, t);
    }
    var counts := CountReasons(listed, seen, eps, byName, sel);
    TargetsCounted(listed, pods, targets, slices, sel);
    AllReasons();
    var excluded := Report(counts, REASONS);
    e := Explained(targets, |listed|, excluded);
  }

  // As many targets as selected Pods that have no reason.
  lemma TargetsCounted(listed: seq<Pod>, pods: Pods, targets: seq<Target>, slices: seq<Slice>, sel: Selection)
    requires Snapshot(pods) && Selects(listed, pods) && AreTargets(targets, pods, slices, sel)
    ensures |Carrying(listed, EndpointsRead(slices), sel, None)| == |targets|
  {
    hide WhyNot, EndpointsRead;
    var eps := EndpointsRead(slices);
    var good := Carrying(listed, eps, sel, None);
    forall p <- good ensures exists t <- targets :: t.pod == p.name && IsTarget(eps, p, sel, t) {
      TargetOrReason(eps, p, sel);
    }
    forall t <- targets ensures exists p <- good :: p.name == t.pod && p.uid == t.uid {
      var n :| n in pods && IsTarget(eps, pods[n], sel, t);
      TargetOrReason(eps, pods[n], sel);
      var ep :| ep in eps && Holds(ep, pods[n], t.ip);
      assert pods[n] in listed;
    }
    hide IsTarget, Snapshot;
    SameSize(good, targets, pods);
  }

  // Each good Pod has a target of its name.
  ghost predicate Covers(targets: seq<Target>, good: set<Pod>) {
    forall p <- good :: exists t <- targets :: t.pod == p.name
  }

  // Each target is a good Pod's.
  ghost predicate From(targets: seq<Target>, good: set<Pod>) {
    forall t <- targets :: exists p <- good :: p.name == t.pod && p.uid == t.uid
  }

  lemma RestCovers(good: set<Pod>, targets: seq<Target>, pods: Pods, p: Pod)
    requires Covers(targets, good) && targets != [] && p in good && p.name == targets[|targets| - 1].pod
    requires forall p <- good :: p.name in pods && pods[p.name] == p
    ensures Covers(targets[..|targets| - 1], good - {p})
  {
    var n := |targets| - 1;
    forall q <- good - {p} ensures exists u <- targets[..n] :: u.pod == q.name {
      var u :| u in targets && u.pod == q.name;
      var k :| 0 <= k < |targets| && targets[k] == u;
      assert u in targets[..n];
    }
  }

  lemma RestFrom(good: set<Pod>, targets: seq<Target>, p: Pod)
    requires From(targets, good) && targets != [] && p.uid == targets[|targets| - 1].uid
    requires forall i, j | 0 <= i < j < |targets| :: targets[i].uid != targets[j].uid
    ensures From(targets[..|targets| - 1], good - {p})
  {
    var n := |targets| - 1;
    forall u <- targets[..n] ensures exists q <- good - {p} :: q.name == u.pod && q.uid == u.uid {
      assert u in targets && u.uid != targets[n].uid;
      var q :| q in good && q.name == u.pod && q.uid == u.uid;
      assert q in good - {p};
    }
  }

  lemma {:induction false} SameSize(good: set<Pod>, targets: seq<Target>, pods: Pods)
    requires Covers(targets, good) && From(targets, good)
    requires forall p <- good :: p.name in pods && pods[p.name] == p
    requires forall i, j | 0 <= i < j < |targets| :: targets[i].uid != targets[j].uid
    ensures |good| == |targets|
    decreases |targets|
  {
    if targets == [] {
      assert good == {};
    } else {
      var t := targets[|targets| - 1];
      assert t in targets;
      var p :| p in good && p.name == t.pod && p.uid == t.uid;
      RestCovers(good, targets, pods, p);
      RestFrom(good, targets, p);
      hide Covers, From;
      SameSize(good - {p}, targets[..|targets| - 1], pods);
    }
  }

  // ---- The request's own filters, and the answer ----

  datatype Filters = Filters(version: nat, pod: Name)  // zero is no filter

  predicate Passes(t: Target, f: Filters) {
    (f.version != 0 ==> t.version == f.version) && (f.pod != 0 ==> t.pod == f.pod)
  }

  predicate PassesOne(t: Target, f: Filters, byPod: bool) {
    if byPod then f.pod != 0 ==> t.pod == f.pod else f.version != 0 ==> t.version == f.version
  }

  // The targets one filter keeps, in their order.
  function Kept(targets: seq<Target>, f: Filters, byPod: bool): seq<Target> {
    if targets == [] then []
    else
      var n := |targets| - 1;
      Kept(targets[..n], f, byPod) + if PassesOne(targets[n], f, byPod) then [targets[n]] else []
  }

  lemma {:induction false} KeptAre(targets: seq<Target>, f: Filters, byPod: bool)
    ensures forall t :: t in Kept(targets, f, byPod) <==> t in targets && PassesOne(t, f, byPod)
    ensures (if byPod then f.pod == 0 else f.version == 0) ==> Kept(targets, f, byPod) == targets
  {
    if targets != [] {
      var n := |targets| - 1;
      KeptAre(targets[..n], f, byPod);
      assert targets == targets[..n] + [targets[n]];
    }
  }

  /** Version, then Pod: keeps exactly what passes both, and counts what each dropped under its reason. */
  method FilterTargets(targets: seq<Target>, f: Filters) returns (remaining: seq<Target>, dropped: Counts)
    ensures forall t :: t in remaining <==> t in targets && Passes(t, f)
    ensures |remaining| + Sum(dropped, REASONS) == |targets|
    ensures var ofVersion := Kept(targets, f, false);
            && remaining == Kept(ofVersion, f, true)
            && Get(dropped, VersionMismatch) == |targets| - |ofVersion|
            && Get(dropped, PodNameMismatch) == |ofVersion| - |remaining|
            && forall r: Reason | !r.VersionMismatch? && !r.PodNameMismatch? :: Get(dropped, r) == 0
  {
    hide Sum, Kept;
    NoReasons();
    dropped := map[];
    remaining := targets;
    KeptAre(targets, f, false);
    if f.version != 0 {
      remaining, dropped := Drop(targets, dropped, f, false);
    }
    KeptAre(remaining, f, true);
    if f.pod != 0 {
      remaining, dropped := Drop(remaining, dropped, f, true);
    }
  }

  method Drop(targets: seq<Target>, before: Counts, f: Filters, byPod: bool)
    returns (remaining: seq<Target>, dropped: Counts)
    ensures remaining == Kept(targets, f, byPod)
    ensures |remaining| + Sum(dropped, REASONS) == |targets| + Sum(before, REASONS)
    ensures forall r: Reason :: Get(dropped, r) == Get(before, r)
              + if r == (if byPod then PodNameMismatch else VersionMismatch) then |targets| - |remaining| else 0
  {
    hide Sum, Vocabulary;
    AllReasons();
    var reason := if byPod then PodNameMismatch else VersionMismatch;
    remaining := [];
    dropped := before;
    for i := 0 to |targets|
      invariant remaining == Kept(targets[..i], f, byPod) && |remaining| <= i
      invariant |remaining| + Sum(dropped, REASONS) == i + Sum(before, REASONS)
      invariant forall r: Reason :: Get(dropped, r) == Get(before, r) + if r == reason then i - |remaining| else 0
    {
      assert targets[..i + 1][..i] == targets[..i];
      if PassesOne(targets[i], f, byPod) {
        remaining := remaining + [targets[i]];
      } else {
        ReasonAdds(dropped, REASONS, reason, 1);
        dropped := dropped[reason := Get(dropped, reason) + 1];
      }
    }
    assert targets[..|targets|] == targets;
  }

  // What a list of exclusions says of one reason.
  function CountOf(xs: seq<Exclusion>, r: Reason): nat {
    if xs == [] then 0
    else CountOf(xs[..|xs| - 1], r) + if xs[|xs| - 1].reason == r then xs[|xs| - 1].count else 0
  }

  /** The two counts joined, reason by reason, in the order of the vocabulary. */
  method MergeExclusions(seam: seq<Exclusion>, filtered: Counts) returns (views: seq<Exclusion>)
    ensures Total(views) == Total(seam) + Sum(filtered, REASONS)
    ensures forall v :: v in views <==> v.count > 0 && v.count == CountOf(seam, v.reason) + Get(filtered, v.reason)
    ensures forall i, j | 0 <= i < j < |views| :: Rank(views[i].reason) < Rank(views[j].reason)
  {
    hide Sum, Vocabulary, Rank;
    AllReasons();
    NoReasons();
    var counts: Counts := map[];
    for i := 0 to |seam|
      invariant Sum(counts, REASONS) == Total(seam[..i])
      invariant forall r: Reason :: Get(counts, r) == CountOf(seam[..i], r)
    {
      assert seam[..i + 1][..i] == seam[..i];
      ReasonAdds(counts, REASONS, seam[i].reason, seam[i].count);
      counts := counts[seam[i].reason := Get(counts, seam[i].reason) + seam[i].count];
    }
    assert seam[..|seam|] == seam;
    ghost var added: Counts := map[];
    var keys := filtered.Keys;
    while keys != {}
      invariant keys <= filtered.Keys && added == map r | r in filtered && r !in keys :: filtered[r]
      invariant Sum(counts, REASONS) == Total(seam) + Sum(added, REASONS)
      invariant forall r: Reason :: Get(counts, r) == CountOf(seam, r) + Get(added, r)
    {
      var r :| r in keys;
      ReasonAdds(counts, REASONS, r, filtered[r]);
      ReasonAdds(added, REASONS, r, filtered[r]);
      counts := counts[r := Get(counts, r) + filtered[r]];
      added := added[r := Get(added, r) + filtered[r]];
      keys := keys - {r};
    }
    assert added == filtered;
    views := Report(counts, REASONS);
  }

  // ---- Which Pods the answer leaves out, and for what ----

  ghost predicate OfVersion(p: Pod, f: Filters) {
    f.version == 0 || p.version == f.version
  }

  ghost predicate OfName(p: Pod, f: Filters) {
    f.pod == 0 || p.name == f.pod
  }

  /** The reason a selected Pod is not in the answer: its own, or the first filter that drops it. */
  ghost function WhyNotServed(eps: set<Endpoint>, pod: Pod, sel: Selection, f: Filters): Option<Reason> {
    if WhyNot(eps, pod, sel).Some? then WhyNot(eps, pod, sel)
    else if !OfVersion(pod, f) then Some(VersionMismatch)
    else if !OfName(pod, f) then Some(PodNameMismatch)
    else None
  }

  ghost function Unserved(listed: seq<Pod>, eps: set<Endpoint>, sel: Selection, f: Filters, r: Reason): set<Pod> {
    set p <- listed | WhyNotServed(eps, p, sel, f) == Some(r)
  }

  // The targets' Pods that pass the version filter, and then the name filter too.
  ghost function Good(listed: seq<Pod>, eps: set<Endpoint>, sel: Selection, f: Filters, both: bool): set<Pod> {
    set p <- listed | WhyNot(eps, p, sel).None? && OfVersion(p, f) && (both ==> OfName(p, f))
  }

  function KeptBy(targets: seq<Target>, f: Filters, both: bool): seq<Target> {
    if both then Kept(Kept(targets, f, false), f, true) else Kept(targets, f, false)
  }

  // No Pod twice.
  ghost predicate Apart(targets: seq<Target>) {
    forall i, j | 0 <= i < j < |targets| :: targets[i].uid != targets[j].uid
  }

  lemma ApartMore(targets: seq<Target>, t: Target)
    requires Apart(targets) && forall u <- targets :: u.uid != t.uid
    ensures Apart(targets + [t])
  {
  }

  lemma {:induction false} KeptDistinct(targets: seq<Target>, f: Filters, byPod: bool)
    requires Apart(targets)
    ensures Apart(Kept(targets, f, byPod))
  {
    if targets != [] {
      var n := |targets| - 1;
      var front := targets[..n];
      assert Apart(front);
      KeptDistinct(front, f, byPod);
      KeptAre(front, f, byPod);
      forall t <- Kept(front, f, byPod) ensures t.uid != targets[n].uid {
        assert t in front;
        var i :| 0 <= i < n && targets[i] == t;
      }
      ApartMore(Kept(front, f, byPod), targets[n]);
      var last := if PassesOne(targets[n], f, byPod) then [targets[n]] else [];
      assert Kept(targets, f, byPod) == Kept(front, f, byPod) + last;
    }
  }

  // As many targets pass the filters as Pods do.
  lemma GoodCounted(listed: seq<Pod>, pods: Pods, targets: seq<Target>, slices: seq<Slice>, sel: Selection,
                    f: Filters, both: bool)
    requires Snapshot(pods) && Selects(listed, pods) && AreTargets(targets, pods, slices, sel)
    ensures |Good(listed, EndpointsRead(slices), sel, f, both)| == |KeptBy(targets, f, both)|
  {
    hide WhyNot, EndpointsRead, Kept, AtPort, OfPod;
    var eps, kept := EndpointsRead(slices), KeptBy(targets, f, both);
    var good := Good(listed, eps, sel, f, both);
    KeptAre(targets, f, false);
    KeptAre(Kept(targets, f, false), f, true);
    assert Apart(targets);
    KeptDistinct(targets, f, false);
    KeptDistinct(Kept(targets, f, false), f, true);
    forall p <- good ensures exists t <- kept :: t.pod == p.name {
      TargetOrReason(eps, p, sel);
      var t :| IsTarget(eps, p, sel, t);
      assert Wanted(pods, eps, sel, t);
      assert t in kept;
    }
    forall t <- kept ensures exists p <- good :: p.name == t.pod && p.uid == t.uid {
      var n :| n in pods && IsTarget(eps, pods[n], sel, t);
      TargetOrReason(eps, pods[n], sel);
      var ep :| ep in eps && Holds(ep, pods[n], t.ip);
      assert pods[n] in listed && pods[n] in good;
    }
    hide IsTarget, Snapshot, Wanted;
    SameSize(good, kept, pods);
  }

  ghost predicate OneEach(xs: seq<Exclusion>) {
    forall i, j | 0 <= i < j < |xs| :: xs[i].reason != xs[j].reason
  }

  lemma {:induction false} CountOfNone(xs: seq<Exclusion>, r: Reason)
    requires forall i | 0 <= i < |xs| :: xs[i].reason != r
    ensures CountOf(xs, r) == 0
  {
    if xs != [] { CountOfNone(xs[..|xs| - 1], r); }
  }

  lemma {:induction false} CountOfOne(xs: seq<Exclusion>, i: nat)
    requires OneEach(xs) && i < |xs|
    ensures CountOf(xs, xs[i].reason) == xs[i].count
    decreases |xs|
  {
    var n := |xs| - 1;
    if i == n { CountOfNone(xs[..n], xs[n].reason); } else { CountOfOne(xs[..n], i); }
  }

  // What was counted for a reason is the number of Pods that carry it.
  lemma CountsCarrying(xs: seq<Exclusion>, listed: seq<Pod>, eps: set<Endpoint>, sel: Selection, r: Reason)
    requires forall i, j | 0 <= i < j < |xs| :: Rank(xs[i].reason) < Rank(xs[j].reason)
    requires forall x :: x in xs <==> x.count > 0 && x.count == |Carrying(listed, eps, sel, Some(x.reason))|
    ensures CountOf(xs, r) == |Carrying(listed, eps, sel, Some(r))|
  {
    hide Carrying, CountOf;
    var n := |Carrying(listed, eps, sel, Some(r))|;
    if n > 0 {
      assert Exclusion(r, n) in xs;
      var i :| 0 <= i < |xs| && xs[i] == Exclusion(r, n);
      assert OneEach(xs) by { hide Carrying; }
      CountOfOne(xs, i);
    } else {
      forall i | 0 <= i < |xs| ensures xs[i].reason != r { assert xs[i] in xs; }
      CountOfNone(xs, r);
    }
  }

  // Reason by reason, what the two counts come to.
  lemma UnservedCounted(listed: seq<Pod>, eps: set<Endpoint>, sel: Selection, f: Filters, r: Reason,
                        targets: nat, ofVersion: nat, remaining: nat)
    requires |Carrying(listed, eps, sel, None)| == targets
    requires |Good(listed, eps, sel, f, false)| == ofVersion && |Good(listed, eps, sel, f, true)| == remaining
    ensures var dropped := if r.VersionMismatch? then targets - ofVersion
                           else if r.PodNameMismatch? then ofVersion - remaining else 0;
            |Unserved(listed, eps, sel, f, r)| == |Carrying(listed, eps, sel, Some(r))| + dropped
  {
    hide WhyNot, Carrying, Good, Unserved;
    var all := Carrying(listed, eps, sel, None);
    var some, both := Good(listed, eps, sel, f, false), Good(listed, eps, sel, f, true);
    WhyNotItsOwn(listed, eps, sel);
    UnservedOf(listed, eps, sel, f);
    if r.VersionMismatch? {
      assert |all - some| == |all| - |some| by { assert all == some + (all - some); }
    } else if r.PodNameMismatch? {
      assert |some - both| == |some| - |both| by { assert some == both + (some - both); }
    } else {
      UnservedOwn(listed, eps, sel, f, r);
    }
  }

  lemma UnservedOf(listed: seq<Pod>, eps: set<Endpoint>, sel: Selection, f: Filters)
    ensures var all := Carrying(listed, eps, sel, None);
            var some, both := Good(listed, eps, sel, f, false), Good(listed, eps, sel, f, true);
            && both <= some <= all
            && Unserved(listed, eps, sel, f, VersionMismatch)
               == Carrying(listed, eps, sel, Some(VersionMismatch)) + (all - some)
            && Unserved(listed, eps, sel, f, PodNameMismatch)
               == Carrying(listed, eps, sel, Some(PodNameMismatch)) + (some - both)
  {
    hide WhyNot;
  }

  lemma UnservedOwn(listed: seq<Pod>, eps: set<Endpoint>, sel: Selection, f: Filters, r: Reason)
    requires !r.VersionMismatch? && !r.PodNameMismatch?
    ensures Unserved(listed, eps, sel, f, r) == Carrying(listed, eps, sel, Some(r))
  {
    hide WhyNot;
  }

  // No Pod's own reason is a filter.
  lemma WhyNotItsOwn(listed: seq<Pod>, eps: set<Endpoint>, sel: Selection)
    ensures Carrying(listed, eps, sel, Some(VersionMismatch)) == {}
    ensures Carrying(listed, eps, sel, Some(PodNameMismatch)) == {}
  {
  }

  datatype Answer = Answer(targets: seq<Target>, selectorMatched: nat, exclusions: seq<Exclusion>)

  /** End to end, every selected Pod is either returned or counted once. */
  method ServeTargets(ghost pods: Pods, listed: seq<Pod>, slices: seq<Slice>, sel: Selection, f: Filters)
    returns (a: Answer)
    requires Snapshot(pods) && Selects(listed, pods)
    ensures a.selectorMatched == |listed| == |a.targets| + Total(a.exclusions)
    ensures forall t :: t in a.targets <==> Wanted(pods, EndpointsRead(slices), sel, t) && Passes(t, f)
    ensures forall x :: x in a.exclusions <==>
              x.count > 0 && x.count == |Unserved(listed, EndpointsRead(slices), sel, f, x.reason)|
    ensures forall i, j | 0 <= i < j < |a.exclusions| :: Rank(a.exclusions[i].reason) < Rank(a.exclusions[j].reason)
  {
    hide Sum, Total, Wanted, EndpointsRead, WhyNot, Carrying, Kept, CountOf, Unserved, Good, Rank, AtPort, OfPod;
    ghost var eps := EndpointsRead(slices);
    var e := Explain(pods, listed, slices, sel);
    var targets, filtered := FilterTargets(e.targets, f);
    var views := MergeExclusions(e.excluded, filtered);
    a := Answer(targets, e.selectorMatched, views);
    TargetsCounted(listed, pods, e.targets, slices, sel);
    GoodCounted(listed, pods, e.targets, slices, sel, f, false);
    GoodCounted(listed, pods, e.targets, slices, sel, f, true);
    forall r: Reason ensures CountOf(e.excluded, r) + Get(filtered, r) == |Unserved(listed, eps, sel, f, r)| {
      CountsCarrying(e.excluded, listed, eps, sel, r);
      UnservedCounted(listed, eps, sel, f, r, |e.targets|, |Kept(e.targets, f, false)|, |targets|);
    }
  }
}
