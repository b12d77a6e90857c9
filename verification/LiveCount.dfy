/**
 * That the number the caches give the ceiling is the number module Ceiling reasons about, and what a
 * state has to be to count (internal/pgo/caches.go:147-159, 647-666).
 */
module LiveCount {
  import opened Wrappers
  import JobStore
  import Records
  import opened WatchedCache
  import Caches
  import Ceiling

  type Phase = JobStore.Phase

  // The state a record carries in each phase of its life.
  function StateOf(p: Phase): Records.State {
    match p
    case Initializing => Records.Initializing
    case Pending => Records.Pending
    case Running => Records.Running
    case Completed => Records.Completed
    case Failed(_) => Records.Failed
    case Cancelled => Records.Cancelled
    case Expired => Records.Expired
  }

  // ---- What counts as live ----

  // A life, or a part of one: every step is one some writer may make.
  ghost predicate Lives(path: seq<Phase>) {
    forall i | 0 < i < |path| :: JobStore.Allowed(path[i - 1], path[i])
  }

  ghost predicate Leads(p: Phase, q: Phase) {
    exists path: seq<Phase> :: path != [] && path[0] == p && path[|path| - 1] == q && Lives(path)
  }

  lemma LeadsBy(path: seq<Phase>)
    requires path != [] && Lives(path)
    ensures Leads(path[0], path[|path| - 1])
  {
  }

  // What every allowed step keeps, a whole life keeps.
  lemma {:induction false} LifeKeeps(path: seq<Phase>, kept: Phase -> bool)
    requires path != [] && Lives(path) && kept(path[0])
    requires forall p: Phase, q: Phase :: kept(p) && JobStore.Allowed(p, q) ==> kept(q)
    ensures kept(path[|path| - 1])
    decreases |path|
  {
    if |path| > 1 {
      var n := |path| - 1;
      LifeKeeps(path[..n], kept);
      assert JobStore.Allowed(path[n - 1], path[n]);
    }
  }

  lemma LeadsKeeps(p: Phase, q: Phase, kept: Phase -> bool)
    requires Leads(p, q) && kept(p)
    requires forall p: Phase, q: Phase :: kept(p) && JobStore.Allowed(p, q) ==> kept(q)
    ensures kept(q)
  {
    var path :| path != [] && path[0] == p && path[|path| - 1] == q && Lives(path);
    LifeKeeps(path, kept);
  }

  /** A cached record counts as live exactly while its Collection may still come to run; a state another version
      wrote always counts. */
  lemma CountsWhileItMayRun(p: Phase)
    ensures !Records.Finished(StateOf(p)) <==> Leads(p, JobStore.Running)
    ensures JobStore.Terminal(p) <==> !Leads(p, JobStore.Running)
    ensures forall n :: !Records.Finished(Records.Unknown(n))
  {
    if p.Initializing? { LeadsBy([p, JobStore.Pending, JobStore.Running]); }
    if p.Pending? { LeadsBy([p, JobStore.Running]); }
    if p.Running? { LeadsBy([p]); }
    if Leads(p, JobStore.Running) && (p.Completed? || p.Failed? || p.Cancelled? || p.Expired?) {
      LeadsKeeps(p, JobStore.Running, (q: Phase) => q.Completed? || q.Failed? || q.Cancelled? || q.Expired?);
    }
  }

  /** A record was ever claimable exactly when it was pending at some time. */
  lemma ClaimableOncePending(p: Phase)
    ensures JobStore.EverClaimable(p) <==> Leads(JobStore.Pending, p)
  {
    var pending := JobStore.Pending;
    if Leads(pending, p) && (p.Initializing? || p == JobStore.Failed(JobStore.NotPublished)) {
      LeadsKeeps(pending, p, (q: Phase) => !q.Initializing? && q != JobStore.Failed(JobStore.NotPublished));
    }
    match p
    case Pending => LeadsBy([pending]);
    case Running => LeadsBy([pending, p]);
    case Completed => LeadsBy([pending, JobStore.Running, p]);
    case Cancelled => LeadsBy([pending, p]);
    case Expired => LeadsBy([pending, JobStore.Running, JobStore.Completed, p]);
    case Failed(reason) => if reason.OtherReason? { LeadsBy([pending, p]); }
    case Initializing =>
  }

  // ---- The number ----

  function KeyOf(id: JobStore.Id): Key {
    Key(id, true)
  }

  /** The records of one content of the bucket as the job watch delivers them. */
  ghost predicate JobRecords(c: Content, s: Ceiling.Replica, jobs: map<JobStore.Id, JobStore.Versioned<Phase>>) {
    && (forall id <- jobs :: KeyOf(id) in c)
    && (forall key <- c | key.wellFormed ::
          && key.name in jobs && c[key].Readable? && c[key].v.svc == Ceiling.Svc(s, key.name)
          && c[key].v.state == StateOf(jobs[key.name].value))
  }

  /** Its active keys as the active watch delivers them: one a Service. */
  ghost predicate ActiveRecords(c: Content, active: map<JobStore.Service, JobStore.Versioned<JobStore.Id>>) {
    && (forall svc <- active :: exists key <- c :: key.wellFormed && c[key].Readable? && c[key].v.svc == svc)
    && (forall key <- c | key.wellFormed && c[key].Readable? :: c[key].v.svc in active)
  }

  lemma SameFinished(p: Phase)
    ensures Records.Finished(StateOf(p)) <==> JobStore.Terminal(p)
  {
  }

  /** Over the content its two caches show, the Services the caches count as live are those the ceiling is proved
      for: as many, and the same. */
  lemma CountsTheSame(s: Ceiling.Replica, jobs: Content, active: Content)
    requires Ceiling.Placed(s) && JobRecords(jobs, s, Ceiling.ShownJobs(s))
    requires ActiveRecords(active, s.hist[s.active.at].active)
    ensures Caches.LiveServices(View(jobs), View(active)) == Ceiling.CachedLive(s)
  {
    var shown := Ceiling.ShownJobs(s);
    forall svc ensures svc in Caches.LiveServices(View(jobs), View(active)) <==> svc in Ceiling.CachedLive(s) {
      if svc in Ceiling.CachedLive(s) && svc !in s.hist[s.active.at].active {
        var id :| id in shown && !JobStore.Terminal(shown[id].value) && Ceiling.Svc(s, id) == svc;
        SameFinished(shown[id].value);
        assert KeyOf(id) in View(jobs) && View(jobs)[KeyOf(id)].svc == svc;
      }
      if key :| key in View(jobs) && !Records.Finished(View(jobs)[key].state) && View(jobs)[key].svc == svc {
        SameFinished(shown[key.name].value);
      }
      if svc in s.hist[s.active.at].active {
        var key :| key in active && key.wellFormed && active[key].Readable? && active[key].v.svc == svc;
        assert key in View(active) && View(active)[key].svc == svc;
      }
    }
  }

  /** So the number one replica's ceiling is compared with is the number of those Services. */
  method CachedLive(c: Caches.Caches, generation: nat, connection: Option<nat>,
                    ghost s: Ceiling.Replica, ghost jobs: Content, ghost active: Content)
    returns (n: nat, ok: bool)
    requires c.Valid() && c.jobs == View(jobs) && c.active == View(active)
    requires Ceiling.Placed(s) && JobRecords(jobs, s, Ceiling.ShownJobs(s))
    requires ActiveRecords(active, s.hist[s.active.at].active)
    ensures ok ==> n == |Ceiling.CachedLive(s)|
  {
    n, ok := c.CachedLive(generation, connection);
    CountsTheSame(s, jobs, active);
  }
}
