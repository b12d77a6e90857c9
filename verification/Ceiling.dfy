/**
 * The live-Collection ceiling of one replica (internal/pgo/publisher.go:121-247),
 * over the publication protocol and two watched caches that lag the bucket, each a
 * place in the bucket's history.
 */
module Ceiling {
  import opened Wrappers
  import opened JobStore
  import opened Following
  import Publication
  import opened PublicationSafety

  type Protocol = Publication.State

  datatype Replica = Replica(
    p: Protocol,
    hist: seq<Store>,      // every content the bucket has had, the current one last
    idle: nat,             // reservations whose publication has not begun
    mine: set<Id>,         // publications this replica began
    released: set<Id>,     // reservations the release rule gave back
    checked: set<Id>,      // the rule's first authoritative read found the record gone or terminal
    jobs: Follow<Id>,
    active: Follow<Service>)

  datatype Event =
    | Other(a: Publication.Action)                            // any step of the protocol
    | Reserve
    | GiveBack                                                // before any write was made
    | Begin(id: Id, svc: Service, scope: Option<Scope>)
    | ReleaseSeen(id: Id)                                     // a cache has delivered it
    | ReadRecord(id: Id)
    | ReadActive(id: Id)
    | JobsMove(jobs: Move<Id>)
    | ActiveMove(active: Move<Service>)

  // ---- What the replica counts ----

  function Svc(s: Replica, id: Id): Service {
    if id in s.p.pubs then s.p.pubs[id].svc else 0
  }

  function Current(s: Replica): Store {
    s.p.store
  }

  // Reservations still held by a publication.
  function Holding(s: Replica): set<Id> {
    set id <- s.mine | id !in s.released && id in s.p.pubs && !s.p.pubs[id].claim.Returned?
  }

  function Reserved(s: Replica): nat {
    s.idle + |Holding(s)|
  }

  predicate Unfinished(s: Replica, id: Id) {
    id in s.p.store.jobs && !Terminal(s.p.store.jobs[id].value)
  }

  // Services whose unfinished record this replica published under a reservation no longer held.
  function Uncounted(s: Replica): set<Service> {
    set id <- s.mine | id !in Holding(s) && Unfinished(s, id) :: Svc(s, id)
  }

  predicate Placed(s: Replica) {
    s.jobs.at < |s.hist| && s.active.at < |s.hist|
  }

  function ShownJobs(s: Replica): map<Id, Versioned<Phase>>
    requires Placed(s)
  {
    s.hist[s.jobs.at].jobs
  }

  // The Services two complete caches show as live (internal/pgo/caches.go:647-666).
  function CachedLive(s: Replica): set<Service>
    requires Placed(s)
  {
    s.hist[s.active.at].active.Keys
    + (set id <- ShownJobs(s) | !Terminal(ShownJobs(s)[id].value) :: Svc(s, id))
  }

  predicate Names(st: Store, svc: Service, id: Id) {
    svc in st.active && st.active[svc].value == id
  }

  // What the release rule waits for from the caches, and what it may then go by.
  predicate SeenByCaches(s: Replica, id: Id)
    requires Placed(s)
  {
    || (Shown(s.jobs, id) && id in ShownJobs(s))
    || (Shown(s.active, Svc(s, id)) && Names(s.hist[s.active.at], Svc(s, id), id))
  }

  predicate Releasable(s: Replica, id: Id) {
    id in Holding(s) && s.p.pubs[id].claim.Tracked?
  }

  // ---- The machine ----

  function JobKeys(hist: seq<Store>): seq<set<Id>> {
    seq(|hist|, i requires 0 <= i < |hist| => hist[i].jobs.Keys)
  }

  function ActiveKeys(hist: seq<Store>): seq<set<Service>> {
    seq(|hist|, i requires 0 <= i < |hist| => hist[i].active.Keys)
  }

  function Start(): Replica {
    var p := Publication.Init();
    Replica(p, [p.store], 0, {}, {}, {}, Replaying(0, {}), Replaying(0, {}))
  }

  function To(s: Replica, p: Protocol): Replica {
    s.(p := p, hist := s.hist + [p.store])
  }

  function Release(s: Replica, id: Id): Replica {
    s.(released := s.released + {id})
  }

  function Next(s: Replica, e: Event, maxLive: nat): Replica {
    if !Placed(s) then s else
    match e
    case Other(a) => To(s, Publication.Step(s.p, a))
    case Reserve =>
      if s.jobs.Synced? && s.active.Synced? && |CachedLive(s)| + Reserved(s) < maxLive then s.(idle := s.idle + 1)
      else s
    case GiveBack => if s.idle > 0 then s.(idle := s.idle - 1) else s
    case Begin(id, svc, scope) =>
      if s.idle == 0 || id in s.p.pubs then s
      else
        var t := To(s, Publication.Step(s.p, Publication.Publish(id, svc, scope)));
        t.(idle := s.idle - 1, mine := s.mine + {id})
    case ReleaseSeen(id) => if Releasable(s, id) && SeenByCaches(s, id) then Release(s, id) else s
    case ReadRecord(id) =>
      if Releasable(s, id) && !Unfinished(s, id) then s.(checked := s.checked + {id}) else s
    case ReadActive(id) =>
      if id in s.checked && Releasable(s, id) && !Names(Current(s), Svc(s, id), id) then Release(s, id) else s
    case JobsMove(m) => s.(jobs := Following.Moved(s.jobs, m, JobKeys(s.hist)))
    case ActiveMove(m) => s.(active := Following.Moved(s.active, m, ActiveKeys(s.hist)))
  }

  function Run(s: Replica, events: seq<Event>, maxLive: nat): Replica
    decreases |events|
  {
    if events == [] then s else Run(Next(s, events[0], maxLive), events[1..], maxLive)
  }

  // ---- What the release rule promises ----

  /** From now on the Service is counted by the caches: the job cache has the record, or the active cache
      names it and the bucket has kept the key since. */
  predicate Secured(s: Replica, id: Id) {
    && Placed(s)
    && (|| id in ShownJobs(s)
        || forall j | s.active.at <= j < |s.hist| :: Names(s.hist[j], Svc(s, id), id))
  }

  /** Whatever of a publication is unfinished once its reservation is given back, the caches count. */
  predicate Sound(s: Replica) {
    forall id <- s.released :: Unfinished(s, id) ==> Secured(s, id)
  }

  // An unfinished record the job cache does not have.
  predicate Unseen(s: Replica, id: Id)
    requires Placed(s)
  {
    Unfinished(s, id) && id !in ShownJobs(s)
  }

  predicate CarelessCall(s: Replica, c: Call)
    requires Placed(s)
  {
    match c
    case CreateJob(id) => id in s.released
    case DeleteActive(svc, rev) =>
      && At(Current(s).active, svc, rev)
      && var id := Current(s).active[svc].value;
         id in s.released && Unseen(s, id)
    case _ => false
  }

  /** The calls and releases that leave something uncounted, by what the bucket and the job cache hold at
      that moment: a record created after its reservation went back; the active key of an unfinished record
      deleted before the job cache has the record; and a reservation given back over an unfinished record
      the job cache does not have, on a sight of a key that is gone, or after the first read missed it. */
  predicate Careless(s: Replica, e: Event) {
    Placed(s) &&
    match e
    case Other(a) =>
      CallOf(s.p, a).Some? && CarelessCall(s, CallOf(s.p, a).value)
    case ReleaseSeen(id) =>
      Releasable(s, id) && SeenByCaches(s, id) && Unseen(s, id) && !Names(Current(s), Svc(s, id), id)
    case ReadActive(id) =>
      id in s.checked && Releasable(s, id) && !Names(Current(s), Svc(s, id), id) && Unseen(s, id)
    case _ => false
  }

  predicate CarefulRun(s: Replica, events: seq<Event>, maxLive: nat)
    decreases |events|
  {
    events == [] || (!Careless(s, events[0]) && CarefulRun(Next(s, events[0], maxLive), events[1..], maxLive))
  }

  // ---- What every run keeps, careless or not ----

  // A record unfinished now has been there, unfinished, ever since it first was, and so has its active
  // key unless its publication withdrew.
  ghost predicate Steady(s: Replica, id: Id, i: nat, j: nat) {
    Unfinished(s, id) && i <= j < |s.hist| ==>
      && (id in s.hist[i].jobs ==> id in s.hist[j].jobs && !Terminal(s.hist[j].jobs[id].value))
      && (Names(s.hist[i], Svc(s, id), id) && !Withdrew(s, id) ==> Names(s.hist[j], Svc(s, id), id))
  }

  // Its withdrawal has issued the delete of the record.
  ghost predicate Withdrew(s: Replica, id: Id) {
    id in s.p.pubs && PastDelete(s.p.pubs[id].step)
  }

  ghost predicate Past(s: Replica) {
    && s.hist != [] && s.hist[|s.hist| - 1] == s.p.store && Placed(s)
    && (forall i, id | 0 <= i < |s.hist| && id in s.hist[i].jobs :: id in s.p.landed)
    && (forall i, k | 0 <= i < |s.hist| && k in s.hist[i].active :: s.hist[i].active[k].value in s.p.landed)
    && (forall id, i: nat, j: nat :: Steady(s, id, i, j))
  }

  // A publication the active key named at some time has claimed its Service for the last time, and if the
  // key still names it, has named it ever since.
  ghost predicate NamedOnce(s: Replica, id: Id, i: nat, j: nat) {
    i <= j < |s.hist| && Names(s.hist[i], Svc(s, id), id) ==>
      Claimed(s.p, id) && (Names(s.p.store, Svc(s, id), id) ==> Names(s.hist[j], Svc(s, id), id))
  }

  ghost predicate Once(s: Replica) {
    forall id, i: nat, j: nat :: NamedOnce(s, id, i, j)
  }

  ghost predicate Mine(s: Replica) {
    && (forall id <- s.mine :: id in s.p.pubs)
    && (forall id <- s.released + s.checked :: id in s.mine && s.p.pubs[id].claim.Tracked?)
  }

  ghost predicate Base(s: Replica) {
    Inv(s.p) && Past(s) && Once(s) && Mine(s)
  }

  lemma SubsetSize<T>(a: set<T>, b: set<T>)
    requires a <= b
    ensures |a| <= |b|
  {
    assert b == a + (b - a);
  }

  lemma BaseParts(s: Replica)
    requires Base(s)
    ensures Placed(s) && s.mine <= s.p.pubs.Keys && s.released <= s.mine && s.hist[|s.hist| - 1] == s.p.store
    ensures forall id <- s.released + s.checked :: s.p.pubs[id].claim.Tracked?
  {
  }

  lemma UnfinishedBefore(s: Replica, q: Protocol, id: Id)
    requires s.p.landed <= s.p.pubs.Keys && Follows(s.p, q) && Unfinished(To(s, q), id)
    ensures id in s.p.landed ==> Unfinished(s, id)
  {
    assert RecordFollows(s.p, q, id);
  }

  lemma KeyBefore(s: Replica, q: Protocol, id: Id)
    requires Inv(s.p) && Follows(s.p, q) && Unfinished(s, id) && id in s.p.pubs && !PastDelete(q.pubs[id].step)
    requires Names(s.p.store, Svc(s, id), id)
    ensures Names(q.store, Svc(s, id), id)
  {
    assert Progress(s.p.pubs[id], q.pubs[id]);
    assert Kept(s.p.store.active, q.store.active, Svc(s, id)) || Idle(s.p, id);
  }

  lemma SteadyKept(s: Replica, q: Protocol, id: Id, i: nat, j: nat)
    requires Past(s) && Inv(s.p) && Follows(s.p, q)
    ensures Steady(To(s, q), id, i, j)
  {
    var t := To(s, q);
    if Unfinished(t, id) && i <= j < |t.hist| && i < |s.hist| && id in s.p.landed {
      InvParts(s.p);
      StoreLanded(s.p);
      UnfinishedBefore(s, q, id);
      assert Progress(s.p.pubs[id], q.pubs[id]);
      assert Steady(s, id, i, if j < |s.hist| then j else |s.hist| - 1);
      if !Withdrew(t, id) && Names(s.p.store, Svc(s, id), id) { KeyBefore(s, q, id); }
    }
  }

  lemma StoreLanded(q: Protocol)
    requires StoreOk(q)
    ensures forall id <- q.store.jobs :: id in q.landed
    ensures forall k <- q.store.active :: q.store.active[k].value in q.landed
    ensures q.landed <= q.pubs.Keys
  {
  }

  lemma PastKept(s: Replica, q: Protocol)
    requires Past(s) && Inv(s.p) && Inv(q) && Follows(s.p, q)
    ensures Past(To(s, q))
  {
    hide StoreOk, PubOk, ProcOk, InflightOk, Steady;
    var t := To(s, q);
    InvParts(q);
    StoreLanded(q);
    forall id, i: nat, j: nat ensures Steady(t, id, i, j) { SteadyKept(s, q, id, i, j); }
  }

  lemma ServiceKept(s: Replica, q: Protocol, id: Id)
    requires Follows(s.p, q) && id in s.p.pubs
    ensures Svc(To(s, q), id) == Svc(s, id)
  {
    assert Progress(s.p.pubs[id], q.pubs[id]);
  }

  lemma NameIsHeld(s: Replica, id: Id)
    requires StoreOk(s.p)
    ensures Names(s.p.store, Svc(s, id), id) <==> HoldsActive(s.p, id)
    ensures Names(s.p.store, Svc(s, id), id) ==> id in s.p.landed
  {
  }

  lemma NamedOnceKept(s: Replica, a: Publication.Action, id: Id, i: nat, j: nat)
    requires Base(s)
    ensures NamedOnce(To(s, Publication.Step(s.p, a)), id, i, j)
  {
    hide Inv, StoreOk, Publication.Step, Claimed, Steady, Follows, HoldsActive;
    var q := Publication.Step(s.p, a);
    var t := To(s, q);
    StepKeeps(s.p, a);
    InvParts(q);
    NameIsHeld(t, id);
    InvParts(s.p);
    NameIsHeld(s, id);
    ClaimsOnce(s.p, a, id);
    if id in s.p.pubs { ServiceKept(s, q, id); }
    assert NamedOnce(s, id, |s.hist| - 1, |s.hist| - 1);
    if i <= j < |t.hist| && Names(t.hist[i], Svc(t, id), id) && i < |s.hist| {
      StoreLanded(s.p);
      assert id in s.p.landed;
      assert NamedOnce(s, id, i, if j < |s.hist| then j else i);
    }
  }

  lemma OnceKept(s: Replica, a: Publication.Action)
    requires Base(s)
    ensures Once(To(s, Publication.Step(s.p, a)))
  {
    hide Base, NamedOnce, Publication.Step;
    forall id, i: nat, j: nat ensures NamedOnce(To(s, Publication.Step(s.p, a)), id, i, j) {
      NamedOnceKept(s, a, id, i, j);
    }
  }

  lemma MineKept(s: Replica, q: Protocol)
    requires Mine(s) && Follows(s.p, q)
    ensures Mine(To(s, q)) && forall id <- s.mine :: Svc(To(s, q), id) == Svc(s, id)
  {
    forall id <- s.mine ensures Progress(s.p.pubs[id], q.pubs[id]) {}
  }

  lemma ProtocolKeeps(s: Replica, a: Publication.Action)
    requires Base(s)
    ensures Base(To(s, Publication.Step(s.p, a))) && Follows(s.p, Publication.Step(s.p, a))
  {
    hide Inv, Past, Once, Mine, Follows;
    StepKeeps(s.p, a);
    PastKept(s, Publication.Step(s.p, a));
    OnceKept(s, a);
    MineKept(s, Publication.Step(s.p, a));
  }

  // Steps that leave the bucket and both caches where they are.
  lemma SamePastKeeps(s: Replica, t: Replica)
    requires Past(s) && Once(s)
    requires t == s.(idle := t.idle, mine := t.mine, released := t.released, checked := t.checked)
    ensures Past(t) && Once(t)
  {
    forall id, i: nat, j: nat ensures Steady(t, id, i, j) { assert Steady(s, id, i, j); }
    forall id, i: nat, j: nat ensures NamedOnce(t, id, i, j) { assert NamedOnce(s, id, i, j); }
  }

  // A cache only moves on.
  lemma MoveKeeps(s: Replica, jobs: Follow<Id>, active: Follow<Service>)
    requires Past(s) && Once(s) && s.jobs.at <= jobs.at < |s.hist| && s.active.at <= active.at < |s.hist|
    ensures Past(s.(jobs := jobs, active := active)) && Once(s.(jobs := jobs, active := active))
  {
    var t := s.(jobs := jobs, active := active);
    forall id, i: nat, j: nat ensures Steady(t, id, i, j) { assert Steady(s, id, i, j); }
    forall id, i: nat, j: nat ensures NamedOnce(t, id, i, j) { assert NamedOnce(s, id, i, j); }
  }

  lemma BaseKeeps(s: Replica, e: Event, maxLive: nat)
    requires Base(s)
    ensures Base(Next(s, e, maxLive))
  {
    hide Inv, Past, Once, Follows;
    BaseParts(s);
    var t := Next(s, e, maxLive);
    match e
    case Other(a) => ProtocolKeeps(s, a);
    case Begin(id, svc, scope) =>
      var a := Publication.Publish(id, svc, scope);
      ProtocolKeeps(s, a);
      if t != s { SamePastKeeps(To(s, Publication.Step(s.p, a)), t); }
    case JobsMove(_) => MoveKeeps(s, t.jobs, s.active);
    case ActiveMove(_) => MoveKeeps(s, s.jobs, t.active);
    case _ => SamePastKeeps(s, t);
  }

  // ---- The rule's promise breaks exactly at a careless event ----

  // What makes a record appear, and what makes an active key go.
  lemma CallsOnRecordAndKey(st: Store, c: Call, id: Id, svc: Service)
    ensures var after := Perform(st, c).0;
            && (id !in st.jobs && id in after.jobs ==> c == CreateJob(id))
            && (Names(st, svc, id) && !Names(after, svc, id) ==>
                  c.DeleteActive? && c.svc == svc && At(st.active, svc, c.expected))
  {
  }

  lemma UnfinishedStood(s: Replica, q: Protocol, id: Id)
    requires Follows(s.p, q) && Unfinished(To(s, q), id) && id in s.p.store.jobs
    ensures Unfinished(s, id)
  {
    assert RecordFollows(s.p, q, id);
  }

  lemma CarefulCall(s: Replica, a: Publication.Action, id: Id)
    requires Base(s) && Sound(s) && !Careless(s, Other(a)) && id in s.released
    ensures var t := To(s, Publication.Step(s.p, a));
            Unfinished(t, id) ==> Unfinished(s, id) && Secured(t, id)
  {
    hide Inv, Past, PubOk, Follows;
    BaseParts(s);
    ProtocolKeeps(s, a);
    MineKept(s, Publication.Step(s.p, a));
    CallTakesEffect(s.p, a);
    hide Base, Mine;
    var t := To(s, Publication.Step(s.p, a));
    var c := CallOf(s.p, a);
    hide Publication.Step, CallOf;
    if Unfinished(t, id) {
      if c.Some? { CallsOnRecordAndKey(s.p.store, c.value, id, Svc(s, id)); }
      UnfinishedStood(s, t.p, id);
      assert Secured(s, id);
      if id !in ShownJobs(s) {
        hide Perform;
        assert Names(s.hist[|s.hist| - 1], Svc(s, id), id);
        assert Names(t.p.store, Svc(s, id), id);
        forall j | t.active.at <= j < |t.hist| ensures Names(t.hist[j], Svc(t, id), id) {
          assert j < |s.hist| ==> t.hist[j] == s.hist[j];
        }
      }
    }
  }

  // A careless call leaves something behind.
  lemma CarelessCallUnsound(s: Replica, a: Publication.Action)
    requires Base(s) && Careless(s, Other(a))
    ensures !Sound(To(s, Publication.Step(s.p, a)))
  {
    hide Follows, PubOk, ProcOk, InflightOk;
    CallTakesEffect(s.p, a);
    CallJustified(s.p, a);
    ProtocolKeeps(s, a);
    MineKept(s, Publication.Step(s.p, a));
    hide Publication.Step, CallOf;
    var t := To(s, Publication.Step(s.p, a));
    match CallOf(s.p, a).value
    case CreateJob(id) => LateCreateUnsecured(s, t, id);
    case DeleteActive(svc, rev) => KeyGoneUnsecured(s, t, svc, rev);
  }

  lemma LateCreateUnsecured(s: Replica, t: Replica, id: Id)
    requires Past(s) && id !in s.p.landed && t == To(s, t.p) && t.p.store == Perform(s.p.store, CreateJob(id)).0
    ensures Unfinished(t, id) && !Secured(t, id)
  {
    assert !Names(t.hist[t.active.at], Svc(t, id), id);
  }

  lemma KeyGoneUnsecured(s: Replica, t: Replica, svc: Service, rev: nat)
    requires Base(s) && t == To(s, t.p) && t.p.store == Perform(s.p.store, DeleteActive(svc, rev)).0
    requires CarelessCall(s, DeleteActive(svc, rev))
    requires forall id <- s.mine :: Svc(t, id) == Svc(s, id)
    ensures var id := Current(s).active[svc].value; Unfinished(t, id) && !Secured(t, id)
  {
    hide PubOk, ProcOk, InflightOk, Steady;
    var id := Current(s).active[svc].value;
    assert Svc(t, id) == svc;
    assert !Names(t.hist[|t.hist| - 1], svc, id);
  }

  lemma ProtocolSound(s: Replica, a: Publication.Action)
    requires Base(s) && Sound(s)
    ensures Sound(To(s, Publication.Step(s.p, a))) <==> !Careless(s, Other(a))
  {
    hide Base, Careless, Publication.Step, Secured, Unfinished;
    if Careless(s, Other(a)) {
      CarelessCallUnsound(s, a);
    } else {
      forall id <- s.released { CarefulCall(s, a, id); }
    }
  }

  lemma BeginSound(s: Replica, id: Id, svc: Service, scope: Option<Scope>, t: Replica)
    requires Base(s) && Sound(s) && id !in s.p.pubs
    requires t == To(s, Publication.Step(s.p, Publication.Publish(id, svc, scope))).(idle := t.idle, mine := t.mine)
    ensures Sound(t)
  {
    BaseParts(s);
    forall j <- t.released ensures Unfinished(t, j) ==> Secured(t, j) {
      assert Svc(t, j) == Svc(s, j) && t.hist == s.hist + [s.p.store];
      assert Unfinished(t, j) ==> Secured(s, j);
      if Secured(s, j) && j !in ShownJobs(s) { assert Names(s.hist[|s.hist| - 1], Svc(s, j), j); }
    }
  }

  lemma MoveSound(s: Replica, jobs: Follow<Id>, active: Follow<Service>)
    requires Past(s) && Sound(s) && s.jobs.at <= jobs.at < |s.hist| && s.active.at <= active.at < |s.hist|
    ensures Sound(s.(jobs := jobs, active := active))
  {
    var t := s.(jobs := jobs, active := active);
    forall id <- s.released ensures Unfinished(t, id) ==> Secured(t, id) {
      assert Steady(s, id, s.jobs.at, jobs.at);
      assert Unfinished(t, id) ==> Secured(s, id);
    }
  }

  lemma ReleaseSound(s: Replica, id: Id)
    requires Sound(s)
    ensures Sound(Release(s, id)) <==> (Unfinished(s, id) ==> Secured(s, id))
  {
    var t := Release(s, id);
    assert forall j :: (Unfinished(t, j) <==> Unfinished(s, j)) && (Secured(t, j) <==> Secured(s, j));
  }

  // A key the active cache has seen, and the bucket still holds, has stood all along.
  lemma SightSecures(s: Replica, id: Id)
    requires Base(s) && SeenByCaches(s, id) && Unseen(s, id)
    ensures Secured(s, id) <==> Names(Current(s), Svc(s, id), id)
  {
    hide Inv, Steady;
    assert Current(s) == s.hist[|s.hist| - 1];
    forall j: nat | s.active.at <= j < |s.hist| && Names(Current(s), Svc(s, id), id)
      ensures Names(s.hist[j], Svc(s, id), id)
    {
      assert NamedOnce(s, id, s.active.at, j);
    }
  }

  // Whatever key the active cache still shows, this one is gone.
  lemma AbsentUnsecured(s: Replica, id: Id)
    requires Base(s) && Unseen(s, id) && !Names(Current(s), Svc(s, id), id)
    ensures !Secured(s, id)
  {
    hide Inv, Steady;
    assert !Names(s.hist[|s.hist| - 1], Svc(s, id), id);
  }

  /** At every step of every run the rule's promise breaks exactly where the step is careless. */
  lemma BreaksExactlyAt(s: Replica, e: Event, maxLive: nat)
    requires Base(s) && Sound(s)
    ensures Sound(Next(s, e, maxLive)) <==> !Careless(s, e)
  {
    BaseParts(s);
    var t := Next(s, e, maxLive);
    hide Inv, Past, Once, Mine, Secured;
    match e
    case Other(a) => ProtocolSound(s, a);
    case Begin(id, svc, scope) => if t != s { BeginSound(s, id, svc, scope, t); }
    case ReleaseSeen(id) =>
      ReleaseSound(s, id);
      if id in ShownJobs(s) { ShownSecures(s, id); }
      if SeenByCaches(s, id) && Unseen(s, id) { SightSecures(s, id); }
    case ReadActive(id) =>
      ReleaseSound(s, id);
      if id in ShownJobs(s) { ShownSecures(s, id); }
      if t != s && Unseen(s, id) { AbsentUnsecured(s, id); }
    case JobsMove(_) => MoveSound(s, t.jobs, s.active);
    case ActiveMove(_) => MoveSound(s, s.jobs, t.active);
    case _ =>
      SameSight(s, t);
  }

  lemma ShownSecures(s: Replica, id: Id)
    requires Placed(s) && id in ShownJobs(s)
    ensures Secured(s, id)
  {
  }

  lemma SameSight(s: Replica, t: Replica)
    requires t == s.(idle := t.idle, checked := t.checked)
    ensures forall j :: (Unfinished(t, j) <==> Unfinished(s, j)) && (Secured(t, j) <==> Secured(s, j))
  {
  }

  // ---- The count ----

  // Nothing published under a returned reservation is left to count.
  lemma ReturnedIsFinished(p: Protocol, id: Id)
    requires Inv(p) && id in p.pubs && p.pubs[id].claim.Returned?
    ensures id in p.store.jobs ==> Terminal(p.store.jobs[id].value)
  {
    assert PubOk(p, id, p.pubs[id]);
  }

  // What is uncounted was given back by the release rule.
  lemma UncountedReleased(s: Replica, id: Id)
    requires Base(s) && id in s.mine && id !in Holding(s) && Unfinished(s, id)
    ensures id in s.released
  {
    if id !in s.released { ReturnedIsFinished(s.p, id); }
  }

  /** Two complete caches show every Service the replica no longer holds a reservation for. */
  lemma CachesCoverUncounted(s: Replica)
    requires Base(s) && Sound(s)
    ensures Uncounted(s) <= CachedLive(s)
  {
    hide Inv;
    forall svc <- Uncounted(s) ensures svc in CachedLive(s) {
      var id :| id in s.mine && id !in Holding(s) && Unfinished(s, id) && Svc(s, id) == svc;
      UncountedReleased(s, id);
      assert Secured(s, id);
      assert Steady(s, id, s.jobs.at, s.jobs.at) && Steady(s, id, s.jobs.at, |s.hist| - 1);
    }
  }

  // The protocol can only give reservations back, and never moves a publication to another Service.
  lemma HoldingShrinks(s: Replica, q: Protocol)
    requires Follows(s.p, q) && Mine(s)
    ensures Holding(To(s, q)) <= Holding(s) && forall id <- s.mine :: Svc(To(s, q), id) == Svc(s, id)
  {
    forall id <- s.mine ensures Progress(s.p.pubs[id], q.pubs[id]) {}
  }

  // What is uncounted after a careful call was uncounted before it.
  lemma WasUncounted(s: Replica, a: Publication.Action, id: Id)
    requires Base(s) && Sound(s) && !Careless(s, Other(a)) && id in s.mine
    requires var t := To(s, Publication.Step(s.p, a)); id !in Holding(t) && Unfinished(t, id)
    ensures id in s.released && Unfinished(s, id)
  {
    hide Careless, Publication.Step, Secured, Sound, Unfinished, Holding, Inv, Past, Mine;
    ProtocolKeeps(s, a);
    UncountedReleased(To(s, Publication.Step(s.p, a)), id);
    CarefulCall(s, a, id);
  }

  lemma ProtocolUncounted(s: Replica, a: Publication.Action)
    requires Base(s) && Sound(s) && !Careless(s, Other(a))
    ensures Uncounted(To(s, Publication.Step(s.p, a))) <= Uncounted(s)
    ensures Holding(To(s, Publication.Step(s.p, a))) <= Holding(s)
  {
    hide Careless, Publication.Step, Secured, Sound, Follows, Inv, Past, Unfinished;
    ProtocolKeeps(s, a);
    var t := To(s, Publication.Step(s.p, a));
    HoldingShrinks(s, t.p);
    hide Base, Mine;
    forall svc <- Uncounted(t) ensures svc in Uncounted(s) {
      var id :| id in t.mine && id !in Holding(t) && Unfinished(t, id) && Svc(t, id) == svc;
      WasUncounted(s, a, id);
    }
  }

  lemma ProtocolCount(s: Replica, a: Publication.Action)
    requires Base(s) && Sound(s) && !Careless(s, Other(a))
    ensures var t := To(s, Publication.Step(s.p, a)); Reserved(t) + |Uncounted(t)| <= Reserved(s) + |Uncounted(s)|
  {
    hide Base, Careless, Publication.Step, Sound, Holding, Uncounted;
    ProtocolUncounted(s, a);
    var t := To(s, Publication.Step(s.p, a));
    SubsetSize(Holding(t), Holding(s));
    SubsetSize(Uncounted(t), Uncounted(s));
  }

  lemma SameCount(s: Replica, t: Replica)
    requires t == s.(idle := t.idle, checked := t.checked, jobs := t.jobs, active := t.active)
    ensures Holding(t) == Holding(s) && Uncounted(t) == Uncounted(s)
  {
  }

  // The release rule moves one reservation from the held to the counted elsewhere.
  lemma ReleaseCount(s: Replica, id: Id)
    requires id in Holding(s)
    ensures var t := Release(s, id); Reserved(t) + |Uncounted(t)| <= Reserved(s) + |Uncounted(s)|
  {
    var t := Release(s, id);
    assert Holding(t) == Holding(s) - {id};
    assert Uncounted(t) <= Uncounted(s) + {Svc(s, id)};
    SubsetSize(Uncounted(t), Uncounted(s) + {Svc(s, id)});
  }

  lemma BeginCount(s: Replica, id: Id, svc: Service, scope: Option<Scope>, t: Replica)
    requires Base(s) && s.idle > 0 && id !in s.p.pubs && t == Next(s, Begin(id, svc, scope), 0)
    ensures Reserved(t) <= Reserved(s) && |Uncounted(t)| <= |Uncounted(s)|
  {
    hide Inv, Past;
    BaseParts(s);
    assert forall j <- s.mine :: Svc(t, j) == Svc(s, j);
    SubsetSize(Holding(t), Holding(s) + {id});
    assert Uncounted(t) <= Uncounted(s);
    SubsetSize(Uncounted(t), Uncounted(s));
  }

  lemma ReserveCount(s: Replica, maxLive: nat)
    requires Placed(s) && |Uncounted(s)| <= |CachedLive(s)| && Reserved(s) + |Uncounted(s)| <= maxLive
    ensures var t := Next(s, Reserve, maxLive); Reserved(t) + |Uncounted(t)| <= maxLive
  {
    hide Holding, Uncounted, CachedLive;
    SameCount(s, Next(s, Reserve, maxLive));
  }

  lemma UncountedFewer(s: Replica)
    requires Base(s) && Sound(s)
    ensures Placed(s) && |Uncounted(s)| <= |CachedLive(s)|
  {
    BaseParts(s);
    CachesCoverUncounted(s);
    hide Base, Sound, Uncounted, CachedLive;
    SubsetSize(Uncounted(s), CachedLive(s));
  }

  lemma CountKept(s: Replica, e: Event, maxLive: nat)
    requires Base(s) && Sound(s) && !Careless(s, e) && Reserved(s) + |Uncounted(s)| <= maxLive
    ensures var t := Next(s, e, maxLive); Reserved(t) + |Uncounted(t)| <= maxLive
  {
    BaseParts(s);
    hide Base, Careless, Sound, Publication.Step, Following.Moved, Holding, Uncounted, CachedLive, Unfinished;
    var t := Next(s, e, maxLive);
    match e
    case Other(a) => ProtocolCount(s, a);
    case Reserve =>
      UncountedFewer(s);
      ReserveCount(s, maxLive);
    case Begin(id, svc, scope) => if t != s { BeginCount(s, id, svc, scope, t); }
    case ReleaseSeen(id) => if t != s { ReleaseCount(s, id); }
    case ReadActive(id) => if t != s { ReleaseCount(s, id); }
    case _ => SameCount(s, t);
  }

  // ---- The rule gives reservations back ----

  lemma OneFewer(s: Replica, id: Id)
    requires id in Holding(s)
    ensures Reserved(Release(s, id)) == Reserved(s) - 1
  {
    assert Holding(Release(s, id)) == Holding(s) - {id};
  }

  /** A tracked reservation is given back by the next look at the caches exactly when the job cache has delivered
      the record in any state, or the active cache the Service's key with this identifier. */
  lemma SightGivesBack(s: Replica, id: Id, maxLive: nat)
    requires Placed(s) && id in s.mine && id !in s.released && id in s.p.pubs && s.p.pubs[id].claim.Tracked?
    ensures var key := s.hist[s.active.at].active;
            Reserved(Next(s, ReleaseSeen(id), maxLive)) == Reserved(s) - 1 <==>
            || (id in s.hist[s.jobs.at].jobs && (s.jobs.Synced? || id in s.jobs.got))
            || (&& s.p.pubs[id].svc in key && key[s.p.pubs[id].svc].value == id
                && (s.active.Synced? || s.p.pubs[id].svc in s.active.got))
  {
    OneFewer(s, id);
  }

  /** And by the two reads of one pass exactly when the record is gone or terminal, now or at an earlier look, and
      the Service's key is absent or names another. */
  lemma ReadsGiveBack(s: Replica, id: Id, maxLive: nat)
    requires Placed(s) && id in s.mine && id !in s.released && id in s.p.pubs && s.p.pubs[id].claim.Tracked?
    ensures var jobs, key := s.p.store.jobs, s.p.store.active;
            Reserved(Next(Next(s, ReadRecord(id), maxLive), ReadActive(id), maxLive)) == Reserved(s) - 1 <==>
            && (id !in jobs || Terminal(jobs[id].value) || id in s.checked)
            && (s.p.pubs[id].svc !in key || key[s.p.pubs[id].svc].value != id)
  {
    var t := Next(s, ReadRecord(id), maxLive);
    assert Holding(t) == Holding(s);
    OneFewer(t, id);
  }

  // ---- Whole runs ----

  ghost predicate Ok(s: Replica, maxLive: nat) {
    Base(s) && Sound(s) && Reserved(s) + |Uncounted(s)| <= maxLive
  }

  lemma NextKeeps(s: Replica, e: Event, maxLive: nat)
    requires Ok(s, maxLive) && !Careless(s, e)
    ensures Ok(Next(s, e, maxLive), maxLive)
  {
    hide Base, Sound, Careless;
    BaseKeeps(s, e, maxLive);
    BreaksExactlyAt(s, e, maxLive);
    CountKept(s, e, maxLive);
  }

  lemma {:induction false} RunKeeps(s: Replica, events: seq<Event>, maxLive: nat)
    requires Ok(s, maxLive) && CarefulRun(s, events, maxLive)
    ensures Ok(Run(s, events, maxLive), maxLive)
    decreases |events|
  {
    hide Ok, Next, Careless;
    if events != [] {
      NextKeeps(s, events[0], maxLive);
      RunKeeps(Next(s, events[0], maxLive), events[1..], maxLive);
    }
  }

  lemma StartsOk(maxLive: nat)
    ensures Ok(Start(), maxLive)
  {
    StartsInv();
    hide Inv;
    assert Holding(Start()) == {} && Uncounted(Start()) == {};
  }

  lemma StartsInv()
    ensures Inv(Publication.Init())
  {
  }

  /** Held reservations and the Services it published that still have an unfinished record, counted
      together, never exceed the ceiling, keyed publications and late creates included: whatever the
      caches lag, replay or lose, whatever other replicas do, and whichever writes go unacknowledged,
      up to the first careless event. */
  lemma CeilingHolds(events: seq<Event>, maxLive: nat)
    requires CarefulRun(Start(), events, maxLive)
    ensures var s := Run(Start(), events, maxLive); Reserved(s) + |Uncounted(s)| <= maxLive
  {
    StartsOk(maxLive);
    RunKeeps(Start(), events, maxLive);
  }

  ghost predicate SoundThroughout(s: Replica, events: seq<Event>, maxLive: nat)
    decreases |events|
  {
    Sound(s) && (events == [] || SoundThroughout(Next(s, events[0], maxLive), events[1..], maxLive))
  }

  lemma {:induction false} SoundExactlyFrom(s: Replica, events: seq<Event>, maxLive: nat)
    requires Base(s) && Sound(s)
    ensures SoundThroughout(s, events, maxLive) <==> CarefulRun(s, events, maxLive)
    decreases |events|
  {
    hide Base, Sound, Next, Careless;
    if events != [] {
      BaseKeeps(s, events[0], maxLive);
      BreaksExactlyAt(s, events[0], maxLive);
      var t := Next(s, events[0], maxLive);
      if Sound(t) { SoundExactlyFrom(t, events[1..], maxLive); } else { UnsoundAtOnce(t, events[1..], maxLive); }
    }
  }

  lemma UnsoundAtOnce(s: Replica, events: seq<Event>, maxLive: nat)
    requires !Sound(s)
    ensures !SoundThroughout(s, events, maxLive)
  {
  }

  /** The caches count what was given back all through a run if and only if nothing in it is careless. */
  lemma SoundExactlyWhenCareful(events: seq<Event>, maxLive: nat)
    ensures SoundThroughout(Start(), events, maxLive) <==> CarefulRun(Start(), events, maxLive)
  {
    StartsOk(maxLive);
    SoundExactlyFrom(Start(), events, maxLive);
  }

  // ---- Which runs are careful ----

  // A lost create lands after the release rule looked for its record, or gave its reservation back.
  predicate LandsLate(s: Replica, e: Event, id: Id) {
    && e.Other? && e.a.Land? && e.a.ticket in s.p.inflight
    && s.p.inflight[e.a.ticket] == CreateJob(id) && id in s.checked + s.released
  }

  // A withdrawal of this replica's own gets no answer to the delete of its record.
  predicate LosesDelete(s: Replica, e: Event, id: Id) {
    && e.Other? && e.a.PubStep? && e.a.id == id && id in s.mine && id in s.p.pubs
    && s.p.pubs[id].step.WithdrawingJob? && e.a.fate.Lost? && e.a.fate.ticket !in s.p.inflight
  }

  function Upto(events: seq<Event>, k: nat, maxLive: nat): Replica
    requires k <= |events|
  {
    Run(Start(), events[..k], maxLive)
  }

  ghost predicate LandedLate(events: seq<Event>, id: Id, maxLive: nat) {
    exists k: nat :: k < |events| && LandsLate(Upto(events, k, maxLive), events[k], id)
  }

  ghost predicate LostDelete(events: seq<Event>, id: Id, maxLive: nat) {
    exists k: nat :: k < |events| && LosesDelete(Upto(events, k, maxLive), events[k], id)
  }

  // What one further event makes of a run.
  lemma {:induction false} RunThen(s: Replica, events: seq<Event>, e: Event, maxLive: nat)
    ensures Run(s, events + [e], maxLive) == Next(Run(s, events, maxLive), e, maxLive)
    ensures CarefulRun(s, events + [e], maxLive) <==>
              CarefulRun(s, events, maxLive) && !Careless(Run(s, events, maxLive), e)
    decreases |events|
  {
    hide Next, Careless;
    if events == [] {
      assert events + [e] == [e];
      assert Run(Next(s, e, maxLive), [], maxLive) == Next(s, e, maxLive);
    } else {
      assert (events + [e])[1..] == events[1..] + [e];
      RunThen(Next(s, events[0], maxLive), events[1..], e, maxLive);
    }
  }

  lemma UptoThen(events: seq<Event>, e: Event, k: nat, maxLive: nat)
    requires k <= |events|
    ensures Upto(events + [e], k, maxLive) == Upto(events, k, maxLive)
    ensures k < |events| ==> (events + [e])[k] == events[k]
    ensures Upto(events, |events|, maxLive) == Run(Start(), events, maxLive)
  {
    assert (events + [e])[..k] == events[..k] && events[..|events|] == events;
  }

  lemma StillLate(events: seq<Event>, e: Event, id: Id, maxLive: nat)
    ensures LandedLate(events, id, maxLive) ==> LandedLate(events + [e], id, maxLive)
    ensures LostDelete(events, id, maxLive) ==> LostDelete(events + [e], id, maxLive)
    ensures LandsLate(Run(Start(), events, maxLive), e, id) ==> LandedLate(events + [e], id, maxLive)
    ensures LosesDelete(Run(Start(), events, maxLive), e, id) ==> LostDelete(events + [e], id, maxLive)
  {
    hide Upto, LandsLate, LosesDelete, Run;
    UptoThen(events, e, |events|, maxLive);
    assert (events + [e])[|events|] == e;
    if LandedLate(events, id, maxLive) {
      var k: nat :| k < |events| && LandsLate(Upto(events, k, maxLive), events[k], id);
      UptoThen(events, e, k, maxLive);
    }
    if LostDelete(events, id, maxLive) {
      var k: nat :| k < |events| && LosesDelete(Upto(events, k, maxLive), events[k], id);
      UptoThen(events, e, k, maxLive);
    }
  }

  lemma {:induction false} RunBase(events: seq<Event>, maxLive: nat)
    ensures Base(Run(Start(), events, maxLive))
    decreases |events|
  {
    hide Base, Next, Start;
    if events == [] {
      StartsBase();
    } else {
      var before, e := events[..|events| - 1], events[|events| - 1];
      assert before + [e] == events;
      RunBase(before, maxLive);
      RunThen(Start(), before, e, maxLive);
      BaseKeeps(Run(Start(), before, maxLive), e, maxLive);
    }
  }

  lemma StartsBase()
    ensures Base(Start())
  {
    StartsOk(0);
  }

  // An unfinished record that was not there, or was finished, has just been created.
  lemma BecomesUnfinished(s: Replica, a: Publication.Action, id: Id)
    requires Base(s) && !Unfinished(s, id) && Unfinished(To(s, Publication.Step(s.p, a)), id)
    ensures id !in s.p.landed && CreatedBy(s.p, a, id)
  {
    hide Base, Inv, Publication.Step, CreatedBy;
    assert Inv(s.p) by { BaseInv(s); }
    StepKeeps(s.p, a);
    LandsOnce(s.p, a, id);
    InvParts(Publication.Step(s.p, a));
    StoreLanded(Publication.Step(s.p, a));
    assert RecordFollows(s.p, Publication.Step(s.p, a), id);
  }

  lemma BaseInv(s: Replica)
    requires Base(s)
    ensures Inv(s.p) && Mine(s)
  {
  }

  lemma CheckedStep(s: Replica, e: Event, id: Id, maxLive: nat)
    requires Base(s) && id in Next(s, e, maxLive).checked && Unfinished(Next(s, e, maxLive), id)
    ensures LandsLate(s, e, id) || (id in s.checked && Unfinished(s, id))
  {
    BaseInv(s);
    hide Base, Past, Once;
    if !Unfinished(s, id) {
      match e
      case Other(a) =>
        BecomesUnfinished(s, a, id);
        assert PubOk(s.p, id, s.p.pubs[id]);
      case Begin(i, svc, scope) => BecomesUnfinished(s, Publication.Publish(i, svc, scope), id);
      case _ =>
    }
  }

  /** A record the release rule's first read found gone or finished is unfinished later only if its create
      landed out of flight after that read. */
  lemma {:induction false} CheckedStaysFinished(events: seq<Event>, id: Id, maxLive: nat)
    requires var s := Run(Start(), events, maxLive); id in s.checked && Unfinished(s, id)
    ensures LandedLate(events, id, maxLive)
    decreases |events|
  {
    hide Base, Next, LandsLate, LandedLate, Unfinished;
    if events != [] {
      var before, e := events[..|events| - 1], events[|events| - 1];
      assert before + [e] == events;
      RunBase(before, maxLive);
      RunThen(Start(), before, e, maxLive);
      StillLate(before, e, id, maxLive);
      CheckedStep(Run(Start(), before, maxLive), e, id, maxLive);
      if !LandsLate(Run(Start(), before, maxLive), e, id) { CheckedStaysFinished(before, id, maxLive); }
    }
  }

  // An answered delete leaves no unfinished record: it is gone, or somebody finished it first.
  lemma DeleteAnswered(p: Protocol, id: Id)
    requires Inv(p) && id in p.pubs && p.pubs[id].step.WithdrawingJob?
    ensures var st := Publication.Step(p, Publication.PubStep(id, Publication.Answered)).store;
            id in st.jobs ==> Terminal(st.jobs[id].value)
  {
    assert PubOk(p, id, p.pubs[id]);
  }

  // One of the replica's own withdrew, and its record is still unfinished.
  ghost predicate Surviving(s: Replica, id: Id) {
    id in s.mine && Withdrew(s, id) && Unfinished(s, id)
  }

  lemma ReachesDelete(p: Protocol, a: Publication.Action, id: Id)
    requires id in p.pubs && !PastDelete(p.pubs[id].step)
    requires PastDelete(Publication.Step(p, a).pubs[id].step)
    ensures a.PubStep? && a.id == id && p.pubs[id].step.WithdrawingJob?
    ensures a.fate.Lost? ==> a.fate.ticket !in p.inflight
  {
  }

  lemma WithdrewLanded(s: Replica, id: Id)
    requires Inv(s.p) && Withdrew(s, id)
    ensures id in s.p.landed
  {
    assert PubOk(s.p, id, s.p.pubs[id]);
  }

  lemma WithdrawnProtocol(s: Replica, a: Publication.Action, id: Id)
    requires Base(s) && id in s.mine
    requires Surviving(To(s, Publication.Step(s.p, a)), id)
    ensures LosesDelete(s, Other(a), id) || Surviving(s, id)
  {
    BaseInv(s);
    hide Base, Past, Once, Inv, Publication.Step;
    if !Withdrew(s, id) {
      ReachesDelete(s.p, a, id);
      DeleteAnswered(s.p, id);
    } else if !Unfinished(s, id) {
      WithdrewLanded(s, id);
      BecomesUnfinished(s, a, id);
    }
  }

  lemma WithdrawnStep(s: Replica, e: Event, id: Id, maxLive: nat)
    requires Base(s) && Surviving(Next(s, e, maxLive), id)
    ensures LosesDelete(s, e, id) || Surviving(s, id)
  {
    match e
    case Other(a) =>
      BaseParts(s);
      hide Base, Publication.Step, LosesDelete, Withdrew, Unfinished;
      WithdrawnProtocol(s, a, id);
    case _ =>
      hide Inv, Past, Once;
  }

  /** A withdrawal leaves its record unfinished only if the answer to the record's delete was lost. */
  lemma {:induction false} AnsweredDeleteFinishes(events: seq<Event>, id: Id, maxLive: nat)
    requires Surviving(Run(Start(), events, maxLive), id)
    ensures LostDelete(events, id, maxLive)
    decreases |events|
  {
    hide Base, Next, LosesDelete, LostDelete, Unfinished, Withdrew;
    if events != [] {
      var before, e := events[..|events| - 1], events[|events| - 1];
      assert before + [e] == events;
      RunBase(before, maxLive);
      RunThen(Start(), before, e, maxLive);
      StillLate(before, e, id, maxLive);
      WithdrawnStep(Run(Start(), before, maxLive), e, id, maxLive);
      if !LosesDelete(Run(Start(), before, maxLive), e, id) { AnsweredDeleteFinishes(before, id, maxLive); }
    }
  }

  // What a careless event finds, before its origin is traced.
  lemma CarelessFinds(s: Replica, e: Event)
    requires Base(s) && Careless(s, e)
    ensures match e
            case Other(a) =>
              var c := CallOf(s.p, a).value;
              || (c.CreateJob? && LandsLate(s, e, c.id))
              || (c.DeleteActive? && Surviving(s, Current(s).active[c.svc].value))
            case ReleaseSeen(id) => Surviving(s, id)
            case ReadActive(id) => id in s.checked && Unfinished(s, id)
            case _ => false
  {
    BaseInv(s);
    match e
    case Other(a) =>
      hide Past, Once, PubOk, ProcOk, InflightOk;
      CallJustified(s.p, a);
      if CallOf(s.p, a).value.CreateJob? && !a.Land? { OnlyPublicationsCreate(s.p, a); }
    case ReleaseSeen(id) => SightWithdrew(s, id);
    case _ =>
  }

  // A key seen once and since gone, over an unfinished record.
  lemma SightWithdrew(s: Replica, id: Id)
    requires Base(s) && SeenByCaches(s, id) && Unseen(s, id) && !Names(Current(s), Svc(s, id), id)
    ensures Withdrew(s, id)
  {
    hide Inv, Once;
    assert Steady(s, id, s.active.at, |s.hist| - 1);
  }

  lemma OnlyPublicationsCreate(p: Protocol, a: Publication.Action)
    requires CallOf(p, a).Some? && CallOf(p, a).value.CreateJob? && !a.Land?
    ensures a.PubStep? && a.id in p.pubs && a.id == CallOf(p, a).value.id
    ensures Inv(p) ==> p.pubs[a.id].claim.Untracked?
  {
    if a.ProcStep? { ProcNeverCreates(p, p.procs[a.pid], a.to); }
    if Inv(p) && a.PubStep? { assert PubOk(p, a.id, p.pubs[a.id]); }
  }

  /** Every careless event of a run goes back to one of two: a record whose create landed out of flight
      after the release rule looked for it or gave its reservation back, or a withdrawal whose delete of the
      record went unanswered. */
  lemma OnlyLateOrWithdrawn(events: seq<Event>, e: Event, maxLive: nat)
    requires Careless(Run(Start(), events, maxLive), e)
    ensures match e
            case Other(_) =>
              var s := Run(Start(), events, maxLive);
              var c := CallOf(s.p, e.a).value;
              || (c.CreateJob? && LandsLate(s, e, c.id))
              || (c.DeleteActive? && LostDelete(events, Current(s).active[c.svc].value, maxLive))
            case ReleaseSeen(_) => LostDelete(events, e.id, maxLive)
            case ReadActive(_) => LandedLate(events, e.id, maxLive)
            case _ => false
  {
    hide Base, Unfinished, Surviving, LostDelete, LandedLate, LandsLate;
    var s := Run(Start(), events, maxLive);
    RunBase(events, maxLive);
    CarelessFinds(s, e);
    match e
    case Other(a) =>
      var c := CallOf(s.p, a).value;
      if c.DeleteActive? { AnsweredDeleteFinishes(events, Current(s).active[c.svc].value, maxLive); }
    case ReleaseSeen(id) => AnsweredDeleteFinishes(events, id, maxLive);
    case ReadActive(id) => CheckedStaysFinished(events, id, maxLive);
    case _ =>
  }

  // No create of this run lands late.
  ghost predicate Prompt(events: seq<Event>, maxLive: nat) {
    forall id :: !LandedLate(events, id, maxLive)
  }

  // Every withdrawal of the replica's own hears the answer to its record's delete.
  ghost predicate Answered(events: seq<Event>, maxLive: nat) {
    forall id :: !LostDelete(events, id, maxLive)
  }

  lemma NothingCareless(events: seq<Event>, e: Event, maxLive: nat)
    requires Prompt(events, maxLive) && Answered(events, maxLive)
    requires forall id :: !LandsLate(Run(Start(), events, maxLive), e, id)
    ensures !Careless(Run(Start(), events, maxLive), e)
  {
    hide Start, Run, LandedLate, LostDelete, LandsLate, CallOf;
    if Careless(Run(Start(), events, maxLive), e) { OnlyLateOrWithdrawn(events, e, maxLive); }
  }

  lemma {:induction false} AnsweredIsCareful(events: seq<Event>, maxLive: nat)
    requires Prompt(events, maxLive) && Answered(events, maxLive)
    ensures CarefulRun(Start(), events, maxLive)
    decreases |events|
  {
    hide Start, Next, Careless, LandedLate, LostDelete, LandsLate, CallOf;
    if events != [] {
      var before, e := events[..|events| - 1], events[|events| - 1];
      assert before + [e] == events;
      forall id ensures !LandedLate(before, id, maxLive) { StillLate(before, e, id, maxLive); }
      forall id ensures !LostDelete(before, id, maxLive) { StillLate(before, e, id, maxLive); }
      AnsweredIsCareful(before, maxLive);
      RunThen(Start(), before, e, maxLive);
      forall id ensures !LandsLate(Run(Start(), before, maxLive), e, id) { StillLate(before, e, id, maxLive); }
      NothingCareless(before, e, maxLive);
    }
  }

  /** The ceiling, keyed publications included: it holds over every run in which no create lands late and
      every withdrawal of the replica's own hears the answer to its record's delete. */
  lemma CeilingWhenAnswered(events: seq<Event>, maxLive: nat)
    requires Prompt(events, maxLive) && Answered(events, maxLive)
    ensures var s := Run(Start(), events, maxLive); Reserved(s) + |Uncounted(s)| <= maxLive
  {
    AnsweredIsCareful(events, maxLive);
    CeilingHolds(events, maxLive);
  }

  lemma UnkeyedStep(s: Replica, e: Event, maxLive: nat)
    requires Base(s) && (forall id <- s.mine :: s.p.pubs[id].scope.None?) && (e.Begin? ==> e.scope.None?)
    ensures var t := Next(s, e, maxLive); forall id <- t.mine :: id in t.p.pubs && t.p.pubs[id].scope.None?
  {
    BaseParts(s);
    if e.Other? {
      ProtocolKeeps(s, e.a);
      hide Base, Inv, Publication.Step;
      forall id <- s.mine ensures Progress(s.p.pubs[id], Next(s, e, maxLive).p.pubs[id]) {}
    }
  }

  lemma {:induction false} UnkeyedMine(events: seq<Event>, maxLive: nat)
    requires forall e <- events :: e.Begin? ==> e.scope.None?
    ensures var s := Run(Start(), events, maxLive); forall id <- s.mine :: id in s.p.pubs && s.p.pubs[id].scope.None?
    decreases |events|
  {
    hide Base, Next;
    if events != [] {
      var before, e := events[..|events| - 1], events[|events| - 1];
      assert before + [e] == events;
      UnkeyedMine(before, maxLive);
      RunBase(before, maxLive);
      RunThen(Start(), before, e, maxLive);
      UnkeyedStep(Run(Start(), before, maxLive), e, maxLive);
    }
  }

  /** The ceiling without idempotency keys: it holds over every run in which no create lands late, whichever
      writes go unanswered. */
  lemma UnkeyedCeiling(events: seq<Event>, maxLive: nat)
    requires Prompt(events, maxLive) && forall e <- events :: e.Begin? ==> e.scope.None?
    ensures var s := Run(Start(), events, maxLive); Reserved(s) + |Uncounted(s)| <= maxLive
  {
    hide Prompt, Reserved, Uncounted, Run, Start;
    forall id ensures !LostDelete(events, id, maxLive) {
      forall k: nat | k < |events| ensures !LosesDelete(Upto(events, k, maxLive), events[k], id) {
        UnkeyedMine(events[..k], maxLive);
        RunBase(events[..k], maxLive);
        if LosesDelete(Upto(events, k, maxLive), events[k], id) {
          NoKeyNoWithdrawal(Upto(events, k, maxLive), id);
        }
      }
    }
    CeilingWhenAnswered(events, maxLive);
  }

  lemma NoKeyNoWithdrawal(s: Replica, id: Id)
    requires Base(s) && id in s.p.pubs && s.p.pubs[id].scope.None?
    ensures !s.p.pubs[id].step.WithdrawingJob?
  {
    assert PubOk(s.p, id, s.p.pubs[id]);
  }
}
