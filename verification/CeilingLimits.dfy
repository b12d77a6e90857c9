/**
 * Why the ceiling of module Ceiling needs both of its conditions: runs of one replica
 * with a ceiling of 1 that end with two Collections to account for, two in which a create
 * lands late and nothing is keyed, two in which a keyed withdrawal does not hear the answer
 * to its record's delete and no write lands late.
 */
module CeilingLimits {
  import opened Wrappers
  import opened JobStore
  import Publication
  import opened Following
  import opened Ceiling

  // What each of the two runs stays clear of: a key, or a write that takes effect late.
  predicate Clear(e: Event, scope: Option<Scope>) {
    if scope.None? then e.Begin? ==> e.scope.None?
    else !(e.Other? && e.a.Land?) && (e.Begin? ==> e.scope == scope)
  }

  ghost predicate Reaches(events: seq<Event>, scope: Option<Scope>, s: Replica) {
    Run(Start(), events, 1) == s && forall e <- events :: Clear(e, scope)
  }

  // What one further event makes of a run.
  lemma Then(events: seq<Event>, scope: Option<Scope>, s: Replica, e: Event, t: Replica)
    requires Reaches(events, scope, s) && Clear(e, scope) && Next(s, e, 1) == t
    ensures Reaches(events + [e], scope, t)
  {
    hide Next, Start, Clear;
    RunThen(Start(), events, e, 1);
  }

  // ---- Both runs begin alike ----

  const EMPTY := Store(0, map[], map[], map[])

  function Pubs(scope: Option<Scope>, step: Publication.Stage, claim: Publication.Claim): map<Id, Publication.Pub> {
    map[7 := Publication.Pub(3, scope, step, claim)]
  }

  const PUB_ANSWERED := Other(Publication.PubStep(7, Publication.Answered))

  function PubLost(ticket: nat): Event {
    Other(Publication.PubStep(7, Publication.Lost(ticket)))
  }

  // One reservation taken and its publication begun, behind two caches that are complete and empty.
  function Begun(scope: Option<Scope>): Replica {
    Replica(Publication.State(EMPTY, Pubs(scope, Publication.CreatingJob, Publication.Untracked), {}, map[], map[]),
            [EMPTY, EMPTY], 0, {7}, {}, {}, Synced(0), Synced(0))
  }

  lemma Replays(scope: Option<Scope>)
    ensures Reaches([JobsMove(Complete), ActiveMove(Complete)], scope, Start().(jobs := Synced(0), active := Synced(0)))
  {
    var s0 := Start();
    var s1 := s0.(jobs := Synced(0));
    assert s0.hist[0].jobs.Keys == {} && s0.hist[0].active.Keys == {};
    assert Reaches([], scope, s0);
    Then([], scope, s0, JobsMove(Complete), s1);
    assert [] + [JobsMove(Complete)] == [JobsMove(Complete)];
    Then([JobsMove(Complete)], scope, s1, ActiveMove(Complete), s1.(active := Synced(0)));
    assert [JobsMove(Complete)] + [ActiveMove(Complete)] == [JobsMove(Complete), ActiveMove(Complete)];
  }

  lemma Begins(scope: Option<Scope>) returns (events: seq<Event>)
    ensures Reaches(events, scope, Begun(scope))
  {
    hide Reaches;
    Replays(scope);
    events := [JobsMove(Complete), ActiveMove(Complete)];
    var s2 := Start().(jobs := Synced(0), active := Synced(0));
    var s3 := s2.(idle := 1);
    assert CachedLive(s2) == {} && Holding(s2) == {};
    Then(events, scope, s2, Reserve, s3);
    events := events + [Reserve];
    Then(events, scope, s3, Begin(7, 3, scope), Begun(scope));
    events := events + [Begin(7, 3, scope)];
  }

  lemma Reserves(events: seq<Event>, scope: Option<Scope>, s: Replica)
    requires Reaches(events, scope, s) && s.jobs.Synced? && s.active.Synced?
    requires s.jobs.at < |s.hist| && s.active.at < |s.hist|
    requires s.hist[s.jobs.at].jobs == map[] && s.hist[s.active.at].active == map[]
    requires s.idle == 0 && s.mine == {7} && s.released == {7} && 7 in s.p.pubs && s.p.pubs[7].svc == 3
    requires 7 in s.p.store.jobs && s.p.store.jobs[7].value.Initializing?
    ensures exists t :: Reaches(events + [Reserve], scope, t) && Reserved(t) + |Uncounted(t)| == 2
  {
    hide Reaches;
    assert CachedLive(s) == {} && Holding(s) == {};
    var t := s.(idle := 1);
    Then(events, scope, s, Reserve, t);
    assert Holding(t) == {};
    assert 3 == Svc(t, 7) && 3 in Uncounted(t);
    assert Uncounted(t) == {3};
  }

  // ---- An unkeyed publication whose record create lands late ----

  function LostCreate(): Replica {
    Replica(Publication.State(EMPTY, Pubs(None, Publication.Ended(Publication.Errored), Publication.Tracked), {},
                              map[0 := CreateJob(7)], map[]),
            [EMPTY, EMPTY, EMPTY], 0, {7}, {}, {}, Synced(0), Synced(0))
  }

  function LandedLate(): Replica {
    Replica(Publication.State(CREATED, LostCreate().p.pubs, {7}, map[], map[]),
            [EMPTY, EMPTY, EMPTY, CREATED], 0, {7}, {7}, {7}, Synced(0), Synced(0))
  }

  lemma LosesCreate() returns (events: seq<Event>)
    ensures Reaches(events, None, LostCreate())
  {
    hide Reaches;
    events := Begins(None);
    Then(events, None, Begun(None), PubLost(0), LostCreate());
    events := events + [PubLost(0)];
  }

  lemma ChecksRecord() returns (events: seq<Event>)
    ensures Reaches(events, None, LostCreate().(checked := {7}))
  {
    hide Reaches;
    events := LosesCreate();
    assert Holding(LostCreate()) == {7};
    Then(events, None, LostCreate(), ReadRecord(7), LostCreate().(checked := {7}));
    events := events + [ReadRecord(7)];
  }

  // The record lands after the rule's two reads, or between them.
  lemma LandsLate(between: bool) returns (events: seq<Event>)
    ensures Reaches(events, None, LandedLate())
  {
    hide Reaches;
    events := ChecksRecord();
    var s2 := LostCreate().(checked := {7});
    var lands := Other(Publication.Land(0));
    assert Holding(s2) == {7};
    if between {
      var s3 := LandedLate().(released := {});
      Then(events, None, s2, lands, s3);
      events := events + [lands];
      assert Holding(s3) == {7};
      Then(events, None, s3, ReadActive(7), LandedLate());
      events := events + [ReadActive(7)];
    } else {
      var s3 := s2.(released := {7});
      Then(events, None, s2, ReadActive(7), s3);
      events := events + [ReadActive(7)];
      Then(events, None, s3, lands, LandedLate());
      events := events + [lands];
    }
  }

  /** An unkeyed publication whose lost record create lands after the release rule found nothing, or
      after the first of its two reads did. */
  lemma LateCreateExceeds(between: bool) returns (events: seq<Event>)
    ensures forall e <- events :: e.Begin? ==> e.scope.None?
    ensures var s := Run(Start(), events, 1); Reserved(s) + |Uncounted(s)| == 2
  {
    var before := LandsLate(between);
    Reserves(before, None, LandedLate());
    events := before + [Reserve];
    var t :| Reaches(events, None, t) && Reserved(t) + |Uncounted(t)| == 2;
    assert forall e <- events :: Clear(e, None);
  }

  // ---- A withdrawn keyed publication whose record delete was lost ----

  const CREATED := Store(1, map[7 := Versioned(Initializing, 1)], map[], map[])
  const CLAIMED := Store(2, map[7 := Versioned(Initializing, 1)], map[3 := Versioned(7, 2)], map[])
  const FREED := Store(3, map[7 := Versioned(Initializing, 1)], map[], map[])

  // The receipt create lost twice, then the record delete.
  function LostOnes(n: nat): map<nat, Call>
    requires n <= 3
  {
    if n == 0 then map[]
    else LostOnes(n - 1)[n - 1 := if n < 3 then CreateReceipt(5, 7) else DeleteJob(7, 1)]
  }

  // One state of the run, after the active key was created and before it is deleted.
  function Keyed(step: Publication.Stage, lost: nat, released: set<Id>, active: Follow<Service>): Replica
    requires lost <= 3
  {
    Replica(Publication.State(CLAIMED, Pubs(Some(5), step, Publication.Tracked), {7}, LostOnes(lost), map[]),
            [EMPTY, EMPTY, CREATED, CLAIMED] + seq(lost, _ => CLAIMED), 0, {7}, released, {}, Synced(0), active)
  }

  const FIRST := Publication.CreatingReceipt(1, 2, Publication.First)
  const SECOND := Publication.CreatingReceipt(1, 2, Publication.Second)

  lemma KeyedBegins() returns (events: seq<Event>)
    ensures Reaches(events, Some(5), Keyed(FIRST, 0, {}, Synced(0)))
  {
    hide Reaches;
    events := Begins(Some(5));
    var s0 := Begun(Some(5));
    var pubs := Pubs(Some(5), Publication.CreatingActive(1), Publication.Untracked);
    var s1 := Replica(Publication.State(CREATED, pubs, {7}, map[], map[]),
                      [EMPTY, EMPTY, CREATED], 0, {7}, {}, {}, Synced(0), Synced(0));
    Then(events, Some(5), s0, PUB_ANSWERED, s1);
    events := events + [PUB_ANSWERED];
    var s2 := Keyed(FIRST, 0, {}, Synced(0));
    assert s2.hist == [EMPTY, EMPTY, CREATED, CLAIMED];
    Then(events, Some(5), s1, PUB_ANSWERED, s2);
    events := events + [PUB_ANSWERED];
  }

  // A cache shows the active key.
  lemma KeyedSeen(before: seq<Event>) returns (events: seq<Event>)
    requires Reaches(before, Some(5), Keyed(FIRST, 0, {}, Synced(0)))
    ensures Reaches(events, Some(5), Keyed(FIRST, 0, {}, Synced(3)))
  {
    hide Reaches;
    events := before;
    assert Keyed(FIRST, 0, {}, Synced(0)).hist == [EMPTY, EMPTY, CREATED, CLAIMED];
    var key: set<nat> := {3};
    assert CLAIMED.active.Keys == key && {} + key == key;
    var s0, s1 := Keyed(FIRST, 0, {}, Synced(0)), Keyed(FIRST, 0, {}, Replaying(3, {}));
    var s2 := Keyed(FIRST, 0, {}, Replaying(3, {3}));
    Then(events, Some(5), s0, ActiveMove(Restart(3)), s1);
    events := events + [ActiveMove(Restart(3))];
    Then(events, Some(5), s1, ActiveMove(Receive(3)), s2);
    events := events + [ActiveMove(Receive(3))];
    Then(events, Some(5), s2, ActiveMove(Complete), Keyed(FIRST, 0, {}, Synced(3)));
    events := events + [ActiveMove(Complete)];
  }

  // The reservation is given back on the sight of the key, current or not.
  lemma KeyedReleases(events: seq<Event>, s: Replica)
    requires Reaches(events, Some(5), s) && s.mine == {7} && s.released == {}
    requires 7 in s.p.pubs && s.p.pubs[7].svc == 3 && s.p.pubs[7].claim.Tracked?
    requires Placed(s) && s.active.Synced? && s.hist[s.active.at] == CLAIMED
    ensures Reaches(events + [ReleaseSeen(7)], Some(5), s.(released := {7}))
  {
    hide Reaches;
    assert Holding(s) == {7};
    Then(events, Some(5), s, ReleaseSeen(7), s.(released := {7}));
  }

  lemma KeyedLosesOne(events: seq<Event>, step: Publication.Stage, next: Publication.Stage, n: nat, released: set<Id>)
    requires n < 3 && Reaches(events, Some(5), Keyed(step, n, released, Synced(3)))
    requires var p := Publication.Pub(3, Some(5), step, Publication.Tracked);
             && Publication.PubCall(7, p) == Some(LostOnes(n + 1)[n])
             && Publication.PubAfter(p, Publication.Unavailable) == p.(step := next)
    ensures Reaches(events + [PubLost(n)], Some(5), Keyed(next, n + 1, released, Synced(3)))
  {
    hide Reaches;
    var s, t := Keyed(step, n, released, Synced(3)), Keyed(next, n + 1, released, Synced(3));
    assert n !in LostOnes(n);
    assert t.p.pubs == s.p.pubs[7 := Publication.PubAfter(s.p.pubs[7], Publication.Unavailable)];
    assert t.hist == s.hist + [CLAIMED];
    Then(events, Some(5), s, PubLost(n), t);
  }

  function Withdrawn(released: set<Id>, active: Follow<Service>): Replica {
    var pubs := Pubs(Some(5), Publication.Withdrawn, Publication.Tracked);
    Replica(Publication.State(FREED, pubs, {7}, LostOnes(3), map[]),
            [EMPTY, EMPTY, CREATED, CLAIMED, CLAIMED, CLAIMED, CLAIMED, FREED], 0, {7}, released, {}, Synced(0), active)
  }

  // Two receipt creates and the record delete are lost, and the active key is deleted.
  lemma KeyedWithdraws(before: seq<Event>, released: set<Id>) returns (events: seq<Event>)
    requires Reaches(before, Some(5), Keyed(FIRST, 0, released, Synced(3)))
    ensures Reaches(events, Some(5), Withdrawn(released, Synced(3)))
  {
    hide Reaches;
    var deleting, freeing := Publication.WithdrawingJob(1, 2), Publication.WithdrawingActive(2);
    events := before;
    KeyedLosesOne(events, FIRST, SECOND, 0, released);
    events := events + [PubLost(0)];
    KeyedLosesOne(events, SECOND, deleting, 1, released);
    events := events + [PubLost(1)];
    KeyedLosesOne(events, deleting, freeing, 2, released);
    events := events + [PubLost(2)];
    var s := Keyed(freeing, 3, released, Synced(3));
    assert s.hist == [EMPTY, EMPTY, CREATED, CLAIMED, CLAIMED, CLAIMED, CLAIMED];
    Then(events, Some(5), s, PUB_ANSWERED, Withdrawn(released, Synced(3)));
    events := events + [PUB_ANSWERED];
  }

  // The active cache replays without the key.
  lemma KeyedForgets(before: seq<Event>) returns (events: seq<Event>)
    requires Reaches(before, Some(5), Withdrawn({7}, Synced(3)))
    ensures Reaches(events, Some(5), Withdrawn({7}, Synced(7)))
  {
    hide Reaches;
    assert FREED.active.Keys == {};
    Then(before, Some(5), Withdrawn({7}, Synced(3)), ActiveMove(Restart(7)), Withdrawn({7}, Replaying(7, {})));
    events := before + [ActiveMove(Restart(7))];
    Then(events, Some(5), Withdrawn({7}, Replaying(7, {})), ActiveMove(Complete), Withdrawn({7}, Synced(7)));
    events := events + [ActiveMove(Complete)];
  }

  /** A keyed publication that withdrew: its record delete was lost, its active key is gone, its
      reservation was given back when a cache showed that key, before it went or on the stale sight of
      it, and no cache shows the record yet. */
  lemma KeyedWithdrawExceeds(stale: bool) returns (events: seq<Event>)
    ensures forall e <- events :: !(e.Other? && e.a.Land?)
    ensures var s := Run(Start(), events, 1); Reserved(s) + |Uncounted(s)| == 2
  {
    var before := KeyedBegins();
    before := KeyedSeen(before);
    if stale {
      before := KeyedWithdraws(before, {});
      KeyedReleases(before, Withdrawn({}, Synced(3)));
      before := before + [ReleaseSeen(7)];
    } else {
      KeyedReleases(before, Keyed(FIRST, 0, {}, Synced(3)));
      before := KeyedWithdraws(before + [ReleaseSeen(7)], {7});
    }
    before := KeyedForgets(before);
    Reserves(before, Some(5), Withdrawn({7}, Synced(7)));
    events := before + [Reserve];
    var t :| Reaches(events, Some(5), t) && Reserved(t) + |Uncounted(t)| == 2;
    assert forall e <- events :: Clear(e, Some(5));
  }
}
