/**
 * Waiting for a Collection to move: the fan-out of the job watch and the long poll that
 * parks on it (internal/pgo/caches.go:252-293, 396-404; internal/httpapi/pgo_collections.go:863-917).
 */
module Wakeup {
  import opened Wrappers
  import opened JobStore

  type Chan = nat

  type Registry = map<Id, set<Chan>>  // who waits on which record; no empty sets

  // ---- What the three operations do ----

  function Waiting(r: Registry, id: Id): set<Chan> {
    if id in r then r[id] else {}
  }

  function Added(r: Registry, id: Id, ch: Chan): Registry {
    r[id := Waiting(r, id) + {ch}]
  }

  function Removed(r: Registry, id: Id, ch: Chan): Registry {
    if id !in r then r
    else if r[id] - {ch} == {} then r - {id}
    else r[id := r[id] - {ch}]
  }

  // A one-slot channel that is full stays full.
  function Pulsed(r: Registry, full: set<Chan>, id: Id): set<Chan> {
    full + Waiting(r, id)
  }

  class Subscribers {
    var subscribers: Registry
    var full: set<Chan>  // channels holding a pulse nobody has taken
    var made: nat        // channels made so far

    ghost predicate Valid()
      reads this
    {
      && (forall id <- subscribers :: subscribers[id] != {} && forall ch <- subscribers[id] :: ch < made)
      && (forall ch <- full :: ch < made)
    }

    constructor ()
      ensures Valid() && subscribers == map[] && full == {}
    {
      subscribers, full, made := map[], {}, 0;
    }

    /** A channel of its own, empty, registered for one record. */
    method Subscribe(id: Id) returns (ch: Chan)
      requires Valid()
      modifies this
      ensures Valid() && subscribers == Added(old(subscribers), id, ch) && full == old(full)
      ensures ch !in full && forall other <- old(subscribers) :: ch !in old(subscribers)[other]
    {
      ch := made;
      made := made + 1;
      var byID := if id in subscribers then subscribers[id] else {};
      subscribers := subscribers[id := byID + {ch}];
    }

    method Unsubscribe(id: Id, ch: Chan)
      requires Valid()
      modifies this`subscribers
      ensures Valid() && subscribers == Removed(old(subscribers), id, ch)
    {
      if id !in subscribers {
        return;
      }
      var byID := subscribers[id] - {ch};
      if |byID| == 0 {
        subscribers := subscribers - {id};
      } else {
        subscribers := subscribers[id := byID];
      }
    }

    /** Every channel waiting on the record holds a pulse afterwards, and no other channel gains one. */
    method PulseSubscribers(id: Id)
      requires Valid()
      modifies this`full
      ensures Valid() && full == Pulsed(subscribers, old(full), id)
    {
      var rest := if id in subscribers then subscribers[id] else {};
      while rest != {}
        invariant rest <= Waiting(subscribers, id) && Valid()
        invariant full == old(full) + (Waiting(subscribers, id) - rest)
      {
        var ch :| ch in rest;
        rest := rest - {ch};
        if ch !in full {
          full := full + {ch};
        }
      }
    }
  }

  // ---- Any number of waits over one cache ----

  datatype Phase =
    | Subscribed
    | Reading(since: nat)             // the version current when the read began
    | Parked(read: nat)               // the version it read; it has decided to wait
    | Woken
    | Answered(read: nat)
    | Left

  // A passed deadline keeps the version that was current then.
  datatype Wait = Wait(id: Id, phase: Phase, deadline: Option<nat>)

  datatype State = State(
    store: map<Id, nat>,              // versions written of each record
    shown: map<Id, nat>,              // the newest version the cache has applied
    registry: Registry,
    full: set<Chan>,
    waits: map<Chan, Wait>,
    stirred: set<Chan>)               // an entry of the record has been applied since the last read began

  datatype Event =
    | Write(id: Id)
    | Apply(id: Id, version: nat)     // an entry reaches the cache; a replay may repeat one
    | Subscribe(ch: Chan, id: Id)
    | BeginRead(ch: Chan)
    | EndRead(ch: Chan, version: nat, moved: bool)
    | FailRead(ch: Chan)
    | TakePulse(ch: Chan)
    | Deadline(ch: Chan)
    | Leave(ch: Chan)                 // a drain, a generation move, or the client left
    | Unsubscribe(ch: Chan)           // the request ends

  function Version(m: map<Id, nat>, id: Id): nat {
    if id in m then m[id] else 0
  }

  function To(s: State, ch: Chan, w: Wait): State {
    s.(waits := s.waits[ch := w])
  }

  function Next(s: State, e: Event): State {
    match e
    case Write(id) => s.(store := s.store[id := Version(s.store, id) + 1])
    case Apply(id, version) =>
      if version > Version(s.store, id) then s
      else
        var newest := if version > Version(s.shown, id) then version else Version(s.shown, id);
        s.(shown := s.shown[id := newest], full := Pulsed(s.registry, s.full, id),
        stirred := s.stirred + set ch <- s.waits | s.waits[ch].id == id)
    case Subscribe(ch, id) =>
      if ch in s.waits then s
      else To(s, ch, Wait(id, Subscribed, None)).(registry := Added(s.registry, id, ch))
    case _ =>
      var ch := e.ch;
      if ch !in s.waits then s else
      var w := s.waits[ch];
      match e
      case BeginRead(_) =>
        if w.phase.Subscribed? || w.phase.Woken? then
          To(s, ch, w.(phase := Reading(Version(s.store, w.id)))).(stirred := s.stirred - {ch})
        else s
      case EndRead(_, version, moved) =>
        if !w.phase.Reading? || version < w.phase.since || version > Version(s.store, w.id) then s
        else To(s, ch, w.(phase := if w.deadline.Some? || moved then Answered(version) else Parked(version)))
      case FailRead(_) => if w.phase.Reading? then To(s, ch, w.(phase := Left)) else s
      case TakePulse(_) =>
        if w.phase.Parked? && ch in s.full then To(s, ch, w.(phase := Woken)).(full := s.full - {ch}) else s
      case Deadline(_) =>
        if w.phase.Parked? then To(s, ch, w.(phase := Woken, deadline := Some(Version(s.store, w.id)))) else s
      case Leave(_) => if w.phase.Parked? then To(s, ch, w.(phase := Left)) else s
      case Unsubscribe(_) =>
        if w.phase.Answered? || w.phase.Left? then s.(registry := Removed(s.registry, w.id, ch)) else s
      case _ => s
  }

  function Run(s: State, events: seq<Event>): State
    decreases |events|
  {
    if events == [] then s else Run(Next(s, events[0]), events[1..])
  }

  function Start(): State {
    State(map[], map[], map[], {}, map[], {})
  }

  // ---- No wake-up is lost ----

  predicate Open(w: Wait) {
    !w.phase.Answered? && !w.phase.Left?
  }

  ghost predicate Heard(s: State, ch: Chan, w: Wait) {
    && (Open(w) ==> ch in Waiting(s.registry, w.id))
    && (w.phase.Reading? && w.phase.since < Version(s.shown, w.id) ==> ch in s.full)
    && (w.phase.Parked? && w.phase.read < Version(s.shown, w.id) ==> ch in s.full)
    && (w.phase.Reading? || w.phase.Parked? ==> ch in s.stirred ==> ch in s.full)
    && (w.deadline.Some? ==>
          && !w.phase.Parked? && !w.phase.Subscribed? && w.deadline.value <= Version(s.store, w.id)
          && (w.phase.Reading? ==> w.phase.since >= w.deadline.value)
          && (w.phase.Answered? ==> w.phase.read >= w.deadline.value))
  }

  ghost predicate Registered(s: State) {
    forall id <- s.registry, ch <- s.registry[id] :: ch in s.waits && s.waits[ch].id == id
  }

  ghost predicate Behind(s: State) {
    forall id <- s.shown :: s.shown[id] <= Version(s.store, id)
  }

  ghost predicate Inv(s: State) {
    Behind(s) && Registered(s) && forall ch <- s.waits :: Heard(s, ch, s.waits[ch])
  }

  // What one wait does leaves every other wait as it was heard.
  lemma OthersHeard(s: State, e: Event, ch: Chan)
    requires Inv(s) && !e.Write? && !e.Apply? && !e.Subscribe? && e.ch != ch && ch in s.waits
    ensures var t := Next(s, e); ch in t.waits && t.waits[ch] == s.waits[ch] && Heard(t, ch, t.waits[ch])
  {
    assert Heard(s, ch, s.waits[ch]);
  }

  lemma OwnHeard(s: State, e: Event)
    requires Inv(s) && !e.Write? && !e.Apply? && !e.Subscribe? && e.ch in s.waits
    ensures var t := Next(s, e); e.ch in t.waits && Heard(t, e.ch, t.waits[e.ch])
  {
    assert Heard(s, e.ch, s.waits[e.ch]);
  }

  // Nor does a write, an entry applied, or another subscription.
  lemma CacheHeard(s: State, e: Event, ch: Chan)
    requires Inv(s) && (e.Write? || e.Apply? || e.Subscribe?) && ch in Next(s, e).waits
    ensures Heard(Next(s, e), ch, Next(s, e).waits[ch])
  {
    if ch in s.waits { assert Heard(s, ch, s.waits[ch]); }
  }

  lemma RegistryKept(s: State, e: Event)
    requires Registered(s)
    ensures Registered(Next(s, e)) && s.waits.Keys <= Next(s, e).waits.Keys
    ensures forall ch <- Next(s, e).waits :: ch in s.waits || (e.Subscribe? && ch == e.ch)
  {
  }

  lemma BehindKept(s: State, e: Event)
    requires Behind(s)
    ensures Behind(Next(s, e))
  {
  }

  lemma NextKeeps(s: State, e: Event)
    requires Inv(s)
    ensures Inv(Next(s, e))
  {
    hide Next, Heard, Registered, Behind;
    RegistryKept(s, e);
    BehindKept(s, e);
    var t := Next(s, e);
    forall ch <- t.waits ensures Heard(t, ch, t.waits[ch]) {
      if e.Write? || e.Apply? || e.Subscribe? {
        CacheHeard(s, e, ch);
      } else if e.ch == ch {
        OwnHeard(s, e);
      } else {
        OthersHeard(s, e, ch);
      }
    }
  }

  lemma {:induction false} RunKeeps(s: State, events: seq<Event>)
    requires Inv(s)
    ensures Inv(Run(s, events))
    decreases |events|
  {
    hide Inv, Next;
    if events != [] {
      NextKeeps(s, events[0]);
      RunKeeps(Next(s, events[0]), events[1..]);
    }
  }

  /** Whatever entry of its record was applied since a parked request last began to read, one of a replay
      included, has left a pulse in its channel. */
  lemma EveryEntryPulses(events: seq<Event>, ch: Chan)
    requires var s := Run(Start(), events); ch in s.waits && s.waits[ch].phase.Parked? && ch in s.stirred
    ensures ch in Run(Start(), events).full
  {
    RunKeeps(Start(), events);
    var s := Run(Start(), events);
    assert Heard(s, ch, s.waits[ch]);
  }

  /** A request parked with nothing in its channel has read at least the newest version the cache has
      shown of its record, whatever entries, subscriptions and other requests came in between. */
  lemma NoLostWakeup(events: seq<Event>, ch: Chan)
    requires var s := Run(Start(), events); ch in s.waits && s.waits[ch].phase.Parked? && ch !in s.full
    ensures var s := Run(Start(), events); s.waits[ch].phase.read >= Version(s.shown, s.waits[ch].id)
  {
    RunKeeps(Start(), events);
    var s := Run(Start(), events);
    assert Heard(s, ch, s.waits[ch]);
  }

  /** An answer given because the deadline passed comes from a read of what was current then, or newer. */
  lemma DeadlineAnswersFresh(events: seq<Event>, ch: Chan)
    requires var s := Run(Start(), events); ch in s.waits && s.waits[ch].phase.Answered? && s.waits[ch].deadline.Some?
    ensures var s := Run(Start(), events); s.waits[ch].phase.read >= s.waits[ch].deadline.value
  {
    RunKeeps(Start(), events);
    var s := Run(Start(), events);
    assert Heard(s, ch, s.waits[ch]);
  }

  // ---- A request is answered ----

  lemma {:induction false} RunSplits(s: State, before: seq<Event>, after: seq<Event>)
    ensures Run(s, before + after) == Run(Run(s, before), after)
    decreases |before|
  {
    hide Next;
    if before == [] {
      assert before + after == after;
    } else {
      assert (before + after)[1..] == before[1..] + after;
      RunSplits(Next(s, before[0]), before[1..], after);
    }
  }

  // Once answered, it stays answered.
  lemma {:induction false} AnsweredStays(s: State, events: seq<Event>, ch: Chan, version: nat)
    requires ch in s.waits && s.waits[ch].phase == Answered(version)
    ensures ch in Run(s, events).waits && Run(s, events).waits[ch].phase == Answered(version)
    decreases |events|
  {
    if events != [] { AnsweredStays(Next(s, events[0]), events[1..], ch, version); }
  }

  /** A read that saw the record move is answered with what it read, and so is any read after the deadline;
      no later event takes the answer back. */
  lemma MovedReadAnswers(events: seq<Event>, ch: Chan, version: nat, moved: bool, more: seq<Event>)
    requires var s := Run(Start(), events);
             && ch in s.waits && s.waits[ch].phase.Reading?
             && s.waits[ch].phase.since <= version <= Version(s.store, s.waits[ch].id)
             && (moved || s.waits[ch].deadline.Some?)
    ensures var t := Run(Start(), events + [EndRead(ch, version, moved)] + more);
            ch in t.waits && t.waits[ch].phase == Answered(version)
  {
    var e := EndRead(ch, version, moved);
    RunSplits(Start(), events + [e], more);
    RunSplits(Start(), events, [e]);
    assert Run(Run(Start(), events), [e]) == Next(Run(Start(), events), e) by {
      assert Run(Next(Run(Start(), events), e), []) == Next(Run(Start(), events), e);
    }
    AnsweredStays(Run(Start(), events + [e]), more, ch, version);
  }

  /** A parked request with a pulse in its channel, or whose deadline passes, reads again, and what answers it may
      be the newest version there is. */
  lemma PulseOrDeadlineAnswers(events: seq<Event>, ch: Chan, wake: Event, moved: bool)
    requires var s := Run(Start(), events);
             && ch in s.waits && s.waits[ch].phase.Parked?
             && ((wake == TakePulse(ch) && ch in s.full && moved) || wake == Deadline(ch))
    ensures var s := Run(Start(), events);
            var newest := Version(s.store, s.waits[ch].id);
            var t := Next(Next(Next(s, wake), BeginRead(ch)), EndRead(ch, newest, moved));
            ch in t.waits && t.waits[ch].phase == Answered(newest)
  {
    var s := Run(Start(), events);
    hide Run;
    var w := s.waits[ch];
    var s1 := Next(s, wake);
    assert ch in s1.waits && s1.waits[ch] == w.(phase := Woken, deadline := s1.waits[ch].deadline);
    assert s1.store == s.store;
    assert s1.waits[ch].deadline.Some? || moved;
    var s2 := Next(s1, BeginRead(ch));
    assert s2.waits[ch] == s1.waits[ch].(phase := Reading(Version(s.store, w.id))) && s2.store == s.store;
  }

  // The read that answered it had seen the record move, or the deadline had passed.
  ghost predicate AnsweredBy(events: seq<Event>, k: nat, ch: Chan, version: nat)
    requires k < |events|
  {
    var s := Run(Start(), events[..k]);
    && ch in s.waits && s.waits[ch].phase.Reading? && events[k].EndRead? && events[k].ch == ch
    && events[k].version == version && (events[k].moved || s.waits[ch].deadline.Some?)
  }

  lemma AnsweredStep(s: State, e: Event, ch: Chan, version: nat)
    requires ch in Next(s, e).waits && Next(s, e).waits[ch].phase == Answered(version)
    ensures ch in s.waits
    ensures || s.waits[ch].phase == Answered(version)
            || (&& s.waits[ch].phase.Reading? && e.EndRead? && e.ch == ch && e.version == version
                && (e.moved || s.waits[ch].deadline.Some?))
  {
  }

  /** No request is answered for nothing: some read of it saw the record move, or came after its deadline. */
  lemma {:induction false} AnsweredForAReason(events: seq<Event>, ch: Chan, version: nat)
    requires var s := Run(Start(), events); ch in s.waits && s.waits[ch].phase == Answered(version)
    ensures exists k: nat :: k < |events| && AnsweredBy(events, k, ch, version)
    decreases |events|
  {
    hide Next;
    if events != [] {
      var before, e := events[..|events| - 1], events[|events| - 1];
      assert before + [e] == events;
      RunSplits(Start(), before, [e]);
      assert Run(Run(Start(), before), [e]) == Next(Run(Start(), before), e) by {
        assert Run(Next(Run(Start(), before), e), []) == Next(Run(Start(), before), e);
      }
      AnsweredStep(Run(Start(), before), e, ch, version);
      if Run(Start(), before).waits[ch].phase == Answered(version) {
        AnsweredForAReason(before, ch, version);
        var k: nat :| k < |before| && AnsweredBy(before, k, ch, version);
        assert events[..k] == before[..k];
        assert AnsweredBy(events, k, ch, version);
      } else {
        assert AnsweredBy(events, |before|, ch, version);
      }
    }
  }
}
