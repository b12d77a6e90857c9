/**
 * A watch of module Barrier, with the cache it feeds, is a place in the history of its prefix:
 * every step is moves of module Following, through cuts and new generations. This is what the
 * ceiling takes its caches to be.
 */
module BarrierFollows {
  import opened WatchedCache
  import opened Following
  import opened Barrier

  // The keys under the prefix after each number of writes.
  ghost function Contents(log: seq<Change>): seq<set<Key>> {
    seq(|log| + 1, i requires 0 <= i <= |log| => WatchedCache.At(log, i).Keys)
  }

  ghost function PlaceOf(at: Progress): Follow<Key> {
    if at.live then Synced(at.pos) else Replaying(at.open, at.got)
  }

  // The cache has heard of the current generation.
  ghost predicate InForce(c: Client, w: Watch) {
    w.seen.Some? && w.cache.gen == c.gen
  }

  // The moves one step of the watch makes: only an entry of the current generation, applied, makes any.
  ghost function MovesOf(c: Client, w: Watch, a: Act): seq<Move<Key>> {
    if !a.Apply? || w.ch == [] || w.ch[0].gen != c.gen then []
    else
      var e := w.ch[0];
      var step :=
        match e.message
        case Marker => Complete
        case Item(change) => if InForce(c, w) && w.seen.value.live then Advance else Receive(change.key);
      if InForce(c, w) then [step] else [Restart(e.at.open), step]
  }

  ghost predicate Refines(c: Client, w: Watch, f: Follow<Key>) {
    if InForce(c, w) then f == PlaceOf(w.seen.value) else f.at <= w.began
  }

  lemma ApplyRefines(c: Client, w: Watch, f: Follow<Key>)
    requires Ok(c, w) && Refines(c, w, f) && w.ch != [] && w.ch[0].gen == c.gen
    ensures Refines(c, Acts(c, w, Apply), MovedAll(f, MovesOf(c, w, Apply), Contents(w.log)))
  {
    hide WatchedCache.At, Followed, Continues, Shows;
    var e := w.ch[0];
    assert Follows(w, c.gen, Before(w, 0), e);
    var contents := Contents(w.log);
    var ms := MovesOf(c, w, Apply);
    var at := if InForce(c, w) then w.seen.value else Fresh(c.gen, e.at.open);
    var start := if InForce(c, w) then f else Following.Moved(f, ms[0], contents);
    assert start == PlaceOf(at);
    var step := ms[|ms| - 1];
    assert Following.Moved(start, step, contents) == PlaceOf(e.at);
    assert MovedAll(start, [step], contents) == Following.Moved(start, step, contents) by {
      assert [step][1..] == [];
    }
    if !InForce(c, w) { assert ms[1..] == [step]; }
  }

  lemma ActRefines(c: Client, w: Watch, a: Act, f: Follow<Key>)
    requires Ok(c, w) && Refines(c, w, f)
    ensures Refines(c, Acts(c, w, a), MovedAll(f, MovesOf(c, w, a), Contents(w.log)))
  {
    if a.Apply? && w.ch != [] && w.ch[0].gen == c.gen {
      ApplyRefines(c, w, f);
    } else {
      hide Linked, Continues, Shows, WatchedCache.At;
      if a.Apply? && w.ch != [] { assert w.ch[0] in w.ch; }
    }
  }

  lemma GenerationRefines(c: Client, w: Watch, d: Client, f: Follow<Key>)
    requires Ok(c, w) && Refines(c, w, f) && d.gen == c.gen + 1
    ensures Refines(d, Begun(w), f)
  {
    hide Linked, Continues, WatchedCache.At, Followed;
  }

  // ---- A whole run of the barrier, followed ----

  ghost function FollowedStep(s: State, ev: Event, k: nat, f: Follow<Key>): Follow<Key>
    requires k < |s.watches|
  {
    if ev.At? && ev.w == k then MovedAll(f, MovesOf(s.client, s.watches[k], ev.act), Contents(s.watches[k].log)) else f
  }

  lemma StepRefines(s: State, ev: Event, k: nat, f: Follow<Key>)
    requires Barrier.Inv(s) && k < |s.watches| && Refines(s.client, s.watches[k], f)
    ensures |Next(s, ev).watches| == |s.watches|
    ensures Refines(Next(s, ev).client, Next(s, ev).watches[k], FollowedStep(s, ev, k, f))
  {
    hide Ok, Acts, Refines;
    var w := s.watches[k];
    assert Ok(s.client, w);
    var here := ev.At? && ev.w == k;
    var moves := ev.At? && ev.w < |s.watches| && ev.act.Closed? && s.watches[ev.w].loop.Consuming? && s.client.link.Up?;
    if here && moves {
      ClosedRefines(s.client, w, f);
    } else if here {
      ActRefines(s.client, w, ev.act, f);
    } else if moves || (ev.Callback? && s.client.link.Dropped?) {
      GenerationRefines(s.client, w, Next(s, ev).client, f);
    } else {
      QuietRefines(s.client, w, Next(s, ev).client, Next(s, ev).watches[k], f);
    }
  }

  lemma ClosedRefines(c: Client, w: Watch, f: Follow<Key>)
    requires Ok(c, w) && Refines(c, w, f)
    ensures Refines(Barrier.Moved(c), Begun(Acts(c, w, Closed)), MovedAll(f, MovesOf(c, w, Closed), Contents(w.log)))
  {
    hide Linked, Continues, WatchedCache.At, Followed;
  }

  lemma QuietRefines(c: Client, w: Watch, d: Client, v: Watch, f: Follow<Key>)
    requires Refines(c, w, f) && d.gen == c.gen && v.seen == w.seen && v.cache == w.cache && v.began == w.began
    ensures Refines(d, v, f)
  {
  }

  ghost function FollowedRun(s: State, events: seq<Event>, k: nat, f: Follow<Key>): Follow<Key>
    decreases |events|
  {
    if events == [] || k >= |s.watches| then f
    else FollowedRun(Next(s, events[0]), events[1..], k, FollowedStep(s, events[0], k, f))
  }

  lemma {:induction false} RunRefines(s: State, events: seq<Event>, k: nat, f: Follow<Key>)
    requires Barrier.Inv(s) && k < |s.watches| && Refines(s.client, s.watches[k], f)
    ensures |Run(s, events).watches| == |s.watches|
    ensures Refines(Run(s, events).client, Run(s, events).watches[k], FollowedRun(s, events, k, f))
    decreases |events|
  {
    hide Barrier.Inv, Next, Refines, FollowedStep;
    if events != [] {
      StepRefines(s, events[0], k, f);
      NextKeeps(s, events[0]);
      RunRefines(Next(s, events[0]), events[1..], k, FollowedStep(s, events[0], k, f));
    }
  }

  /** Over every run a watch and its cache are a place that only such moves have changed: complete, the
      cache shows the content of that place; replaying, the part of it that has arrived. */
  lemma CacheIsAPlace(events: seq<Event>, k: nat)
    requires k < 4
    ensures var s, f := Run(Start(), events), FollowedRun(Start(), events, k, Replaying(0, {}));
            && k < |s.watches| && f.at <= |s.watches[k].log|
            && var w, content := s.watches[k], WatchedCache.At(s.watches[k].log, f.at);
               var part := if f.Synced? then content else map key <- content | key in f.got :: content[key];
               InForce(s.client, w) ==> (w.cache.synced <==> f.Synced?) && w.cache.held == View(part)
  {
    StartsWell();
    RunRefines(Start(), events, k, Replaying(0, {}));
    RunKeeps(Start(), events);
    var s := Run(Start(), events);
    assert Ok(s.client, s.watches[k]);
    hide WatchedCache.At, Linked, Continues;
  }
}
