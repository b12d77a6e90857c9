/**
 * What the connection's own answer about a generation is worth, and that a watch which is opened
 * again does replay (internal/natskv/client.go:395-431, 770-881).
 */
module BarrierRuns {
  import opened Wrappers
  import opened WatchedCache
  import opened Barrier

  // ---- The connection reports a generation exactly when its replays are under way to every cache ----

  // The marker of this generation has been applied, or is in the channel.
  ghost predicate Replayed(w: Watch, gen: nat) {
    (w.cache.gen == gen && w.cache.synced) || exists e <- w.ch :: e.gen == gen && e.message.Marker?
  }

  ghost predicate Marked(c: Client, w: Watch) {
    && (w.marker == Some(c.gen) ==> Replayed(w, c.gen))
    && (w.loop.Consuming? || w.loop.Reopening? ==> w.registered)
  }

  lemma AppliesMarked(c: Client, w: Watch)
    requires Bounds(c, w) && Marked(c, w) && w.ch != []
    ensures Marked(c, Acts(c, w, Apply))
  {
    assert w.ch[0] in w.ch;
    var v := Acts(c, w, Apply);
    if w.marker == Some(c.gen) && !(v.cache.gen == c.gen && v.cache.synced) {
      var i :| 0 <= i < |w.ch| && w.ch[i].gen == c.gen && w.ch[i].message.Marker?;
      assert i > 0 && v.ch[i - 1] == w.ch[i];
    }
  }

  lemma ActsMarked(c: Client, w: Watch, a: Act)
    requires Bounds(c, w) && Marked(c, w)
    ensures Marked(c, Acts(c, w, a))
  {
    var v := Acts(c, w, a);
    if a.Apply? {
      if w.ch != [] { AppliesMarked(c, w); }
    } else if a.Take? && v != w {
      assert forall e <- w.ch :: e in v.ch;
      assert v.ch[|w.ch|] in v.ch;
    }
  }

  lemma BoundsHold(c: Client, w: Watch)
    requires Ok(c, w)
    ensures Bounds(c, w)
  {
  }

  // Nothing but the client's generation, its link, and what `Begun` and `Resumed` touch has changed.
  lemma LinkMarked(c: Client, d: Client, w: Watch)
    requires Marked(c, w) && d.gen == c.gen
    ensures Marked(d, w) && Marked(d, Resumed(w))
  {
  }

  lemma NextMarked(s: State, e: Event, i: nat)
    requires Inv(s) && i < |s.watches| && Marked(s.client, s.watches[i])
    ensures i < |Next(s, e).watches| && Marked(Next(s, e).client, Next(s, e).watches[i])
  {
    hide Ok, Acts, Marked, Bounds;
    var c, w := s.client, s.watches[i];
    assert Ok(c, w);
    BoundsHold(c, w);
    match e
    case Write(j, change) => assert Marked(c, w.(log := w.log + [change])) by { WritesMarked(c, w, change); }
    case Drop => LinkMarked(c, Next(s, e).client, w);
    case Callback => MovesOn(c, w, c.gen + 1, Down);
    case Reconnect => LinkMarked(c, Next(s, e).client, w);
    case At(j, act) =>
      ActsMarked(c, w, act);
      if act.Closed? && j < |s.watches| {
        ClosedBounds(c, w);
        MovesOn(c, w, c.gen + 1, c.link);
        MovesOn(c, Acts(c, w, Closed), c.gen + 1, c.link);
      }
  }

  lemma WritesMarked(c: Client, w: Watch, change: Change)
    requires Marked(c, w)
    ensures Marked(c, w.(log := w.log + [change]))
  {
  }

  lemma MovesOn(c: Client, w: Watch, gen: nat, link: Link)
    requires Bounds(c, w) && Marked(c, w) && gen > c.gen
    ensures Marked(Client(gen, link), Begun(w))
  {
  }

  lemma ClosedBounds(c: Client, w: Watch)
    requires Bounds(c, w)
    ensures Bounds(c, Acts(c, w, Closed))
  {
  }

  lemma {:induction false} RunMarked(s: State, events: seq<Event>)
    requires Inv(s) && forall i | 0 <= i < |s.watches| :: Marked(s.client, s.watches[i])
    ensures var t := Run(s, events); Inv(t) && forall i | 0 <= i < |t.watches| :: Marked(t.client, t.watches[i])
    decreases |events|
  {
    hide Inv, Next, Marked;
    if events != [] {
      var t := Next(s, events[0]);
      NextKeeps(s, events[0]);
      forall i | 0 <= i < |t.watches| ensures Marked(t.client, t.watches[i]) { NextMarked(s, events[0], i); }
      RunMarked(t, events[1..]);
    }
  }

  function Entries(ch: seq<Entry>): seq<(nat, Message)> {
    seq(|ch|, i requires 0 <= i < |ch| => (ch[i].gen, ch[i].message))
  }

  /** The cache once it has applied everything its channel holds now. */
  function Drained(w: Watch): Cache {
    AppliedAll(w.cache, Entries(w.ch))
  }

  ghost predicate HasMarker(entries: seq<(nat, Message)>, gen: nat) {
    exists e <- entries :: e.0 == gen && e.1.Marker?
  }

  lemma OneMoreEntry(entries: seq<(nat, Message)>, e: (nat, Message), gen: nat)
    ensures HasMarker(entries + [e], gen) <==> HasMarker(entries, gen) || (e.0 == gen && e.1.Marker?)
  {
    assert e in entries + [e] && forall d <- entries :: d in entries + [e];
  }

  // A cache of some generation, before a channel whose tags grow from there up to a generation.
  ghost predicate Tagged(c: Cache, entries: seq<(nat, Message)>, gen: nat) {
    && c.gen <= gen && (forall i | 0 <= i < |entries| :: c.gen <= entries[i].0 <= gen)
    && (forall i, j | 0 <= i < j < |entries| :: entries[i].0 <= entries[j].0)
  }

  predicate CompleteUnder(c: Cache, gen: nat) {
    c.gen == gen && c.synced
  }

  lemma AppliedOnce(c: Cache, gen: nat, tag: nat, m: Message)
    requires c.gen <= tag <= gen
    ensures Applied(c, tag, m).gen == tag
    ensures CompleteUnder(Applied(c, tag, m), gen) <==> tag == gen && (m.Marker? || CompleteUnder(c, gen))
  {
  }

  lemma {:induction false} AppliedTo(c: Cache, entries: seq<(nat, Message)>, gen: nat)
    requires Tagged(c, entries, gen)
    ensures AppliedAll(c, entries).gen == if entries == [] then c.gen else entries[|entries| - 1].0
    ensures CompleteUnder(AppliedAll(c, entries), gen) <==> CompleteUnder(c, gen) || HasMarker(entries, gen)
    decreases |entries|
  {
    hide Applied, HasMarker, CompleteUnder;
    if entries == [] {
      NoMarker(gen);
    } else {
      var n := |entries| - 1;
      var front, last := entries[..n], entries[n];
      assert entries == front + [last];
      AppliedTo(c, front, gen);
      OneMoreEntry(front, last, gen);
      AppliedOnce(AppliedAll(c, front), gen, last.0, last.1);
      if last.0 < gen {
        NoneEarlier(front, last.0, gen);
        NotComplete(c, gen);
      }
    }
  }

  lemma NotComplete(c: Cache, gen: nat)
    requires c.gen < gen
    ensures !CompleteUnder(c, gen)
  {
  }

  lemma NoMarker(gen: nat)
    ensures !HasMarker([], gen)
  {
  }

  lemma NoneEarlier(entries: seq<(nat, Message)>, most: nat, gen: nat)
    requires most < gen && forall i | 0 <= i < |entries| :: entries[i].0 <= most
    ensures !HasMarker(entries, gen)
  {
  }

  lemma EntriesTagged(c: Client, w: Watch)
    requires Bounds(c, w)
    ensures Tagged(w.cache, Entries(w.ch), c.gen)
  {
    forall i | 0 <= i < |w.ch| ensures w.cache.gen <= Entries(w.ch)[i].0 <= c.gen { assert w.ch[i] in w.ch; }
  }

  lemma EntriesMark(w: Watch, gen: nat)
    ensures HasMarker(Entries(w.ch), gen) <==> exists e <- w.ch :: e.gen == gen && e.message.Marker?
  {
    var es := Entries(w.ch);
    forall i | 0 <= i < |es| ensures es[i] in es && w.ch[i] in w.ch {}
    if e :| e in w.ch && e.gen == gen && e.message.Marker? {
      var i :| 0 <= i < |w.ch| && w.ch[i] == e;
      assert es[i].0 == gen && es[i].1.Marker?;
    }
  }

  lemma DrainedExactly(c: Client, w: Watch)
    requires Bounds(c, w)
    ensures Drained(w).gen == c.gen && Drained(w).synced <==> Replayed(w, c.gen)
  {
    EntriesTagged(c, w);
    AppliedTo(w.cache, Entries(w.ch), c.gen);
    hide Bounds, Tagged, HasMarker, Entries, AppliedAll;
    EntriesMark(w, c.gen);
  }

  lemma ReplayedMarks(c: Client, w: Watch)
    requires Ok(c, w) && Replayed(w, c.gen)
    ensures w.marker == Some(c.gen)
  {
    hide Continues, Followed, WatchedCache.At;
    if !(w.cache.gen == c.gen && w.cache.synced) {
      var i :| 0 <= i < |w.ch| && w.ch[i].gen == c.gen && w.ch[i].message.Marker?;
      assert Follows(w, c.gen, Before(w, i), w.ch[i]);
    }
  }

  /** The connection reports a generation replayed exactly when every registered watch's cache will be
      complete under it once it has applied what its channel holds; and no watch that is open, or being
      opened again, goes unregistered. */
  lemma ClientSyncedExactly(events: seq<Event>, gen: nat)
    ensures var s := Run(Start(), events);
            ClientSynced(s, gen) <==>
            s.client.gen == gen && forall w <- s.watches :: w.registered ==> Drained(w).synced && Drained(w).gen == gen
    ensures forall w <- Run(Start(), events).watches :: w.loop.Consuming? || w.loop.Reopening? ==> w.registered
  {
    StartsWell();
    RunMarked(Start(), events);
    var s := Run(Start(), events);
    hide Run, Replayed, Ok;
    forall i | 0 <= i < |s.watches|
      ensures s.watches[i].marker == Some(s.client.gen) <==>
              Drained(s.watches[i]).synced && Drained(s.watches[i]).gen == s.client.gen
    {
      var w := s.watches[i];
      assert Ok(s.client, w);
      BoundsHold(s.client, w);
      DrainedExactly(s.client, w);
      if Replayed(w, s.client.gen) { ReplayedMarks(s.client, w); }
    }
  }

  // ---- A watch that is opened replays ----

  function Does(c: Client, w: Watch, acts: seq<Act>): Watch
    decreases |acts|
  {
    if acts == [] then w else Does(c, Acts(c, w, acts[0]), acts[1..])
  }

  lemma {:induction false} DoesSplits(c: Client, w: Watch, a: seq<Act>, b: seq<Act>)
    ensures Does(c, w, a + b) == Does(c, Does(c, w, a), b)
    decreases |a|
  {
    hide Acts;
    if a == [] {
      assert a + b == b;
    } else {
      assert (a + b)[1..] == a[1..] + b;
      DoesSplits(c, Acts(c, w, a[0]), a[1..], b);
    }
  }

  predicate NoneCloses(acts: seq<Act>) {
    forall a <- acts :: !a.Closed?
  }

  lemma {:induction false} DoesOk(c: Client, w: Watch, acts: seq<Act>)
    requires Ok(c, w) && NoneCloses(acts)
    ensures Ok(c, Does(c, w, acts))
    decreases |acts|
  {
    hide Ok, Acts;
    if acts != [] {
      assert !acts[0].Closed?;
      ActsKeep(c, w, acts[0]);
      DoesOk(c, Acts(c, w, acts[0]), acts[1..]);
    }
  }

  function Of(k: nat, acts: seq<Act>): seq<Event> {
    if acts == [] then [] else [Event.At(k, acts[0])] + Of(k, acts[1..])
  }

  lemma {:induction false} DoesRun(s: State, k: nat, acts: seq<Act>)
    requires k < |s.watches| && NoneCloses(acts)
    ensures Run(s, Of(k, acts)) == s.(watches := s.watches[k := Does(s.client, s.watches[k], acts)])
    decreases |acts|
  {
    hide Acts;
    if acts == [] {
      assert s.watches[k := s.watches[k]] == s.watches;
    } else {
      assert !acts[0].Closed?;
      var t := Next(s, Event.At(k, acts[0]));
      DoesRun(t, k, acts[1..]);
      assert Of(k, acts)[1..] == Of(k, acts[1..]);
    }
  }

  // The watcher of this generation, in the middle of its replay.
  ghost predicate Replaying(c: Client, w: Watch) {
    && w.loop.Consuming? && w.loop.gen == c.gen && !w.loop.gap && !w.loop.at.live && w.loop.at.gen == c.gen
    && w.loop.at.open == |w.log| && w.loop.at.pos == 0
    && w.loop.at.got <= WatchedCache.At(w.log, w.loop.at.open).Keys
  }

  lemma Delivers(c: Client, w: Watch, m: Message)
    requires Replaying(c, w) && Due(w.log, w.loop.at, m)
    ensures var v, acts := Does(c, w, [Check, Take(m)]), [Check, Take(m)];
            && v.log == w.log && v.ch == w.ch + [Entry(c.gen, m, After(w.loop.at, m))]
            && v.loop == w.loop.(checked := false, at := After(w.loop.at, m)) && NoneCloses(acts)
  {
    hide WatchedCache.At, Due;
    var u := Acts(c, w, Check);
    assert [Check, Take(m)][1..] == [Take(m)] && [Take(m)][1..] == [];
    assert Does(c, u, [Take(m)]) == Does(c, Acts(c, u, Take(m)), []);
  }

  // The keys still to come are delivered one by one.
  lemma {:induction false} Fills(c: Client, w: Watch) returns (acts: seq<Act>)
    requires Replaying(c, w)
    ensures NoneCloses(acts)
    ensures var v := Does(c, w, acts);
            Replaying(c, v) && v.log == w.log && v.loop.at.got == WatchedCache.At(w.log, |w.log|).Keys
    decreases |WatchedCache.At(w.log, |w.log|).Keys - w.loop.at.got|
  {
    var start := WatchedCache.At(w.log, |w.log|);
    acts := [];
    if key :| key in start.Keys && key !in w.loop.at.got {
      var m := Item(Change(key, Some(start[key])));
      Delivers(c, w, m);
      var v := Does(c, w, [Check, Take(m)]);
      assert start.Keys - v.loop.at.got == start.Keys - w.loop.at.got - {key};
      hide WatchedCache.At, Does;
      var rest := Fills(c, v);
      acts := [Check, Take(m)] + rest;
      DoesSplits(c, w, [Check, Take(m)], rest);
    }
  }

  // The cache takes everything its channel holds.
  lemma {:induction false} Drains(c: Client, w: Watch) returns (acts: seq<Act>)
    requires w.ch != []
    ensures NoneCloses(acts)
    ensures var v := Does(c, w, acts); v.ch == [] && v.log == w.log && v.seen == Some(w.ch[|w.ch| - 1].at)
    decreases |w.ch|
  {
    var v := Acts(c, w, Apply);
    if |w.ch| == 1 {
      acts := [Apply];
      assert Does(c, w, acts) == Does(c, v, []);
    } else {
      var rest := Drains(c, v);
      acts := [Apply] + rest;
      assert acts[1..] == rest;
    }
  }

  lemma Opens(c: Client, w: Watch)
    requires c.link.Up? && (w.loop.Unopened? || w.loop.Reopening?)
    ensures var v, acts := Does(c, w, [Open, Opened]), [Open, Opened];
            Replaying(c, v) && v.log == w.log && NoneCloses(acts)
  {
    assert [Open, Opened][1..] == [Opened] && [Opened][1..] == [];
    var u := Acts(c, w, Open);
    assert Does(c, u, [Opened]) == Does(c, Acts(c, u, Opened), []);
  }

  lemma OpensAndFills(c: Client, w: Watch) returns (acts: seq<Act>)
    requires c.link.Up? && (w.loop.Unopened? || w.loop.Reopening?)
    ensures NoneCloses(acts)
    ensures var v := Does(c, w, acts);
            && v.ch != [] && v.log == w.log
            && var at := v.ch[|v.ch| - 1].at; at.gen == c.gen && at.live && at.pos == |w.log|
  {
    Opens(c, w);
    var v0 := Does(c, w, [Open, Opened]);
    var fill := Fills(c, v0);
    var v1 := Does(c, v0, fill);
    Delivers(c, v1, Marker);
    hide WatchedCache.At, Does;
    DoesSplits(c, w, [Open, Opened], fill);
    DoesSplits(c, w, [Open, Opened] + fill, [Check, Take(Marker)]);
    acts := [Open, Opened] + fill + [Check, Take(Marker)];
  }

  lemma LiveShows(c: Client, w: Watch)
    requires Ok(c, w) && w.seen.Some? && w.seen.value.gen == c.gen && w.seen.value.live && w.seen.value.pos == |w.log|
    ensures w.cache == Cache(c.gen, true, View(WatchedCache.At(w.log, |w.log|)))
  {
  }

  /** On a connection that is up, a watch that has to be opened can always complete its replay: some run of its
      loop and its cache leaves the cache complete under this generation, showing the bucket as it is. */
  lemma ReplayCompletes(events: seq<Event>, k: nat) returns (more: seq<Event>)
    requires var s := Run(Start(), events);
             k < |s.watches| && s.client.link.Up? && (s.watches[k].loop.Unopened? || s.watches[k].loop.Reopening?)
    ensures var s, t := Run(Start(), events), Run(Run(Start(), events), more);
            && t == s.(watches := t.watches) && |t.watches| == |s.watches| && t.watches[k].log == s.watches[k].log
            && (forall j | 0 <= j < |s.watches| && j != k :: t.watches[j] == s.watches[j])
            && Guard(t, s.client.gen, {k})
            && t.watches[k].cache
               == Cache(s.client.gen, true, View(WatchedCache.At(s.watches[k].log, |s.watches[k].log|)))
  {
    StartsWell();
    RunKeeps(Start(), events);
    var s := Run(Start(), events);
    var c, w := s.client, s.watches[k];
    assert Ok(c, w);
    hide Ok, Does, Run, Of, WatchedCache.At;
    var fill := OpensAndFills(c, w);
    var v := Does(c, w, fill);
    var drain := Drains(c, v);
    DoesSplits(c, w, fill, drain);
    assert NoneCloses(fill + drain);
    DoesOk(c, w, fill + drain);
    LiveShows(c, Does(c, w, fill + drain));
    DoesRun(s, k, fill + drain);
    more := Of(k, fill + drain);
  }
}
