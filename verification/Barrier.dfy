/**
 * The replay barrier: the watch loops of the NATS client and the caches they feed
 * (internal/natskv/client.go:342-464, 698-884; internal/pgo/caches.go:378-412,
 * 565-592), under cut connections, cut subscriptions, slow opens and any amount of lag.
 *
 * Each watch is one loop feeding one channel feeding one cache. A watcher carries how
 * far it has followed its log (Progress); the entries it sends carry the same, so that
 * what a cache has applied can be named. Neither decides anything.
 */
module Barrier {
  import opened Wrappers
  import opened WatchedCache

  // The connection as this process knows it. A drop is physical first; the disconnected
  // callback moves the generation before the connection is usable again.
  datatype Link = Up | Dropped | Down

  datatype Progress = Progress(gen: nat, open: nat, got: set<Key>, live: bool, pos: nat)

  datatype Entry = Entry(gen: nat, message: Message, at: Progress)

  datatype Loop =
    | Unopened
    | Opening(gen: nat)        // the generation is captured, the open is under way
    | Consuming(gen: nat, checked: bool, at: Progress, gap: bool)
    | Reopening
    | Ended

  datatype Watch = Watch(
    log: seq<Change>,          // every write under the prefix
    began: nat,                // how many of them were made before the current generation
    loop: Loop,
    registered: bool,          // in client.watches
    marker: Option<nat>,       // watchState: the generation of its last marker
    ch: seq<Entry>,
    cache: Cache,
    seen: Option<Progress>)    // of the last entry the cache applied

  datatype Client = Client(gen: nat, link: Link)

  datatype State = State(client: Client, watches: seq<Watch>)

  datatype Act =
    | Open                      // kvView.Watch, or the next pass of the re-open loop
    | Opened                    // the watcher exists
    | OpenFailed
    | Check                     // the moved channel: looked at before each delivery, and again beside it
    | Take(m: Message)          // one delivery
    | Closed                    // the subscription ended
    | Quit                      // the attempt's context ended
    | Apply                     // the cache takes one entry from the channel

  datatype Event =
    | Write(w: nat, e: Change)
    | Drop
    | Callback
    | Reconnect
    | At(w: nat, act: Act)

  // ---- One watcher ----

  /** What a watcher without a gap behind it may deliver next. */
  predicate Due(log: seq<Change>, at: Progress, m: Message)
    requires at.open <= |log| && at.pos <= |log|
  {
    if at.live then at.pos < |log| && m == Item(log[at.pos])
    else
      var start := WatchedCache.At(log, at.open);
      match m
      case Marker => at.got == start.Keys
      case Item(e) => e.key in start && e.key !in at.got && e.value == Some(start[e.key])
  }

  function After(at: Progress, m: Message): Progress {
    if at.live then at.(pos := at.pos + 1)
    else if m.Marker? then at.(live := true, pos := at.open)
    else at.(got := at.got + {m.change.key})
  }

  function Fresh(gen: nat, open: nat): Progress {
    Progress(gen, open, {}, false, 0)
  }

  // ---- The steps ----

  function Moved(c: Client): Client {
    c.(gen := c.gen + 1)
  }

  function Acts(c: Client, w: Watch, a: Act): Watch {
    match a
    case Open =>
      if w.loop.Unopened? || w.loop.Reopening? then w.(loop := Opening(c.gen)) else w
    case Opened =>
      if w.loop.Opening? && c.link.Up? then
        w.(loop := Consuming(w.loop.gen, false, Fresh(w.loop.gen, |w.log|), false), registered := true)
      else w
    case OpenFailed =>  // a first open that fails ends the attempt
      if w.loop.Opening? then w.(loop := if w.registered then Reopening else Ended) else w
    case Check =>
      if !w.loop.Consuming? then w
      else if w.loop.gen != c.gen then w.(loop := Reopening)
      else w.(loop := w.loop.(checked := true))
    case Take(m) =>
      if !w.loop.Consuming? || !w.loop.checked || w.loop.at.open > |w.log| || w.loop.at.pos > |w.log| then w
      else if !w.loop.gap && !Due(w.log, w.loop.at, m) then w
      else
        var at := if w.loop.gap then w.loop.at else After(w.loop.at, m);
        w.(marker := if m.Marker? then Some(w.loop.gen) else w.marker,
        ch := w.ch + [Entry(w.loop.gen, m, at)],
        loop := w.loop.(checked := false, at := at))
    case Closed => if w.loop.Consuming? then w.(loop := Reopening) else w
    case Quit => w.(loop := Ended, registered := false)
    case Apply =>
      if w.ch == [] then w
      else w.(ch := w.ch[1..], cache := Applied(w.cache, w.ch[0].gen, w.ch[0].message), seen := Some(w.ch[0].at))
  }

  // What the end of a generation and of a connection do to every watch.
  function Begun(w: Watch): Watch {
    w.(began := |w.log|)
  }

  function Resumed(w: Watch): Watch {
    if w.loop.Consuming? then w.(loop := w.loop.(gap := true)) else w
  }

  function Next(s: State, e: Event): State {
    match e
    case Write(i, change) =>
      if i >= |s.watches| then s
      else s.(watches := s.watches[i := s.watches[i].(log := s.watches[i].log + [change])])
    case Drop => if s.client.link.Up? then s.(client := s.client.(link := Dropped)) else s
    case Callback =>
      if s.client.link.Dropped? then
        State(Client(s.client.gen + 1, Down), seq(|s.watches|, i requires 0 <= i < |s.watches| => Begun(s.watches[i])))
      else s
    case Reconnect =>
      if s.client.link.Down? then
        State(s.client.(link := Up), seq(|s.watches|, i requires 0 <= i < |s.watches| => Resumed(s.watches[i])))
      else s
    case At(i, act) =>
      if i >= |s.watches| then s
      else
        var t := s.(watches := s.watches[i := Acts(s.client, s.watches[i], act)]);
        // A subscription that ends under a live connection moves the generation too.
        if act.Closed? && s.watches[i].loop.Consuming? && s.client.link.Up? then
          State(Moved(s.client), seq(|t.watches|, j requires 0 <= j < |t.watches| => Begun(t.watches[j])))
        else t
  }

  function Start(): State {
    var w := Watch([], 0, Unopened, false, None, [], Cache(0, false, map[]), None);
    State(Client(0, Up), [w, w, w, w])
  }

  function Run(s: State, events: seq<Event>): State
    decreases |events|
  {
    if events == [] then s else Run(Next(s, events[0]), events[1..])
  }

  /** The guard of one read: only the caches it answers from, and the connection itself. */
  predicate Guard(s: State, gen: nat, kinds: set<nat>) {
    s.client.gen == gen
    && forall k <- kinds :: k < |s.watches| && s.watches[k].cache.synced && s.watches[k].cache.gen == gen
  }

  predicate ClientSynced(s: State, gen: nat) {
    s.client.gen == gen && forall w <- s.watches :: w.registered ==> w.marker == Some(gen)
  }

  // ---- What a follower knows ----

  ghost function Followed(log: seq<Change>, at: Progress): Content
    requires at.open <= |log| && at.pos <= |log|
  {
    if at.live then WatchedCache.At(log, at.pos)
    else map k <- WatchedCache.At(log, at.open) | k in at.got :: WatchedCache.At(log, at.open)[k]
  }

  ghost predicate Within(w: Watch, gen: nat, at: Progress) {
    && at.gen == gen && w.began <= at.open <= |w.log| && at.pos <= |w.log|
    && (at.live ==> at.open <= at.pos && w.marker == Some(gen))
    && (!at.live ==> at.pos == 0 && at.got <= WatchedCache.At(w.log, at.open).Keys)
  }

  // Where the follower stood before entry i of the channel.
  ghost function Before(w: Watch, i: nat): Option<Progress>
    requires i <= |w.ch|
  {
    if i == 0 then w.seen else Some(w.ch[i - 1].at)
  }

  ghost predicate Follows(w: Watch, gen: nat, from: Option<Progress>, e: Entry) {
    var at := if from.Some? && from.value.gen == gen then from.value else Fresh(gen, e.at.open);
    && Within(w, gen, e.at) && at.open <= |w.log| && at.pos <= |w.log|
    && Due(w.log, at, e.message) && e.at == After(at, e.message)
  }

  // Every tag is of this generation or an earlier one, and tags on one channel only grow.
  ghost predicate Bounds(c: Client, w: Watch) {
    && w.began <= |w.log|
    && (w.loop.Consuming? || w.loop.Opening? ==>
          && w.loop.gen <= c.gen
          && (w.seen.Some? ==> w.seen.value.gen <= w.loop.gen)
          && (forall e <- w.ch :: e.gen <= w.loop.gen)
          && (w.marker.Some? ==> w.marker.value <= w.loop.gen))
    && (w.loop.Consuming? ==> w.loop.at.gen == w.loop.gen)
    && (forall e <- w.ch :: e.gen <= c.gen && e.at.gen == e.gen)
    && (forall i, j | 0 <= i < j < |w.ch| :: w.ch[i].gen <= w.ch[j].gen)
    && (w.seen.Some? ==> w.seen.value.gen == w.cache.gen && forall e <- w.ch :: w.cache.gen <= e.gen)
    && w.cache.gen <= c.gen
    && (w.seen.None? ==> w.cache == Cache(0, false, map[]))
    && (w.marker.Some? ==> w.marker.value <= c.gen)
  }

  // The last anyone has heard of this watch is of this generation.
  ghost predicate Heard(w: Watch, gen: nat) {
    Before(w, |w.ch|).Some? && Before(w, |w.ch|).value.gen == gen
  }

  // The channel is one follower's account.
  ghost predicate Linked(gen: nat, w: Watch) {
    forall i | 0 <= i < |w.ch| && w.ch[i].gen == gen :: Follows(w, gen, Before(w, i), w.ch[i])
  }

  // The watcher continues it, and there is no second one under one generation: without
  // a generation move its subscription can only have ended on a dropped connection.
  ghost predicate Continues(c: Client, w: Watch) {
    && (w.loop.Consuming? && w.loop.gen == c.gen ==>
          && !w.loop.gap && !c.link.Down?
          && Within(w, c.gen, w.loop.at)
          && w.loop.at == if Heard(w, c.gen) then Before(w, |w.ch|).value else Fresh(c.gen, w.loop.at.open))
    && ((w.loop.Unopened? || w.loop.Opening? || w.loop.Reopening?) && !c.link.Dropped? ==> !Heard(w, c.gen))
  }

  // The cache shows exactly what it has followed.
  ghost predicate Shows(c: Client, w: Watch) {
    w.seen.Some? && w.cache.gen == c.gen ==>
      && Within(w, c.gen, w.seen.value)
      && w.cache.synced == w.seen.value.live
      && w.cache.held == View(Followed(w.log, w.seen.value))
  }

  ghost predicate Ok(c: Client, w: Watch) {
    Bounds(c, w) && Linked(c.gen, w) && Continues(c, w) && Shows(c, w)
  }

  // ---- Steps keep it ----

  // A generation that has only begun has nothing to its name.
  lemma GenerationMoves(c: Client, w: Watch, link: Link)
    requires Bounds(c, w)
    ensures Ok(Client(c.gen + 1, link), Begun(w))
  {
  }

  lemma Resumes(c: Client, w: Watch)
    requires Ok(c, w) && c.link.Down?
    ensures Ok(c.(link := Up), Resumed(w))
  {
    assert forall i | 0 <= i < |w.ch| && w.ch[i].gen == c.gen :: Follows(Resumed(w), c.gen, Before(w, i), w.ch[i]);
  }

  lemma Drops(c: Client, w: Watch)
    requires Ok(c, w)
    ensures Ok(c.(link := Dropped), w)
  {
  }

  lemma WithinGrows(w: Watch, gen: nat, at: Progress, e: Change)
    requires Within(w, gen, at)
    ensures var v := w.(log := w.log + [e]); Within(v, gen, at) && Followed(v.log, at) == Followed(w.log, at)
    ensures WatchedCache.At(w.log + [e], at.open) == WatchedCache.At(w.log, at.open)
  {
    AtExtends(w.log, e, at.open);
    AtExtends(w.log, e, at.pos);
  }

  // What the account rests on: the log, where the generation began in it, and the marker.
  lemma SameAccount(w: Watch, v: Watch, gen: nat)
    requires Linked(gen, w) && v.log == w.log && v.began == w.began && v.ch == w.ch && v.seen == w.seen
    requires v.marker == w.marker || v.marker == Some(gen)
    ensures Linked(gen, v)
  {
    hide Follows;
    forall i | 0 <= i < |v.ch| && v.ch[i].gen == gen ensures Follows(v, gen, Before(v, i), v.ch[i]) {
      FollowsKept(w, v, gen, Before(w, i), w.ch[i]);
    }
  }

  lemma Writes(c: Client, w: Watch, e: Change)
    requires Ok(c, w)
    ensures Ok(c, w.(log := w.log + [e]))
  {
    var v := w.(log := w.log + [e]);
    WritesLinked(c.gen, w, e);
    assert Bounds(c, v) && Continues(c, v) && Shows(c, v) by {
      hide WatchedCache.At, Followed, Linked, Due;
      if w.loop.Consuming? && w.loop.gen == c.gen { WithinGrows(w, c.gen, w.loop.at, e); }
      if w.seen.Some? && w.cache.gen == c.gen { WithinGrows(w, c.gen, w.seen.value, e); }
    }
  }

  lemma WritesLinked(gen: nat, w: Watch, e: Change)
    requires Linked(gen, w)
    ensures Linked(gen, w.(log := w.log + [e]))
  {
    hide WatchedCache.At;
    var v := w.(log := w.log + [e]);
    forall i | 0 <= i < |v.ch| && v.ch[i].gen == gen ensures Follows(v, gen, Before(v, i), v.ch[i]) {
      assert Follows(w, gen, Before(w, i), w.ch[i]);
      WithinGrows(w, gen, w.ch[i].at, e);
    }
  }

  lemma Takes(c: Client, w: Watch, m: Message)
    requires Ok(c, w)
    ensures Ok(c, Acts(c, w, Take(m)))
  {
    hide WatchedCache.At, Followed;
    var v := Acts(c, w, Take(m));
    if v != w {
      assert w.loop.gen == c.gen ==> !w.loop.gap && Due(w.log, w.loop.at, m) by { hide Bounds, Linked, Shows; }
      TakesLinked(c, w, m, v);
      TakesBounds(c, w, m, v);
      assert Continues(c, v) && Shows(c, v) by { hide Linked; }
    }
  }

  lemma TakesBounds(c: Client, w: Watch, m: Message, v: Watch)
    requires Bounds(c, w) && v == Acts(c, w, Take(m)) && v != w
    ensures Bounds(c, v)
  {
    hide WatchedCache.At, Due;
    var e := v.ch[|w.ch|];
    assert v.ch == w.ch + [e] && e.gen == w.loop.gen && e.at.gen == e.gen;
    forall i, j | 0 <= i < j < |v.ch| ensures v.ch[i].gen <= v.ch[j].gen {
      assert w.ch[i] in w.ch;
    }
  }

  lemma TakesLinked(c: Client, w: Watch, m: Message, v: Watch)
    requires Bounds(c, w) && Linked(c.gen, w) && Continues(c, w)
    requires v == Acts(c, w, Take(m)) && v != w
    requires w.loop.gen == c.gen ==> !w.loop.gap && Due(w.log, w.loop.at, m)
    ensures Linked(c.gen, v)
  {
    hide WatchedCache.At, Bounds, Linked, Continues, Follows;
    forall i | 0 <= i < |v.ch| && v.ch[i].gen == c.gen ensures Follows(v, c.gen, Before(v, i), v.ch[i]) {
      if i < |w.ch| { TakesOld(c, w, m, v, i); } else { TakesNew(c, w, m, v); }
    }
    LinkedFrom(c.gen, v);
  }

  lemma LinkedFrom(gen: nat, v: Watch)
    requires forall i | 0 <= i < |v.ch| && v.ch[i].gen == gen :: Follows(v, gen, Before(v, i), v.ch[i])
    ensures Linked(gen, v)
  {
  }

  lemma FollowsKept(w: Watch, v: Watch, gen: nat, from: Option<Progress>, e: Entry)
    requires Follows(w, gen, from, e) && v.log == w.log && v.began == w.began
    requires v.marker == w.marker || v.marker == Some(gen)
    ensures Follows(v, gen, from, e)
  {
    hide WatchedCache.At, Due;
  }

  // Entries already in the channel.
  lemma TakesOld(c: Client, w: Watch, m: Message, v: Watch, i: nat)
    requires Bounds(c, w) && Linked(c.gen, w) && v == Acts(c, w, Take(m)) && v != w
    requires i < |w.ch| && w.ch[i].gen == c.gen
    ensures i < |v.ch| && v.ch[i] == w.ch[i] && Follows(v, c.gen, Before(v, i), v.ch[i])
  {
    hide WatchedCache.At, Due, Follows;
    assert Follows(w, c.gen, Before(w, i), w.ch[i]);
    assert w.ch[i] in w.ch;
    hide Bounds, Linked;
    FollowsKept(w, v, c.gen, Before(w, i), w.ch[i]);
  }

  // The entry just taken.
  lemma TakesNew(c: Client, w: Watch, m: Message, v: Watch)
    requires Continues(c, w) && v == Acts(c, w, Take(m)) && v != w && w.loop.gen == c.gen
    requires !w.loop.gap && Due(w.log, w.loop.at, m)
    ensures |v.ch| == |w.ch| + 1 && Follows(v, c.gen, Before(v, |w.ch|), v.ch[|w.ch|])
  {
    hide WatchedCache.At;
    assert Before(v, |w.ch|) == Before(w, |w.ch|);
  }

  lemma Applies(c: Client, w: Watch)
    requires Ok(c, w)
    ensures Ok(c, Acts(c, w, Apply))
  {
    if w.ch != [] {
      var v := Acts(c, w, Apply);
      AppliesLinked(c.gen, w, v);
      assert Bounds(c, v) && Continues(c, v) by { hide WatchedCache.At, Linked, Shows, Due, Followed; }
      if w.ch[0].gen == c.gen { AppliesShown(c, w, v); }
    }
  }

  lemma AppliesLinked(gen: nat, w: Watch, v: Watch)
    requires Linked(gen, w) && w.ch != [] && v.log == w.log && v.began == w.began && v.marker == w.marker
    requires v.ch == w.ch[1..] && v.seen == Some(w.ch[0].at)
    ensures Linked(gen, v)
  {
    hide WatchedCache.At;
    forall i | 0 <= i < |v.ch| && v.ch[i].gen == gen ensures Follows(v, gen, Before(v, i), v.ch[i]) {
      assert Before(v, i) == Before(w, i + 1);
      assert Follows(w, gen, Before(w, i + 1), w.ch[i + 1]);
    }
  }

  // What one entry of the account does to what is followed.
  lemma FollowedAfter(log: seq<Change>, at: Progress, m: Message)
    requires at.open <= |log| && at.pos <= |log| && (!at.live ==> at.got <= WatchedCache.At(log, at.open).Keys)
    requires Due(log, at, m)
    ensures var next := Followed(log, After(at, m));
            next == if m.Item? then Changed(Followed(log, at), m.change) else Followed(log, at)
    ensures m.Marker? ==> !at.live
  {
  }

  lemma AppliesShown(c: Client, w: Watch, v: Watch)
    requires Bounds(c, w) && Linked(c.gen, w) && Shows(c, w) && w.ch != [] && w.ch[0].gen == c.gen
    requires v == Acts(c, w, Apply)
    ensures Shows(c, v)
  {
    hide WatchedCache.At, Due, Bounds, Shows, Followed, View, Folded;
    var e := w.ch[0];
    assert Follows(w, c.gen, Before(w, 0), e);
    var at := StartsShown(c, w, e);
    FollowedAfter(w.log, at, e.message);
    if e.message.Item? { FoldFollowsContent(Followed(w.log, at), e.message.change); }
    ShownFrom(c, v);
  }

  // Where the entry finds the follower, and what the cache holds there.
  lemma StartsShown(c: Client, w: Watch, e: Entry) returns (at: Progress)
    requires Bounds(c, w) && Shows(c, w) && Follows(w, c.gen, w.seen, e)
    ensures at.open <= |w.log| && at.pos <= |w.log| && Due(w.log, at, e.message) && e.at == After(at, e.message)
    ensures !at.live ==> at.got <= WatchedCache.At(w.log, at.open).Keys
    ensures Reset(w.cache, c.gen).held == View(Followed(w.log, at)) && Reset(w.cache, c.gen).synced == at.live
  {
    hide WatchedCache.At, Due;
    at := if w.seen.Some? && w.cache.gen == c.gen then w.seen.value else Fresh(c.gen, e.at.open);
    if at == Fresh(c.gen, e.at.open) { assert Followed(w.log, at) == map[]; }
  }

  lemma ShownFrom(c: Client, v: Watch)
    requires v.seen.Some? && Within(v, c.gen, v.seen.value) && v.cache.synced == v.seen.value.live
    requires v.cache.held == View(Followed(v.log, v.seen.value))
    ensures Shows(c, v)
  {
  }

  lemma Loops(c: Client, w: Watch, a: Act)
    requires Ok(c, w) && !a.Take? && !a.Apply? && !(a.Closed? && w.loop.Consuming? && c.link.Up?)
    ensures Ok(c, Acts(c, w, a))
  {
    var v := Acts(c, w, a);
    LoopsAccount(c, w, a);
    SameAccount(w, v, c.gen);
    assert Bounds(c, v) by { hide WatchedCache.At, Followed, Linked, Due, Continues, Shows; }
    assert Shows(c, v) by { hide WatchedCache.At, Followed, Linked, Due, Bounds, Continues; }
    LoopsContinue(c, w, a);
  }

  lemma LoopsAccount(c: Client, w: Watch, a: Act)
    requires !a.Take? && !a.Apply?
    ensures var v := Acts(c, w, a);
            && v.log == w.log && v.began == w.began && v.ch == w.ch
            && v.seen == w.seen && v.marker == w.marker && v.cache == w.cache
  {
  }

  lemma LoopsContinue(c: Client, w: Watch, a: Act)
    requires Bounds(c, w) && Continues(c, w) && !a.Take? && !a.Apply? && !(a.Closed? && w.loop.Consuming? && c.link.Up?)
    ensures Continues(c, Acts(c, w, a))
  {
    hide WatchedCache.At, Due;
  }

  // ---- Whole runs ----

  ghost predicate Inv(s: State) {
    forall w <- s.watches :: Ok(s.client, w)
  }

  lemma NextKeeps(s: State, e: Event)
    requires Inv(s)
    ensures Inv(Next(s, e)) && |Next(s, e).watches| == |s.watches|
  {
    hide Ok, Acts;
    var t := Next(s, e);
    forall i | 0 <= i < |s.watches| ensures Ok(t.client, t.watches[i]) {
      var w := s.watches[i];
      assert Ok(s.client, w);
      match e
      case Write(j, change) => if i == j { Writes(s.client, w, change); }
      case Drop => Drops(s.client, w);
      case Callback => if s.client.link.Dropped? { MovesOn(s.client, w, Down); }
      case Reconnect => if s.client.link.Down? { Resumes(s.client, w); }
      case At(j, act) =>
        if act.Closed? && j < |s.watches| && s.watches[j].loop.Consuming? && s.client.link.Up? {
          if i == j { ClosesLive(s.client, w); } else { MovesOn(s.client, w, Up); }
        } else if i == j {
          ActsKeep(s.client, w, act);
        }
    }
  }

  lemma MovesOn(c: Client, w: Watch, link: Link)
    requires Ok(c, w)
    ensures Ok(Client(c.gen + 1, link), Begun(w))
  {
    GenerationMoves(c, w, link);
  }

  lemma ClosesLive(c: Client, w: Watch)
    requires Ok(c, w) && c.link.Up?
    ensures Ok(Moved(c), Begun(Acts(c, w, Closed)))
  {
    hide Linked, Continues, Shows;
    GenerationMoves(c, Acts(c, w, Closed), c.link);
  }

  lemma ActsKeep(c: Client, w: Watch, a: Act)
    requires Ok(c, w) && !(a.Closed? && w.loop.Consuming? && c.link.Up?)
    ensures Ok(c, Acts(c, w, a))
  {
    hide Ok, Acts;
    match a
    case Take(m) => Takes(c, w, m);
    case Apply => Applies(c, w);
    case _ => Loops(c, w, a);
  }

  lemma {:induction false} RunKeeps(s: State, events: seq<Event>)
    requires Inv(s)
    ensures Inv(Run(s, events)) && |Run(s, events).watches| == |s.watches|
    decreases |events|
  {
    hide Inv, Next;
    if events != [] {
      NextKeeps(s, events[0]);
      RunKeeps(Next(s, events[0]), events[1..]);
    }
  }

  /** A guarded read under the current generation answers from the bucket's own content at some
      point since that generation began, for every cache it consulted. */
  lemma GuardedRead(events: seq<Event>, gen: nat, kinds: set<nat>, k: nat) returns (p: nat)
    requires Guard(Run(Start(), events), gen, kinds) && k in kinds
    ensures var w := Run(Start(), events).watches[k];
            w.began <= p <= |w.log| && w.cache.held == View(WatchedCache.At(w.log, p))
  {
    hide Ok;
    StartsWell();
    RunKeeps(Start(), events);
    p := ShownAt(Run(Start(), events), k);
  }

  /** Every tag a cache has still to see is at least the one it carries, and tags never decrease. */
  lemma TagsGrow(events: seq<Event>, k: nat, i: nat, j: nat)
    requires k < |Run(Start(), events).watches|
    requires i <= j < |Run(Start(), events).watches[k].ch|
    ensures var w := Run(Start(), events).watches[k];
            w.cache.gen <= w.ch[i].gen <= w.ch[j].gen <= Run(Start(), events).client.gen
  {
    hide Linked, Continues, Shows;
    StartsWell();
    RunKeeps(Start(), events);
    var w := Run(Start(), events).watches[k];
    assert Ok(Run(Start(), events).client, w);
    assert w.ch[i] in w.ch && w.ch[j] in w.ch;
    if w.seen.None? { assert w.cache.gen == 0; }
  }

  /** The caches are never ahead of the connection: what they have all replayed, it reports replayed. */
  lemma CachesImplyClient(events: seq<Event>, gen: nat)
    requires Guard(Run(Start(), events), gen, {0, 1, 2, 3})
    ensures ClientSynced(Run(Start(), events), gen)
  {
    RunKeeps(Start(), events);
    var s := Run(Start(), events);
    forall i | 0 <= i < |s.watches| ensures s.watches[i].registered ==> s.watches[i].marker == Some(gen) {
      assert i in {0, 1, 2, 3} && Ok(s.client, s.watches[i]);
    }
  }

  // ---- What a generation stands for ----

  // What one state fixes about every later one, for one watch.
  ghost predicate Later(c: Client, w: Watch, d: Client, v: Watch) {
    && c.gen <= d.gen && w.log <= v.log
    && (c.gen < d.gen ==> |w.log| <= v.began)
    && (c.gen == d.gen ==> v.began == w.began)
    && (c.gen == d.gen && w.seen.Some? && w.cache.gen == c.gen && w.cache.synced ==>
          v.seen.Some? && v.cache.gen == d.gen && v.cache.synced && w.seen.value.pos <= v.seen.value.pos)
  }

  lemma ActsLater(c: Client, w: Watch, a: Act)
    requires Ok(c, w)
    ensures Later(c, w, c, Acts(c, w, a))
  {
    hide WatchedCache.At, Followed, Continues;
    if a.Apply? && w.ch != [] && w.seen.Some? && w.cache.gen == c.gen {
      assert w.ch[0] in w.ch;
      assert w.ch[0].gen == c.gen;
      assert Follows(w, c.gen, Before(w, 0), w.ch[0]);
    }
  }

  lemma NextLater(s: State, e: Event, k: nat)
    requires Inv(s) && k < |s.watches|
    ensures |Next(s, e).watches| == |s.watches|
    ensures Later(s.client, s.watches[k], Next(s, e).client, Next(s, e).watches[k])
  {
    hide Ok, Acts;
    assert Ok(s.client, s.watches[k]);
    WithinLog(s.client, s.watches[k]);
    if e.At? {
      ActsLater(s.client, s.watches[k], e.act);
      ActsOnLog(s.client, s.watches[k], e.act);
    }
  }

  lemma ActsOnLog(c: Client, w: Watch, a: Act)
    ensures Acts(c, w, a).log == w.log
  {
  }

  lemma WithinLog(c: Client, w: Watch)
    requires Ok(c, w)
    ensures w.began <= |w.log| && (w.seen.Some? ==> w.seen.value.gen == w.cache.gen)
  {
  }

  lemma {:induction false} RunLater(s: State, events: seq<Event>, k: nat)
    requires Inv(s) && k < |s.watches|
    ensures |Run(s, events).watches| == |s.watches|
    ensures Later(s.client, s.watches[k], Run(s, events).client, Run(s, events).watches[k])
    decreases |events|
  {
    hide Inv, Next;
    if events != [] {
      NextKeeps(s, events[0]);
      NextLater(s, events[0], k);
      RunLater(Next(s, events[0]), events[1..], k);
    }
  }

  lemma {:induction false} RunSplits(s: State, before: seq<Event>, after: seq<Event>)
    ensures Run(s, before + after) == Run(Run(s, before), after)
    decreases |before|
  {
    if before == [] {
      assert before + after == after;
    } else {
      assert (before + after)[1..] == before[1..] + after;
      RunSplits(Next(s, before[0]), before[1..], after);
    }
  }

  /** Whatever was written while an earlier generation was current is in view of every guarded read. */
  lemma SeesEarlierGenerations(before: seq<Event>, after: seq<Event>, gen: nat, kinds: set<nat>, k: nat)
    returns (p: nat)
    requires Guard(Run(Start(), before + after), gen, kinds) && k in kinds
    requires Run(Start(), before).client.gen < gen && k < |Run(Start(), before).watches|
    ensures var earlier, w := Run(Start(), before).watches[k], Run(Start(), before + after).watches[k];
            && earlier.log <= w.log && |earlier.log| <= p <= |w.log|
            && w.cache.held == View(WatchedCache.At(w.log, p))
  {
    hide Inv, Ok, Next;
    p := GuardedRead(before + after, gen, kinds, k);
    RunSplits(Start(), before, after);
    StartsWell();
    RunKeeps(Start(), before);
    RunLater(Run(Start(), before), after, k);
  }

  lemma StartsWell()
    ensures Inv(Start())
  {
  }

  /** Two guarded reads under one generation: the later one is of the same point or a later one. */
  lemma ReadsNeverGoBack(before: seq<Event>, after: seq<Event>, gen: nat, k: nat) returns (p: nat, q: nat)
    requires Guard(Run(Start(), before), gen, {k}) && Guard(Run(Start(), before + after), gen, {k})
    ensures var first, second := Run(Start(), before).watches[k], Run(Start(), before + after).watches[k];
            && p <= q <= |second.log| && p <= |first.log| && first.log <= second.log
            && first.cache.held == View(WatchedCache.At(first.log, p))
            && second.cache.held == View(WatchedCache.At(second.log, q))
  {
    hide Inv, Next;
    RunSplits(Start(), before, after);
    StartsWell();
    RunKeeps(Start(), before);
    RunLater(Run(Start(), before), after, k);
    RunKeeps(Start(), before + after);
    p := ShownAt(Run(Start(), before), k);
    q := ShownAt(Run(Start(), before + after), k);
  }

  lemma ShownAt(s: State, k: nat) returns (p: nat)
    requires Inv(s) && k < |s.watches| && s.watches[k].cache.synced && s.watches[k].cache.gen == s.client.gen
    ensures var w := s.watches[k];
            && w.seen.Some? && p == w.seen.value.pos <= |w.log| && w.began <= p
            && w.cache.held == View(WatchedCache.At(w.log, p))
  {
    assert Ok(s.client, s.watches[k]);
    p := s.watches[k].seen.value.pos;
  }
}
