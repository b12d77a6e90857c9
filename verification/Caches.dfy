/** The four watched caches of one replica, and what it reads from them (internal/pgo/caches.go). */
module Caches {
  import opened Wrappers
  import opened Records
  import opened WatchedCache
  import opened Listing
  import JobStore

  datatype Kind = Overrides | Jobs | Active | Slots

  function Slot(k: Kind): nat {
    match k
    case Overrides => 0
    case Jobs => 1
    case Active => 2
    case Slots => 3
  }

  const CACHE_COUNT := 4

  type Index = map<JobStore.Service, set<Key>>

  /** The index of one job cache: each Service with a cached record, with exactly its keys. */
  ghost predicate Indexes(index: Index, jobs: Held) {
    && (forall svc <- index :: index[svc] != {})
    && (forall key <- jobs :: jobs[key].svc in index && key in index[jobs[key].svc])
    && (forall svc <- index, key <- index[svc] :: key in jobs && jobs[key].svc == svc)
  }

  lemma IndexesPut(index: Index, jobs: Held, key: Key, job: Job)
    requires Indexes(index, jobs) && (key in jobs ==> jobs[key].svc == job.svc)
    ensures var keys := if job.svc in index then index[job.svc] else {};
            Indexes(index[job.svc := keys + {key}], jobs[key := job])
  {
  }

  /** The Services the job and active caches show as live. */
  function LiveServices(jobs: Held, active: Held): set<JobStore.Service> {
    (set key <- active :: active[key].svc) + (set key <- jobs | !Finished(jobs[key].state) :: jobs[key].svc)
  }

  // The Services of some entries of a cache.
  function Showing(h: Held, keys: set<Key>, all: bool): set<JobStore.Service> {
    set key <- keys | key in h && (all || !Finished(h[key].state)) :: h[key].svc
  }

  lemma ShowsOneMore(h: Held, keys: set<Key>, all: bool, key: Key)
    requires key in h
    ensures Showing(h, keys + {key}, all)
         == Showing(h, keys, all) + (if all || !Finished(h[key].state) then {h[key].svc} else {})
  {
  }

  lemma ShowsAll(jobs: Held, active: Held)
    ensures Showing(active, active.Keys, true) + Showing(jobs, jobs.Keys, false) == LiveServices(jobs, active)
  {
  }

  lemma SlotsDiffer(kind: Kind)
    ensures forall k :: k != kind ==> Slot(k) != Slot(kind)
  {
  }

  // The places of some entries of the job cache.
  ghost function PlacesOf(h: Held, keys: set<Key>, svc: JobStore.Service, q: Query): set<Position> {
    set key <- keys | Chosen(h, key, svc, q) :: PositionOf(key, h[key])
  }

  ghost predicate Chosen(h: Held, key: Key, svc: JobStore.Service, q: Query) {
    key in h && key.wellFormed && h[key].svc == svc && Admits(q, h[key]) && Follows(q, PositionOf(key, h[key]))
  }

  // A place is one record's alone.
  lemma OnePlaceMore(h: Held, keys: set<Key>, svc: JobStore.Service, q: Query, key: Key)
    requires key !in keys
    ensures PlacesOf(h, keys + {key}, svc, q)
         == PlacesOf(h, keys, svc, q) + if Chosen(h, key, svc, q) then {PositionOf(key, h[key])} else {}
    ensures Chosen(h, key, svc, q) ==> PositionOf(key, h[key]) !in PlacesOf(h, keys, svc, q)
  {
  }

  lemma AllPlaces(h: Held, index: Index, svc: JobStore.Service, q: Query)
    requires Indexes(index, h)
    ensures PlacesOf(h, if svc in index then index[svc] else {}, svc, q) == Selected(h, svc, q)
  {
  }

  method SortPlaces(places: seq<Position>) returns (full: seq<Position>)
    requires forall i, j | 0 <= i < j < |places| :: places[i] != places[j]
    ensures Ordered(full) && forall p :: p in full <==> p in places
  {
    full := [];
    for i := 0 to |places|
      invariant Ordered(full) && forall p :: p in full <==> p in places[..i]
    {
      var k := 0;
      while k < |full| && CompareListing(full[k], places[i]) < 0
        invariant k <= |full| && forall j | 0 <= j < k :: CompareListing(full[j], places[i]) < 0
      {
        k := k + 1;
      }
      assert k < |full| ==> full[k] in places[..i];
      assert places[..i + 1] == places[..i] + [places[i]];
      full := full[..k] + [places[i]] + full[k..];
    }
    assert places[..|places|] == places;
  }

  class Caches {
    const gen: array<nat>
    const synced: array<bool>
    var overrides: Held
    var jobs: Held
    var active: Held
    var slots: Held
    var byService: Index

    ghost predicate Valid()
      reads this
    {
      gen.Length == CACHE_COUNT && synced.Length == CACHE_COUNT && Indexes(byService, jobs)
    }

    ghost function Holds(k: Kind): Held
      reads this
    {
      match k
      case Overrides => overrides
      case Jobs => jobs
      case Active => active
      case Slots => slots
    }

    ghost function StateOf(k: Kind): Cache
      requires gen.Length == CACHE_COUNT && synced.Length == CACHE_COUNT
      reads this, gen, synced
    {
      Cache(gen[Slot(k)], synced[Slot(k)], Holds(k))
    }

    constructor ()
      ensures Valid() && fresh(gen) && fresh(synced)
      ensures forall k :: StateOf(k) == Cache(0, false, map[])
    {
      gen := new nat[CACHE_COUNT](_ => 0);
      synced := new bool[CACHE_COUNT](_ => false);
      overrides, jobs, active, slots, byService := map[], map[], map[], map[], map[];
    }

    /** An attempt starts with no replay complete; what the caches hold stays. */
    method StartAttempt()
      requires Valid()
      modifies synced
      ensures Valid() && forall k :: StateOf(k) == old(StateOf(k)).(synced := false)
    {
      for i := 0 to synced.Length
        invariant forall j | 0 <= j < i :: !synced[j]
      {
        synced[i] := false;
      }
    }

    method Reset(kind: Kind)
      requires Valid()
      modifies this
      ensures Valid() && Holds(kind) == map[] && forall k | k != kind :: Holds(k) == old(Holds(k))
    {
      match kind
      case Overrides => overrides := map[];
      case Jobs => jobs, byService := map[], map[];
      case Active => active := map[];
      case Slots => slots := map[];
    }

    // The first entry of another generation drops everything held under the one before it.
    method Meet(kind: Kind, generation: nat)
      requires Valid()
      modifies this, gen, synced
      ensures Valid()
      ensures StateOf(kind) == WatchedCache.Reset(old(StateOf(kind)), generation)
      ensures forall k | k != kind :: StateOf(k) == old(StateOf(k))
    {
      SlotsDiffer(kind);
      if generation != gen[Slot(kind)] {
        gen[Slot(kind)] := generation;
        synced[Slot(kind)] := false;
        Reset(kind);
      }
    }

    /** One entry of one watch: its cache takes it, the other three and the index stay exact. */
    method Apply(kind: Kind, generation: nat, m: Message)
      requires Valid()
      modifies this, gen, synced
      ensures Valid()
      ensures StateOf(kind) == Applied(old(StateOf(kind)), generation, m)
      ensures forall k | k != kind :: StateOf(k) == old(StateOf(k))
    {
      SlotsDiffer(kind);
      Meet(kind, generation);
      if m.Marker? {
        synced[Slot(kind)] := true;
        return;
      }
      match kind
      case Overrides => overrides := ApplyPlain(overrides, m.change);
      case Jobs => ApplyJob(m.change);
      case Active => active := ApplyPlain(active, m.change);
      case Slots => slots := ApplyPlain(slots, m.change);
    }

    // applyOverride, applyActive and applySlot.
    static method ApplyPlain(held: Held, e: Change) returns (after: Held)
      ensures after == Folded(held, e)
    {
      if !e.key.wellFormed {
        return held;
      }
      if e.value.None? {
        return held - {e.key};
      }
      if e.value.value.Unreadable? {
        return held - {e.key};
      }
      return held[e.key := e.value.value.v];
    }

    method ApplyJob(e: Change)
      requires Valid()
      modifies this`jobs, this`byService
      ensures Valid() && jobs == Folded(old(jobs), e)
    {
      hide Indexes;
      if !e.key.wellFormed {
        return;
      }
      if e.value.None? {
        DeleteJob(e.key);
        return;
      }
      if e.value.value.Unreadable? {
        DeleteJob(e.key);
        return;
      }
      var job := e.value.value.v;
      if e.key in jobs && jobs[e.key].svc != job.svc {
        DeleteJob(e.key);
      }
      IndexesPut(byService, jobs, e.key, job);
      jobs := jobs[e.key := job];
      var keys := if job.svc in byService then byService[job.svc] else {};
      byService := byService[job.svc := keys + {e.key}];
    }

    method DeleteJob(key: Key)
      requires Valid()
      modifies this`jobs, this`byService
      ensures Valid() && jobs == old(jobs) - {key}
    {
      if key !in jobs {
        return;
      }
      var svc := jobs[key].svc;
      jobs := jobs - {key};
      var keys := byService[svc] - {key};
      if |keys| == 0 {
        byService := byService - {svc};
      } else {
        byService := byService[svc := keys];
      }
    }

    /** One watch's entries, in the order its channel delivers them. */
    method Consume(kind: Kind, entries: seq<(nat, Message)>)
      requires Valid()
      modifies this, gen, synced
      ensures Valid()
      ensures StateOf(kind) == AppliedAll(old(StateOf(kind)), entries)
      ensures forall k | k != kind :: StateOf(k) == old(StateOf(k))
    {
      for i := 0 to |entries|
        invariant Valid() && StateOf(kind) == AppliedAll(old(StateOf(kind)), entries[..i])
        invariant forall k | k != kind :: StateOf(k) == old(StateOf(k))
      {
        Apply(kind, entries[i].0, entries[i].1);
        assert entries[..i + 1][..i] == entries[..i];
      }
      assert entries[..|entries|] == entries;
    }

    /** The guard of one read: the connection's generation first, then only the caches it consults. */
    predicate Guarded(generation: nat, connection: Option<nat>, kinds: set<Kind>)
      requires Valid()
      reads this, gen, synced
    {
      connection == Some(generation) && forall k <- kinds :: synced[Slot(k)] && gen[Slot(k)] == generation
    }

    // One of the two passes of the count: every active key, or every unfinished record.
    static method ShownServices(h: Held, all: bool) returns (live: set<JobStore.Service>)
      ensures live == Showing(h, h.Keys, all)
    {
      live := {};
      ghost var done: set<Key> := {};
      var keys := h.Keys;
      while keys != {}
        invariant done + keys == h.Keys && live == Showing(h, done, all)
      {
        var key :| key in keys;
        ShowsOneMore(h, done, all, key);
        keys, done := keys - {key}, done + {key};
        if all || !Finished(h[key].state) {
          live := live + {h[key].svc};
        }
      }
      assert done == h.Keys;
    }

    /** The number of Services the caches show as live, for the ceiling. */
    method CachedLive(generation: nat, connection: Option<nat>) returns (n: nat, ok: bool)
      requires Valid()
      ensures ok <==>
                && connection == Some(generation)
                && StateOf(Active).synced && StateOf(Active).gen == generation
                && StateOf(Jobs).synced && StateOf(Jobs).gen == generation
      ensures ok ==> n == |LiveServices(jobs, active)|
    {
      if !Guarded(generation, connection, {Active, Jobs}) {
        return 0, false;
      }
      var keyed := ShownServices(active, true);
      var unfinished := ShownServices(jobs, false);
      ShowsAll(jobs, active);
      return |keyed + unfinished|, true;
    }

    /** One page of a Service's listing, visiting that Service's records alone. */
    method Collections(generation: nat, connection: Option<nat>, svc: JobStore.Service, q: Query)
      returns (page: seq<Position>, more: bool, ok: bool)
      requires Valid()
      ensures ok <==> connection == Some(generation) && StateOf(Jobs).synced && StateOf(Jobs).gen == generation
      ensures ok ==> Answers(jobs, svc, q, Answer(page, more))
      ensures ok ==> forall p <- page ::
                exists key <- jobs :: Asked(key, jobs[key], svc, q) && p == Position(jobs[key].createdAt, key.name)
      ensures ok ==> forall key <- jobs | Asked(key, jobs[key], svc, q) ::
                var p := Position(jobs[key].createdAt, key.name); p in page || (more && Older(p, page[|page| - 1]))
      ensures ok ==> forall i, j | 0 <= i < j < |page| :: Older(page[j], page[i])
      ensures ok ==> |page| <= 100 && (more ==> |page| == if 1 <= q.limit <= 100 then q.limit else 100)
    {
      var limit := q.limit;
      if limit <= 0 || limit > MAX_LIST_COLLECTIONS {
        limit := MAX_LIST_COLLECTIONS;
      }
      if !Guarded(generation, connection, {Jobs}) {
        return [], false, false;
      }
      var keys := if svc in byService then byService[svc] else {};
      ghost var visited: set<Key> := {};
      var out: seq<Position> := [];
      AllPlaces(jobs, byService, svc, q);
      while keys != {}
        invariant visited !! keys && visited + keys == if svc in byService then byService[svc] else {}
        invariant forall p :: p in out <==> p in PlacesOf(jobs, visited, svc, q)
        invariant forall i, j | 0 <= i < j < |out| :: out[i] != out[j]
      {
        var key :| key in keys;
        OnePlaceMore(jobs, visited, svc, q, key);
        keys, visited := keys - {key}, visited + {key};
        if key !in jobs || !key.wellFormed || !Admits(q, jobs[key]) {
          continue;
        }
        var place := PositionOf(key, jobs[key]);
        if q.after.Some? && CompareListing(place, q.after.value) <= 0 {
          continue;
        }
        out := out + [place];
      }
      assert visited == if svc in byService then byService[svc] else {};
      var full := SortPlaces(out);
      assert Lists(full, Selected(jobs, svc, q));
      page, more, ok := full, false, true;
      if |full| > limit {
        page, more := full[..limit], true;
      }
      AnswersTheRequest(jobs, svc, q, Answer(page, more));
    }
  }
}
