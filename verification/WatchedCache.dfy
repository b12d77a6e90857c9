/**
 * What one watched cache is for: an index of the readable values a bucket holds
 * under one prefix, rebuilt from each replay (internal/pgo/caches.go:378-514).
 */
module WatchedCache {
  import opened Wrappers
  import opened Records

  // A key under the watched prefix; only a well-formed one names anything the cache keeps.
  datatype Key = Key(name: nat, wellFormed: bool)

  // One value under the prefix. What is kept of a decoded one is a Job in the job cache; the
  // other three caches keep a value of their own, for which the same type stands.
  datatype Stored = Readable(v: Job) | Unreadable

  type Content = map<Key, Stored>  // what the bucket holds under the prefix
  type Held = map<Key, Job>      // what a cache holds of it

  // One write under the prefix; a delete has no value.
  datatype Change = Change(key: Key, value: Option<Stored>)

  datatype Message = Marker | Item(change: Change)

  datatype Cache = Cache(gen: nat, synced: bool, held: Held)

  function Changed(c: Content, e: Change): Content {
    if e.value.None? then c - {e.key} else c[e.key := e.value.value]
  }

  /** The content after the first p writes. */
  function At(log: seq<Change>, p: nat): Content
    requires p <= |log|
  {
    if p == 0 then map[] else Changed(At(log, p - 1), log[p - 1])
  }

  /** The part of a content a cache can show. */
  function View(c: Content): Held {
    map k | k in c && k.wellFormed && c[k].Readable? :: c[k].v
  }

  /** One entry of a watch, folded in: an unreadable value leaves nothing behind. */
  function Folded(h: Held, e: Change): Held {
    if !e.key.wellFormed then h
    else if e.value.None? || e.value.value.Unreadable? then h - {e.key}
    else h[e.key := e.value.value.v]
  }

  /** The cache an entry finds: one of another generation starts empty and incomplete. */
  function Reset(c: Cache, gen: nat): Cache {
    if gen == c.gen then c else Cache(gen, false, map[])
  }

  /** One entry applied: the marker that ends a replay, or a change. */
  function Applied(c: Cache, gen: nat, m: Message): Cache {
    var r := Reset(c, gen);
    match m
    case Marker => r.(synced := true)
    case Item(e) => r.(held := Folded(r.held, e))
  }

  function AppliedAll(c: Cache, entries: seq<(nat, Message)>): Cache {
    if entries == [] then c
    else
      var last := entries[|entries| - 1];
      Applied(AppliedAll(c, entries[..|entries| - 1]), last.0, last.1)
  }

  lemma FoldFollowsContent(c: Content, e: Change)
    ensures Folded(View(c), e) == View(Changed(c, e))
  {
  }

  lemma {:induction false} AtExtends(log: seq<Change>, e: Change, p: nat)
    requires p <= |log|
    ensures At(log + [e], p) == At(log, p)
  {
    if p > 0 { AtExtends(log, e, p - 1); }
  }
}
