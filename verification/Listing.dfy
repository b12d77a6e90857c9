/**
 * The Collection listing of one Service: its order, its pages, and the walk over them
 * (internal/pgo/caches.go:706-841; internal/httpapi/pgo_collections.go:420-451).
 */
module Listing {
  import opened Wrappers
  import opened Records
  import opened WatchedCache
  import JobStore

  // An identifier stands for its place in string order.
  datatype Position = Position(createdAt: nat, id: nat)

  // No state filter is the empty set, as in the source.
  datatype Query = Query(
    states: set<State>, since: Option<nat>, origin: Option<Origin>, after: Option<Position>, limit: int)

  const MAX_LIST_COLLECTIONS := 100

  function Sign(a: int, b: int): int {
    if a < b then -1 else if a == b then 0 else 1
  }

  /** Newest first, and by identifier descending where two share an instant. */
  function CompareListing(a: Position, b: Position): int {
    if a.createdAt != b.createdAt then Sign(b.createdAt, a.createdAt) else Sign(b.id, a.id)
  }

  predicate Admits(q: Query, j: Job) {
    && (q.states != {} ==> j.state in q.states)
    && (q.since.Some? ==> j.createdAt >= q.since.value)
    && (q.origin.Some? ==> j.origin == q.origin.value)
  }

  predicate Follows(q: Query, p: Position) {
    q.after.Some? ==> CompareListing(p, q.after.value) > 0
  }

  function PositionOf(key: Key, j: Job): Position {
    Position(j.createdAt, key.name)
  }

  function PageSize(q: Query): nat {
    if q.limit <= 0 || q.limit > MAX_LIST_COLLECTIONS then MAX_LIST_COLLECTIONS else q.limit
  }

  /** The places of the records a query selects from one cache. */
  ghost function Selected(h: Held, svc: JobStore.Service, q: Query): set<Position> {
    set key <- h | key.wellFormed && h[key].svc == svc && Admits(q, h[key]) && Follows(q, PositionOf(key, h[key]))
      :: PositionOf(key, h[key])
  }

  ghost predicate Ordered(ps: seq<Position>) {
    forall i, j | 0 <= i < j < |ps| :: CompareListing(ps[i], ps[j]) < 0
  }

  /** The one way to list a set of places. */
  ghost predicate Lists(ps: seq<Position>, s: set<Position>) {
    Ordered(ps) && forall p :: p in ps <==> p in s
  }

  datatype Answer = Answer(page: seq<Position>, more: bool)

  ghost predicate Pages(full: seq<Position>, size: nat, a: Answer) {
    a.more == (|full| > size) && a.page == if a.more then full[..size] else full
  }

  /** The first entries of the listing behind the query's position, and whether there are others. */
  ghost predicate Answers(h: Held, svc: JobStore.Service, q: Query, a: Answer) {
    exists full :: Lists(full, Selected(h, svc, q)) && Pages(full, PageSize(q), a)
  }

  // ---- What a request asks for, word by word ----

  /** The record at a key is one of this Service that every filter of the request keeps, behind its position. */
  predicate Asked(key: Key, j: Job, svc: JobStore.Service, q: Query) {
    && key.wellFormed && j.svc == svc
    && (q.states == {} || j.state in q.states)
    && (q.since.Some? ==> q.since.value <= j.createdAt)
    && (q.origin.Some? ==> q.origin.value == j.origin)
    && (q.after.Some? ==> Older(Position(j.createdAt, key.name), q.after.value))
  }

  /** Made earlier, or at the same instant with a smaller identifier. */
  predicate Older(a: Position, b: Position) {
    a.createdAt < b.createdAt || (a.createdAt == b.createdAt && a.id < b.id)
  }

  lemma AnswersTheRequest(h: Held, svc: JobStore.Service, q: Query, a: Answer)
    requires Answers(h, svc, q, a)
    ensures forall p <- a.page ::
              exists key <- h :: Asked(key, h[key], svc, q) && p == Position(h[key].createdAt, key.name)
    ensures forall key <- h | Asked(key, h[key], svc, q) ::
              var p := Position(h[key].createdAt, key.name); p in a.page || (a.more && Older(p, a.page[|a.page| - 1]))
    ensures forall i, j | 0 <= i < j < |a.page| :: Older(a.page[j], a.page[i])
    ensures |a.page| <= 100 && (a.more ==> |a.page| == if 1 <= q.limit <= 100 then q.limit else 100)
  {
    PageFacts(h, svc, q, a);
    forall key <- h | Asked(key, h[key], svc, q) ensures Position(h[key].createdAt, key.name) in Selected(h, svc, q) {
      assert PositionOf(key, h[key]) in Selected(h, svc, q);
    }
  }

  // ---- The order ----

  /** The order is total: any two places compare one way, and only equal ones compare equal. */
  lemma OrderIsTotal(a: Position, b: Position, c: Position)
    ensures CompareListing(a, b) == 0 <==> a == b
    ensures CompareListing(a, b) == -CompareListing(b, a)
    ensures CompareListing(a, b) < 0 && CompareListing(b, c) < 0 ==> CompareListing(a, c) < 0
    ensures CompareListing(a, b) < 0 <==> Older(b, a)
  {
  }

  lemma {:induction false} ListingIsUnique(ps: seq<Position>, qs: seq<Position>, s: set<Position>)
    requires Lists(ps, s) && Lists(qs, s)
    ensures ps == qs
    decreases |ps|
  {
    if ps != [] { assert ps[0] in qs; }
    if qs != [] { assert qs[0] in ps; }
    if ps != [] {
      assert ps[0] in s && qs[0] in s;
      assert ps[0] == qs[0];
      var rest := s - {ps[0]};
      TailLists(ps, s);
      TailLists(qs, s);
      ListingIsUnique(ps[1..], qs[1..], rest);
    }
  }

  lemma TailLists(ps: seq<Position>, s: set<Position>)
    requires Lists(ps, s) && ps != []
    ensures Lists(ps[1..], s - {ps[0]})
  {
    forall p ensures p in ps[1..] <==> p in s - {ps[0]} {
      if p in ps[1..] {
        var i :| 1 <= i < |ps| && ps[i] == p;
        assert CompareListing(ps[0], ps[i]) < 0;
      }
    }
  }

  // ---- A walk over caches that change between pages ----

  function Next(q: Query, a: Answer): Query {
    if a.page == [] then q else q.(after := Some(a.page[|a.page| - 1]))
  }

  ghost function QueryAt(q: Query, walk: seq<Answer>, i: nat): Query
    requires i <= |walk|
  {
    if i == 0 then q else Next(q, walk[i - 1])
  }

  /** One page per cache, each from where the one before it ended, up to the page with nothing behind it. */
  ghost predicate Walks(hs: seq<Held>, svc: JobStore.Service, q: Query, walk: seq<Answer>) {
    && |hs| == |walk| > 0 && q.after.None?
    && (forall i | 0 <= i < |walk| :: Answers(hs[i], svc, QueryAt(q, walk, i), walk[i]))
    && (forall i | 0 <= i < |walk| :: walk[i].more <==> i < |walk| - 1)
  }

  ghost predicate On(walk: seq<Answer>, i: nat, j: nat, p: Position) {
    i < |walk| && j < |walk[i].page| && walk[i].page[j] == p
  }

  // One page: what it shows is past its position and in order, and what it passes over lies behind its last entry.
  lemma PageFacts(h: Held, svc: JobStore.Service, q: Query, a: Answer)
    requires Answers(h, svc, q, a)
    ensures Ordered(a.page) && (forall p <- a.page :: p in Selected(h, svc, q))
    ensures a.more ==> a.page != [] && |a.page| == PageSize(q)
    ensures forall p <- Selected(h, svc, q) ::
              p in a.page || (a.more && CompareListing(a.page[|a.page| - 1], p) < 0)
  {
    var full :| Lists(full, Selected(h, svc, q)) && Pages(full, PageSize(q), a);
    forall p <- Selected(h, svc, q)
      ensures p in a.page || (a.more && CompareListing(a.page[|a.page| - 1], p) < 0)
    {
      var i :| 0 <= i < |full| && full[i] == p;
      if i < |a.page| { assert a.page[i] == p; }
    }
    forall p <- a.page ensures p in Selected(h, svc, q) { assert p in full; }
  }

  lemma WalkPage(hs: seq<Held>, svc: JobStore.Service, q: Query, walk: seq<Answer>, i: nat)
    requires Walks(hs, svc, q, walk) && i < |walk|
    ensures Ordered(walk[i].page) && (forall p <- walk[i].page :: Follows(QueryAt(q, walk, i), p))
    ensures i < |walk| - 1 ==> walk[i].page != []
  {
    PageFacts(hs[i], svc, QueryAt(q, walk, i), walk[i]);
  }

  function Last(a: Answer): Position
    requires a.page != []
  {
    a.page[|a.page| - 1]
  }

  // Later pages hold only later places.
  lemma {:induction false} PagesAscend(hs: seq<Held>, svc: JobStore.Service, q: Query, walk: seq<Answer>,
                                       i: nat, j: nat)
    requires Walks(hs, svc, q, walk) && i < j < |walk|
    ensures walk[i].page != [] && forall p <- walk[j].page :: CompareListing(Last(walk[i]), p) < 0
    decreases j
  {
    hide Walks, Ordered;
    WalkPage(hs, svc, q, walk, i);
    WalkPage(hs, svc, q, walk, j);
    WalkPage(hs, svc, q, walk, j - 1);
    if i < j - 1 {
      PagesAscend(hs, svc, q, walk, i, j - 1);
      assert Last(walk[j - 1]) in walk[j - 1].page;
    }
  }

  lemma PagesApart(hs: seq<Held>, svc: JobStore.Service, q: Query, walk: seq<Answer>, i: nat, j: nat, a: nat, b: nat)
    requires Walks(hs, svc, q, walk) && i < j < |walk| && a < |walk[i].page| && b < |walk[j].page|
    ensures CompareListing(walk[i].page[a], walk[j].page[b]) < 0
  {
    hide Walks, Ordered;
    WalkPage(hs, svc, q, walk, i);
    PagesAscend(hs, svc, q, walk, i, j);
    LastIsLast(walk[i].page, a);
    assert walk[j].page[b] in walk[j].page;
  }

  /** Nothing is on two pages, or twice on one, whatever the caches did in between. */
  lemma AtMostOnce(hs: seq<Held>, svc: JobStore.Service, q: Query, walk: seq<Answer>,
                   i: nat, j: nat, k: nat, l: nat, p: Position)
    requires Walks(hs, svc, q, walk) && On(walk, i, j, p) && On(walk, k, l, p)
    ensures i == k && j == l
  {
    hide Walks;
    if i < k {
      PagesApart(hs, svc, q, walk, i, k, j, l);
    } else if k < i {
      PagesApart(hs, svc, q, walk, k, i, l, j);
    } else {
      WalkPage(hs, svc, q, walk, i);
    }
  }

  lemma LastIsLast(ps: seq<Position>, j: nat)
    requires Ordered(ps) && j < |ps|
    ensures CompareListing(ps[j], ps[|ps| - 1]) <= 0
  {
  }

  lemma StillSelected(h: Held, svc: JobStore.Service, q: Query, here: Query, p: Position)
    requires p in Selected(h, svc, q) && here == q.(after := here.after) && Follows(here, p)
    ensures p in Selected(h, svc, here)
  {
  }

  lemma {:induction false} SameFilters(q: Query, walk: seq<Answer>, i: nat)
    requires i <= |walk|
    ensures var here := QueryAt(q, walk, i); here == q.(after := here.after)
  {
  }

  // One page of a walk: what is selected from its cache is on it, or lies behind it on a page to come.
  lemma OnOrBehind(hs: seq<Held>, svc: JobStore.Service, q: Query, walk: seq<Answer>, p: Position, i: nat)
    requires Walks(hs, svc, q, walk) && i < |walk|
    requires p in Selected(hs[i], svc, q) && Follows(QueryAt(q, walk, i), p)
    ensures p in walk[i].page || (i < |walk| - 1 && Follows(QueryAt(q, walk, i + 1), p))
  {
    hide Answers;
    var h, here := hs[i], QueryAt(q, walk, i);
    SameFilters(q, walk, i);
    StillSelected(h, svc, q, here, p);
    PageFacts(h, svc, here, walk[i]);
    hide Selected, Admits;
    OrderIsTotal(p, if walk[i].page == [] then p else Last(walk[i]), p);
  }

  // A record selected from every cache of a walk is on one of the pages from i on.
  lemma {:induction false} Reached(hs: seq<Held>, svc: JobStore.Service, q: Query, walk: seq<Answer>,
                                   p: Position, i: nat)
    returns (k: nat, l: nat)
    requires Walks(hs, svc, q, walk) && |hs| == |walk| && i < |walk|
    requires forall h: Held <- hs :: p in Selected(h, svc, q)
    requires Follows(QueryAt(q, walk, i), p)
    ensures On(walk, k, l, p)
    decreases |walk| - i
  {
    hide Walks, Answers, Selected, QueryAt, Follows;
    assert hs[i] in hs;
    OnOrBehind(hs, svc, q, walk, p, i);
    if p in walk[i].page {
      l :| 0 <= l < |walk[i].page| && walk[i].page[l] == p;
      k := i;
    } else {
      k, l := Reached(hs, svc, q, walk, p, i + 1);
    }
  }

  /** A record that stays cached and admitted through a walk is on exactly one page of it. */
  lemma ExactlyOnce(hs: seq<Held>, svc: JobStore.Service, q: Query, walk: seq<Answer>, key: Key, createdAt: nat)
    returns (k: nat, l: nat)
    requires Walks(hs, svc, q, walk)
    requires forall h: Held <- hs ::
               key in h && key.wellFormed && h[key].svc == svc && Admits(q, h[key]) && h[key].createdAt == createdAt
    ensures On(walk, k, l, Position(createdAt, key.name))
    ensures forall i: nat, j: nat :: On(walk, i, j, Position(createdAt, key.name)) ==> i == k && j == l
  {
    var p := Position(createdAt, key.name);
    forall h: Held <- hs ensures p in Selected(h, svc, q) { assert PositionOf(key, h[key]) == p; }
    k, l := Reached(hs, svc, q, walk, p, 0);
    forall i: nat, j: nat | On(walk, i, j, p) ensures i == k && j == l { AtMostOnce(hs, svc, q, walk, i, j, k, l, p); }
  }
}
