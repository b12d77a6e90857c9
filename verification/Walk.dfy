/** The client's walk over a listing, page by page (cmd/profgate/collect.go:316-346). */
module Walk {
  import opened Wrappers
  import opened WatchedCache
  import opened Listing
  import opened Caches
  import JobStore

  datatype Failure = Unavailable | RepeatedCursor(cursor: Position)

  // The whole listing up to a place in it.
  ghost predicate WalkedTo(rows: seq<Position>, all: set<Position>, at: Option<Position>) {
    && Ordered(rows)
    && (at.Some? <==> rows != []) && (at.Some? ==> rows[|rows| - 1] == at.value)
    && forall p :: p in rows <==> p in all && p !in Behind(all, at)
  }

  ghost function Behind(all: set<Position>, at: Option<Position>): set<Position> {
    set p <- all | at.Some? ==> CompareListing(p, at.value) > 0
  }

  lemma SelectedBehind(h: Held, svc: JobStore.Service, q: Query, at: Option<Position>)
    requires q.after.None?
    ensures Selected(h, svc, q.(after := at)) == Behind(Selected(h, svc, q), at)
  {
  }

  // What one page is, in terms of what lies behind the place it was asked from.
  ghost predicate FirstOf(a: Answer, behind: set<Position>) {
    && Ordered(a.page) && (forall p <- a.page :: p in behind) && (a.more ==> a.page != [])
    && (forall p <- behind :: p in a.page || (a.more && CompareListing(Last(a), p) < 0))
  }

  lemma PageIsFirst(h: Held, svc: JobStore.Service, q: Query, at: Option<Position>, a: Answer)
    requires q.after.None? && Answers(h, svc, q.(after := at), a)
    ensures FirstOf(a, Behind(Selected(h, svc, q), at))
  {
    hide Selected, Answers, Behind;
    SelectedBehind(h, svc, q, at);
    PageFacts(h, svc, q.(after := at), a);
  }

  lemma RowsExtend(rows: seq<Position>, all: set<Position>, at: Option<Position>, a: Answer)
    requires WalkedTo(rows, all, at) && FirstOf(a, Behind(all, at))
    ensures Ordered(rows + a.page)
  {
    forall i, j | 0 <= i < j < |rows + a.page| ensures CompareListing((rows + a.page)[i], (rows + a.page)[j]) < 0 {
      if i < |rows| <= j {
        assert a.page[j - |rows|] in a.page;
        assert CompareListing(rows[i], rows[|rows| - 1]) <= 0;
      }
    }
  }

  lemma MoreExtends(rows: seq<Position>, all: set<Position>, at: Option<Position>, a: Answer)
    requires WalkedTo(rows, all, at) && FirstOf(a, Behind(all, at)) && a.more
    ensures WalkedTo(rows + a.page, all, Some(Last(a)))
    ensures at.Some? ==> CompareListing(at.value, Last(a)) < 0
    ensures |Behind(all, Some(Last(a)))| < |Behind(all, at)|
  {
    RowsExtend(rows, all, at, a);
    assert Last(a) in a.page;
    var next := Behind(all, Some(Last(a)));
    forall p ensures p in rows + a.page <==> p in all && p !in next { MoreShows(rows, all, at, a, p); }
    assert next <= Behind(all, at) - {Last(a)} by { hide WalkedTo; }
    Fewer(next, Behind(all, at), Last(a));
  }

  lemma MoreShows(rows: seq<Position>, all: set<Position>, at: Option<Position>, a: Answer, p: Position)
    requires WalkedTo(rows, all, at) && FirstOf(a, Behind(all, at)) && a.more
    ensures p in rows + a.page <==> p in all && p !in Behind(all, Some(Last(a)))
  {
    hide Ordered;
    if at.Some? { OrderIsTotal(p, at.value, Last(a)); }
    OrderIsTotal(p, Last(a), p);
    assert Last(a) in a.page;
    if p in a.page { PageUpTo(a, Behind(all, at), p); }
  }

  lemma PageUpTo(a: Answer, behind: set<Position>, p: Position)
    requires FirstOf(a, behind) && p in a.page
    ensures CompareListing(p, Last(a)) <= 0
  {
    var i :| 0 <= i < |a.page| && a.page[i] == p;
    LastIsLast(a.page, i);
  }

  lemma EndExtends(rows: seq<Position>, all: set<Position>, at: Option<Position>, a: Answer)
    requires WalkedTo(rows, all, at) && FirstOf(a, Behind(all, at)) && !a.more
    ensures Lists(rows + a.page, all)
  {
    RowsExtend(rows, all, at, a);
  }

  lemma Fewer<T>(small: set<T>, big: set<T>, x: T)
    requires small <= big - {x} && x in big
    ensures |small| < |big|
  {
    assert big == small + (big - small) && x in big - small;
  }

  /** Over a cache that does not change, the walk ends, requests no cursor twice, and returns the
      whole listing in order. */
  method WalkCollections(c: Caches, generation: nat, connection: Option<nat>, svc: JobStore.Service, q: Query)
    returns (rows: seq<Position>, failure: Option<Failure>)
    requires c.Valid() && q.after.None?
    ensures failure.None? <==> c.Guarded(generation, connection, {Jobs})
    ensures failure.None? ==> Lists(rows, Selected(c.jobs, svc, q))
    ensures failure.Some? ==> rows == [] && failure == Some(Unavailable)
  {
    hide Ordered, Lists, Answers, Selected, Behind, FirstOf;
    ghost var all := Selected(c.jobs, svc, q);
    var requested: set<Position> := {};
    var next: Option<Position> := None;
    rows := [];
    assert WalkedTo([], all, None) by { StartsWalk(all); }
    while true
      invariant WalkedTo(rows, all, next)
      invariant forall r <- requested :: next.Some? && CompareListing(r, next.value) <= 0
      decreases |Behind(all, next)|
    {
      var page, more, ok := c.Collections(generation, connection, svc, q.(after := next));
      if !ok {
        return [], Some(Unavailable);
      }
      PageIsFirst(c.jobs, svc, q, next, Answer(page, more));
      if !more {
        EndExtends(rows, all, next, Answer(page, more));
        return rows + page, None;
      }
      MoreExtends(rows, all, next, Answer(page, more));
      MoreIsSome(Answer(page, more), Behind(all, next));
      var cursor := page[|page| - 1];
      if cursor in requested {
        OrderIsTotal(cursor, next.value, cursor);
        assert false;
        return [], Some(RepeatedCursor(cursor));
      }
      rows := rows + page;
      requested := requested + {cursor};
      next := Some(cursor);
    }
  }

  lemma StartsWalk(all: set<Position>)
    ensures WalkedTo([], all, None)
  {
  }

  lemma MoreIsSome(a: Answer, behind: set<Position>)
    requires FirstOf(a, behind) && a.more
    ensures a.page != []
  {
  }
}
