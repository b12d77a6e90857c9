/** The reservations of one replica (internal/pgo/publisher.go:71-247): the counter module Ceiling reasons about. */
module Publisher {
  import opened Wrappers
  import opened JobStore

  datatype Refusal = Unavailable | CapacityExhausted

  class Reservation {
    const svc: Service
    var id: Option<Id>  // set once its publication has been tracked
    var done: bool

    constructor (svc: Service)
      ensures this.svc == svc && id == None && !done
    {
      this.svc, id, done := svc, None, false;
    }

    // The release rule gives back only what has been tracked.
    ghost predicate Settles(resolved: (Id, Service) -> bool)
      reads this
    {
      id.Some? && resolved(id.value, svc)
    }

    /** From here on the release rule gives it back exactly when it finds this Collection resolved. */
    method Track(id: Id)
      modifies this`id
      ensures forall resolved: (Id, Service) -> bool :: Settles(resolved) <==> resolved(id, svc)
    {
      this.id := Some(id);
      forall resolved: (Id, Service) -> bool ensures Settles(resolved) <==> resolved(id, svc) {
        assert this.id == Some(id);
      }
    }
  }

  /** Some reservations dropped from a list, the others in their order. */
  ghost function Without(held: seq<Reservation>, drop: set<Reservation>): seq<Reservation> {
    if held == [] then []
    else if held[0] in drop then Without(held[1..], drop)
    else [held[0]] + Without(held[1..], drop)
  }

  ghost predicate Distinct(held: seq<Reservation>) {
    forall i, j | 0 <= i < j < |held| :: held[i] != held[j]
  }

  lemma {:induction false} WithoutHas(held: seq<Reservation>, drop: set<Reservation>)
    ensures forall r :: r in Without(held, drop) <==> r in held && r !in drop
    ensures |Without(held, drop)| <= |held|
  {
    if held != [] {
      WithoutHas(held[1..], drop);
      assert held == [held[0]] + held[1..];
    }
  }

  lemma {:induction false} WithoutDistinct(held: seq<Reservation>, drop: set<Reservation>)
    requires Distinct(held)
    ensures Distinct(Without(held, drop))
  {
    if held != [] {
      WithoutDistinct(held[1..], drop);
      WithoutHas(held[1..], drop);
    }
  }

  // Dropping the one at a position is dropping that one.
  lemma {:induction false} WithoutOne(held: seq<Reservation>, i: nat)
    requires Distinct(held) && i < |held|
    ensures Without(held, {held[i]}) == held[..i] + held[i + 1..]
  {
    if i == 0 {
      WithoutNone(held[1..], {held[0]});
    } else {
      WithoutOne(held[1..], i - 1);
      assert held[..i] + held[i + 1..] == [held[0]] + (held[1..][..i - 1] + held[1..][i..]);
    }
  }

  lemma {:induction false} DistinctCount(held: seq<Reservation>)
    requires Distinct(held)
    ensures |(set r <- held)| == |held|
  {
    if held != [] {
      DistinctCount(held[1..]);
      assert (set r <- held) == (set r <- held[1..]) + {held[0]};
    }
  }

  lemma {:induction false} WithoutNone(held: seq<Reservation>, drop: set<Reservation>)
    requires forall r <- held :: r !in drop
    ensures Without(held, drop) == held
  {
    if held != [] { WithoutNone(held[1..], drop); }
  }

  lemma {:induction false} WithoutTwice(held: seq<Reservation>, a: set<Reservation>, b: set<Reservation>)
    ensures Without(Without(held, a), b) == Without(held, a + b)
  {
    if held != [] {
      WithoutTwice(held[1..], a, b);
      if held[0] !in a {
        assert Without(held, a)[1..] == Without(held[1..], a);
      }
    }
  }

  class Publisher {
    const maxLive: int
    var held: seq<Reservation>
    ghost var made: set<Reservation>

    constructor (maxLive: int)
      ensures this.maxLive == maxLive && held == [] && made == {} && Valid()
    {
      this.maxLive, held, made := maxLive, [], {};
    }

    // What was made is held, once, until it is given back.
    ghost predicate Valid()
      reads this, made
    {
      Distinct(held) && (forall r <- held :: r in made) && forall r <- made :: r in held <==> !r.done
    }

    /** One more reservation, only while the Services shown live and those held stay below the ceiling. */
    method Reserve(cachedLive: Option<nat>, svc: Service) returns (r: Reservation?, refusal: Option<Refusal>)
      requires Valid()
      modifies this`held, this`made
      ensures Valid()
      ensures r == null <==> refusal.Some?
      ensures refusal == Some(Unavailable) <==> cachedLive.None?
      ensures refusal == Some(CapacityExhausted) <==> cachedLive.Some? && cachedLive.value + |old(held)| >= maxLive
      ensures r == null ==> held == old(held) && made == old(made)
      ensures r != null ==> fresh(r) && made == old(made) + {r} && held == old(held) + [r]
      ensures r != null ==> r.svc == svc && r.id == None
      ensures r != null ==> cachedLive.Some? && cachedLive.value + |held| <= maxLive
    {
      if cachedLive.None? {
        return null, Some(Unavailable);
      }
      if cachedLive.value + |held| >= maxLive {
        return null, Some(CapacityExhausted);
      }
      r := new Reservation(svc);
      held, made := held + [r], made + {r};
      refusal := None;
    }

    /** Gives one reservation back, once: a second release changes nothing. */
    method Release(r: Reservation)
      requires Valid() && r in made
      modifies this`held, r`done
      ensures Valid() && r.done
      ensures held == Without(old(held), {r})
      ensures old(r.done) ==> held == old(held)
      ensures !old(r.done) ==> |held| == |old(held)| - 1
    {
      if r.done {
        WithoutNone(held, {r});
        return;
      }
      ghost var at :| 0 <= at < |held| && held[at] == r;
      var i := 0;
      while held[i] != r
        invariant 0 <= i <= at
        decreases at - i
      {
        i := i + 1;
      }
      WithoutOne(held, i);
      WithoutHas(held, {r});
      WithoutDistinct(held, {r});
      r.done := true;
      held := held[..i] + held[i + 1..];
    }

    // The reservations to look at, taken at once.
    method Pending() returns (pending: seq<Reservation>)
      ensures forall r :: r in pending <==> r in held && r.id.Some?
    {
      pending := [];
      for i := 0 to |held|
        invariant forall r :: r in pending <==> r in held[..i] && r.id.Some?
      {
        if held[i].id.Some? {
          pending := pending + [held[i]];
        }
        assert held[..i + 1] == held[..i] + [held[i]];
      }
      assert held[..|held|] == held;
    }

    /** The release rule: gives back exactly the tracked reservations it finds resolved, in one pass. */
    method ReleaseResolved(resolved: (Id, Service) -> bool)
      requires Valid()
      modifies this`held, (set r <- held)`done
      ensures Valid()
      ensures held == Without(old(held), set r <- old(held) | r.Settles(resolved))
      ensures forall r <- old(held) :: r.done <==> r.Settles(resolved)
    {
      hide Distinct, Without;
      var pending := Pending();
      ghost var before := held;
      ghost var freed: set<Reservation> := {};
      WithoutNone(held, {});
      for i := 0 to |pending|
        invariant Valid() && held == Without(before, freed)
        invariant forall r :: r in freed <==> r in pending[..i] && r.Settles(resolved)
        invariant forall r <- before :: r.done <==> r in freed
      {
        var r := pending[i];
        assert r in before;
        WithoutHas(before, freed);
        if resolved(r.id.value, r.svc) {
          WithoutTwice(before, freed, {r});
          freed := freed + {r};
          Release(r);
        }
        assert pending[..i + 1] == pending[..i] + [r];
      }
      assert pending[..|pending|] == pending;
      assert freed == set r <- before | r.Settles(resolved);
    }

    ghost function Outstanding(): set<Reservation>
      reads this, made
    {
      set r <- made | !r.done
    }

    /** Of all reservations ever made, the number not given back. */
    method Reserved() returns (n: nat)
      requires Valid()
      ensures n == |Outstanding()|
    {
      assert Outstanding() == set r <- held;
      DistinctCount(held);
      return |held|;
    }
  }
}
